/** The two features of plain JavaScript objects (`{}` used as a dictionary) that the
    source depends on: the order `Object.entries` lists keys in, and the members every
    object inherits from `Object.prototype`. */
module JsObjects {
  import opened Wrappers
  import opened Text
  import opened Collections

  /** The names an empty object literal already answers with a truthy inherited value:
      reading one of them from a fresh `{}` does not give `undefined`. */
  const InheritedMembers: set<string> :=
    {"constructor", "__defineGetter__", "__defineSetter__", "hasOwnProperty",
     "__lookupGetter__", "__lookupSetter__", "isPrototypeOf", "propertyIsEnumerable",
     "toString", "valueOf", "__proto__", "toLocaleString"}

  /** An array index: the canonical decimal form of an integer below 2^32 - 1. */
  predicate IsArrayIndex(k: string)
  {
    |k| >= 1 && AllDigits(k) && (k[0] != '0' || |k| == 1) && DigitsValue(k) < 4294967295
  }

  predicate NotArrayIndex(k: string) { !IsArrayIndex(k) }

  function IndexValue(k: string): Option<int>
  {
    if IsArrayIndex(k) then Some(DigitsValue(k)) else None
  }

  /** The order of `Object.entries` on an object whose string keys were first created in
      the order `keys`: array indices ascending, then the other keys in creation order
      (section 10.1.11.1, OrdinaryOwnPropertyKeys, of ECMA-262). */
  function EntriesOrder(keys: seq<string>): (r: seq<string>)
    ensures |r| == |keys|
  {
    FilterPartition(keys, IsArrayIndex, NotArrayIndex);
    assert |multiset(keys)| == |keys|;
    assert |Filter(keys, IsArrayIndex)| + |Filter(keys, NotArrayIndex)| == |keys| by {
      assert |multiset(Filter(keys, IsArrayIndex))| == |Filter(keys, IsArrayIndex)|;
      assert |multiset(Filter(keys, NotArrayIndex))| == |Filter(keys, NotArrayIndex)|;
    }
    SortBy(Filter(keys, IsArrayIndex), IndexValue) + Filter(keys, NotArrayIndex)
  }

  /** Every key is listed once: the order is a rearrangement of the creation order. */
  lemma EntriesOrderPermutation(keys: seq<string>)
    ensures multiset(EntriesOrder(keys)) == multiset(keys)
  {
    FilterPartition(keys, IsArrayIndex, NotArrayIndex);
    SortByPermutation(Filter(keys, IsArrayIndex), IndexValue);
  }

  /** Array indices come first, in ascending numeric order; the rest keep creation order. */
  lemma EntriesOrderShape(keys: seq<string>)
    ensures var n := |Filter(keys, IsArrayIndex)|;
      (forall i :: 0 <= i < n ==> IsArrayIndex(EntriesOrder(keys)[i])) &&
      (forall i, j :: 0 <= i < j < n ==>
         DigitsValue(EntriesOrder(keys)[i]) <= DigitsValue(EntriesOrder(keys)[j])) &&
      EntriesOrder(keys)[n..] == Filter(keys, NotArrayIndex)
  {
    var ix := Filter(keys, IsArrayIndex);
    assert AllKeyed(ix, IndexValue);
    SortBySorted(ix, IndexValue);
    var sorted := SortBy(ix, IndexValue);
    assert forall i :: 0 <= i < |ix| ==> EntriesOrder(keys)[i] == sorted[i];
    forall i | 0 <= i < |ix|
      ensures IsArrayIndex(EntriesOrder(keys)[i])
    {
      assert IndexValue(sorted[i]).Some?;
    }
  }

  /** Keys that are not array indices are listed in creation order. */
  lemma EntriesOrderNoIndex(keys: seq<string>)
    requires forall i :: 0 <= i < |keys| ==> !IsArrayIndex(keys[i])
    ensures EntriesOrder(keys) == keys
  {
    FilterNone(keys, IsArrayIndex);
    FilterAll(keys, NotArrayIndex);
  }

  /** Listing in `Object.entries` order keeps every total over the keys. */
  lemma EntriesOrderSum(keys: seq<string>, f: string -> int)
    ensures SumOf(EntriesOrder(keys), f) == SumOf(keys, f)
  {
    var ix := Filter(keys, IsArrayIndex);
    SumOfAppend(SortBy(ix, IndexValue), Filter(keys, NotArrayIndex), f);
    SortBySum(ix, IndexValue, f);
    SumOfPartition(keys, IsArrayIndex, NotArrayIndex, f);
  }

  /** A key holding a hyphen is never an array index. */
  lemma HyphenNotIndex(k: string, i: int)
    requires 0 <= i < |k| && k[i] == '-'
    ensures !IsArrayIndex(k)
  {
  }

  /** A key holding a hyphen never names an inherited member. */
  lemma HyphenNotInherited(k: string, i: int)
    requires 0 <= i < |k| && k[i] == '-'
    ensures k !in InheritedMembers
  {
    forall m | m in InheritedMembers
      ensures '-' !in m
    {
    }
  }
}
