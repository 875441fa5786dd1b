/** Sequence helpers shared by the model: duplicate-free sequences, first-seen order
    (what `Array.from(new Set(…))` yields), filtering, integer sums, and the stable
    comparison sort that `Array.prototype.sort` performs. */
module Collections {
  import opened Wrappers

  predicate NoDup<T(==)>(s: seq<T>)
  {
    forall i, j :: 0 <= i < j < |s| ==> s[i] != s[j]
  }

  /** The distinct elements of `s`, each at the position of its first occurrence. */
  function FirstSeen<T(==)>(s: seq<T>): (r: seq<T>)
    ensures |r| <= |s|
  {
    if |s| == 0 then []
    else
      var r' := FirstSeen(s[..|s| - 1]);
      if s[|s| - 1] in r' then r' else r' + [s[|s| - 1]]
  }

  /** `FirstSeen` lists each element of `s` exactly once. */
  lemma {:induction false} FirstSeenMembers<T>(s: seq<T>)
    ensures NoDup(FirstSeen(s))
    ensures forall x :: x in FirstSeen(s) <==> x in s
  {
    if |s| > 0 {
      FirstSeenMembers(s[..|s| - 1]);
      assert s == s[..|s| - 1] + [s[|s| - 1]];
    }
  }

  /** `FirstSeen` of a sequence extended by one element. */
  lemma FirstSeenSnoc<T>(s: seq<T>, x: T)
    ensures FirstSeen(s + [x]) == if x in s then FirstSeen(s) else FirstSeen(s) + [x]
    ensures FirstSeen(s + [x]) == if x in FirstSeen(s) then FirstSeen(s) else FirstSeen(s) + [x]
  {
    assert (s + [x])[..|s|] == s;
    FirstSeenMembers(s);
    assert x in FirstSeen(s) <==> x in s;
  }

  /** A duplicate-free sequence is its own first-seen order. */
  lemma {:induction false} FirstSeenNoDup<T>(s: seq<T>)
    requires NoDup(s)
    ensures FirstSeen(s) == s
  {
    if |s| > 0 {
      var p := s[..|s| - 1];
      assert NoDup(p);
      FirstSeenNoDup(p);
      FirstSeenMembers(p);
      assert s[|s| - 1] !in p;
      assert p + [s[|s| - 1]] == s;
    }
  }

  /** In a duplicate-free sequence every element occurs at most once. */
  lemma {:induction false} NoDupCount<T>(s: seq<T>, x: T)
    requires NoDup(s)
    ensures multiset(s)[x] <= 1
  {
    if |s| > 0 {
      var p := s[..|s| - 1];
      assert NoDup(p);
      NoDupCount(p, x);
      assert s == p + [s[|s| - 1]];
      assert s[|s| - 1] !in p;
    }
  }

  /** An element occurring once sits at one position only. */
  lemma OnceDistinct<T>(s: seq<T>, i: int, j: int)
    requires 0 <= i < j < |s| && multiset(s)[s[i]] <= 1
    ensures s[i] != s[j]
  {
    assert s == s[..j] + [s[j]] + s[j + 1..];
    assert s[..j][i] == s[i];
    assert multiset(s)[s[i]] >= multiset(s[..j])[s[i]] + multiset([s[j]])[s[i]];
  }

  /** A rearrangement of a duplicate-free sequence is duplicate-free. */
  lemma PermutationNoDup<T>(a: seq<T>, b: seq<T>)
    requires multiset(a) == multiset(b) && NoDup(a)
    ensures NoDup(b)
  {
    forall i, j | 0 <= i < j < |b|
      ensures b[i] != b[j]
    {
      NoDupCount(a, b[i]);
      OnceDistinct(b, i, j);
    }
  }

  /** `s.indexOf(x)` for an element that occurs: the position of its first occurrence. */
  function IndexIn<T(==)>(s: seq<T>, x: T): (i: nat)
    requires x in s
    ensures i < |s| && s[i] == x && x !in s[..i]
  {
    if s[0] == x then 0
    else
      var j := IndexIn(s[1..], x);
      assert s[..j + 1] == [s[0]] + s[1..][..j];
      1 + j
  }

  /** In a duplicate-free sequence an element's first occurrence is its only one. */
  lemma IndexInNoDup<T>(s: seq<T>, i: int)
    requires NoDup(s) && 0 <= i < |s|
    ensures IndexIn(s, s[i]) == i
  {
  }

  /** `s.filter(p)`: the elements satisfying `p`, in order. */
  function Filter<T>(s: seq<T>, p: T -> bool): (r: seq<T>)
    ensures |r| <= |s|
    ensures forall i :: 0 <= i < |r| ==> p(r[i])
  {
    if |s| == 0 then []
    else
      var r' := Filter(s[..|s| - 1], p);
      if p(s[|s| - 1]) then r' + [s[|s| - 1]] else r'
  }

  /** The kept elements come from `s`, and every element of `s` satisfying `p` is kept. */
  lemma {:induction false} FilterMembers<T>(s: seq<T>, p: T -> bool)
    ensures forall i :: 0 <= i < |Filter(s, p)| ==> Filter(s, p)[i] in s
    ensures forall i :: 0 <= i < |s| && p(s[i]) ==> s[i] in Filter(s, p)
  {
    if |s| > 0 {
      FilterMembers(s[..|s| - 1], p);
      assert forall i :: 0 <= i < |s| - 1 ==> s[..|s| - 1][i] == s[i];
    }
  }

  /** The sum of `f` over `s` (a `reduce` that adds). */
  function SumOf<T>(s: seq<T>, f: T -> int): int
  {
    if |s| == 0 then 0 else SumOf(s[..|s| - 1], f) + f(s[|s| - 1])
  }

  lemma {:induction false} SumOfAppend<T>(a: seq<T>, b: seq<T>, f: T -> int)
    ensures SumOf(a + b, f) == SumOf(a, f) + SumOf(b, f)
    decreases |b|
  {
    if |b| == 0 {
      assert a + b == a;
    } else {
      assert (a + b)[..|a + b| - 1] == a + b[..|b| - 1];
      SumOfAppend(a, b[..|b| - 1], f);
    }
  }

  /** Adding only over the elements `p` keeps equals adding a weight that is zero
      elsewhere. */
  lemma {:induction false} SumOfFilter<T>(s: seq<T>, p: T -> bool, f: T -> int)
    ensures SumOf(Filter(s, p), f) == SumOf(s, x => if p(x) then f(x) else 0)
  {
    if |s| > 0 {
      SumOfFilter(s[..|s| - 1], p, f);
      var r' := Filter(s[..|s| - 1], p);
      if p(s[|s| - 1]) {
        assert (r' + [s[|s| - 1]])[..|r'|] == r';
      }
    }
  }

  /** The elements satisfying `p` and those satisfying its complement `q` together add
      up to the whole. */
  lemma {:induction false} SumOfPartition<T>(s: seq<T>, p: T -> bool, q: T -> bool, f: T -> int)
    requires forall x :: q(x) == !p(x)
    ensures SumOf(Filter(s, p), f) + SumOf(Filter(s, q), f) == SumOf(s, f)
  {
    if |s| > 0 {
      SumOfPartition(s[..|s| - 1], p, q, f);
      var a, b := Filter(s[..|s| - 1], p), Filter(s[..|s| - 1], q);
      if p(s[|s| - 1]) {
        assert (a + [s[|s| - 1]])[..|a|] == a;
      } else {
        assert (b + [s[|s| - 1]])[..|b|] == b;
      }
    }
  }

  /** The same split, as multisets. */
  lemma {:induction false} FilterPartition<T>(s: seq<T>, p: T -> bool, q: T -> bool)
    requires forall x :: q(x) == !p(x)
    ensures multiset(Filter(s, p)) + multiset(Filter(s, q)) == multiset(s)
  {
    if |s| > 0 {
      FilterPartition(s[..|s| - 1], p, q);
      assert s == s[..|s| - 1] + [s[|s| - 1]];
    }
  }

  lemma {:induction false} FilterAll<T>(s: seq<T>, p: T -> bool)
    requires forall i :: 0 <= i < |s| ==> p(s[i])
    ensures Filter(s, p) == s
  {
    if |s| > 0 {
      FilterAll(s[..|s| - 1], p);
      assert s[..|s| - 1] + [s[|s| - 1]] == s;
    }
  }

  lemma {:induction false} FilterNone<T>(s: seq<T>, p: T -> bool)
    requires forall i :: 0 <= i < |s| ==> !p(s[i])
    ensures Filter(s, p) == []
  {
    if |s| > 0 {
      FilterNone(s[..|s| - 1], p);
    }
  }

  /** Filtering distributes over concatenation. */
  lemma {:induction false} FilterAppend<T>(a: seq<T>, b: seq<T>, p: T -> bool)
    ensures Filter(a + b, p) == Filter(a, p) + Filter(b, p)
    decreases |b|
  {
    if |b| == 0 {
      assert a + b == a;
    } else {
      assert (a + b)[..|a + b| - 1] == a + b[..|b| - 1];
      FilterAppend(a, b[..|b| - 1], p);
    }
  }

  /** Sums of pointwise-ordered weights are ordered. */
  lemma {:induction false} SumOfMonotone<T>(s: seq<T>, f: T -> int, g: T -> int)
    requires forall x :: x in s ==> f(x) <= g(x)
    ensures SumOf(s, f) <= SumOf(s, g)
  {
    if |s| > 0 {
      SumOfMonotone(s[..|s| - 1], f, g);
    }
  }

  /** The comparator of `(a, b) => t(a) - t(b)` where `t` may be NaN: `sort` moves `a`
      before `b` only when the difference is a number below zero. */
  predicate Before<T>(key: T -> Option<int>, a: T, b: T)
  {
    key(a).Some? && key(b).Some? && key(a).value < key(b).value
  }

  /** Inserts `x` after the last element it does not come before (stable). */
  function Insert<T>(x: T, s: seq<T>, key: T -> Option<int>): (r: seq<T>)
    ensures |r| == |s| + 1
  {
    if |s| == 0 then [x]
    else if Before(key, x, s[|s| - 1]) then Insert(x, s[..|s| - 1], key) + [s[|s| - 1]]
    else s + [x]
  }

  /** A stable insertion sort by a possibly undefined numeric key; it stands for
      `Array.prototype.sort` with a subtracting comparator. */
  function SortBy<T>(s: seq<T>, key: T -> Option<int>): (r: seq<T>)
    ensures |r| == |s|
  {
    if |s| == 0 then [] else Insert(s[|s| - 1], SortBy(s[..|s| - 1], key), key)
  }

  predicate AllKeyed<T>(s: seq<T>, key: T -> Option<int>)
  {
    forall i :: 0 <= i < |s| ==> key(s[i]).Some?
  }

  predicate SortedBy<T>(s: seq<T>, key: T -> Option<int>)
    requires AllKeyed(s, key)
  {
    forall i, j :: 0 <= i < j < |s| ==> key(s[i]).value <= key(s[j]).value
  }

  lemma {:induction false} InsertMultiset<T>(x: T, s: seq<T>, key: T -> Option<int>)
    ensures multiset(Insert(x, s, key)) == multiset(s) + multiset{x}
  {
    if |s| > 0 && Before(key, x, s[|s| - 1]) {
      InsertMultiset(x, s[..|s| - 1], key);
      assert s == s[..|s| - 1] + [s[|s| - 1]];
    }
  }

  /** Sorting rearranges: the result holds exactly the input's elements. */
  lemma {:induction false} SortByPermutation<T>(s: seq<T>, key: T -> Option<int>)
    ensures multiset(SortBy(s, key)) == multiset(s)
  {
    if |s| > 0 {
      SortByPermutation(s[..|s| - 1], key);
      InsertMultiset(s[|s| - 1], SortBy(s[..|s| - 1], key), key);
      assert s == s[..|s| - 1] + [s[|s| - 1]];
    }
  }

  lemma {:induction false} InsertSum<T>(x: T, s: seq<T>, key: T -> Option<int>, f: T -> int)
    ensures SumOf(Insert(x, s, key), f) == SumOf(s, f) + f(x)
  {
    if |s| == 0 {
      assert [x][..0] == [];
    } else if Before(key, x, s[|s| - 1]) {
      InsertSum(x, s[..|s| - 1], key, f);
      var t := Insert(x, s[..|s| - 1], key);
      assert (t + [s[|s| - 1]])[..|t|] == t;
    } else {
      assert (s + [x])[..|s|] == s;
    }
  }

  /** Sorting keeps every total. */
  lemma {:induction false} SortBySum<T>(s: seq<T>, key: T -> Option<int>, f: T -> int)
    ensures SumOf(SortBy(s, key), f) == SumOf(s, f)
  {
    if |s| > 0 {
      SortBySum(s[..|s| - 1], key, f);
      InsertSum(s[|s| - 1], SortBy(s[..|s| - 1], key), key, f);
    }
  }

  lemma {:induction false} InsertSorted<T>(x: T, s: seq<T>, key: T -> Option<int>)
    requires AllKeyed(s, key) && key(x).Some? && SortedBy(s, key)
    ensures AllKeyed(Insert(x, s, key), key)
    ensures SortedBy(Insert(x, s, key), key)
    ensures forall i :: 0 <= i < |s| + 1 ==> Insert(x, s, key)[i] == x || Insert(x, s, key)[i] in s
  {
    if |s| > 0 && Before(key, x, s[|s| - 1]) {
      var p := s[..|s| - 1];
      InsertSorted(x, p, key);
      var t := Insert(x, p, key);
      assert forall i :: 0 <= i < |t| ==> key(t[i]).value <= key(s[|s| - 1]).value by {
        forall i | 0 <= i < |t|
          ensures key(t[i]).value <= key(s[|s| - 1]).value
        {
          if t[i] != x {
            var j :| 0 <= j < |p| && p[j] == t[i];
            assert s[j] == t[i];
          }
        }
      }
    }
  }

  /** With every key defined, the result is in ascending key order. */
  lemma {:induction false} SortBySorted<T>(s: seq<T>, key: T -> Option<int>)
    requires AllKeyed(s, key)
    ensures AllKeyed(SortBy(s, key), key)
    ensures SortedBy(SortBy(s, key), key)
  {
    if |s| > 0 {
      var p := s[..|s| - 1];
      assert AllKeyed(p, key);
      SortBySorted(p, key);
      InsertSorted(s[|s| - 1], SortBy(p, key), key);
    }
  }

  /** `Array.prototype.sort` on an array, in place: the stable insertion sort `SortBy`
      describes. */
  method SortInPlace<T>(a: array<T>, key: T -> Option<int>)
    modifies a
    ensures a[..] == SortBy(old(a[..]), key)
  {
    ghost var s := a[..];
    for i := 0 to a.Length
      invariant a[..i] == SortBy(s[..i], key)
      invariant a[i..] == s[i..]
    {
      assert s[..i + 1][..i] == s[..i];
      assert a[i] == s[i];
      InsertLast(a, i, key);
      assert a[i + 1..] == s[i + 1..];
    }
    assert a[..] == a[..a.Length];
    assert s[..a.Length] == s;
  }

  /** One pass of the insertion sort: `a[i]` moves left past the elements it comes
      before; the rest of the array is left alone. */
  method InsertLast<T>(a: array<T>, i: int, key: T -> Option<int>)
    requires 0 <= i < a.Length
    modifies a
    ensures a[..i + 1] == Insert(old(a[i]), old(a[..i]), key)
    ensures a[i + 1..] == old(a[i + 1..])
  {
    var x := a[i];
    ghost var o := a[..];
    ghost var t := a[..i];
    var j := i;
    assert t[..j] == t && t[j..] == [];
    while j > 0 && Before(key, x, a[j - 1])
      invariant 0 <= j <= i
      invariant forall k :: 0 <= k < j ==> a[k] == t[k]
      invariant forall k :: j < k <= i ==> a[k] == t[k - 1]
      invariant forall k :: i < k < a.Length ==> a[k] == o[k]
      invariant Insert(x, t, key) == Insert(x, t[..j], key) + t[j..]
    {
      InsertStep(x, t, j, key);
      a[j] := a[j - 1];
      j := j - 1;
    }
    a[j] := x;
    InsertStop(x, t, j, key);
    Placed(a[..i + 1], t, x, j);
    assert a[..i + 1] == Insert(x, t, key);
    SameAfter(a[..], o, i);
  }

  /** Two sequences of one length that agree after position `i` have the same suffix. */
  lemma SameAfter<T>(b: seq<T>, c: seq<T>, i: int)
    requires |b| == |c| && 0 <= i < |b|
    requires forall k :: i < k < |b| ==> b[k] == c[k]
    ensures b[i + 1..] == c[i + 1..]
  {
  }

  /** The array after the pass: the prefix of `t` before the gap, `x`, then the rest
      of `t` one place to the right. */
  lemma Placed<T>(b: seq<T>, t: seq<T>, x: T, j: int)
    requires |b| == |t| + 1 && 0 <= j <= |t|
    requires forall k :: 0 <= k < j ==> b[k] == t[k]
    requires b[j] == x
    requires forall k :: j < k < |b| ==> b[k] == t[k - 1]
    ensures b == t[..j] + [x] + t[j..]
  {
  }

  lemma InsertStep<T>(x: T, t: seq<T>, j: int, key: T -> Option<int>)
    requires 0 < j <= |t| && Before(key, x, t[j - 1])
    ensures Insert(x, t[..j], key) + t[j..] == Insert(x, t[..j - 1], key) + t[j - 1..]
  {
    assert t[..j][..j - 1] == t[..j - 1];
    assert t[j - 1..] == [t[j - 1]] + t[j..];
  }

  lemma InsertStop<T>(x: T, t: seq<T>, j: int, key: T -> Option<int>)
    requires 0 <= j <= |t| && (j == 0 || !Before(key, x, t[j - 1]))
    ensures Insert(x, t[..j], key) == t[..j] + [x]
  {
  }

  /** With no key defined every comparison is NaN, and the order is left as it was. */
  lemma {:induction false} SortByUnkeyed<T>(s: seq<T>, key: T -> Option<int>)
    requires forall i :: 0 <= i < |s| ==> key(s[i]).None?
    ensures SortBy(s, key) == s
  {
    if |s| > 0 {
      var p := s[..|s| - 1];
      SortByUnkeyed(p, key);
      assert p + [s[|s| - 1]] == s;
    }
  }

  /** The values of the entries that are present, in order. */
  function Present<T>(s: seq<Option<T>>): seq<T>
  {
    if |s| == 0 then []
    else Present(s[..|s| - 1]) + (if s[|s| - 1].Some? then [s[|s| - 1].value] else [])
  }

  /** When every entry is present, nothing is dropped. */
  lemma {:induction false} PresentAll<T>(s: seq<Option<T>>, t: seq<T>)
    requires |s| == |t| && forall i :: 0 <= i < |s| ==> s[i] == Some(t[i])
    ensures Present(s) == t
  {
    if |s| > 0 {
      PresentAll(s[..|s| - 1], t[..|t| - 1]);
      assert t == t[..|t| - 1] + [t[|t| - 1]];
    }
  }

  lemma {:induction false} PresentComplete<T>(s: seq<Option<T>>, i: int)
    requires 0 <= i < |s| && s[i].Some?
    ensures s[i].value in Present(s)
  {
    if i < |s| - 1 {
      PresentComplete(s[..|s| - 1], i);
    }
  }

  lemma {:induction false} PresentSound<T>(s: seq<Option<T>>, x: T)
    requires x in Present(s)
    ensures exists i :: 0 <= i < |s| && s[i] == Some(x)
  {
    var p := s[..|s| - 1];
    if x in Present(p) {
      PresentSound(p, x);
      var i :| 0 <= i < |p| && p[i] == Some(x);
      assert s[i] == p[i];
    }
  }

  /** `s.map(f)`. */
  function Map<T, U>(s: seq<T>, f: T -> U): (r: seq<U>)
    ensures |r| == |s|
    ensures forall i :: 0 <= i < |s| ==> r[i] == f(s[i])
  {
    seq(|s|, i requires 0 <= i < |s| => f(s[i]))
  }

  lemma MapAppend<T, U>(a: seq<T>, b: seq<T>, f: T -> U)
    ensures Map(a + b, f) == Map(a, f) + Map(b, f)
  {
    assert forall i :: 0 <= i < |a| + |b| ==> Map(a + b, f)[i] == (Map(a, f) + Map(b, f))[i];
  }

  lemma MapSnoc<T, U>(s: seq<T>, f: T -> U)
    requires |s| > 0
    ensures Map(s, f) == Map(s[..|s| - 1], f) + [f(s[|s| - 1])]
  {
  }

  /** Mapping two rearrangements of each other gives rearrangements of each other. */
  lemma {:induction false} MapPermutation<T, U>(a: seq<T>, b: seq<T>, f: T -> U)
    requires multiset(a) == multiset(b)
    ensures multiset(Map(a, f)) == multiset(Map(b, f))
  {
    if |a| > 0 {
      var p := a[..|a| - 1];
      var x := a[|a| - 1];
      assert x in multiset(b);
      var j :| 0 <= j < |b| && b[j] == x;
      var c := b[..j] + b[j + 1..];
      Without(b, j, f);
      Without(a, |a| - 1, f);
      assert a[..|a| - 1] + a[|a|..] == p;
      assert multiset(p) == multiset(c);
      MapPermutation(p, c, f);
      assert multiset(Map(a, f)) == multiset(Map(p, f)) + multiset{f(x)};
      assert multiset(Map(b, f)) == multiset(Map(c, f)) + multiset{f(x)};
    }
  }

  /** Removing the element at `j` removes one occurrence from the sequence and one
      occurrence of its image from the mapped sequence. */
  lemma Without<T, U>(b: seq<T>, j: int, f: T -> U)
    requires 0 <= j < |b|
    ensures multiset(b[..j] + b[j + 1..]) == multiset(b) - multiset{b[j]}
    ensures multiset(Map(b, f)) == multiset(Map(b[..j] + b[j + 1..], f)) + multiset{f(b[j])}
  {
    WithoutMultiset(b, j);
    MapSplitAt(b, j, f);
    MapAppend(b[..j], b[j + 1..], f);
  }

  lemma WithoutMultiset<T>(b: seq<T>, j: int)
    requires 0 <= j < |b|
    ensures multiset(b[..j] + b[j + 1..]) == multiset(b) - multiset{b[j]}
  {
    assert b == b[..j] + [b[j]] + b[j + 1..];
  }

  /** The image of a sequence split around position `j`. */
  lemma MapSplitAt<T, U>(b: seq<T>, j: int, f: T -> U)
    requires 0 <= j < |b|
    ensures Map(b, f) == Map(b[..j], f) + [f(b[j])] + Map(b[j + 1..], f)
  {
    var r := Map(b[..j], f) + [f(b[j])] + Map(b[j + 1..], f);
    forall k | 0 <= k < |b|
      ensures Map(b, f)[k] == r[k]
    {
      if k < j {
        assert r[k] == Map(b[..j], f)[k];
      } else if k > j {
        assert r[k] == Map(b[j + 1..], f)[k - j - 1];
      }
    }
  }

  /** Keeping some elements of a list without repeats gives a list without repeats. */
  lemma {:induction false} FilterNoDup<T>(s: seq<T>, p: T -> bool)
    requires NoDup(s)
    ensures NoDup(Filter(s, p))
  {
    if |s| > 0 {
      var front := s[..|s| - 1];
      assert NoDup(front) by {
        forall i, j | 0 <= i < j < |front| ensures front[i] != front[j] {
          assert front[i] == s[i] && front[j] == s[j];
        }
      }
      FilterNoDup(front, p);
      FilterMembers(front, p);
      if p(s[|s| - 1]) {
        assert s[|s| - 1] !in Filter(front, p) by {
          forall i | 0 <= i < |front| ensures front[i] != s[|s| - 1] {
            assert front[i] == s[i];
          }
        }
      }
    }
  }
}
