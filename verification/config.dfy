/** `Config`: a tree of settings addressed by dotted paths (`"tooltips.delay"`), with
    listeners told about changes, resets and imports. */
module ConfigStore {
  import opened Wrappers
  import opened Text
  import opened Collections
  import opened JsObjects

  /** A setting: the JavaScript values a configuration holds. An object lists its own
      properties in the order `Object.entries` gives them; an array holds its elements
      and any named properties written onto it, which `JSON.stringify` leaves out. */
  datatype Value =
    | Undefined
    | Null
    | Bool(b: bool)
    | Number(x: real)
    | Str(s: string)
    | Arr(items: seq<Value>, props: seq<(string, Value)>)
    | Obj(entries: seq<(string, Value)>)

  type Entries = seq<(string, Value)>

  /** A JavaScript object holds each property name once. */
  predicate UniqueKeys(es: Entries)
  {
    forall i, j :: 0 <= i < j < |es| ==> es[i].0 != es[j].0
  }

  /** The own property `k`, if there is one. */
  function Lookup(es: Entries, k: string): (r: Option<Value>)
    ensures r.Some? <==> exists i :: 0 <= i < |es| && es[i].0 == k
    ensures r.Some? ==> (k, r.value) in es
  {
    if es == [] then None
    else if es[0].0 == k then Some(es[0].1)
    else
      var r := Lookup(es[1..], k);
      assert forall i :: 1 <= i < |es| ==> es[i] == es[1..][i - 1];
      r
  }

  /** Property order (section 10.1.11.1, OrdinaryOwnPropertyKeys, of ECMA-262): array
      indices come first, in ascending numeric order, then the other names. */
  predicate PropertyOrder(es: Entries)
  {
    forall i, j :: 0 <= i < j < |es| ==> Before(es[i].0, es[j].0)
  }

  /** `a` may be listed before `b`: `b` is no array index, or both are and `a` is not the
      larger. */
  predicate Before(a: string, b: string)
  {
    IsArrayIndex(b) ==> IsArrayIndex(a) && DigitsValue(a) <= DigitsValue(b)
  }

  /** An existing property `k` takes the value `v` in its place. */
  function Replace(es: Entries, k: string, v: Value): (r: Entries)
    ensures |r| == |es|
    ensures forall i :: 0 <= i < |es| ==> r[i].0 == es[i].0
  {
    if es == [] then []
    else if es[0].0 == k then [(k, v)] + es[1..]
    else [es[0]] + Replace(es[1..], k, v)
  }

  /** A new property `k`: an array index goes before the first property that is not an
      index or is a larger one, any other name goes last. */
  function Insert(es: Entries, k: string, v: Value): (r: Entries)
    ensures |r| == |es| + 1
    ensures !IsArrayIndex(k) ==> r == es + [(k, v)]
  {
    if es == [] then [(k, v)]
    else if IsArrayIndex(k) && (!IsArrayIndex(es[0].0) || DigitsValue(k) < DigitsValue(es[0].0)) then [(k, v)] + es
    else [es[0]] + Insert(es[1..], k, v)
  }

  /** `obj[k] = v`: an existing property keeps its place and takes the new value; a new
      one is placed where property order puts it, last unless it is an array index;
      every other property is left as it was. */
  function Put(es: Entries, k: string, v: Value): (r: Entries)
    ensures Lookup(r, k) == Some(v)
    ensures forall j :: j != k ==> Lookup(r, j) == Lookup(es, j)
    ensures |r| == if Lookup(es, k).Some? then |es| else |es| + 1
    ensures Lookup(es, k).Some? ==> forall i :: 0 <= i < |es| ==> r[i].0 == es[i].0
    ensures Lookup(es, k).None? && !IsArrayIndex(k) ==> r == es + [(k, v)]
  {
    if Lookup(es, k).Some? then
      ReplaceLookup(es, k, v);
      Replace(es, k, v)
    else
      InsertLookup(es, k, v);
      Insert(es, k, v)
  }

  lemma {:induction false} ReplaceLookup(es: Entries, k: string, v: Value)
    requires Lookup(es, k).Some?
    ensures Lookup(Replace(es, k, v), k) == Some(v)
    ensures forall j :: j != k ==> Lookup(Replace(es, k, v), j) == Lookup(es, j)
  {
    if es[0].0 != k {
      ReplaceLookup(es[1..], k, v);
    }
  }

  lemma {:induction false} InsertLookup(es: Entries, k: string, v: Value)
    requires Lookup(es, k).None?
    ensures Lookup(Insert(es, k, v), k) == Some(v)
    ensures forall j :: j != k ==> Lookup(Insert(es, k, v), j) == Lookup(es, j)
  {
    if es != [] && !(IsArrayIndex(k) && (!IsArrayIndex(es[0].0) || DigitsValue(k) < DigitsValue(es[0].0))) {
      InsertLookup(es[1..], k, v);
    }
  }

  /** Assignment keeps the properties in property order. */
  lemma PutOrder(es: Entries, k: string, v: Value)
    requires PropertyOrder(es)
    ensures PropertyOrder(Put(es, k, v))
  {
    if Lookup(es, k).None? {
      InsertOrder(es, k, v);
    }
  }

  lemma {:induction false} InsertOrder(es: Entries, k: string, v: Value)
    requires PropertyOrder(es)
    ensures PropertyOrder(Insert(es, k, v))
  {
    if es == [] {
    } else if IsArrayIndex(k) && (!IsArrayIndex(es[0].0) || DigitsValue(k) < DigitsValue(es[0].0)) {
      forall m | 0 <= m < |es| ensures Before(k, es[m].0) {
        if m > 0 {
          assert Before(es[0].0, es[m].0);
        }
      }
      ConsOrder((k, v), es);
    } else {
      var tail := es[1..];
      TailOrder(es);
      InsertOrder(tail, k, v);
      InsertMembers(tail, k, v);
      var rt := Insert(tail, k, v);
      forall m | 0 <= m < |rt| ensures Before(es[0].0, rt[m].0) {
        if rt[m] != (k, v) {
          var n :| 0 <= n < |tail| && tail[n] == rt[m];
        }
      }
      ConsOrder(es[0], rt);
    }
  }

  lemma ConsOrder(e: (string, Value), rest: Entries)
    requires PropertyOrder(rest) && forall m :: 0 <= m < |rest| ==> Before(e.0, rest[m].0)
    ensures PropertyOrder([e] + rest)
  {
    var r := [e] + rest;
    forall i, j | 0 <= i < j < |r| ensures Before(r[i].0, r[j].0) {
      if i == 0 {
        assert r[j] == rest[j - 1];
      } else {
        assert r[i] == rest[i - 1] && r[j] == rest[j - 1];
      }
    }
  }

  lemma TailOrder(es: Entries)
    requires PropertyOrder(es) && es != []
    ensures PropertyOrder(es[1..])
    ensures forall m :: 0 <= m < |es| - 1 ==> Before(es[0].0, es[1..][m].0)
  {
    var t := es[1..];
    forall i, j | 0 <= i < j < |t| ensures Before(t[i].0, t[j].0) {
      assert t[i] == es[i + 1] && t[j] == es[j + 1];
    }
    forall m | 0 <= m < |t| ensures Before(es[0].0, t[m].0) {
      assert t[m] == es[m + 1];
    }
  }

  /** Every element of an insertion is the new property or an old one. */
  lemma {:induction false} InsertMembers(es: Entries, k: string, v: Value)
    ensures forall i :: 0 <= i < |Insert(es, k, v)| ==>
      Insert(es, k, v)[i] == (k, v) || exists m :: 0 <= m < |es| && es[m] == Insert(es, k, v)[i]
  {
    var r := Insert(es, k, v);
    if es != [] && !(IsArrayIndex(k) && (!IsArrayIndex(es[0].0) || DigitsValue(k) < DigitsValue(es[0].0))) {
      InsertMembers(es[1..], k, v);
      forall i | 0 <= i < |r|
        ensures r[i] == (k, v) || exists m :: 0 <= m < |es| && es[m] == r[i]
      {
        if i > 0 && r[i] != (k, v) {
          var m :| 0 <= m < |es[1..]| && es[1..][m] == r[i];
          assert es[m + 1] == r[i];
        } else if i == 0 {
          assert es[0] == r[0];
        }
      }
    } else if es != [] {
      forall i | 0 <= i < |r|
        ensures r[i] == (k, v) || exists m :: 0 <= m < |es| && es[m] == r[i]
      {
        if i > 0 {
          assert es[i - 1] == r[i];
        }
      }
    }
  }

  /** `{...target, ...source}` with `source` an object: each of its properties, undefined
      ones included, is written over `target` in order. */
  function Spread(target: Entries, source: Entries): Entries
    decreases |source|
  {
    if source == [] then target else Spread(Put(target, source[0].0, source[0].1), source[1..])
  }

  /** A property given in `source` wins; every other property comes from `target`. */
  lemma {:induction false} SpreadLookup(target: Entries, source: Entries, k: string)
    requires UniqueKeys(source)
    ensures Lookup(Spread(target, source), k) ==
      if Lookup(source, k).Some? then Lookup(source, k) else Lookup(target, k)
    decreases |source|
  {
    if source != [] {
      var rest := source[1..];
      assert UniqueKeys(rest) by {
        forall i, j | 0 <= i < j < |rest| ensures rest[i].0 != rest[j].0 {
          assert rest[i] == source[i + 1] && rest[j] == source[j + 1];
        }
      }
      SpreadLookup(Put(target, source[0].0, source[0].1), rest, k);
    }
  }

  /** The configuration every `Config` starts from, and that `reset` returns to. */
  const DefaultEntries: Entries := [
    ("container", Null),
    ("theme", Str("light")),
    ("responsive", Bool(true)),
    ("animationDuration", Number(500.0)),
    ("debounceResize", Number(300.0)),
    ("locale", Str("en-US")),
    ("dateFormat", Obj([
      ("daily", Obj([("month", Str("short")), ("day", Str("numeric"))])),
      ("weekly", Obj([("week", Str("numeric")), ("year", Str("numeric"))])),
      ("monthly", Obj([("month", Str("short")), ("year", Str("numeric"))]))])),
    ("tooltips", Obj([("enabled", Bool(true)), ("followCursor", Bool(true)), ("delay", Number(200.0))]))]

  /** The configuration built from the defaults and the caller's overrides: an override
      replaces the default of the same name, and a name it does not mention keeps its
      default. */
  function Initial(overrides: Entries): (r: Value)
    ensures r.Obj?
  {
    Obj(Spread(DefaultEntries, overrides))
  }

  lemma InitialLookup(overrides: Entries, k: string)
    requires UniqueKeys(overrides)
    ensures Lookup(Initial(overrides).entries, k) ==
      if Lookup(overrides, k).Some? then Lookup(overrides, k) else Lookup(DefaultEntries, k)
    ensures Lookup(overrides, "theme").None? ==> Lookup(Initial(overrides).entries, "theme") == Some(Str("light"))
  {
    SpreadLookup(DefaultEntries, overrides, k);
    SpreadLookup(DefaultEntries, overrides, "theme");
  }

  // ---------------------------------------------------------------------------------
  // Dotted paths

  /** The values that carry named own properties: objects and arrays. */
  predicate HasProps(v: Value) { v.Obj? || v.Arr? }

  /** The named own properties of an object or an array. */
  function Own(v: Value): Entries
    requires HasProps(v)
  {
    if v.Obj? then v.entries else v.props
  }

  /** `v` with its named own properties replaced by `es`; an array keeps its elements. */
  function WithOwn(v: Value, es: Entries): (r: Value)
    requires HasProps(v)
    ensures HasProps(r) && Own(r) == es && r.Obj? == v.Obj?
    ensures v.Arr? ==> r.items == v.items
  {
    if v.Obj? then Obj(es) else Arr(v.items, es)
  }

  /** Walks `keys` from `v` through own properties: `None` as soon as a step is missing or
      starts from something that is neither an object nor an array (undefined, null or a
      primitive). */
  function GetPath(v: Value, keys: seq<string>): Option<Value>
    decreases |keys|
  {
    if keys == [] then Some(v)
    else if HasProps(v) && Lookup(Own(v), keys[0]).Some? then GetPath(Lookup(Own(v), keys[0]).value, keys[1..])
    else None
  }

  /** `_getNestedProperty(obj, path, fallback)`: an empty path gives `obj` itself; otherwise
      the path is split at every `.` and walked, and a failed walk gives `fallback`. */
  function GetNested(obj: Value, path: string, fallback: Value): Value
  {
    if path == "" then obj
    else
      var found := GetPath(obj, Split(path, '.'));
      if found.Some? then found.value else fallback
  }

  /** What a module-level (strict mode) assignment throws when the step it writes through
      is neither an object nor an array. */
  const WriteTypeError := "TypeError: Cannot create property on a primitive value"

  /** `_setNestedProperty` for the keys of a path: every step but the last descends, a
      missing or null step being replaced by `{}` first; the last key is assigned. */
  function SetPath(v: Value, keys: seq<string>, x: Value): (r: Result<Value>)
    requires |keys| >= 1
    ensures r.Ok? ==> HasProps(v) && HasProps(r.value) && r.value.Obj? == v.Obj?
    ensures r.Ok? && v.Arr? ==> r.value.items == v.items
    decreases |keys|
  {
    if !HasProps(v) then Err(WriteTypeError)
    else if |keys| == 1 then Ok(WithOwn(v, Put(Own(v), keys[0], x)))
    else
      var child := Lookup(Own(v), keys[0]);
      var start := if child.None? || child.value == Null then Obj([]) else child.value;
      match SetPath(start, keys[1..], x)
      case Err(e) => Err(e)
      case Ok(c) => Ok(WithOwn(v, Put(Own(v), keys[0], c)))
  }

  /** `_setNestedProperty(obj, path, x)`: an empty path changes nothing. */
  function SetNested(obj: Value, path: string, x: Value): Result<Value>
  {
    if path == "" then Ok(obj) else SetPath(obj, Split(path, '.'), x)
  }

  /** Writing into a fresh `{}` never fails. */
  lemma {:induction false} SetPathFresh(keys: seq<string>, x: Value)
    requires |keys| >= 1
    ensures SetPath(Obj([]), keys, x).Ok?
    decreases |keys|
  {
    if |keys| > 1 {
      SetPathFresh(keys[1..], x);
    }
  }

  /** After a write, the path reads back the value written. */
  lemma {:induction false} SetThenGet(v: Value, keys: seq<string>, x: Value)
    requires |keys| >= 1 && SetPath(v, keys, x).Ok?
    ensures GetPath(SetPath(v, keys, x).value, keys) == Some(x)
    decreases |keys|
  {
    if |keys| > 1 {
      var child := Lookup(Own(v), keys[0]);
      var start := if child.None? || child.value == Null then Obj([]) else child.value;
      SetThenGet(start, keys[1..], x);
    }
  }

  /** A write leaves every path that parts from it alone: `q` agrees with `keys` on its
      first `i` steps and takes another name at step `i`. */
  lemma {:induction false} SetKeepsOtherPaths(v: Value, keys: seq<string>, x: Value, q: seq<string>, i: nat)
    requires |keys| >= 1 && SetPath(v, keys, x).Ok?
    requires i < |keys| && i < |q| && q[..i] == keys[..i] && q[i] != keys[i]
    ensures GetPath(SetPath(v, keys, x).value, q) == GetPath(v, q)
    decreases |keys|
  {
    var w := SetPath(v, keys, x).value;
    SetPathHead(v, keys, x);
    if i == 0 {
      GetPathSameHead(w, v, q);
    } else {
      assert q[0] == keys[0] by { assert q[..i][0] == keys[..i][0]; }
      var child := Lookup(Own(v), keys[0]);
      var start := if child.None? || child.value == Null then Obj([]) else child.value;
      var c := SetPath(start, keys[1..], x).value;
      assert GetPath(w, q) == GetPath(c, q[1..]);
      assert q[1..][..i - 1] == keys[1..][..i - 1] by {
        assert q[1..][..i - 1] == q[..i][1..] && keys[1..][..i - 1] == keys[..i][1..];
      }
      SetKeepsOtherPaths(start, keys[1..], x, q[1..], i - 1);
      if child.None? || child.value == Null {
        assert GetPath(v, q) == None;
      }
    }
  }

  /** One step of a write: the first name takes the written child, and every other
      name keeps its property. */
  lemma SetPathHead(v: Value, keys: seq<string>, x: Value)
    requires |keys| >= 1 && SetPath(v, keys, x).Ok?
    ensures HasProps(v) && HasProps(SetPath(v, keys, x).value)
    ensures forall j :: j != keys[0] ==> Lookup(Own(SetPath(v, keys, x).value), j) == Lookup(Own(v), j)
    ensures |keys| > 1 ==>
      var child := Lookup(Own(v), keys[0]);
      var start := if child.None? || child.value == Null then Obj([]) else child.value;
      SetPath(start, keys[1..], x).Ok? &&
      Lookup(Own(SetPath(v, keys, x).value), keys[0]) == Some(SetPath(start, keys[1..], x).value)
  {
  }

  /** Two objects that hold the same property under a path's first name agree on the
      whole path. */
  lemma GetPathSameHead(a: Value, b: Value, q: seq<string>)
    requires |q| >= 1 && HasProps(a) && HasProps(b) && Lookup(Own(a), q[0]) == Lookup(Own(b), q[0])
    ensures GetPath(a, q) == GetPath(b, q)
  {
  }

  /** A step that cannot be written through: an existing property that is neither an
      object, an array nor null. */
  predicate Blocks(o: Option<Value>)
  {
    o.Some? && !HasProps(o.value) && o.value != Null
  }

  /** A write into an object fails exactly when one of the steps it must descend through
      already holds a primitive or undefined. */
  lemma {:induction false} SetPathFails(v: Value, keys: seq<string>, x: Value)
    requires HasProps(v) && |keys| >= 1
    ensures SetPath(v, keys, x).Err? <==> exists i :: 1 <= i < |keys| && Blocks(GetPath(v, keys[..i]))
    decreases |keys|
  {
    if |keys| > 1 {
      var child := Lookup(Own(v), keys[0]);
      forall i | 1 <= i < |keys|
        ensures GetPath(v, keys[..i]) ==
          if child.Some? then GetPath(child.value, keys[1..][..i - 1]) else None
      {
        assert keys[..i][0] == keys[0];
        assert keys[..i][1..] == keys[1..][..i - 1];
      }
      if child.None? || child.value == Null {
        SetPathFresh(keys[1..], x);
        forall i | 1 <= i < |keys| ensures !Blocks(GetPath(v, keys[..i])) {
          if child.Some? && i > 1 {
            assert GetPath(Null, keys[1..][..i - 1]) == None;
          }
        }
      } else if !HasProps(child.value) {
        assert GetPath(v, keys[..1]) == GetPath(child.value, keys[1..][..0]);
        assert Blocks(GetPath(v, keys[..1]));
      } else {
        var u := child.value;
        SetPathFails(u, keys[1..], x);
        if SetPath(u, keys[1..], x).Err? {
          var j :| 1 <= j < |keys[1..]| && Blocks(GetPath(u, keys[1..][..j]));
          assert Blocks(GetPath(v, keys[..j + 1]));
        } else {
          forall i | 1 <= i < |keys| ensures !Blocks(GetPath(v, keys[..i])) {
            if i > 1 {
              assert !Blocks(GetPath(u, keys[1..][..i - 1]));
            }
          }
        }
      }
    }
  }

  /** For a path as `set` and `get` receive it: after a successful write, reading the
      path gives the value written, whatever the fallback. */
  lemma SetNestedThenGet(obj: Value, path: string, x: Value, fallback: Value)
    requires path != "" && SetNested(obj, path, x).Ok?
    ensures GetNested(SetNested(obj, path, x).value, path, fallback) == x
  {
    SetThenGet(obj, Split(path, '.'), x);
  }

  /** Every object, and every array's named properties, in property order, all the way
      down: what any JavaScript value satisfies. */
  predicate Ordered(v: Value)
  {
    match v
    case Obj(es) => PropertyOrder(es) && forall i :: 0 <= i < |es| ==> Ordered(es[i].1)
    case Arr(items, props) =>
      PropertyOrder(props) && (forall i :: 0 <= i < |items| ==> Ordered(items[i])) &&
      forall i :: 0 <= i < |props| ==> Ordered(props[i].1)
    case _ => true
  }

  predicate OrderedValues(es: Entries)
  {
    forall i :: 0 <= i < |es| ==> Ordered(es[i].1)
  }

  /** A write keeps a value in property order at every level. */
  lemma {:induction false} SetPathOrdered(v: Value, keys: seq<string>, x: Value)
    requires |keys| >= 1 && SetPath(v, keys, x).Ok? && Ordered(v) && Ordered(x)
    ensures Ordered(SetPath(v, keys, x).value)
    decreases |keys|
  {
    var es := Own(v);
    assert PropertyOrder(es) && OrderedValues(es);
    var c := x;
    if |keys| > 1 {
      var child := Lookup(es, keys[0]);
      var start := if child.None? || child.value == Null then Obj([]) else child.value;
      if child.Some? {
        var m :| 0 <= m < |es| && es[m] == (keys[0], child.value);
      }
      SetPathOrdered(start, keys[1..], x);
      c := SetPath(start, keys[1..], x).value;
    }
    PutOrder(es, keys[0], c);
    PutValues(es, keys[0], c);
    var w := WithOwn(v, Put(es, keys[0], c));
    assert w == SetPath(v, keys, x).value;
  }

  /** Every property after an assignment holds the assigned value or an old one. */
  lemma PutValues(es: Entries, k: string, v: Value)
    requires OrderedValues(es) && Ordered(v)
    ensures OrderedValues(Put(es, k, v))
  {
    if Lookup(es, k).None? {
      InsertMembers(es, k, v);
    } else {
      ReplaceMembers(es, k, v);
    }
  }

  lemma {:induction false} ReplaceMembers(es: Entries, k: string, v: Value)
    ensures forall i :: 0 <= i < |Replace(es, k, v)| ==>
      Replace(es, k, v)[i] == (k, v) || Replace(es, k, v)[i] == es[i]
  {
    if es != [] && es[0].0 != k {
      ReplaceMembers(es[1..], k, v);
    }
  }

  /** A write through an array adds a named property to it: `set("items.x", 1)` on
      `{items: []}` succeeds, `get` reads the property back, and the array's JSON text
      stays `[]`. */
  lemma ArrayPropertyWrite()
    ensures var c := SetNested(Obj([("items", Arr([], []))]), "items.x", Number(1.0));
      c.Ok? && GetNested(c.value, "items.x", Undefined) == Number(1.0) &&
      JsonOf(GetNested(c.value, "items", Undefined)) == Some(JArray([]))
  {
    var c0 := Obj([("items", Arr([], []))]);
    var arr := Arr([], [("x", Number(1.0))]);
    ItemsPath();
    ArrayWriteStep(c0, arr);
    SetNestedThenGet(c0, "items.x", Number(1.0), Undefined);
    ReadItems(arr);
  }

  lemma ItemsPath()
    ensures Split("items.x", '.') == ["items", "x"]
    ensures Split("items", '.') == ["items"]
  {
    SplitWhole("x", '.');
    SplitAfterPart("items", "x", '.');
    assert "items" + ['.'] + "x" == "items.x";
    SplitWhole("items", '.');
  }

  lemma ArrayWriteStep(c0: Value, arr: Value)
    requires c0 == Obj([("items", Arr([], []))]) && arr == Arr([], [("x", Number(1.0))])
    ensures SetPath(c0, ["items", "x"], Number(1.0)) == Ok(Obj([("items", arr)]))
  {
    assert Lookup(Own(c0), "items") == Some(Arr([], []));
    assert ["items", "x"][1..] == ["x"];
    assert SetPath(Arr([], []), ["x"], Number(1.0)) == Ok(arr);
    assert Put([("items", Arr([], []))], "items", arr) == [("items", arr)];
  }

  lemma ReadItems(arr: Value)
    requires arr == Arr([], [("x", Number(1.0))]) && Split("items", '.') == ["items"]
    ensures GetNested(Obj([("items", arr)]), "items", Undefined) == arr
    ensures JsonOf(arr) == Some(JArray([]))
  {
    assert ["items"][1..] == [];
    assert GetPath(Obj([("items", arr)]), ["items"]) == GetPath(arr, []);
    assert |JsonOf(arr).value.items| == 0;
  }

  /** Assignment places a new array index among the leading indices: on `{b: 1}`,
      `set("a.1", 2)` gives `a` the JSON text of the literal `{1: 2, b: 1}`, so a later
      `set("a", {1: 2, b: 1})` calls no `change` listener. */
  lemma IndexKeyFirst(listeners: Listeners)
    ensures var c0 := Obj([("a", Obj([("b", Number(1.0))]))]);
      var s1 := Assign(c0, listeners, "a.1", Number(2.0));
      s1.Ok? &&
      var s2 := Assign(s1.value.0, listeners, "a", Obj([("1", Number(2.0)), ("b", Number(1.0))]));
      s2.Ok? && s2.value.1 == []
  {
    var c0 := Obj([("a", Obj([("b", Number(1.0))]))]);
    assert Split("a.1", '.') == ["a", "1"] by {
      SplitWhole("1", '.');
      SplitAfterPart("a", "1", '.');
      assert "a" + ['.'] + "1" == "a.1";
    }
    assert IsArrayIndex("1") by { assert DigitsValue("1") == 1; }
    assert !IsArrayIndex("b");
    var inner := Obj([("1", Number(2.0)), ("b", Number(1.0))]);
    assert Put([("b", Number(1.0))], "1", Number(2.0)) == inner.entries;
    var b := Obj([("b", Number(1.0))]);
    assert Lookup(Own(c0), "a") == Some(b);
    assert ["a", "1"][1..] == ["1"];
    assert SetPath(b, ["1"], Number(2.0)) == Ok(inner);
    assert Put([("a", b)], "a", inner) == [("a", inner)];
    assert SetPath(c0, ["a", "1"], Number(2.0)) == Ok(Obj([("a", inner)]));
    assert Split("a", '.') == ["a"] by { SplitWhole("a", '.'); }
    assert ["a"][1..] == [];
    assert GetPath(Obj([("a", inner)]), ["a"]) == GetPath(inner, []);
    assert GetNested(Obj([("a", inner)]), "a", Undefined) == inner;
  }

  // ---------------------------------------------------------------------------------
  // JSON forms

  /** A JSON text, as a tree: `JSON.stringify` writes distinct trees as distinct texts. */
  datatype Json =
    | JNull
    | JBool(b: bool)
    | JNumber(x: real)
    | JString(s: string)
    | JArray(items: seq<Json>)
    | JObject(members: seq<(string, Json)>)

  /** `JSON.stringify(v)`: `None` for undefined, which has no JSON text. An undefined
      array element is written as `null`, an undefined property is left out, and so are
      an array's named properties. */
  function JsonOf(v: Value): (r: Option<Json>)
    ensures r.None? <==> v == Undefined
  {
    match v
    case Undefined => None
    case Null => Some(JNull)
    case Bool(b) => Some(JBool(b))
    case Number(x) => Some(JNumber(x))
    case Str(s) => Some(JString(s))
    case Arr(items, _) =>
      Some(JArray(seq(|items|, i requires 0 <= i < |items| =>
        if items[i] == Undefined then JNull else JsonOf(items[i]).value)))
    case Obj(es) =>
      Some(JObject(Present(seq(|es|, i requires 0 <= i < |es| =>
        if es[i].1 == Undefined then None else Some((es[i].0, JsonOf(es[i].1).value))))))
  }

  /** `JSON.parse(text)`. */
  function FromJson(j: Json): (v: Value)
    ensures v != Undefined
  {
    match j
    case JNull => Null
    case JBool(b) => Bool(b)
    case JNumber(x) => Number(x)
    case JString(s) => Str(s)
    case JArray(items) => Arr(seq(|items|, i requires 0 <= i < |items| => FromJson(items[i])), [])
    case JObject(ms) => Obj(seq(|ms|, i requires 0 <= i < |ms| => (ms[i].0, FromJson(ms[i].1))))
  }

  /** Parsing a JSON text and writing it again gives the same text. */
  lemma {:induction false} JsonRoundTrip(j: Json)
    ensures JsonOf(FromJson(j)) == Some(j)
  {
    match j
    case JArray(items) =>
      forall i | 0 <= i < |items| ensures JsonOf(FromJson(items[i])) == Some(items[i]) {
        JsonRoundTrip(items[i]);
      }
      assert JsonOf(FromJson(j)).value.items == items;
    case JObject(ms) =>
      var es := FromJson(j).entries;
      forall i | 0 <= i < |ms| ensures JsonOf(FromJson(ms[i].1)) == Some(ms[i].1) {
        JsonRoundTrip(ms[i].1);
      }
      PresentAll(seq(|es|, i requires 0 <= i < |es| =>
        if es[i].1 == Undefined then None else Some((es[i].0, JsonOf(es[i].1).value))), ms);
    case _ =>
  }

  /** `JSON.parse(JSON.stringify(v))`: the deep copy `toObject` hands out and `fromObject`
      stores. It has the JSON text of `v`, and copying it again changes nothing. */
  function JsonCopy(v: Value): (r: Value)
    requires v != Undefined
    ensures JsonOf(r) == JsonOf(v)
  {
    JsonRoundTrip(JsonOf(v).value);
    FromJson(JsonOf(v).value)
  }

  /** A copy of a copy is the copy: what `toObject` returns survives `fromObject` and a
      second `toObject` unchanged. */
  lemma CopyTwice(v: Value)
    requires v != Undefined
    ensures JsonCopy(JsonCopy(v)) == JsonCopy(v)
  {
  }

  // ---------------------------------------------------------------------------------
  // Listeners

  /** A listener, known by its identity. */
  type Callback = nat

  /** The argument a listener is called with. */
  datatype Event =
    | ChangeEvent(key: string, oldValue: Value, newValue: Value)
    | ResetEvent(config: Value)
    | ImportEvent(config: Value)

  /** One call made to a listener. */
  datatype Call = Call(callback: Callback, event: Event)

  type Listeners = map<string, seq<Callback>>

  /** The calls `_triggerEvent(name, e)` makes: every listener of `name`, in registration
      order, and none when `name` has no list. */
  function Notify(listeners: Listeners, name: string, e: Event): (r: seq<Call>)
    ensures name !in listeners ==> r == []
    ensures name in listeners ==>
      |r| == |listeners[name]| && forall i :: 0 <= i < |r| ==> r[i] == Call(listeners[name][i], e)
  {
    if name in listeners then
      seq(|listeners[name]|, i requires 0 <= i < |listeners[name]| => Call(listeners[name][i], e))
    else []
  }

  /** What `off(_, cb)` keeps. */
  function Others(cb: Callback): Callback -> bool
  {
    c => c != cb
  }

  /** `off` removes every registration of the callback and keeps the others in order;
      it undoes an `on` of a callback that was not registered yet. */
  lemma {:induction false} OffRemoves(cbs: seq<Callback>, cb: Callback)
    ensures cb !in Filter(cbs, Others(cb))
    ensures cb !in cbs ==> Filter(cbs, Others(cb)) == cbs
    ensures cb !in cbs ==> Filter(cbs + [cb], Others(cb)) == cbs
  {
    FilterMembers(cbs, Others(cb));
    if cb !in cbs {
      FilterAll(cbs, Others(cb));
      FilterAppend(cbs, [cb], Others(cb));
      FilterNone([cb], Others(cb));
    }
  }

  /** The message `on` and `off` throw for a name every object inherits, such as
      `"constructor"`: the inherited member is truthy but is no array. */
  const PushError := "TypeError: this.listeners[event].push is not a function"

  const FilterError := "TypeError: this.listeners[event].filter is not a function"

  /** `set(key, x)` on a configuration `c`: the configuration afterwards and the calls it
      made, or what it threw. A `change` call is made only when the JSON text of the old
      value differs from that of the new one. */
  function Assign(c: Value, listeners: Listeners, key: string, x: Value): Result<(Value, seq<Call>)>
  {
    match SetNested(c, key, x)
    case Err(e) => Err(e)
    case Ok(d) =>
      var before := GetNested(c, key, Undefined);
      Ok((d, if JsonOf(before) != JsonOf(x) then Notify(listeners, "change", ChangeEvent(key, before, x)) else []))
  }

  /** `setMultiple(values)`: `set` for each entry in order, stopping at the first throw;
      the writes made before it stay. */
  function AssignAll(c: Value, listeners: Listeners, values: Entries): (Value, seq<Call>, Outcome)
    decreases |values|
  {
    if values == [] then (c, [], Pass)
    else
      var (d, calls, o) := AssignAll(c, listeners, values[..|values| - 1]);
      if o.Fail? then (d, calls, o)
      else
        match Assign(d, listeners, values[|values| - 1].0, values[|values| - 1].1)
        case Err(e) => (d, calls, Fail(e))
        case Ok(p) => (p.0, calls + p.1, Pass)
  }

  /** When `setMultiple` completes, its last entry reads back as written. */
  lemma AssignAllLast(c: Value, listeners: Listeners, values: Entries)
    requires |values| >= 1 && values[|values| - 1].0 != ""
    requires AssignAll(c, listeners, values).2.Pass?
    ensures GetNested(AssignAll(c, listeners, values).0, values[|values| - 1].0, Undefined) == values[|values| - 1].1
  {
    var (d, _, _) := AssignAll(c, listeners, values[..|values| - 1]);
    SetNestedThenGet(d, values[|values| - 1].0, values[|values| - 1].1, Undefined);
  }

  /** A `set` that completes leaves `get` of that key returning the new value, and calls
      the `change` listeners exactly when the JSON texts differ. */
  lemma AssignFacts(c: Value, listeners: Listeners, key: string, x: Value)
    requires key != "" && Assign(c, listeners, key, x).Ok?
    requires "change" in listeners && |listeners["change"]| > 0
    ensures GetNested(Assign(c, listeners, key, x).value.0, key, Undefined) == x
    ensures Assign(c, listeners, key, x).value.1 != [] <==>
      JsonOf(GetNested(c, key, Undefined)) != JsonOf(x)
  {
    SetNestedThenGet(c, key, x, Undefined);
  }

  class Config {
    var config: Value
    var listeners: Listeners
    /** Every call made to a listener so far, oldest first. */
    var calls: seq<Call>

    predicate Valid()
      reads this
    {
      config != Undefined
    }

    /** `new Config(initialConfig)`: the defaults overlaid by `initialConfig` (`{}` when
        it is not given), and no listeners. */
    constructor (initialConfig: Option<Entries>)
      ensures Valid()
      ensures config == Initial(if initialConfig.Some? then initialConfig.value else [])
      ensures listeners == map[] && calls == []
    {
      config := Initial(if initialConfig.Some? then initialConfig.value else []);
      listeners := map[];
      calls := [];
    }

    /** `_getNestedProperty`: the walk one key at a time. */
    method GetNestedProperty(obj: Value, path: string, fallback: Value) returns (r: Value)
      ensures r == GetNested(obj, path, fallback)
    {
      if path == "" {
        return obj;
      }
      var keys := Split(path, '.');
      var result := obj;
      var i := 0;
      while i < |keys|
        invariant 0 <= i <= |keys|
        invariant GetPath(obj, keys) == GetPath(result, keys[i..])
      {
        if !HasProps(result) || Lookup(Own(result), keys[i]).None? {
          return fallback;
        }
        assert keys[i..][1..] == keys[i + 1..];
        result := Lookup(Own(result), keys[i]).value;
        i := i + 1;
      }
      return result;
    }

    /** `get(key, fallback)`. */
    method Get(key: string, fallback: Value) returns (r: Value)
      ensures r == GetNested(config, key, fallback)
    {
      r := GetNestedProperty(config, key, fallback);
    }

    /** `has(key)`: the path leads to a value other than undefined. */
    method Has(key: string) returns (b: bool)
      requires Valid()
      ensures b <==>
        key == "" || (GetPath(config, Split(key, '.')).Some? && GetPath(config, Split(key, '.')).value != Undefined)
    {
      var v := GetNestedProperty(config, key, Undefined);
      b := v != Undefined;
    }

    /** `_triggerEvent(name, e)`: each listener of `name` is called in turn. */
    method TriggerEvent(name: string, e: Event)
      modifies this`calls
      ensures calls == old(calls) + Notify(listeners, name, e)
    {
      if name !in listeners {
        return;
      }
      var cbs := listeners[name];
      var i := 0;
      while i < |cbs|
        invariant 0 <= i <= |cbs|
        invariant calls == old(calls) + Notify(listeners, name, e)[..i]
      {
        calls := calls + [Call(cbs[i], e)];
        i := i + 1;
        assert Notify(listeners, name, e)[..i] == Notify(listeners, name, e)[..i - 1] + [Call(cbs[i - 1], e)];
      }
      assert Notify(listeners, name, e)[..i] == Notify(listeners, name, e);
    }

    /** `set(key, x)`. */
    method Set(key: string, x: Value) returns (r: Outcome)
      requires Valid()
      modifies this`config, this`calls
      ensures Valid()
      ensures Assign(old(config), listeners, key, x).Err? ==>
        r == Fail(Assign(old(config), listeners, key, x).error) && config == old(config) && calls == old(calls)
      ensures Assign(old(config), listeners, key, x).Ok? ==>
        r == Pass && config == Assign(old(config), listeners, key, x).value.0 &&
        calls == old(calls) + Assign(old(config), listeners, key, x).value.1
    {
      var before := Get(key, Undefined);
      var written := SetNested(config, key, x);
      if written.Err? {
        return Fail(written.error);
      }
      config := written.value;
      if JsonOf(before) != JsonOf(x) {
        TriggerEvent("change", ChangeEvent(key, before, x));
      }
      r := Pass;
    }

    /** `setMultiple(values)`: `values` lists the object's entries in `Object.entries`
        order, integer-like keys first in ascending order, then the others as inserted. */
    method SetMultiple(values: Entries) returns (r: Outcome)
      requires Valid()
      modifies this`config, this`calls
      ensures Valid()
      ensures config == AssignAll(old(config), listeners, values).0
      ensures calls == old(calls) + AssignAll(old(config), listeners, values).1
      ensures r == AssignAll(old(config), listeners, values).2
    {
      var i := 0;
      while i < |values|
        invariant 0 <= i <= |values| && Valid()
        invariant config == AssignAll(old(config), listeners, values[..i]).0
        invariant calls == old(calls) + AssignAll(old(config), listeners, values[..i]).1
        invariant AssignAll(old(config), listeners, values[..i]).2.Pass?
      {
        assert values[..i + 1][..i] == values[..i];
        r := Set(values[i].0, values[i].1);
        if r.Fail? {
          AssignAllStops(old(config), listeners, values, i + 1);
          return;
        }
        i := i + 1;
      }
      assert values[..i] == values;
      r := Pass;
    }

    /** `reset(defaults)`: the defaults overlaid by `defaults`, then `reset` is announced. */
    method Reset(defaults: Entries)
      modifies this`config, this`calls
      ensures Valid()
      ensures config == Initial(defaults)
      ensures calls == old(calls) + Notify(listeners, "reset", ResetEvent(config))
    {
      config := Initial(defaults);
      TriggerEvent("reset", ResetEvent(config));
    }

    /** `on(name, cb)`: the callback joins the end of the name's list. */
    method On(name: string, cb: Callback) returns (r: Outcome)
      modifies this`listeners
      ensures name in old(listeners) ==> r == Pass && listeners == old(listeners)[name := old(listeners)[name] + [cb]]
      ensures name !in old(listeners) && name in InheritedMembers ==> r == Fail(PushError) && listeners == old(listeners)
      ensures name !in old(listeners) && name !in InheritedMembers ==> r == Pass && listeners == old(listeners)[name := [cb]]
    {
      if name in listeners {
        listeners := listeners[name := listeners[name] + [cb]];
      } else if name in InheritedMembers {
        return Fail(PushError);
      } else {
        listeners := listeners[name := [cb]];
      }
      r := Pass;
    }

    /** `off(name, cb)`: every registration of `cb` under `name` goes; other names and
        other callbacks are untouched. */
    method Off(name: string, cb: Callback) returns (r: Outcome)
      modifies this`listeners
      ensures name in old(listeners) ==> r == Pass && listeners == old(listeners)[name := Filter(old(listeners)[name], Others(cb))]
      ensures name !in old(listeners) && name in InheritedMembers ==> r == Fail(FilterError) && listeners == old(listeners)
      ensures name !in old(listeners) && name !in InheritedMembers ==> r == Pass && listeners == old(listeners)
    {
      if name in listeners {
        listeners := listeners[name := Filter(listeners[name], Others(cb))];
      } else if name in InheritedMembers {
        return Fail(FilterError);
      }
      r := Pass;
    }

    /** `toObject()`: a deep copy through JSON. */
    method ToObject() returns (r: Value)
      requires Valid()
      ensures r == JsonCopy(config)
    {
      r := FromJson(JsonOf(config).value);
    }

    /** `fromObject(v)`: stores a deep copy through JSON and announces `import`;
        undefined has no JSON text, so parsing it throws. */
    method FromObject(v: Value) returns (r: Outcome)
      requires Valid()
      modifies this`config, this`calls
      ensures v == Undefined ==> r == Fail(ParseError) && config == old(config) && calls == old(calls)
      ensures v != Undefined ==>
        r == Pass && config == JsonCopy(v) && calls == old(calls) + Notify(listeners, "import", ImportEvent(config))
      ensures Valid()
    {
      if v == Undefined {
        return Fail(ParseError);
      }
      config := JsonCopy(v);
      TriggerEvent("import", ImportEvent(config));
      r := Pass;
    }
  }

  const ParseError := "SyntaxError: \"undefined\" is not valid JSON"

  /** Once a `set` inside `setMultiple` throws, the outcome is that throw. */
  lemma {:induction false} AssignAllStops(c: Value, listeners: Listeners, values: Entries, n: nat)
    requires 1 <= n <= |values|
    requires AssignAll(c, listeners, values[..n]).2.Fail?
    ensures AssignAll(c, listeners, values) == AssignAll(c, listeners, values[..n])
    decreases |values|
  {
    if n < |values| {
      var front := values[..|values| - 1];
      assert front[..n] == values[..n];
      AssignAllStops(c, listeners, front, n);
    } else {
      assert values[..n] == values;
    }
  }
}
