/** The aggregation pipeline of `DataProcessor`: raw records are filtered, grouped into
    buckets keyed by time period or sprint, and summarised. */
module DataProcessor {
  import opened Wrappers
  import opened Numbers
  import opened Calendar
  import opened DateKeys
  import opened Collections
  import opened JsObjects
  import opened Text

  /** A raw record: a commit, a quality snapshot or a story. A string field holding ""
      stands for a field that is absent or falsy; a missing `points` is 0. */
  datatype Record = Record(
    date: DateField, timestamp: DateField, createdAt: DateField,
    author: string, authorName: string, authorEmail: string,
    repository: string, repositoryName: string, repoName: string,
    sprint: string, points: int, status: string,
    metrics: map<string, int>)

  /** `new Date(item.date || item.timestamp || item.createdAt)`. */
  function Moment(r: Record): Option<Timestamp>
  {
    FirstDate(r.date, r.timestamp, r.createdAt)
  }

  /** `commit.author || commit.authorName || commit.authorEmail`. */
  function AuthorOf(r: Record): string
  {
    if r.author != "" then r.author else if r.authorName != "" then r.authorName else r.authorEmail
  }

  /** `commit.repository || commit.repositoryName || commit.repoName`. */
  function RepositoryOf(r: Record): string
  {
    if r.repository != "" then r.repository
    else if r.repositoryName != "" then r.repositoryName
    else r.repoName
  }

  /** `item.sprint || 'Unassigned'`. */
  function SprintOf(r: Record): string
  {
    if r.sprint != "" then r.sprint else "Unassigned"
  }

  function PointsOf(r: Record): int { r.points }

  function One(r: Record): int { 1 }

  predicate IsDone(r: Record) { r.status == "done" }

  /** Points a story contributes to `completed`: its points when done, else nothing. */
  function DonePoints(r: Record): int { if IsDone(r) then r.points else 0 }

  // ---------------------------------------------------------------------------------
  // Grouping

  /** The object built by the grouping helpers: its own keys in creation order, and
      the array held under each. */
  datatype Grouping = Grouping(order: seq<string>, buckets: map<string, seq<Record>>)

  /** Which helper groups: `_groupBySprint`, or `_groupByTimePeriod` with a time range. */
  datatype GroupBy = BySprint | ByPeriod(timeRange: string)

  function KeyOf(rule: GroupBy, r: Record): Result<string>
  {
    match rule
    case BySprint => Ok(SprintOf(r))
    case ByPeriod(tr) => BucketKey(Moment(r), tr)
  }

  /** Reading `groupedData[key]` for a name `{}` inherits yields a truthy non-array, so
      no array is created and the `push` call throws. */
  const PushNotAFunction: string := "TypeError: groupedData[key].push is not a function"

  /** `if (!groupedData[key]) groupedData[key] = []; groupedData[key].push(item)`. */
  function Push(g: Grouping, k: string, x: Record): Grouping
  {
    if k in g.buckets then Grouping(g.order, g.buckets[k := g.buckets[k] + [x]])
    else Grouping(g.order + [k], g.buckets[k := [x]])
  }

  /** One iteration of the grouping `forEach`: compute the key (which may throw), then push.
      `taken` holds the names the fresh object already answers for, whose `push` throws. */
  function Step(acc: Result<Grouping>, x: Record, rule: GroupBy, taken: set<string>): Result<Grouping>
  {
    match acc
    case Err(e) => acc
    case Ok(g) =>
      match KeyOf(rule, x)
      case Err(e) => Err(e)
      case Ok(k) => if k in taken then Err(PushNotAFunction) else Ok(Push(g, k, x))
  }

  /** The `forEach` over an object that answers for the names in `taken`. */
  function GroupWith(items: seq<Record>, rule: GroupBy, taken: set<string>): Result<Grouping>
  {
    if |items| == 0 then Ok(Grouping([], map[]))
    else Step(GroupWith(items[..|items| - 1], rule, taken), items[|items| - 1], rule, taken)
  }

  /** The whole `forEach`, into a fresh `{}`. */
  function GroupAll(items: seq<Record>, rule: GroupBy): Result<Grouping>
  {
    GroupWith(items, rule, InheritedMembers)
  }

  /** A record whose key can be computed and is not one of the names in `taken`. */
  predicate Pushable(rule: GroupBy, r: Record, taken: set<string>)
  {
    KeyOf(rule, r).Ok? && KeyOf(rule, r).value !in taken
  }

  /** A record that a grouping accepts: its key can be computed and can be pushed to. */
  predicate Groupable(rule: GroupBy, r: Record)
  {
    Pushable(rule, r, InheritedMembers)
  }

  /** The keys of the records that have one, in input order, repeats included. */
  function Keys(items: seq<Record>, rule: GroupBy): (ks: seq<string>)
    ensures |ks| <= |items|
  {
    if |items| == 0 then []
    else
      var rest := Keys(items[..|items| - 1], rule);
      match KeyOf(rule, items[|items| - 1])
      case Ok(k) => rest + [k]
      case Err(_) => rest
  }

  /** `Keys` holds exactly the keys some record has. */
  lemma {:induction false} KeysMembers(items: seq<Record>, rule: GroupBy)
    ensures forall k :: k in Keys(items, rule) <==> exists i :: 0 <= i < |items| && KeyOf(rule, items[i]) == Ok(k)
  {
    if |items| > 0 {
      var p := items[..|items| - 1];
      KeysMembers(p, rule);
      assert items == p + [items[|items| - 1]];
      assert forall i :: 0 <= i < |p| ==> p[i] == items[i];
    }
  }

  /** The records whose key is `k`, in input order. */
  function Select(items: seq<Record>, rule: GroupBy, k: string): seq<Record>
  {
    if |items| == 0 then []
    else
      var rest := Select(items[..|items| - 1], rule, k);
      if KeyOf(rule, items[|items| - 1]) == Ok(k) then rest + [items[|items| - 1]] else rest
  }

  predicate WellFormed(g: Grouping)
  {
    NoDup(g.order) && (forall k :: k in g.buckets ==> k in g.order) &&
    (forall k :: k in g.order ==> k in g.buckets) &&
    (forall k :: k in g.buckets ==> |g.buckets[k]| > 0)
  }

  /** The error a record that cannot be grouped raises: its key's error, or the `push`
      that is not a function. */
  function Failure(rule: GroupBy, r: Record): string
  {
    if KeyOf(rule, r).Err? then KeyOf(rule, r).error else PushNotAFunction
  }

  /** The `i`-th record is the first one the grouping cannot take, and it raises `e`. */
  predicate FirstFailure(items: seq<Record>, rule: GroupBy, taken: set<string>, i: int, e: string)
  {
    0 <= i < |items| && !Pushable(rule, items[i], taken) &&
    (forall j :: 0 <= j < i ==> Pushable(rule, items[j], taken)) && e == Failure(rule, items[i])
  }

  /** A first failure among the earlier records stays the first failure. */
  lemma FirstFailureSnoc(items: seq<Record>, rule: GroupBy, taken: set<string>, i: int, e: string)
    requires |items| > 0 && FirstFailure(items[..|items| - 1], rule, taken, i, e)
    ensures FirstFailure(items, rule, taken, i, e)
  {
    assert items[..|items| - 1][i] == items[i];
    forall j | 0 <= j < i
      ensures Pushable(rule, items[j], taken)
    {
      assert items[..|items| - 1][j] == items[j];
    }
  }

  /** What holds of every record of a prefix holds of the same records in the whole. */
  lemma PrefixPushable(items: seq<Record>, p: seq<Record>, rule: GroupBy, taken: set<string>)
    requires |p| <= |items| && p == items[..|p|]
    requires forall i :: 0 <= i < |p| ==> Pushable(rule, p[i], taken)
    ensures forall i :: 0 <= i < |p| ==> Pushable(rule, items[i], taken)
  {
    forall i | 0 <= i < |p|
      ensures Pushable(rule, items[i], taken)
    {
      assert p[i] == items[i];
    }
  }

  /** Grouping fails exactly when some record cannot be grouped, and the failure is the
      one the first such record raises. */
  lemma {:induction false} GroupAllFails(items: seq<Record>, rule: GroupBy, taken: set<string>)
    ensures GroupWith(items, rule, taken).Ok? <==> forall i :: 0 <= i < |items| ==> Pushable(rule, items[i], taken)
    ensures GroupWith(items, rule, taken).Err? ==>
      exists i :: FirstFailure(items, rule, taken, i, GroupWith(items, rule, taken).error)
  {
    if |items| > 0 {
      var n := |items| - 1;
      var p := items[..n];
      var x := items[n];
      GroupAllFails(p, rule, taken);
      var acc := GroupWith(p, rule, taken);
      assert GroupWith(items, rule, taken) == Step(acc, x, rule, taken);
      if acc.Err? {
        var i :| FirstFailure(p, rule, taken, i, acc.error);
        FirstFailureSnoc(items, rule, taken, i, acc.error);
        assert GroupWith(items, rule, taken) == acc;
        assert !Pushable(rule, items[i], taken);
      } else {
        PrefixPushable(items, p, rule, taken);
        if Pushable(rule, x, taken) {
          assert GroupWith(items, rule, taken).Ok?;
          forall i | 0 <= i < |items|
            ensures Pushable(rule, items[i], taken)
          {
            if i == n {
              assert items[i] == x;
            }
          }
        } else {
          assert GroupWith(items, rule, taken) == Err(Failure(rule, x));
          assert FirstFailure(items, rule, taken, n, Failure(rule, x));
        }
      }
    }
  }

  lemma PushWellFormed(g: Grouping, k: string, x: Record)
    requires WellFormed(g)
    ensures WellFormed(Push(g, k, x))
    ensures Push(g, k, x).order == if k in g.order then g.order else g.order + [k]
  {
  }

  /** The keys are listed once each, in order of first appearance. */
  lemma {:induction false} GroupAllOrder(items: seq<Record>, rule: GroupBy, taken: set<string>)
    requires GroupWith(items, rule, taken).Ok?
    ensures forall i :: 0 <= i < |items| ==> Pushable(rule, items[i], taken)
    ensures WellFormed(GroupWith(items, rule, taken).value)
    ensures GroupWith(items, rule, taken).value.order == FirstSeen(Keys(items, rule))
  {
    GroupAllFails(items, rule, taken);
    if |items| > 0 {
      var p := items[..|items| - 1];
      var x := items[|items| - 1];
      GroupAllFails(p, rule, taken);
      GroupAllOrder(p, rule, taken);
      var g := GroupWith(p, rule, taken).value;
      var k := KeyOf(rule, x).value;
      assert Keys(items, rule) == Keys(p, rule) + [k];
      FirstSeenSnoc(Keys(p, rule), k);
      assert k in g.order <==> k in Keys(p, rule) by {
        FirstSeenMembers(Keys(p, rule));
      }
      PushWellFormed(g, k, x);
    }
  }

  /** Every record has a key, and the grouping has a bucket under it. */
  lemma GroupAllKeys(items: seq<Record>, rule: GroupBy, taken: set<string>)
    requires GroupWith(items, rule, taken).Ok?
    ensures forall j :: 0 <= j < |items| ==>
      KeyOf(rule, items[j]).Ok? && KeyOf(rule, items[j]).value in GroupWith(items, rule, taken).value.buckets
  {
    GroupAllOrder(items, rule, taken);
    KeysMembers(items, rule);
    FirstSeenMembers(Keys(items, rule));
  }

  /** Every listed key is the key of some record. */
  lemma GroupAllOrderKeys(items: seq<Record>, rule: GroupBy, taken: set<string>)
    requires GroupWith(items, rule, taken).Ok?
    ensures forall k :: k in GroupWith(items, rule, taken).value.order ==>
      exists j :: 0 <= j < |items| && KeyOf(rule, items[j]) == Ok(k)
  {
    GroupAllOrder(items, rule, taken);
    KeysMembers(items, rule);
    FirstSeenMembers(Keys(items, rule));
  }

  /** Every record lands in the bucket of its key, and each bucket keeps input order. */
  lemma {:induction false} GroupAllBuckets(items: seq<Record>, rule: GroupBy, taken: set<string>)
    requires GroupWith(items, rule, taken).Ok?
    ensures forall k :: k in GroupWith(items, rule, taken).value.buckets ==>
      GroupWith(items, rule, taken).value.buckets[k] == Select(items, rule, k)
  {
    GroupAllFails(items, rule, taken);
    if |items| > 0 {
      var p := items[..|items| - 1];
      var x := items[|items| - 1];
      GroupAllFails(p, rule, taken);
      GroupAllBuckets(p, rule, taken);
      GroupAllOrder(p, rule, taken);
      var g := GroupWith(p, rule, taken).value;
      var k := KeyOf(rule, x).value;
      var g' := Push(g, k, x);
      assert GroupWith(items, rule, taken).value == g';
      forall k' | k' in g'.buckets
        ensures g'.buckets[k'] == Select(items, rule, k')
      {
        if k' == k && k !in g.buckets {
          assert k !in Keys(p, rule) by {
            FirstSeenMembers(Keys(p, rule));
          }
          SelectAbsent(p, rule, taken, k);
        }
      }
    }
  }

  /** No record has a key that was never produced. */
  lemma {:induction false} SelectAbsent(items: seq<Record>, rule: GroupBy, taken: set<string>, k: string)
    requires forall i :: 0 <= i < |items| ==> Pushable(rule, items[i], taken)
    requires k !in Keys(items, rule)
    ensures Select(items, rule, k) == []
  {
    if |items| > 0 {
      var p := items[..|items| - 1];
      assert Keys(items, rule) == Keys(p, rule) + [KeyOf(rule, items[|items| - 1]).value];
      SelectAbsent(p, rule, taken, k);
    }
  }

  /** The total of a weight over the bucket filed under each key. */
  function Weigh(buckets: map<string, seq<Record>>, w: Record -> int): string -> int
  {
    k => if k in buckets then SumOf(buckets[k], w) else 0
  }

  lemma {:induction false} WeighPushed(order: seq<string>, buckets: map<string, seq<Record>>,
                                       k: string, x: Record, w: Record -> int)
    requires NoDup(order) && k in buckets
    ensures SumOf(order, Weigh(buckets[k := buckets[k] + [x]], w)) ==
            SumOf(order, Weigh(buckets, w)) + (if k in order then w(x) else 0)
  {
    if |order| > 0 {
      var p := order[..|order| - 1];
      assert NoDup(p);
      WeighPushed(p, buckets, k, x, w);
      var b := buckets[k] + [x];
      assert b[..|buckets[k]|] == buckets[k];
      assert k in order <==> k in p || k == order[|order| - 1];
    }
  }

  lemma {:induction false} WeighFresh(order: seq<string>, buckets: map<string, seq<Record>>,
                                      k: string, x: Record, w: Record -> int)
    requires k !in order
    ensures SumOf(order, Weigh(buckets[k := [x]], w)) == SumOf(order, Weigh(buckets, w))
  {
    if |order| > 0 {
      WeighFresh(order[..|order| - 1], buckets, k, x, w);
    }
  }

  /** Grouping neither loses nor duplicates records: any total over the buckets equals the
      total over the input. With weight 1, the bucket sizes add up to the record count. */
  lemma {:induction false} GroupAllTotal(items: seq<Record>, rule: GroupBy, taken: set<string>, w: Record -> int)
    requires GroupWith(items, rule, taken).Ok?
    ensures SumOf(GroupWith(items, rule, taken).value.order, Weigh(GroupWith(items, rule, taken).value.buckets, w))
            == SumOf(items, w)
  {
    GroupAllFails(items, rule, taken);
    if |items| > 0 {
      var p := items[..|items| - 1];
      var x := items[|items| - 1];
      GroupAllFails(p, rule, taken);
      GroupAllOrder(p, rule, taken);
      GroupAllTotal(p, rule, taken, w);
      var g := GroupWith(p, rule, taken).value;
      var k := KeyOf(rule, x).value;
      assert GroupWith(items, rule, taken).value == Push(g, k, x);
      if k in g.buckets {
        WeighPushed(g.order, g.buckets, k, x, w);
      } else {
        PushFreshTotal(g, k, x, w);
      }
    }
  }

  lemma PushFreshTotal(g: Grouping, k: string, x: Record, w: Record -> int)
    requires WellFormed(g) && k !in g.buckets
    ensures SumOf(Push(g, k, x).order, Weigh(Push(g, k, x).buckets, w))
            == SumOf(g.order, Weigh(g.buckets, w)) + w(x)
  {
    var b := g.buckets[k := [x]];
    WeighFresh(g.order, g.buckets, k, x, w);
    var o := g.order + [k];
    assert o[..|g.order|] == g.order;
    assert SumOf(o, Weigh(b, w)) == SumOf(g.order, Weigh(b, w)) + Weigh(b, w)(k);
    assert [x][..0] == [];
    assert SumOf([x], w) == w(x);
  }

  /** `_groupByTimePeriod(data, timeRange)`. */
  method GroupByTimePeriod(data: seq<Record>, timeRange: string) returns (r: Result<Grouping>)
    ensures r == GroupAll(data, ByPeriod(timeRange))
  {
    r := GroupInto(data, ByPeriod(timeRange));
  }

  /** `_groupBySprint(data)`. */
  method GroupBySprint(data: seq<Record>) returns (r: Result<Grouping>)
    ensures r == GroupAll(data, BySprint)
  {
    r := GroupInto(data, BySprint);
  }

  /** The `forEach` both grouping helpers run; a throw ends it. */
  method GroupInto(data: seq<Record>, rule: GroupBy) returns (r: Result<Grouping>)
    ensures r == GroupAll(data, rule)
  {
    var order: seq<string> := [];
    var buckets: map<string, seq<Record>> := map[];
    var i := 0;
    while i < |data|
      invariant 0 <= i <= |data|
      invariant GroupAll(data[..i], rule) == Ok(Grouping(order, buckets))
    {
      GroupWithSnoc(data, i, rule, InheritedMembers);
      var key := KeyOf(rule, data[i]);
      if key.Err? {
        GroupAllStops(data, i + 1, rule);
        return Err(key.error);
      }
      if key.value in InheritedMembers {
        GroupAllStops(data, i + 1, rule);
        return Err(PushNotAFunction);
      }
      order, buckets := PushRecord(order, buckets, key.value, data[i]);
      i := i + 1;
    }
    assert data[..i] == data;
    r := Ok(Grouping(order, buckets));
  }

  /** `if (!groupedData[key]) groupedData[key] = []; groupedData[key].push(item)`. */
  method PushRecord(order: seq<string>, buckets: map<string, seq<Record>>, key: string, x: Record)
    returns (order': seq<string>, buckets': map<string, seq<Record>>)
    ensures Grouping(order', buckets') == Push(Grouping(order, buckets), key, x)
  {
    order', buckets' := order, buckets;
    if key !in buckets' {
      order' := order' + [key];
      buckets' := buckets'[key := []];
    }
    buckets' := buckets'[key := buckets'[key] + [x]];
    assert [] + [x] == [x];
  }

  lemma GroupWithSnoc(data: seq<Record>, i: int, rule: GroupBy, taken: set<string>)
    requires 0 <= i < |data|
    ensures GroupWith(data[..i + 1], rule, taken) == Step(GroupWith(data[..i], rule, taken), data[i], rule, taken)
  {
    assert data[..i + 1][..i] == data[..i];
  }

  /** Once grouping has thrown, later records do not matter. */
  lemma {:induction false} GroupAllStops(items: seq<Record>, n: int, rule: GroupBy)
    requires 0 <= n <= |items| && GroupAll(items[..n], rule).Err?
    ensures GroupAll(items, rule) == GroupAll(items[..n], rule)
    decreases |items| - n
  {
    if n < |items| {
      assert items[..n + 1][..n] == items[..n];
      GroupAllStops(items, n + 1, rule);
    } else {
      assert items[..n] == items;
    }
  }

  // ---------------------------------------------------------------------------------
  // Unique authors and repositories

  /** The truthy author names of the records, in order, repeats included. */
  function Authors(rs: seq<Record>): (names: seq<string>)
    ensures |names| <= |rs|
  {
    if |rs| == 0 then []
    else
      var p := Authors(rs[..|rs| - 1]);
      if AuthorOf(rs[|rs| - 1]) != "" then p + [AuthorOf(rs[|rs| - 1])] else p
  }

  /** `Authors` holds exactly the truthy names of the records. */
  lemma {:induction false} AuthorsMembers(rs: seq<Record>)
    ensures forall a :: a in Authors(rs) <==> a != "" && exists i :: 0 <= i < |rs| && AuthorOf(rs[i]) == a
  {
    if |rs| > 0 {
      var p := rs[..|rs| - 1];
      AuthorsMembers(p);
      assert rs == p + [rs[|rs| - 1]];
      assert forall i :: 0 <= i < |p| ==> p[i] == rs[i];
    }
  }


  /** The truthy repository names of the records, in order, repeats included. */
  function Repositories(rs: seq<Record>): (names: seq<string>)
    ensures |names| <= |rs|
  {
    if |rs| == 0 then []
    else
      var p := Repositories(rs[..|rs| - 1]);
      if RepositoryOf(rs[|rs| - 1]) != "" then p + [RepositoryOf(rs[|rs| - 1])] else p
  }

  /** `Repositories` holds exactly the truthy names of the records. */
  lemma {:induction false} RepositoriesMembers(rs: seq<Record>)
    ensures forall a :: a in Repositories(rs) <==> a != "" && exists i :: 0 <= i < |rs| && RepositoryOf(rs[i]) == a
  {
    if |rs| > 0 {
      var p := rs[..|rs| - 1];
      RepositoriesMembers(p);
      assert rs == p + [rs[|rs| - 1]];
      assert forall i :: 0 <= i < |p| ==> p[i] == rs[i];
    }
  }


  /** The distinct truthy authors of the records, first appearance first: no repeats,
      and exactly the names some record carries. */
  lemma UniqueAuthors(rs: seq<Record>)
    ensures NoDup(FirstSeen(Authors(rs)))
    ensures forall a :: a in FirstSeen(Authors(rs)) <==> a != "" && exists i :: 0 <= i < |rs| && AuthorOf(rs[i]) == a
  {
    AuthorsMembers(rs);
    FirstSeenMembers(Authors(rs));
  }

  /** `_extractUniqueAuthors`: each truthy author once, in order of first appearance
      (the iteration order of a `Set`). */
  method ExtractUniqueAuthors(commits: seq<Record>) returns (authors: seq<string>)
    ensures authors == FirstSeen(Authors(commits))
  {
    authors := [];
    for i := 0 to |commits|
      invariant authors == FirstSeen(Authors(commits[..i]))
    {
      assert commits[..i + 1][..i] == commits[..i];
      var author := AuthorOf(commits[i]);
      if author != "" {
        FirstSeenSnoc(Authors(commits[..i]), author);
        if author !in authors {
          authors := authors + [author];
        }
      }
    }
    assert commits[..|commits|] == commits;
  }

  /** The distinct truthy repositories of the records, first appearance first: no repeats,
      and exactly the names some record carries. */
  lemma UniqueRepositories(rs: seq<Record>)
    ensures NoDup(FirstSeen(Repositories(rs)))
    ensures forall a :: a in FirstSeen(Repositories(rs)) <==> a != "" && exists i :: 0 <= i < |rs| && RepositoryOf(rs[i]) == a
  {
    RepositoriesMembers(rs);
    FirstSeenMembers(Repositories(rs));
  }

  /** `_extractUniqueRepositories`: each truthy repository once, in order of first
      appearance. */
  method ExtractUniqueRepositories(commits: seq<Record>) returns (repositories: seq<string>)
    ensures repositories == FirstSeen(Repositories(commits))
  {
    repositories := [];
    for i := 0 to |commits|
      invariant repositories == FirstSeen(Repositories(commits[..i]))
    {
      assert commits[..i + 1][..i] == commits[..i];
      var repo := RepositoryOf(commits[i]);
      if repo != "" {
        FirstSeenSnoc(Repositories(commits[..i]), repo);
        if repo !in repositories {
          repositories := repositories + [repo];
        }
      }
    }
    assert commits[..|commits|] == commits;
  }

  // ---------------------------------------------------------------------------------
  // processCommitData

  /** One entry of `commits`. */
  datatype CommitBucket = CommitBucket(date: string, count: int, authors: seq<string>,
                                       repositories: seq<string>)

  datatype CommitSummary = CommitSummary(totalCommits: int, averageCommitsPerPeriod: Num,
                                         maxCommitsInPeriod: Num, uniqueAuthors: int,
                                         uniqueRepositories: int)

  datatype CommitReport = CommitReport(commits: seq<CommitBucket>, summary: CommitSummary)

  /** `new Date(bucket.date)`, the sort key. */
  function CommitKey(c: CommitBucket): Option<int> { KeyTime(c.date) }

  function CountOf(c: CommitBucket): int { c.count }

  function DateOfBucket(c: CommitBucket): string { c.date }

  function CommitRow(k: string, bucket: seq<Record>): CommitBucket
  {
    CommitBucket(k, |bucket|, FirstSeen(Authors(bucket)), FirstSeen(Repositories(bucket)))
  }

  /** The `Object.entries(groupedData).map(…)` step, for entries listed in order `keys`. */
  function CommitRows(keys: seq<string>, buckets: map<string, seq<Record>>): (rows: seq<CommitBucket>)
    requires forall i :: 0 <= i < |keys| ==> keys[i] in buckets
    ensures |rows| == |keys|
  {
    if |keys| == 0 then []
    else CommitRows(keys[..|keys| - 1], buckets) + [CommitRow(keys[|keys| - 1], buckets[keys[|keys| - 1]])]
  }

  lemma {:induction false} CommitRowsAt(keys: seq<string>, buckets: map<string, seq<Record>>)
    requires forall i :: 0 <= i < |keys| ==> keys[i] in buckets
    ensures forall i :: 0 <= i < |keys| ==> CommitRows(keys, buckets)[i] == CommitRow(keys[i], buckets[keys[i]])
  {
    if |keys| > 0 {
      CommitRowsAt(keys[..|keys| - 1], buckets);
    }
  }

  lemma {:induction false} CommitRowsDates(keys: seq<string>, buckets: map<string, seq<Record>>)
    requires forall i :: 0 <= i < |keys| ==> keys[i] in buckets
    ensures forall i :: 0 <= i < |keys| ==> CommitRows(keys, buckets)[i].date == keys[i]
  {
    if |keys| > 0 {
      CommitRowsDates(keys[..|keys| - 1], buckets);
    }
  }

  lemma {:induction false} CountRecords(rs: seq<Record>)
    ensures SumOf(rs, One) == |rs|
  {
    if |rs| > 0 {
      CountRecords(rs[..|rs| - 1]);
    }
  }

  /** The row counts add up to the sizes of the listed buckets. */
  lemma {:induction false} CommitRowsSum(keys: seq<string>, buckets: map<string, seq<Record>>)
    requires forall i :: 0 <= i < |keys| ==> keys[i] in buckets
    ensures SumOf(CommitRows(keys, buckets), CountOf) == SumOf(keys, Weigh(buckets, One))
  {
    if |keys| > 0 {
      var p := keys[..|keys| - 1];
      var k := keys[|keys| - 1];
      CommitRowsSum(p, buckets);
      CountRecords(buckets[k]);
      var rows := CommitRows(keys, buckets);
      assert rows[..|rows| - 1] == CommitRows(p, buckets);
    }
  }

  /** The counts of the sorted rows add up to the number of grouped records. */
  lemma SortedRowsTotal(g: Grouping)
    requires WellFormed(g)
    ensures SumOf(SortedRows(g), CountOf) == SumOf(g.order, Weigh(g.buckets, One))
  {
    EntriesInBuckets(g);
    var e := EntriesOrder(g.order);
    CommitRowsSum(e, g.buckets);
    SortBySum(CommitRows(e, g.buckets), CommitKey, CountOf);
    EntriesOrderSum(g.order, Weigh(g.buckets, One));
  }

  /** The `summary` object. `averageCommitsPerPeriod` divides by the number of buckets
      without a guard, and `Math.max()` of no counts is -Infinity. */
  function CommitSummaryOf(commits: seq<CommitBucket>, filtered: seq<Record>): CommitSummary
  {
    var total := SumOf(commits, CountOf);
    CommitSummary(total, RoundNum(Divide(total as real, |commits| as real)),
                  SpreadMax(Map(commits, CountOf)),
                  |FirstSeen(Authors(filtered))|, |FirstSeen(Repositories(filtered))|)
  }

  lemma EntriesInBuckets(g: Grouping)
    requires WellFormed(g)
    ensures forall i :: 0 <= i < |EntriesOrder(g.order)| ==> EntriesOrder(g.order)[i] in g.buckets
  {
    EntriesOrderPermutation(g.order);
    forall i | 0 <= i < |EntriesOrder(g.order)|
      ensures EntriesOrder(g.order)[i] in g.buckets
    {
      assert EntriesOrder(g.order)[i] in multiset(g.order);
    }
  }

  /** The `commits` array of a grouping: one row per bucket in `Object.entries` order,
      then sorted by the time its `date` reads as. */
  function SortedRows(g: Grouping): seq<CommitBucket>
    requires WellFormed(g)
  {
    EntriesInBuckets(g);
    SortBy(CommitRows(EntriesOrder(g.order), g.buckets), CommitKey)
  }

  /** Every sorted row is the row of one of the buckets. */
  lemma SortedRowsContent(g: Grouping)
    requires WellFormed(g)
    ensures forall i :: 0 <= i < |SortedRows(g)| ==>
      SortedRows(g)[i].date in g.buckets &&
      SortedRows(g)[i] == CommitRow(SortedRows(g)[i].date, g.buckets[SortedRows(g)[i].date])
  {
    EntriesInBuckets(g);
    var e := EntriesOrder(g.order);
    var rows := CommitRows(e, g.buckets);
    CommitRowsAt(e, g.buckets);
    var c := SortBy(rows, CommitKey);
    SortByPermutation(rows, CommitKey);
    forall i | 0 <= i < |c|
      ensures c[i].date in g.buckets && c[i] == CommitRow(c[i].date, g.buckets[c[i].date])
    {
      assert c[i] in multiset(rows);
      var j :| 0 <= j < |rows| && rows[j] == c[i];
    }
  }

  /** The sorted rows list every bucket exactly once. */
  lemma SortedRowsKeys(g: Grouping)
    requires WellFormed(g)
    ensures |SortedRows(g)| == |g.order|
    ensures forall i, j :: 0 <= i < j < |SortedRows(g)| ==> SortedRows(g)[i].date != SortedRows(g)[j].date
    ensures forall k :: k in g.buckets ==> exists i :: 0 <= i < |SortedRows(g)| && SortedRows(g)[i].date == k
  {
    EntriesInBuckets(g);
    var e := EntriesOrder(g.order);
    EntriesOrderPermutation(g.order);
    PermutationNoDup(g.order, e);
    var rows := CommitRows(e, g.buckets);
    CommitRowsDates(e, g.buckets);
    var c := SortBy(rows, CommitKey);
    SortByPermutation(rows, CommitKey);
    RearrangedDates(rows, c);
    forall k | k in g.buckets
      ensures exists i :: 0 <= i < |c| && c[i].date == k
    {
      assert k in multiset(e);
      var a :| 0 <= a < |e| && e[a] == k;
      RowPresent(rows, c, a);
    }
  }

  /** Rearranging rows with distinct dates keeps the dates distinct. */
  lemma RearrangedDates(rows: seq<CommitBucket>, c: seq<CommitBucket>)
    requires multiset(rows) == multiset(c)
    requires forall a, b :: 0 <= a < b < |rows| ==> rows[a].date != rows[b].date
    ensures forall i, j :: 0 <= i < j < |c| ==> c[i].date != c[j].date
  {
    assert NoDup(rows);
    PermutationNoDup(rows, c);
    forall i, j | 0 <= i < j < |c|
      ensures c[i].date != c[j].date
    {
      assert c[i] in multiset(rows) && c[j] in multiset(rows);
      var a :| 0 <= a < |rows| && rows[a] == c[i];
      var b :| 0 <= b < |rows| && rows[b] == c[j];
      assert a != b;
    }
  }

  lemma RowPresent(rows: seq<CommitBucket>, c: seq<CommitBucket>, a: int)
    requires multiset(rows) == multiset(c) && 0 <= a < |rows|
    ensures exists i :: 0 <= i < |c| && c[i].date == rows[a].date
  {
    assert rows[a] in multiset(c);
    var i :| 0 <= i < |c| && c[i] == rows[a];
  }

  /** When no key reads as a date and none is an array index, the rows keep the
      creation order of the keys. */
  lemma SortedRowsUnkeyed(g: Grouping)
    requires WellFormed(g)
    requires forall k :: k in g.order ==> KeyTime(k).None? && !IsArrayIndex(k)
    ensures Map(SortedRows(g), DateOfBucket) == g.order
  {
    assert forall i :: 0 <= i < |g.order| ==> !IsArrayIndex(g.order[i]);
    EntriesOrderNoIndex(g.order);
    UnkeyedRows(g.order, g.buckets);
  }

  /** Rows for keys none of which reads as a date stay in key order under the sort. */
  lemma UnkeyedRows(keys: seq<string>, buckets: map<string, seq<Record>>)
    requires forall i :: 0 <= i < |keys| ==> keys[i] in buckets && KeyTime(keys[i]).None?
    ensures SortBy(CommitRows(keys, buckets), CommitKey) == CommitRows(keys, buckets)
    ensures Map(CommitRows(keys, buckets), DateOfBucket) == keys
  {
    var rows := CommitRows(keys, buckets);
    CommitRowsDates(keys, buckets);
    SortByUnkeyed(rows, CommitKey);
    var dates := Map(rows, DateOfBucket);
    assert forall i :: 0 <= i < |dates| ==> dates[i] == keys[i];
  }

  /** When every key reads as a date, the rows are in ascending order of those dates. */
  lemma SortedRowsKeyed(g: Grouping)
    requires WellFormed(g)
    requires forall k :: k in g.order ==> KeyTime(k).Some?
    ensures AllKeyed(SortedRows(g), CommitKey)
    ensures SortedBy(SortedRows(g), CommitKey)
  {
    EntriesInBuckets(g);
    var e := EntriesOrder(g.order);
    EntriesOrderPermutation(g.order);
    var rows := CommitRows(e, g.buckets);
    CommitRowsDates(e, g.buckets);
    forall a | 0 <= a < |rows|
      ensures CommitKey(rows[a]).Some?
    {
      assert e[a] in multiset(g.order);
    }
    SortBySorted(rows, CommitKey);
  }

  /** What `processCommitData(rawData, {timeRange, filter: keep})` returns, or the error
      it throws. */
  function CommitReportOf(rawData: seq<Record>, timeRange: string, keep: Record -> bool): Result<CommitReport>
  {
    var filtered := Filter(rawData, keep);
    match GroupAll(filtered, ByPeriod(timeRange))
    case Err(e) => Err(e)
    case Ok(g) =>
      GroupAllOrder(filtered, ByPeriod(timeRange), InheritedMembers);
      var commits := SortedRows(g);
      Ok(CommitReport(commits, CommitSummaryOf(commits, filtered)))
  }

  /** The `Object.entries(groupedData).map(…)` loop: one row per listed key, with the
      bucket's size and its distinct authors and repositories. */
  method BuildCommitRows(entries: seq<string>, buckets: map<string, seq<Record>>)
    returns (rows: seq<CommitBucket>)
    requires forall i :: 0 <= i < |entries| ==> entries[i] in buckets
    ensures rows == CommitRows(entries, buckets)
  {
    rows := [];
    for i := 0 to |entries|
      invariant rows == CommitRows(entries[..i], buckets)
    {
      assert entries[..i + 1][..i] == entries[..i];
      var bucket := buckets[entries[i]];
      var authors := ExtractUniqueAuthors(bucket);
      var repositories := ExtractUniqueRepositories(bucket);
      rows := rows + [CommitBucket(entries[i], |bucket|, authors, repositories)];
    }
    assert entries[..|entries|] == entries;
  }

  /** `DataProcessor.processCommitData`; `keep` is `options.filter` (the default keeps every
      record) and `timeRange` is `options.timeRange` (default `daily`). */
  method ProcessCommitData(rawData: seq<Record>, timeRange: string, keep: Record -> bool)
    returns (r: Result<CommitReport>)
    ensures r == CommitReportOf(rawData, timeRange, keep)
  {
    var filtered := Filter(rawData, keep);
    var grouped := GroupByTimePeriod(filtered, timeRange);
    if grouped.Err? {
      return Err(grouped.error);
    }
    var g := grouped.value;
    GroupAllOrder(filtered, ByPeriod(timeRange), InheritedMembers);
    EntriesInBuckets(g);
    var rows := BuildCommitRows(EntriesOrder(g.order), g.buckets);
    var commits := SortBy(rows, CommitKey);
    assert commits == SortedRows(g);
    var allAuthors := ExtractUniqueAuthors(filtered);
    var allRepositories := ExtractUniqueRepositories(filtered);
    var total := SumOf(commits, CountOf);
    var summary := CommitSummary(total, RoundNum(Divide(total as real, |commits| as real)),
                                 SpreadMax(Map(commits, CountOf)), |allAuthors|, |allRepositories|);
    r := Ok(CommitReport(commits, summary));
  }

  // ---------------------------------------------------------------------------------
  // What processCommitData promises

  /** Which records a time-period grouping accepts: `weekly` and `monthly` keys always
      exist, the daily key exactly when the record has a valid date; and no period key
      ever names an inherited member, since every one of them holds a hyphen. */
  lemma PeriodGroupable(tr: string, r: Record)
    ensures tr == "weekly" || tr == "monthly" ==> Groupable(ByPeriod(tr), r)
    ensures tr != "weekly" && tr != "monthly" ==> (Groupable(ByPeriod(tr), r) <==> Moment(r).Some?)
    ensures KeyOf(ByPeriod(tr), r).Err? ==> KeyOf(ByPeriod(tr), r).error == InvalidTimeValue
  {
    var d := Moment(r);
    if d.None? {
      NaNKeysHyphen();
    } else if tr == "weekly" {
      WeeklyKeyHyphen(d.value);
    } else if tr == "monthly" {
      MonthlyKeyHyphen(d.value);
    } else {
      DailyKeyHyphen(d.value);
    }
  }

  lemma NaNKeysHyphen()
    ensures "NaN-WNaN" !in InheritedMembers && "NaN-NaN" !in InheritedMembers
  {
    HyphenNotInherited("NaN-WNaN", 3);
    HyphenNotInherited("NaN-NaN", 3);
  }

  lemma WeeklyKeyHyphen(t: Timestamp)
    ensures WeeklyKey(t) !in InheritedMembers
  {
    var y := IntToString(t.date.year);
    assert WeeklyKey(t)[|y|] == '-';
    HyphenNotInherited(WeeklyKey(t), |y|);
  }

  lemma MonthlyKeyHyphen(t: Timestamp)
    ensures MonthlyKey(t) !in InheritedMembers
  {
    var y := IntToString(t.date.year);
    assert MonthlyKey(t)[|y|] == '-';
    HyphenNotInherited(MonthlyKey(t), |y|);
  }

  lemma DailyKeyHyphen(t: Timestamp)
    ensures DailyKey(t) !in InheritedMembers
  {
    var y := IsoYear(t.date.year);
    assert DailyKey(t)[|y|] == '-';
    HyphenNotInherited(DailyKey(t), |y|);
  }

  /** `processCommitData` throws exactly when a kept record has no bucket key, which
      happens only with the daily key and a record without a valid date; what it
      throws is then the `RangeError` of `toISOString`. */
  lemma {:induction false} CommitReportFails(rawData: seq<Record>, tr: string, keep: Record -> bool)
    ensures CommitReportOf(rawData, tr, keep).Ok? <==>
      forall i :: 0 <= i < |rawData| && keep(rawData[i]) ==> Groupable(ByPeriod(tr), rawData[i])
    ensures tr == "weekly" || tr == "monthly" ==> CommitReportOf(rawData, tr, keep).Ok?
    ensures tr != "weekly" && tr != "monthly" ==>
      (CommitReportOf(rawData, tr, keep).Ok? <==>
       forall i :: 0 <= i < |rawData| && keep(rawData[i]) ==> Moment(rawData[i]).Some?)
    ensures CommitReportOf(rawData, tr, keep).Err? ==>
      CommitReportOf(rawData, tr, keep).error == InvalidTimeValue
  {
    var filtered := Filter(rawData, keep);
    FilterMembers(rawData, keep);
    var rule := ByPeriod(tr);
    GroupAllFails(filtered, rule, InheritedMembers);
    forall i | 0 <= i < |rawData|
      ensures Groupable(rule, rawData[i]) <==> (tr == "weekly" || tr == "monthly" || Moment(rawData[i]).Some?)
    {
      PeriodGroupable(tr, rawData[i]);
    }
    forall i | 0 <= i < |filtered|
      ensures KeyOf(rule, filtered[i]).Err? ==> KeyOf(rule, filtered[i]).error == InvalidTimeValue
      ensures KeyOf(rule, filtered[i]).Ok? ==> Groupable(rule, filtered[i])
    {
      PeriodGroupable(tr, filtered[i]);
    }
  }

  /** Each entry of `commits` describes one bucket: the records whose key is its `date`
      (at least one), counted, with their distinct authors and repositories. */
  lemma CommitRowsContent(rawData: seq<Record>, tr: string, keep: Record -> bool)
    requires CommitReportOf(rawData, tr, keep).Ok?
    ensures var c := CommitReportOf(rawData, tr, keep).value.commits;
      forall i :: 0 <= i < |c| ==>
        c[i] == CommitRow(c[i].date, Select(Filter(rawData, keep), ByPeriod(tr), c[i].date)) &&
        c[i].count > 0
  {
    var filtered := Filter(rawData, keep);
    var rule := ByPeriod(tr);
    var g := GroupAll(filtered, rule).value;
    GroupAllOrder(filtered, rule, InheritedMembers);
    GroupAllBuckets(filtered, rule, InheritedMembers);
    SortedRowsContent(g);
    assert CommitReportOf(rawData, tr, keep).value.commits == SortedRows(g);
  }

  /** `commits` holds one entry per distinct key of the kept records: the dates are
      distinct, and every kept record's key is one of them. */
  lemma CommitRowsCover(rawData: seq<Record>, tr: string, keep: Record -> bool)
    requires CommitReportOf(rawData, tr, keep).Ok?
    ensures var c := CommitReportOf(rawData, tr, keep).value.commits;
      var filtered := Filter(rawData, keep);
      |c| == |FirstSeen(Keys(filtered, ByPeriod(tr)))| &&
      (forall i, j :: 0 <= i < j < |c| ==> c[i].date != c[j].date) &&
      (forall j :: 0 <= j < |filtered| ==>
         exists i :: 0 <= i < |c| && KeyOf(ByPeriod(tr), filtered[j]) == Ok(c[i].date))
  {
    var filtered := Filter(rawData, keep);
    var rule := ByPeriod(tr);
    var g := GroupAll(filtered, rule).value;
    GroupAllOrder(filtered, rule, InheritedMembers);
    SortedRowsKeys(g);
    var c := SortedRows(g);
    assert CommitReportOf(rawData, tr, keep).value.commits == c;
    GroupAllKeys(filtered, rule, InheritedMembers);
    forall j | 0 <= j < |filtered|
      ensures exists i :: 0 <= i < |c| && KeyOf(rule, filtered[j]) == Ok(c[i].date)
    {
      var k := KeyOf(rule, filtered[j]).value;
      assert k in g.buckets;
      var i :| 0 <= i < |c| && c[i].date == k;
    }
  }

  /** The summary counts every kept record once; with no kept record there are no
      buckets, the average is 0/0 = NaN and the maximum of nothing is -Infinity;
      otherwise the average is the total over the number of buckets, rounded. */
  lemma CommitSummaryFacts(rawData: seq<Record>, tr: string, keep: Record -> bool)
    requires CommitReportOf(rawData, tr, keep).Ok?
    ensures var r := CommitReportOf(rawData, tr, keep).value;
      var n := |Filter(rawData, keep)|;
      r.summary.totalCommits == n &&
      (n == 0 <==> |r.commits| == 0) &&
      r.summary.averageCommitsPerPeriod ==
        (if n == 0 then NaN else Finite(Round(n as real / |r.commits| as real) as real)) &&
      (n == 0 <==> r.summary.maxCommitsInPeriod == NegInfinity)
  {
    var filtered := Filter(rawData, keep);
    var rule := ByPeriod(tr);
    var g := GroupAll(filtered, rule).value;
    GroupAllOrder(filtered, rule, InheritedMembers);
    GroupAllTotal(filtered, rule, InheritedMembers, One);
    CountRecords(filtered);
    SortedRowsTotal(g);
    SortedRowsKeys(g);
    var c := SortedRows(g);
    assert CommitReportOf(rawData, tr, keep).value == CommitReport(c, CommitSummaryOf(c, filtered));
    if |filtered| > 0 {
      GroupAllKeys(filtered, rule, InheritedMembers);
      assert KeyOf(rule, filtered[0]).value in g.order;
    }
  }

  /** A weekly key never reads as a date and is never an array index. */
  lemma WeeklyKeyFacts(r: Record)
    ensures KeyOf(ByPeriod("weekly"), r).Ok?
    ensures KeyTime(KeyOf(ByPeriod("weekly"), r).value).None?
    ensures !IsArrayIndex(KeyOf(ByPeriod("weekly"), r).value)
  {
    var d := Moment(r);
    if d.Some? {
      WeeklyKeyUnparsable(d.value);
      HyphenNotIndex(WeeklyKey(d.value), |IntToString(d.value.date.year)|);
    } else {
      NaNKeysUnparsable();
      HyphenNotIndex("NaN-WNaN", 3);
    }
  }

  /** With `weekly` no key reads as a date, every comparison of the sort is NaN, and
      `commits` lists the weeks in the order their first record appears. */
  lemma WeeklyCommitOrder(rawData: seq<Record>, keep: Record -> bool)
    ensures CommitReportOf(rawData, "weekly", keep).Ok?
    ensures Map(CommitReportOf(rawData, "weekly", keep).value.commits, DateOfBucket) ==
            FirstSeen(Keys(Filter(rawData, keep), ByPeriod("weekly")))
  {
    CommitReportFails(rawData, "weekly", keep);
    var filtered := Filter(rawData, keep);
    var rule := ByPeriod("weekly");
    var g := GroupAll(filtered, rule).value;
    GroupAllOrder(filtered, rule, InheritedMembers);
    GroupAllOrderKeys(filtered, rule, InheritedMembers);
    forall k | k in g.order
      ensures KeyTime(k).None? && !IsArrayIndex(k)
    {
      var j :| 0 <= j < |filtered| && KeyOf(rule, filtered[j]) == Ok(k);
      WeeklyKeyFacts(filtered[j]);
    }
    SortedRowsUnkeyed(g);
    assert CommitReportOf(rawData, "weekly", keep).value.commits == SortedRows(g);
  }

  /** A daily key reads back as midnight of the record's day. */
  lemma DailyKeyReads(tr: string, r: Record)
    requires tr != "weekly" && tr != "monthly" && KeyOf(ByPeriod(tr), r).Ok?
    ensures KeyTime(KeyOf(ByPeriod(tr), r).value) == Some(TimeValue(Timestamp(Moment(r).value.date, 0)))
  {
    DailyKeyRoundTrip(Moment(r).value);
  }

  /** A monthly key of a four-digit year reads back as midnight of the first of the month. */
  lemma MonthlyKeyReads(r: Record)
    requires Moment(r).Some? && 1000 <= Moment(r).value.date.year <= 9999
    ensures var d := Moment(r).value.date;
      KeyTime(KeyOf(ByPeriod("monthly"), r).value) == Some(TimeValue(Timestamp(Date(d.year, d.month, 1), 0)))
  {
    MonthlyKeyRoundTrip(Moment(r).value);
  }

  /** With the daily key every bucket's date reads back as midnight of its day, so the
      sort puts `commits` in chronological order. */
  lemma DailyCommitOrder(rawData: seq<Record>, tr: string, keep: Record -> bool)
    requires tr != "weekly" && tr != "monthly"
    requires CommitReportOf(rawData, tr, keep).Ok?
    ensures AllKeyed(CommitReportOf(rawData, tr, keep).value.commits, CommitKey)
    ensures SortedBy(CommitReportOf(rawData, tr, keep).value.commits, CommitKey)
  {
    var filtered := Filter(rawData, keep);
    var rule := ByPeriod(tr);
    var g := GroupAll(filtered, rule).value;
    GroupAllOrder(filtered, rule, InheritedMembers);
    GroupAllOrderKeys(filtered, rule, InheritedMembers);
    forall k | k in g.order
      ensures KeyTime(k).Some?
    {
      var j :| 0 <= j < |filtered| && KeyOf(rule, filtered[j]) == Ok(k);
      DailyKeyReads(tr, filtered[j]);
    }
    SortedRowsKeyed(g);
    assert CommitReportOf(rawData, tr, keep).value.commits == SortedRows(g);
  }

  /** With the monthly key and every kept record dated in the years 1000–9999, every
      bucket's date reads back as the first of its month and `commits` is in
      chronological order. */
  lemma MonthlyCommitOrder(rawData: seq<Record>, keep: Record -> bool)
    requires forall i :: 0 <= i < |rawData| && keep(rawData[i]) ==>
      Moment(rawData[i]).Some? && 1000 <= Moment(rawData[i]).value.date.year <= 9999
    ensures CommitReportOf(rawData, "monthly", keep).Ok?
    ensures AllKeyed(CommitReportOf(rawData, "monthly", keep).value.commits, CommitKey)
    ensures SortedBy(CommitReportOf(rawData, "monthly", keep).value.commits, CommitKey)
  {
    CommitReportFails(rawData, "monthly", keep);
    var filtered := Filter(rawData, keep);
    FilterMembers(rawData, keep);
    var rule := ByPeriod("monthly");
    var g := GroupAll(filtered, rule).value;
    GroupAllOrder(filtered, rule, InheritedMembers);
    GroupAllOrderKeys(filtered, rule, InheritedMembers);
    forall k | k in g.order
      ensures KeyTime(k).Some?
    {
      var j :| 0 <= j < |filtered| && KeyOf(rule, filtered[j]) == Ok(k);
      assert filtered[j] in rawData && keep(filtered[j]);
      MonthlyKeyReads(filtered[j]);
    }
    SortedRowsKeyed(g);
    assert CommitReportOf(rawData, "monthly", keep).value.commits == SortedRows(g);
  }

  // ---------------------------------------------------------------------------------
  // processCodeQualityData

  /** The metrics reported when `options.metrics` is not given. */
  const DefaultMetrics: seq<string> := ["bugs", "vulnerabilities", "codeSmells", "coverage"]

  /** `new Date(item.date)` as the quality sort compares it: the time value, or `None`
      for NaN. Only the `date` field is consulted. */
  function DateKey(r: Record): Option<int>
  {
    match DateOf(r.date)
    case None => None
    case Some(t) => Some(TimeValue(t))
  }

  /** `item[metric] || 0`: an absent metric reads as 0. */
  function MetricValue(r: Record, m: string): int
  {
    if m in r.metrics then r.metrics[m] else 0
  }

  /** One entry of `qualityData`: the record's `date` and one value per requested metric. */
  datatype QualityRow = QualityRow(date: DateField, values: map<string, int>)

  function QualityRowOf(metrics: seq<string>, r: Record): QualityRow
  {
    QualityRow(r.date, map m | m in metrics :: MetricValue(r, m))
  }

  /** The callback of `filteredData.map(…)`. */
  function RowMaker(metrics: seq<string>): Record -> QualityRow
  {
    r => QualityRowOf(metrics, r)
  }

  /** `new Date(row.date)` for a row. */
  function RowKey(row: QualityRow): Option<int>
  {
    match DateOf(row.date)
    case None => None
    case Some(t) => Some(TimeValue(t))
  }

  /** `item[metric] || 0` on a row. */
  function RowValue(m: string): QualityRow -> int
  {
    (row: QualityRow) => if m in row.values then row.values[m] else 0
  }

  /** The summary of one metric. `min` and `max` are `Math.min`/`Math.max` of the
      values, which are +Infinity and -Infinity for no values. */
  datatype MetricSummary = MetricSummary(current: int, min: Num, max: Num, average: real, trend: int)

  function SummaryOf(values: seq<int>): MetricSummary
  {
    var n := |values|;
    MetricSummary(if n > 0 then values[n - 1] else 0,
                  SpreadMin(values), SpreadMax(values),
                  RoundTenth(Sum(values) as real / (if n > 1 then n else 1) as real),
                  if n > 1 then values[n - 1] - values[0] else 0)
  }

  /** `_calculateMetricsSummary(data, metrics)`: one summary per requested metric. */
  function MetricsSummaryOf(data: seq<QualityRow>, metrics: seq<string>): map<string, MetricSummary>
  {
    map m | m in metrics :: SummaryOf(Map(data, RowValue(m)))
  }

  datatype QualityReport = QualityReport(qualityData: seq<QualityRow>, summary: map<string, MetricSummary>)

  /** What `processCodeQualityData(rawData, {metrics, filter: keep})` returns. */
  function QualityReportOf(rawData: seq<Record>, metrics: seq<string>, keep: Record -> bool): QualityReport
  {
    var rows := Map(SortBy(Filter(rawData, keep), DateKey), RowMaker(metrics));
    QualityReport(rows, MetricsSummaryOf(rows, metrics))
  }

  /** `DataProcessor.processCodeQualityData`: the kept records are copied into a fresh
      array, which is sorted in place by date, then turned into rows. */
  method ProcessCodeQualityData(rawData: seq<Record>, metrics: seq<string>, keep: Record -> bool)
    returns (report: QualityReport)
    ensures report == QualityReportOf(rawData, metrics, keep)
  {
    var filtered := Filter(rawData, keep);
    var a := new Record[|filtered|](i requires 0 <= i < |filtered| => filtered[i]);
    assert a[..] == filtered;
    SortInPlace(a, DateKey);
    var rows := Map(a[..], RowMaker(metrics));
    report := QualityReport(rows, MetricsSummaryOf(rows, metrics));
  }

  /** One row per kept record, each carrying exactly the requested metrics. */
  lemma QualityRows(rawData: seq<Record>, metrics: seq<string>, keep: Record -> bool)
    ensures var rows := QualityReportOf(rawData, metrics, keep).qualityData;
      multiset(rows) == multiset(Map(Filter(rawData, keep), RowMaker(metrics))) &&
      forall i :: 0 <= i < |rows| ==> rows[i].values.Keys == set m | m in metrics
  {
    var filtered := Filter(rawData, keep);
    SortByPermutation(filtered, DateKey);
    MapPermutation(SortBy(filtered, DateKey), filtered, RowMaker(metrics));
  }

  /** When every kept record has a valid `date`, the rows are in ascending date order. */
  lemma QualityRowsSorted(rawData: seq<Record>, metrics: seq<string>, keep: Record -> bool)
    requires forall i :: 0 <= i < |rawData| && keep(rawData[i]) ==> DateKey(rawData[i]).Some?
    ensures AllKeyed(QualityReportOf(rawData, metrics, keep).qualityData, RowKey)
    ensures SortedBy(QualityReportOf(rawData, metrics, keep).qualityData, RowKey)
  {
    var filtered := Filter(rawData, keep);
    FilterMembers(rawData, keep);
    assert AllKeyed(filtered, DateKey);
    SortBySorted(filtered, DateKey);
    var sorted := SortBy(filtered, DateKey);
    RowKeys(metrics, sorted);
    assert QualityReportOf(rawData, metrics, keep).qualityData == Map(sorted, RowMaker(metrics));
  }

  /** A row reads its date exactly as the record it came from. */
  lemma RowKeys(metrics: seq<string>, s: seq<Record>)
    requires AllKeyed(s, DateKey) && SortedBy(s, DateKey)
    ensures AllKeyed(Map(s, RowMaker(metrics)), RowKey)
    ensures SortedBy(Map(s, RowMaker(metrics)), RowKey)
  {
    var rows := Map(s, RowMaker(metrics));
    assert forall i :: 0 <= i < |rows| ==> RowKey(rows[i]) == DateKey(s[i]);
  }

  /** The summary of a metric: with no values everything is 0 except `min` (+Infinity)
      and `max` (-Infinity); otherwise `current` is the last value, `trend` the change
      from the first to the last, and the rounded average lies between `min` and `max`. */
  lemma SummaryFacts(values: seq<int>)
    ensures |values| == 0 ==> SummaryOf(values) == MetricSummary(0, PosInfinity, NegInfinity, 0.0, 0)
    ensures |values| > 0 ==>
      var s := SummaryOf(values);
      s.min.Finite? && s.max.Finite? && s.min.value <= s.average <= s.max.value &&
      s.current == values[|values| - 1] && values[0] + s.trend == s.current
  {
    if |values| > 0 {
      MeanBounds(values);
      RoundTenthBounds(Sum(values) as real / |values| as real, MinInt(values), MaxInt(values));
    } else {
      assert Round(0.0) == 0;
    }
  }

  // ---------------------------------------------------------------------------------
  // processStoryPointsData

  /** One entry of `storyPoints`. */
  datatype SprintRow = SprintRow(period: string, completed: int, total: int, stories: int)

  datatype StorySummary = StorySummary(totalStories: int, totalPoints: int, completedPoints: int,
                                       velocity: real, completionRate: int)

  datatype StoryReport = StoryReport(storyPoints: seq<SprintRow>, summary: StorySummary)

  function CompletedOf(row: SprintRow): int { row.completed }

  function TotalOf(row: SprintRow): int { row.total }

  function StoriesOf(row: SprintRow): int { row.stories }

  /** The grouping a `timeRange` option selects: by sprint for `sprint`, else by period. */
  function StoryRule(timeRange: string): GroupBy
  {
    if timeRange == "sprint" then BySprint else ByPeriod(timeRange)
  }

  /** The `map` callback: points of done stories, all points, and the story count. */
  function SprintRowOf(period: string, stories: seq<Record>): SprintRow
  {
    SprintRow(period, SumOf(Filter(stories, IsDone), PointsOf), SumOf(stories, PointsOf), |stories|)
  }

  /** `Object.entries(groupedData).map(…)` for entries listed in order `keys`. */
  function SprintRows(keys: seq<string>, buckets: map<string, seq<Record>>): (rows: seq<SprintRow>)
    requires forall i :: 0 <= i < |keys| ==> keys[i] in buckets
    ensures |rows| == |keys|
  {
    if |keys| == 0 then []
    else SprintRows(keys[..|keys| - 1], buckets) + [SprintRowOf(keys[|keys| - 1], buckets[keys[|keys| - 1]])]
  }

  /** The `summary` object; `velocity` is 0 without sprints, and `completionRate` divides
      by at least 1. */
  function StorySummaryOf(rows: seq<SprintRow>, filtered: seq<Record>): StorySummary
  {
    var completed := SumOf(rows, CompletedOf);
    var total := SumOf(rows, TotalOf);
    var velocity := if |rows| > 0 then completed as real / |rows| as real else 0.0;
    StorySummary(|filtered|, SumOf(filtered, PointsOf), SumOf(Filter(filtered, IsDone), PointsOf),
                 RoundTenth(velocity), Percent(completed, total))
  }

  /** `Math.round(completed / Math.max(1, total) * 100)`. */
  function Percent(completed: int, total: int): int
  {
    Round(completed as real / (if total > 1 then total else 1) as real * 100.0)
  }

  /** The rows of a grouping, in `Object.entries` order. */
  function StoryRows(g: Grouping): (rows: seq<SprintRow>)
    requires WellFormed(g)
    ensures |rows| == |g.order|
  {
    EntriesInBuckets(g);
    SprintRows(EntriesOrder(g.order), g.buckets)
  }

  /** What `processStoryPointsData(rawData, {timeRange, filter: keep})` returns, or the
      error it throws. */
  function StoryReportOf(rawData: seq<Record>, timeRange: string, keep: Record -> bool): Result<StoryReport>
  {
    var filtered := Filter(rawData, keep);
    match GroupAll(filtered, StoryRule(timeRange))
    case Err(e) => Err(e)
    case Ok(g) =>
      GroupAllOrder(filtered, StoryRule(timeRange), InheritedMembers);
      var rows := StoryRows(g);
      Ok(StoryReport(rows, StorySummaryOf(rows, filtered)))
  }

  /** `DataProcessor.processStoryPointsData`; `timeRange` defaults to `sprint`. */
  method ProcessStoryPointsData(rawData: seq<Record>, timeRange: string, keep: Record -> bool)
    returns (r: Result<StoryReport>)
    ensures r == StoryReportOf(rawData, timeRange, keep)
  {
    var filtered := Filter(rawData, keep);
    var grouped;
    if timeRange == "sprint" {
      grouped := GroupBySprint(filtered);
    } else {
      grouped := GroupByTimePeriod(filtered, timeRange);
    }
    assert grouped == GroupAll(filtered, StoryRule(timeRange));
    if grouped.Err? {
      return Err(grouped.error);
    }
    var g := grouped.value;
    GroupAllOrder(filtered, StoryRule(timeRange), InheritedMembers);
    EntriesInBuckets(g);
    var rows := SprintRows(EntriesOrder(g.order), g.buckets);
    var summary := StorySummaryOf(rows, filtered);
    r := Ok(StoryReport(rows, summary));
  }

  function PeriodOf(row: SprintRow): string { row.period }

  /** Summing the points of the done stories equals summing `DonePoints` over all. */
  lemma {:induction false} DoneTotal(rs: seq<Record>)
    ensures SumOf(Filter(rs, IsDone), PointsOf) == SumOf(rs, DonePoints)
  {
    if |rs| > 0 {
      DoneTotal(rs[..|rs| - 1]);
    }
  }

  /** With no negative estimates, the done points are between 0 and all the points. */
  lemma {:induction false} DonePointsBounds(rs: seq<Record>)
    requires forall i :: 0 <= i < |rs| ==> rs[i].points >= 0
    ensures 0 <= SumOf(rs, DonePoints) <= SumOf(rs, PointsOf)
  {
    if |rs| > 0 {
      DonePointsBounds(rs[..|rs| - 1]);
    }
  }

  lemma {:induction false} SprintRowsAt(keys: seq<string>, buckets: map<string, seq<Record>>)
    requires forall i :: 0 <= i < |keys| ==> keys[i] in buckets
    ensures forall i :: 0 <= i < |keys| ==>
      SprintRows(keys, buckets)[i] == SprintRowOf(keys[i], buckets[keys[i]])
  {
    if |keys| > 0 {
      SprintRowsAt(keys[..|keys| - 1], buckets);
    }
  }

  /** The row totals add up to the totals over the listed buckets. */
  lemma {:induction false} SprintRowsSum(keys: seq<string>, buckets: map<string, seq<Record>>)
    requires forall i :: 0 <= i < |keys| ==> keys[i] in buckets
    ensures SumOf(SprintRows(keys, buckets), TotalOf) == SumOf(keys, Weigh(buckets, PointsOf))
    ensures SumOf(SprintRows(keys, buckets), CompletedOf) == SumOf(keys, Weigh(buckets, DonePoints))
    ensures SumOf(SprintRows(keys, buckets), StoriesOf) == SumOf(keys, Weigh(buckets, One))
  {
    if |keys| > 0 {
      var p := keys[..|keys| - 1];
      var k := keys[|keys| - 1];
      SprintRowsSum(p, buckets);
      CountRecords(buckets[k]);
      DoneTotal(buckets[k]);
      var rows := SprintRows(keys, buckets);
      assert rows[..|rows| - 1] == SprintRows(p, buckets);
    }
  }

  /** The report is built exactly when the grouping is, and fails with its error. */
  lemma ReportOfGrouping(rawData: seq<Record>, tr: string, keep: Record -> bool)
    ensures var g := GroupAll(Filter(rawData, keep), StoryRule(tr));
      StoryReportOf(rawData, tr, keep).Ok? == g.Ok? &&
      (g.Err? ==> StoryReportOf(rawData, tr, keep) == Err(g.error))
  {
  }

  /** The report fails exactly when some kept story cannot be grouped. */
  lemma {:induction false} StoryReportFails(rawData: seq<Record>, tr: string, keep: Record -> bool)
    ensures var filtered := Filter(rawData, keep);
      StoryReportOf(rawData, tr, keep).Ok? <==>
        forall i :: 0 <= i < |filtered| ==> Groupable(StoryRule(tr), filtered[i])
  {
    var filtered := Filter(rawData, keep);
    ReportOfGrouping(rawData, tr, keep);
    GroupAllFails(filtered, StoryRule(tr), InheritedMembers);
  }

  /** With the default `sprint` range the report fails exactly when a sprint label names
      an inherited member of `{}`, and the failure is then the `push` that is not a
      function. */
  lemma {:induction false} SprintReportFails(rawData: seq<Record>, keep: Record -> bool)
    ensures var filtered := Filter(rawData, keep);
      StoryReportOf(rawData, "sprint", keep).Ok? <==>
        forall i :: 0 <= i < |filtered| ==> SprintOf(filtered[i]) !in InheritedMembers
    ensures StoryReportOf(rawData, "sprint", keep).Err? ==>
      StoryReportOf(rawData, "sprint", keep).error == PushNotAFunction
  {
    var filtered := Filter(rawData, keep);
    ReportOfGrouping(rawData, "sprint", keep);
    GroupAllFails(filtered, BySprint, InheritedMembers);
    assert forall r :: Groupable(BySprint, r) <==> SprintOf(r) !in InheritedMembers;
  }

  /** Nothing is lost or counted twice: the sprint rows add up to the summary totals, and
      those are the totals over the kept stories. */
  lemma StoryTotals(rawData: seq<Record>, tr: string, keep: Record -> bool)
    requires StoryReportOf(rawData, tr, keep).Ok?
    ensures var r := StoryReportOf(rawData, tr, keep).value;
      var filtered := Filter(rawData, keep);
      SumOf(r.storyPoints, StoriesOf) == r.summary.totalStories == |filtered| &&
      SumOf(r.storyPoints, TotalOf) == r.summary.totalPoints == SumOf(filtered, PointsOf) &&
      SumOf(r.storyPoints, CompletedOf) == r.summary.completedPoints == SumOf(filtered, DonePoints)
  {
    var filtered := Filter(rawData, keep);
    var rule := StoryRule(tr);
    var g := GroupAll(filtered, rule).value;
    GroupAllOrder(filtered, rule, InheritedMembers);
    EntriesInBuckets(g);
    var e := EntriesOrder(g.order);
    SprintRowsSum(e, g.buckets);
    EntriesOrderSum(g.order, Weigh(g.buckets, PointsOf));
    EntriesOrderSum(g.order, Weigh(g.buckets, DonePoints));
    EntriesOrderSum(g.order, Weigh(g.buckets, One));
    GroupAllTotal(filtered, rule, InheritedMembers, PointsOf);
    GroupAllTotal(filtered, rule, InheritedMembers, DonePoints);
    GroupAllTotal(filtered, rule, InheritedMembers, One);
    CountRecords(filtered);
    DoneTotal(filtered);
    assert StoryReportOf(rawData, tr, keep).value.storyPoints == StoryRows(g);
  }

  /** At the level of one grouping: row `i` summarises the bucket of the `i`-th key in
      `Object.entries` order. */
  lemma StoryRowsAt(g: Grouping)
    requires WellFormed(g)
    ensures Map(StoryRows(g), PeriodOf) == EntriesOrder(g.order)
    ensures forall i :: 0 <= i < |g.order| ==>
      EntriesOrder(g.order)[i] in g.buckets &&
      StoryRows(g)[i] == SprintRowOf(EntriesOrder(g.order)[i], g.buckets[EntriesOrder(g.order)[i]])
  {
    EntriesInBuckets(g);
    SprintRowsAt(EntriesOrder(g.order), g.buckets);
  }

  /** Each row summarises the kept stories filed under its period, which has at least one;
      the periods are the distinct keys in `Object.entries` order. */
  lemma StoryRowsContent(rawData: seq<Record>, tr: string, keep: Record -> bool)
    requires StoryReportOf(rawData, tr, keep).Ok?
    ensures var rows := StoryReportOf(rawData, tr, keep).value.storyPoints;
      var filtered := Filter(rawData, keep);
      Map(rows, PeriodOf) == EntriesOrder(FirstSeen(Keys(filtered, StoryRule(tr)))) &&
      forall i :: 0 <= i < |rows| ==>
        rows[i] == SprintRowOf(rows[i].period, Select(filtered, StoryRule(tr), rows[i].period)) &&
        rows[i].stories > 0
  {
    var filtered := Filter(rawData, keep);
    var rule := StoryRule(tr);
    var g := GroupAll(filtered, rule).value;
    GroupAllOrder(filtered, rule, InheritedMembers);
    GroupAllBuckets(filtered, rule, InheritedMembers);
    StoryRowsAt(g);
    assert StoryReportOf(rawData, tr, keep).value.storyPoints == StoryRows(g);
  }

  /** With the default `sprint` range and no sprint label that reads as an array index,
      the rows follow the order in which the sprints first appear. */
  lemma SprintOrder(rawData: seq<Record>, keep: Record -> bool)
    requires forall r :: r in Filter(rawData, keep) ==> !IsArrayIndex(SprintOf(r))
    requires StoryReportOf(rawData, "sprint", keep).Ok?
    ensures Map(StoryReportOf(rawData, "sprint", keep).value.storyPoints, PeriodOf) ==
            FirstSeen(Map(Filter(rawData, keep), SprintOf))
  {
    var filtered := Filter(rawData, keep);
    var g := GroupAll(filtered, BySprint).value;
    GroupAllOrder(filtered, BySprint, InheritedMembers);
    StoryRowsAt(g);
    SprintKeys(filtered);
    SprintLabelsNoIndex(filtered);
    EntriesOrderNoIndex(g.order);
    assert StoryReportOf(rawData, "sprint", keep).value.storyPoints == StoryRows(g);
  }

  /** Distinct sprint labels, none an array index when no story's label is one. */
  lemma SprintLabelsNoIndex(rs: seq<Record>)
    requires forall r :: r in rs ==> !IsArrayIndex(SprintOf(r))
    ensures forall i :: 0 <= i < |FirstSeen(Map(rs, SprintOf))| ==>
      !IsArrayIndex(FirstSeen(Map(rs, SprintOf))[i])
  {
    var m := Map(rs, SprintOf);
    var ks := FirstSeen(m);
    FirstSeenMembers(m);
    forall i | 0 <= i < |ks|
      ensures !IsArrayIndex(ks[i])
    {
      assert ks[i] in m;
      var j :| 0 <= j < |m| && m[j] == ks[i];
      assert rs[j] in rs;
    }
  }

  /** Grouping by sprint keys every story by its sprint label. */
  lemma {:induction false} SprintKeys(rs: seq<Record>)
    ensures Keys(rs, BySprint) == Map(rs, SprintOf)
  {
    if |rs| > 0 {
      SprintKeys(rs[..|rs| - 1]);
      MapAppend(rs[..|rs| - 1], [rs[|rs| - 1]], SprintOf);
      assert rs == rs[..|rs| - 1] + [rs[|rs| - 1]];
    }
  }

  /** With no negative estimates, each sprint completes between 0 and all its points. */
  lemma SprintCompletion(rawData: seq<Record>, tr: string, keep: Record -> bool)
    requires StoryReportOf(rawData, tr, keep).Ok?
    requires forall r :: r in Filter(rawData, keep) ==> r.points >= 0
    ensures var rows := StoryReportOf(rawData, tr, keep).value.storyPoints;
      forall i :: 0 <= i < |rows| ==> 0 <= rows[i].completed <= rows[i].total
  {
    var filtered := Filter(rawData, keep);
    var rows := StoryReportOf(rawData, tr, keep).value.storyPoints;
    StoryRowsContent(rawData, tr, keep);
    forall i | 0 <= i < |rows|
      ensures 0 <= rows[i].completed <= rows[i].total
    {
      SelectFrom(filtered, StoryRule(tr), rows[i].period);
      RowCompletion(rows[i].period, Select(filtered, StoryRule(tr), rows[i].period));
    }
  }

  lemma RowCompletion(period: string, stories: seq<Record>)
    requires forall r :: r in stories ==> r.points >= 0
    ensures 0 <= SprintRowOf(period, stories).completed <= SprintRowOf(period, stories).total
  {
    DonePointsBounds(stories);
    DoneTotal(stories);
  }

  /** With no negative estimates, `completionRate` is a percentage: 0 when there are no
      points and 100 when every point is done. */
  lemma CompletionRate(rawData: seq<Record>, tr: string, keep: Record -> bool)
    requires StoryReportOf(rawData, tr, keep).Ok?
    requires forall r :: r in Filter(rawData, keep) ==> r.points >= 0
    ensures var s := StoryReportOf(rawData, tr, keep).value.summary;
      0 <= s.completionRate <= 100 &&
      (s.totalPoints == 0 ==> s.completionRate == 0) &&
      (s.totalPoints > 0 && s.completedPoints == s.totalPoints ==> s.completionRate == 100)
  {
    var filtered := Filter(rawData, keep);
    StoryTotals(rawData, tr, keep);
    DonePointsBounds(filtered);
    var r := StoryReportOf(rawData, tr, keep).value;
    PercentBounds(SumOf(r.storyPoints, CompletedOf), SumOf(r.storyPoints, TotalOf));
  }

  /** Done points out of all points, as a rounded percentage, lie between 0 and 100. */
  lemma PercentBounds(completed: int, total: int)
    requires 0 <= completed <= total
    ensures 0 <= Percent(completed, total) <= 100
    ensures total == 0 ==> Percent(completed, total) == 0
    ensures 0 < completed == total ==> Percent(completed, total) == 100
  {
    var d := if total > 1 then total else 1;
    QuotientBounds(completed, d, 0, 1);
    var q := completed as real / d as real;
    assert 0.0 <= q * 100.0 <= 100.0;
  }

  /** Every record `Select` picks comes from its input. */
  lemma {:induction false} SelectFrom(items: seq<Record>, rule: GroupBy, k: string)
    ensures forall r :: r in Select(items, rule, k) ==> r in items
  {
    if |items| > 0 {
      SelectFrom(items[..|items| - 1], rule, k);
    }
  }

  /** Summing a weight over a sequence is summing the mapped values. */
  lemma {:induction false} SumOfMap<T>(s: seq<T>, f: T -> int)
    ensures SumOf(s, f) == Sum(Map(s, f))
  {
    if |s| > 0 {
      SumOfMap(s[..|s| - 1], f);
      assert Map(s, f)[..|s| - 1] == Map(s[..|s| - 1], f);
    }
  }

  /** `velocity` is 0 without sprints; otherwise it is the mean completed points per
      sprint, to one decimal, so it lies between the least and the most any sprint
      completed. */
  lemma VelocityBounds(rawData: seq<Record>, tr: string, keep: Record -> bool)
    requires StoryReportOf(rawData, tr, keep).Ok?
    ensures var r := StoryReportOf(rawData, tr, keep).value;
      var done := Map(r.storyPoints, CompletedOf);
      (|done| == 0 ==> r.summary.velocity == 0.0) &&
      (|done| > 0 ==> MinInt(done) as real <= r.summary.velocity <= MaxInt(done) as real)
  {
    var r := StoryReportOf(rawData, tr, keep).value;
    var done := Map(r.storyPoints, CompletedOf);
    SumOfMap(r.storyPoints, CompletedOf);
    if |done| > 0 {
      MeanBounds(done);
      RoundTenthBounds(Sum(done) as real / |done| as real, MinInt(done), MaxInt(done));
    } else {
      assert Round(0.0) == 0;
    }
  }
}
