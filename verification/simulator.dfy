/** `RealtimeSimulator` in `src/utils/realtime-simulator.js`: bounded histories of quality
    metrics and sprints that timers advance, and per-type sets of subscribers told of
    every change. Each `Math.random()` draw is a parameter, each timer id a parameter. */
module Simulator {
  import opened Wrappers
  import opened Text
  import opened Collections

  /** A subscriber, told apart by identity. */
  type Callback = nat

  /** A value of `Math.random()`. */
  type Draw = r: real | 0.0 <= r < 1.0

  datatype Commit = Commit(id: string, date: string, author: string, repository: string, message: string)

  datatype QualityPoint = QualityPoint(date: string, bugs: int, vulnerabilities: int, codeSmells: int,
                                       coverage: real)

  /** A sprint; `inProgress` absent reads as false. */
  datatype Sprint = Sprint(sprint: string, completed: int, total: int, stories: int, inProgress: bool)

  /** What `this.data[type]` holds. */
  datatype Snapshot = Commits(commits: seq<Commit>) | Quality(points: seq<QualityPoint>)
                    | Velocity(sprints: seq<Sprint>) | NoData

  /** One call of a subscriber with the data it was given. */
  datatype Call = Call(callback: Callback, data: Snapshot)

  /** A running `setInterval` timer: its id and its period in milliseconds. */
  datatype Timer = Timer(id: nat, period: real)

  const DefaultUpdateInterval: real := 3000.0
  const QualityCap := 30
  const SprintCap := 8

  /** `Math.floor(draw * k)`. */
  function Pick(draw: Draw, k: nat): (n: int)
    ensures 0 <= n && (k > 0 ==> n < k)
  {
    var x := draw * k as real;
    assert 0.0 <= x by {
      ProductNonNegative(draw, k as real);
    }
    assert x < k as real || k == 0 by {
      if k > 0 {
        ProductPositive(1.0 - draw, k as real);
        assert (k as real) - x == (1.0 - draw) * k as real;
      }
    }
    x.Floor
  }

  lemma ProductNonNegative(a: real, b: real)
    requires 0.0 <= a && 0.0 <= b
    ensures 0.0 <= a * b
  {
  }

  lemma ProductPositive(a: real, b: real)
    requires 0.0 < a && 0.0 < b
    ensures 0.0 < a * b
  {
  }

  /* ---------------- subscriber sets ---------------- */

  /** `set.add(cb)`: a callback already present is not added again. */
  function Add(cbs: seq<Callback>, cb: Callback): seq<Callback>
  {
    if cb in cbs then cbs else cbs + [cb]
  }

  /** `set.delete(cb)`. */
  function Remove(cbs: seq<Callback>, cb: Callback): seq<Callback>
  {
    Filter(cbs, c => c != cb)
  }

  /** Adding keeps the set free of repeats and in insertion order, adds exactly `cb`, and
      adding twice is adding once. */
  lemma AddFacts(cbs: seq<Callback>, cb: Callback)
    requires NoDup(cbs)
    ensures NoDup(Add(cbs, cb))
    ensures forall c :: c in Add(cbs, cb) <==> c in cbs || c == cb
    ensures Add(Add(cbs, cb), cb) == Add(cbs, cb)
    ensures Add(cbs, cb)[..|cbs|] == cbs
  {
  }

  /** Removing drops exactly `cb`, keeps the others in order and no repeats, and undoes an
      `Add` of a callback that was absent. */
  lemma {:induction false} RemoveFacts(cbs: seq<Callback>, cb: Callback)
    requires NoDup(cbs)
    ensures NoDup(Remove(cbs, cb))
    ensures forall c :: c in Remove(cbs, cb) <==> c in cbs && c != cb
    ensures cb !in cbs ==> Remove(Add(cbs, cb), cb) == cbs
  {
    var p := (c: Callback) => c != cb;
    FilterNoDup(cbs, p);
    FilterMembers(cbs, p);
    if cb !in cbs {
      FilterAppend(cbs, [cb], p);
      FilterAll(cbs, p);
      FilterNone([cb], p);
    }
  }

  /** The calls one update makes: each subscriber of the type, in insertion order, with
      that type's data. */
  function Notify(cbs: seq<Callback>, data: Snapshot): (r: seq<Call>)
    ensures |r| == |cbs|
    ensures forall i :: 0 <= i < |cbs| ==> r[i] == Call(cbs[i], data)
  {
    Map(cbs, cb => Call(cb, data))
  }

  /** A subscriber set without repeats calls each subscriber once. */
  lemma NotifyOnce(cbs: seq<Callback>, data: Snapshot, cb: Callback)
    requires NoDup(cbs)
    ensures cb in cbs ==> |set i | 0 <= i < |cbs| && Notify(cbs, data)[i].callback == cb| == 1
    ensures cb !in cbs ==> forall c :: c in Notify(cbs, data) ==> c.callback != cb
  {
    if cb in cbs {
      var k :| 0 <= k < |cbs| && cbs[k] == cb;
      assert (set i | 0 <= i < |cbs| && Notify(cbs, data)[i].callback == cb) == {k};
    }
  }

  /* ---------------- bounded histories ---------------- */

  /** `if (list.length > cap) list.shift()`: the oldest entry goes when the cap is passed. */
  function Bounded<T>(h: seq<T>, cap: nat): seq<T>
  {
    if |h| > cap then h[1..] else h
  }

  /** Appending then trimming keeps the newest entries: the result ends with `x`, is a
      suffix of `h + [x]`, and is never longer than the cap once `h` is within it. */
  lemma PushFacts<T>(h: seq<T>, x: T, cap: nat)
    requires 1 <= cap && |h| <= cap
    ensures var r := Bounded(h + [x], cap);
      |r| == (if |h| == cap then cap else |h| + 1) &&
      r[|r| - 1] == x &&
      r == (h + [x])[|h| + 1 - |r|..]
  {
  }

  function Max0(x: int): (r: int)
    ensures r >= 0 && r >= x && (x >= 0 ==> r == x)
    ensures x < 0 ==> r == 0
  {
    if x > 0 then x else 0
  }

  /** `Math.min(100, Math.max(0, x))`. */
  function ClampPercent(x: real): (r: real)
    ensures 0.0 <= r <= 100.0
    ensures 0.0 <= x <= 100.0 ==> r == x
    ensures x < 0.0 ==> r == 0.0
    ensures x > 100.0 ==> r == 100.0
  {
    if x < 0.0 then 0.0 else if x > 100.0 then 100.0 else x
  }

  /** A quality point the simulator can hold: no negative counts, coverage a percentage. */
  predicate Sane(p: QualityPoint)
  {
    p.bugs >= 0 && p.vulnerabilities >= 0 && p.codeSmells >= 0 && 0.0 <= p.coverage <= 100.0
  }

  /** The point `_updateQualityMetrics` appends after `latest`. */
  function NextPoint(latest: QualityPoint, date: string, b: Draw, v: Draw, s: Draw, c: Draw): QualityPoint
  {
    QualityPoint(date,
                 Max0(latest.bugs + (if b > 0.7 then 1 else -1)),
                 Max0(latest.vulnerabilities + (if v > 0.8 then 1 else -1)),
                 Max0(latest.codeSmells + (if s > 0.6 then 3 else -5)),
                 ClampPercent(latest.coverage + ((c as real) - 0.3) * 2.0))
  }

  /** The next point is always sane; from a sane point bugs and vulnerabilities move by at
      most one, code smells by at most five, and coverage drifts by less than 1.4 up and
      at most 0.6 down. */
  lemma NextPointFacts(latest: QualityPoint, date: string, b: Draw, v: Draw, s: Draw, c: Draw)
    ensures Sane(NextPoint(latest, date, b, v, s, c))
    ensures Sane(latest) ==>
      var p := NextPoint(latest, date, b, v, s, c);
      -1 <= p.bugs - latest.bugs <= 1 && -1 <= p.vulnerabilities - latest.vulnerabilities <= 1 &&
      -5 <= p.codeSmells - latest.codeSmells <= 3 &&
      -0.6 <= p.coverage - latest.coverage < 1.4
  {
  }

  /** The 30 points `_initializeData` starts with, one per date, oldest first. */
  function InitialQuality(dates: seq<string>, draws: seq<(Draw, Draw, Draw, Draw)>): (r: seq<QualityPoint>)
    requires |dates| == |draws|
    ensures |r| == |dates|
    ensures forall i :: 0 <= i < |r| ==> Sane(r[i]) && r[i].date == dates[i]
  {
    seq(|dates|, i requires 0 <= i < |dates| =>
      QualityPoint(dates[i], Pick(draws[i].0, 20) + 5, Pick(draws[i].1, 10), Pick(draws[i].2, 100) + 50,
                   (draws[i].3 as real) * 30.0 + 65.0))
  }

  /* ---------------- sprints ---------------- */

  /** The index `velocity.find(v => v.inProgress)` lands on, if any. */
  function CurrentSprint(v: seq<Sprint>): (k: Option<nat>)
    ensures k.Some? ==> k.value < |v| && v[k.value].inProgress && forall j :: 0 <= j < k.value ==> !v[j].inProgress
    ensures k.None? ==> forall j :: 0 <= j < |v| ==> !v[j].inProgress
  {
    if v == [] then None
    else if v[0].inProgress then Some(0)
    else match CurrentSprint(v[1..])
      case None => None
      case Some(j) => Some(j + 1)
  }

  /** The longest run of decimal digits that starts `s`. */
  function LeadingDigits(s: string): (d: string)
    ensures AllDigits(d) && d <= s
    ensures d == s || !IsDigit(s[|d|])
  {
    if s == [] || !IsDigit(s[0]) then "" else [s[0]] + LeadingDigits(s[1..])
  }

  /** `parseInt(title.split(' ')[1])` for a sprint title: the number after the first space, or
      NaN (`None`) when there is none. */
  function SprintNumber(title: string): Option<nat>
  {
    var parts := Split(title, ' ');
    if |parts| < 2 then None
    else
      var d := LeadingDigits(parts[1]);
      if d == "" then None else Some(DigitsValue(d))
  }

  /** The title of the sprint after `title`: `Sprint NaN` when it carries no number. */
  function NextLabel(title: string): string
  {
    match SprintNumber(title)
    case None => "Sprint NaN"
    case Some(n) => "Sprint " + NatToString(n + 1)
  }

  lemma {:induction false} LeadingDigitsAll(s: string)
    requires AllDigits(s)
    ensures LeadingDigits(s) == s
  {
    if s != [] {
      LeadingDigitsAll(s[1..]);
      assert [s[0]] + s[1..] == s;
    }
  }

  /** Numbering carries on: the sprint after `Sprint n` is `Sprint n+1`. */
  lemma NextLabelCounts(n: nat)
    ensures SprintNumber("Sprint " + NatToString(n)) == Some(n)
    ensures NextLabel("Sprint " + NatToString(n)) == "Sprint " + NatToString(n + 1)
  {
    var d := NatToString(n);
    assert "Sprint " + d == "Sprint" + [' '] + d;
    assert ' ' !in d by {
      forall i | 0 <= i < |d| ensures d[i] != ' ' {
        assert IsDigit(d[i]);
      }
    }
    SplitWhole(d, ' ');
    SplitAfterPart("Sprint", d, ' ');
    LeadingDigitsAll(d);
    DigitsValueOfNatToString(n);
  }

  /** The six finished sprints and the seventh in progress that `_initializeData` starts
      with. */
  function InitialVelocity(draws: seq<(Draw, Draw, Draw)>): (r: seq<Sprint>)
    requires |draws| == 6
    ensures |r| == 7 && ProperSprints(r)
  {
    seq(6, i requires 0 <= i < 6 =>
      Sprint("Sprint " + NatToString(i + 1), Pick(draws[i].0, 30) + 20, Pick(draws[i].1, 40) + 30,
             Pick(draws[i].2, 10) + 5, false)) +
    [Sprint("Sprint 7", 15, 35, 8, true)]
  }

  /** The shape the simulator keeps: at most eight sprints, only the newest in progress,
      and it still short of its total. */
  predicate ProperSprints(v: seq<Sprint>)
  {
    1 <= |v| <= SprintCap &&
    v[|v| - 1].inProgress && v[|v| - 1].completed < v[|v| - 1].total &&
    forall i :: 0 <= i < |v| - 1 ==> !v[i].inProgress
  }

  /** `Math.min(total, completed + pointsToAdd)`, the sprint's completed points after
      one to five more. */
  function Credit(s: Sprint, points: Draw): (r: int)
    ensures s.completed < s.total ==> s.completed + 1 <= r <= s.total
    ensures r <= s.completed + 5
  {
    var added := s.completed + Pick(points, 5) + 1;
    if s.total < added then s.total else added
  }

  /** The sprint pushed when the one in progress completes. */
  function Successor(s: Sprint, total: Draw, stories: Draw): Sprint
  {
    Sprint(NextLabel(s.sprint), 0, Pick(total, 40) + 30, Pick(stories, 10) + 5, true)
  }

  /** What `_updateSprintProgress` does to the sprint list. */
  function Advance(v: seq<Sprint>, points: Draw, total: Draw, stories: Draw): seq<Sprint>
  {
    match CurrentSprint(v)
    case None => v
    case Some(k) => AdvanceAt(v, k, points, total, stories)
  }

  /** The update once `find` has picked sprint `k`. */
  function AdvanceAt(v: seq<Sprint>, k: nat, points: Draw, total: Draw, stories: Draw): seq<Sprint>
    requires k < |v|
  {
    var s := v[k];
    if !(s.completed < s.total) then v
    else if Credit(s, points) < s.total then v[k := s.(completed := Credit(s, points))]
    else Bounded(v[k := s.(completed := Credit(s, points), inProgress := false)] + [Successor(s, total, stories)],
                 SprintCap)
  }

  /** Only the sprint `find` picks changes: every other sprint is still there, bar the
      oldest when a new one starts with eight or more before it. */
  lemma AdvanceKeepsOthers(v: seq<Sprint>, points: Draw, total: Draw, stories: Draw, i: int)
    requires CurrentSprint(v).Some? && 0 <= i < |v| && i != CurrentSprint(v).value
    ensures v[i] in Advance(v, points, total, stories) || (i == 0 && |v| >= SprintCap)
  {
    var k := CurrentSprint(v).value;
    var s := v[k];
    var r := AdvanceAt(v, k, points, total, stories);
    assert Advance(v, points, total, stories) == r;
    if !(s.completed < s.total) {
      assert r[i] == v[i];
    } else if Credit(s, points) < s.total {
      assert r[i] == v[i];
    } else {
      var w := v[k := s.(completed := Credit(s, points), inProgress := false)] + [Successor(s, total, stories)];
      assert w[i] == v[i];
      if |w| > SprintCap {
        if i > 0 {
          assert r[i - 1] == w[i];
        }
      } else {
        assert r[i] == w[i];
      }
    }
  }

  /** No sprint the update writes has more completed than its total. */
  lemma AdvanceWithinTotal(v: seq<Sprint>, points: Draw, total: Draw, stories: Draw, x: Sprint)
    requires x in Advance(v, points, total, stories) && x !in v
    ensures x.completed <= x.total
  {
    var k := CurrentSprint(v).value;
    var s := v[k];
    var r := AdvanceAt(v, k, points, total, stories);
    assert Advance(v, points, total, stories) == r;
    var j :| 0 <= j < |r| && r[j] == x;
    if Credit(s, points) >= s.total {
      var w := v[k := s.(completed := Credit(s, points), inProgress := false)] + [Successor(s, total, stories)];
      var m := if |w| > SprintCap then j + 1 else j;
      assert w[m] == x;
    }
  }

  /** From the kept shape, one update either adds between one and five points to the
      sprint in progress, which stays in progress, or completes it: it then holds exactly
      its total and is finished, and a new sprint with the next title, nothing completed
      and a total of 30 to 69 follows it in progress, the oldest sprint going when there
      would be nine. The shape is kept either way. */
  lemma AdvanceStep(v: seq<Sprint>, points: Draw, total: Draw, stories: Draw)
    requires ProperSprints(v)
    ensures var r := Advance(v, points, total, stories);
      var last := v[|v| - 1];
      ProperSprints(r) &&
      ((r[..|r| - 1] == v[..|v| - 1] && r[|r| - 1] == last.(completed := r[|r| - 1].completed) &&
        last.completed + 1 <= r[|r| - 1].completed <= last.completed + 5) ||
       (|r| == (if |v| == SprintCap then SprintCap else |v| + 1) &&
        r[..|r| - 2] == (if |v| == SprintCap then v[1..|v| - 1] else v[..|v| - 1]) &&
        r[|r| - 2] == last.(completed := last.total, inProgress := false) &&
        r[|r| - 1].sprint == NextLabel(last.sprint) && r[|r| - 1].completed == 0 &&
        30 <= r[|r| - 1].total < 70 && r[|r| - 1].inProgress))
  {
    var k := |v| - 1;
    var last := v[k];
    assert CurrentSprint(v) == Some(k);
    assert Advance(v, points, total, stories) == AdvanceAt(v, k, points, total, stories);
    if Credit(last, points) < last.total {
      ProgressStep(v, points);
    } else {
      CompleteStep(v, points, total, stories);
    }
  }

  /** The sprint in progress gains points but stays short of its total. */
  lemma ProgressStep(v: seq<Sprint>, points: Draw)
    requires ProperSprints(v) && Credit(v[|v| - 1], points) < v[|v| - 1].total
    ensures var last := v[|v| - 1];
      var r := v[|v| - 1 := last.(completed := Credit(last, points))];
      ProperSprints(r) && r[..|r| - 1] == v[..|v| - 1] &&
      r[|r| - 1] == last.(completed := r[|r| - 1].completed) &&
      last.completed + 1 <= r[|r| - 1].completed <= last.completed + 5
  {
    var last := v[|v| - 1];
    var r := v[|v| - 1 := last.(completed := Credit(last, points))];
    assert r[..|r| - 1] == v[..|v| - 1];
  }

  /** The sprint in progress completes; its successor follows it and the oldest sprint
      goes when there would be nine. */
  lemma CompleteStep(v: seq<Sprint>, points: Draw, total: Draw, stories: Draw)
    requires ProperSprints(v) && Credit(v[|v| - 1], points) >= v[|v| - 1].total
    ensures var last := v[|v| - 1];
      var w := v[|v| - 1 := last.(completed := Credit(last, points), inProgress := false)]
               + [Successor(last, total, stories)];
      var r := Bounded(w, SprintCap);
      ProperSprints(r) &&
      |r| == (if |v| == SprintCap then SprintCap else |v| + 1) &&
      r[..|r| - 2] == (if |v| == SprintCap then v[1..|v| - 1] else v[..|v| - 1]) &&
      r[|r| - 2] == last.(completed := last.total, inProgress := false) &&
      r[|r| - 1].sprint == NextLabel(last.sprint) && r[|r| - 1].completed == 0 &&
      30 <= r[|r| - 1].total < 70 && r[|r| - 1].inProgress
  {
    var last := v[|v| - 1];
    var done := last.(completed := Credit(last, points), inProgress := false);
    var w := v[|v| - 1 := done] + [Successor(last, total, stories)];
    assert w == v[..|v| - 1] + [done, Successor(last, total, stories)];
    var r := Bounded(w, SprintCap);
    if |v| == SprintCap {
      assert r == v[1..|v| - 1] + [done, Successor(last, total, stories)];
    } else {
      assert r == w;
    }
  }

  /* ---------------- the simulator ---------------- */

  class RealtimeSimulator {
    var updateInterval: real
    var callbacks: map<string, seq<Callback>>
    var intervals: map<string, Timer>
    /** The ids of the timers that have not been cleared. */
    var running: set<nat>
    var commits: seq<Commit>
    var quality: seq<QualityPoint>
    var velocity: seq<Sprint>
    /** Every subscriber call made so far, oldest first. */
    var calls: seq<Call>

    predicate Valid()
      reads this
    {
      (forall t :: t in callbacks ==> NoDup(callbacks[t])) &&
      1 <= |quality| <= QualityCap && (forall i :: 0 <= i < |quality| ==> Sane(quality[i])) &&
      ProperSprints(velocity)
    }

    /** `new RealtimeSimulator(options)`: the interval defaults to 3000 ms unless the
        options give one; the histories are what `_initializeData` draws. */
    constructor(interval: Option<real>, initialCommits: seq<Commit>, dates: seq<string>,
                qualityDraws: seq<(Draw, Draw, Draw, Draw)>, velocityDraws: seq<(Draw, Draw, Draw)>)
      requires |dates| == QualityCap && |qualityDraws| == QualityCap && |velocityDraws| == 6
      ensures Valid()
      ensures updateInterval == (if interval.Some? then interval.value else DefaultUpdateInterval)
      ensures callbacks == map[] && intervals == map[] && running == {} && calls == []
      ensures commits == initialCommits
      ensures quality == InitialQuality(dates, qualityDraws) && velocity == InitialVelocity(velocityDraws)
    {
      updateInterval := if interval.Some? then interval.value else DefaultUpdateInterval;
      callbacks := map[];
      intervals := map[];
      running := {};
      calls := [];
      commits := initialCommits;
      quality := InitialQuality(dates, qualityDraws);
      velocity := InitialVelocity(velocityDraws);
    }

    /** `getData(type)`. */
    function GetData(kind: string): (r: Snapshot)
      reads this
      ensures r.Quality? <==> kind == "quality"
      ensures r.Velocity? <==> kind == "velocity"
      ensures r.Commits? <==> kind == "commits"
      ensures kind == "commits" ==> r == Commits(commits)
      ensures kind == "quality" ==> r == Quality(quality)
      ensures kind == "velocity" ==> r == Velocity(velocity)
      ensures kind != "commits" && kind != "quality" && kind != "velocity" ==> r == NoData
    {
      if kind == "commits" then Commits(commits)
      else if kind == "quality" then Quality(quality)
      else if kind == "velocity" then Velocity(velocity)
      else NoData
    }

    /** `start()`: three timers for commits, quality and velocity, every interval, one and a
        half intervals and two intervals. The timers a previous `start` left in the map
        are replaced there but keep running. */
    method Start(c: nat, q: nat, v: nat)
      requires c !in running && q !in running && v !in running && c != q && q != v && c != v
      modifies this
      ensures intervals == old(intervals)["commits" := Timer(c, updateInterval)]
                                         ["quality" := Timer(q, updateInterval * 1.5)]
                                         ["velocity" := Timer(v, updateInterval * 2.0)]
      ensures running == old(running) + {c, q, v}
      ensures updateInterval == old(updateInterval) && callbacks == old(callbacks) && commits == old(commits)
      ensures quality == old(quality) && velocity == old(velocity) && calls == old(calls)
    {
      intervals := intervals["commits" := Timer(c, updateInterval)];
      running := running + {c};
      intervals := intervals["quality" := Timer(q, updateInterval * 1.5)];
      running := running + {q};
      intervals := intervals["velocity" := Timer(v, updateInterval * 2.0)];
      running := running + {v};
    }

    /** `stop()`: clears every timer in the map and empties it. */
    method Stop()
      modifies this
      ensures intervals == map[]
      ensures running == old(running) - TimerIds(old(intervals))
      ensures updateInterval == old(updateInterval) && callbacks == old(callbacks) && commits == old(commits)
      ensures quality == old(quality) && velocity == old(velocity) && calls == old(calls)
    {
      running := ClearTimers(running, intervals);
      intervals := map[];
    }

    /** `subscribe(type, cb)`: the type's set gains `cb`, created empty first if need be. */
    method Subscribe(kind: string, cb: Callback)
      requires Valid()
      modifies this
      ensures Valid()
      ensures callbacks == old(callbacks)[kind := Add(if kind in old(callbacks) then old(callbacks)[kind] else [], cb)]
      ensures cb in callbacks[kind]
      ensures updateInterval == old(updateInterval) && intervals == old(intervals) && running == old(running)
      ensures commits == old(commits) && quality == old(quality) && velocity == old(velocity) && calls == old(calls)
    {
      var current := if kind in callbacks then callbacks[kind] else [];
      AddFacts(current, cb);
      callbacks := callbacks[kind := Add(current, cb)];
    }

    /** The function `subscribe` returns: it deletes `cb` from the type's set. It exists
        only once `subscribe(type, …)` has made that set, which is never removed. */
    method Unsubscribe(kind: string, cb: Callback)
      requires Valid() && kind in callbacks
      modifies this
      ensures Valid()
      ensures callbacks == old(callbacks)[kind := Remove(old(callbacks)[kind], cb)]
      ensures cb !in callbacks[kind]
      ensures updateInterval == old(updateInterval) && intervals == old(intervals) && running == old(running)
      ensures commits == old(commits) && quality == old(quality) && velocity == old(velocity) && calls == old(calls)
    {
      RemoveFacts(callbacks[kind], cb);
      callbacks := callbacks[kind := Remove(callbacks[kind], cb)];
    }

    /** `_triggerUpdate(type)`: each subscriber of the type, in order, gets the type's
        current data; a type nobody subscribed to calls nobody. */
    method TriggerUpdate(kind: string)
      modifies this
      ensures calls == old(calls) + (if kind in callbacks then Notify(callbacks[kind], GetData(kind)) else [])
      ensures updateInterval == old(updateInterval) && callbacks == old(callbacks) && intervals == old(intervals)
      ensures running == old(running) && commits == old(commits) && quality == old(quality)
      ensures velocity == old(velocity)
    {
      if kind in callbacks {
        var cbs := callbacks[kind];
        var data := GetData(kind);
        var i := 0;
        while i < |cbs|
          invariant 0 <= i <= |cbs|
          invariant calls == old(calls) + Notify(cbs[..i], data)
          invariant updateInterval == old(updateInterval) && callbacks == old(callbacks)
          invariant intervals == old(intervals) && running == old(running) && commits == old(commits)
          invariant quality == old(quality) && velocity == old(velocity)
        {
          assert cbs[..i + 1][..i] == cbs[..i];
          calls := calls + [Call(cbs[i], data)];
          i := i + 1;
        }
        assert cbs[..i] == cbs;
      }
    }

    /** `_updateQualityMetrics()`: appends the next point after the latest and drops the
        oldest past 30. With no points there is no latest, and reading its `bugs` throws. */
    method UpdateQualityMetrics(date: string, b: Draw, v: Draw, s: Draw, c: Draw) returns (r: Outcome)
      modifies this
      ensures old(quality) == [] ==> r.Fail? && quality == old(quality)
      ensures old(quality) != [] ==>
        r.Pass? && quality == Bounded(old(quality) + [NextPoint(old(quality)[|old(quality)| - 1], date, b, v, s, c)], QualityCap)
      ensures old(Valid()) ==> Valid()
      ensures updateInterval == old(updateInterval) && callbacks == old(callbacks) && intervals == old(intervals)
      ensures running == old(running) && commits == old(commits) && velocity == old(velocity) && calls == old(calls)
    {
      if |quality| == 0 {
        return Fail(LatestMissing);
      }
      var latest := quality[|quality| - 1];
      var next := NextPoint(latest, date, b, v, s, c);
      NextPointFacts(latest, date, b, v, s, c);
      ghost var before := quality;
      quality := quality + [next];
      if |quality| > QualityCap {
        quality := quality[1..];
      }
      assert forall i :: 0 <= i < |quality| ==> quality[i] in before + [next];
      r := Pass;
    }

    /** `_updateSprintProgress()`: advances the sprint `find` picks, as `Advance` says. */
    method UpdateSprintProgress(points: Draw, total: Draw, stories: Draw)
      modifies this
      ensures velocity == Advance(old(velocity), points, total, stories)
      ensures old(Valid()) ==> Valid()
      ensures updateInterval == old(updateInterval) && callbacks == old(callbacks) && intervals == old(intervals)
      ensures running == old(running) && commits == old(commits) && quality == old(quality) && calls == old(calls)
    {
      var found := FindCurrent();
      if found.None? {
        return;
      }
      var k := found.value;
      var sprints := velocity;
      var sprint := sprints[k];
      if !(sprint.completed < sprint.total) {
        return;
      }
      var done := Credit(sprint, points);
      sprints := sprints[k := sprint.(completed := done)];
      if done >= sprint.total {
        sprints := sprints[k := sprints[k].(inProgress := false)];
        sprints := sprints + [Successor(sprint, total, stories)];
        if |sprints| > SprintCap {
          sprints := sprints[1..];
        }
      }
      assert sprints == AdvanceAt(velocity, k, points, total, stories);
      if Valid() {
        AdvanceStep(velocity, points, total, stories);
      }
      velocity := sprints;
    }

    /** `velocity.find(v => v.inProgress)`, as the index it stops at. */
    method FindCurrent() returns (k: Option<nat>)
      ensures k == CurrentSprint(velocity)
    {
      var i := 0;
      while i < |velocity|
        invariant 0 <= i <= |velocity|
        invariant forall j :: 0 <= j < i ==> !velocity[j].inProgress
      {
        if velocity[i].inProgress {
          SameFirst(velocity, i);
          return Some(i);
        }
        i := i + 1;
      }
      k := None;
    }
  }

  /** The ids of the timers in a map. */
  function TimerIds(timers: map<string, Timer>): set<nat>
  {
    set k | k in timers :: timers[k].id
  }

  lemma TimerIdsAdd(timers: map<string, Timer>, k: string, t: Timer)
    requires k !in timers
    ensures TimerIds(timers[k := t]) == TimerIds(timers) + {t.id}
  {
    var m := timers[k := t];
    assert m[k].id == t.id;
    forall x | x in TimerIds(m) ensures x in TimerIds(timers) + {t.id} {
      var j :| j in m && m[j].id == x;
      if j != k {
        assert timers[j].id == x;
      }
    }
    forall x | x in TimerIds(timers) ensures x in TimerIds(m) {
      var j :| j in timers && timers[j].id == x;
      assert m[j].id == x;
    }
  }

  /** `intervals.forEach(clearInterval)`: each timer of the map, cleared in turn. */
  method ClearTimers(running: set<nat>, timers: map<string, Timer>) returns (r: set<nat>)
    ensures r == running - TimerIds(timers)
  {
    r := running;
    var pending := timers;
    ghost var cleared: map<string, Timer> := map[];
    while pending != map[]
      invariant forall k :: k in timers <==> k in cleared || k in pending
      invariant forall k :: k in cleared ==> k !in pending && cleared[k] == timers[k]
      invariant forall k :: k in pending ==> pending[k] == timers[k]
      invariant r == running - TimerIds(cleared)
      decreases |pending.Keys|
    {
      var k :| k in pending;
      TimerIdsAdd(cleared, k, pending[k]);
      r := r - {pending[k].id};
      cleared := cleared[k := pending[k]];
      pending := pending - {k};
    }
    assert cleared == timers;
  }

  /** The message `_updateQualityMetrics` throws on an empty history. */
  const LatestMissing := "TypeError: Cannot read properties of undefined (reading 'bugs')"

  /** The first sprint in progress is the one `CurrentSprint` names. */
  lemma SameFirst(v: seq<Sprint>, i: nat)
    requires i < |v| && v[i].inProgress && forall j :: 0 <= j < i ==> !v[j].inProgress
    ensures CurrentSprint(v) == Some(i)
  {
    match CurrentSprint(v)
    case None =>
    case Some(j) =>
  }
}
