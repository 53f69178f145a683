/** The ops summary: one pass over the sorted history that counts firings, buckets them by hour, pairs
    each resolution with the incident it closes, and reports what is still open. */
module AlertSummary {
  import opened Wrappers
  import opened AlertRows

  datatype Bucket = Bucket(fired: nat, suppressed: nat)

  /** An open incident: the firing that opened it and the firings recorded since. */
  datatype Incident = Incident(opening: Row, refires: nat)

  datatype Tallies = Tallies(
    buckets: seq<Bucket>,
    severities: map<Severity, nat>,
    fired: nat,
    suppressed: nat,
    resolved: nat,
    open: map<RuleId, Incident>,
    durations: seq<int>,
    orphans: nat)

  datatype Mttr = Mttr(pairs: nat, mean: Option<real>, median: Option<real>, max: Option<int>, orphans: nat)

  datatype Summary = Summary(
    windowStart: int,
    buckets: seq<Bucket>,
    fired: nat,
    suppressed: nat,
    resolved: nat,
    severities: map<Severity, nat>,
    listed: seq<Incident>,
    openCount: nat,
    mttr: Mttr)

  const MaxOpenIncidentsListed: nat := 100

  function AtLeastZero(n: int): int { if n < 0 then 0 else n }

  function Clamp(n: int, low: int, high: int): int { if n < low then low else if n > high then high else n }

  /** The hour bucket of a time inside the window; times past the last bucket stay in it. */
  function BucketIndex(at: int, windowStart: int, hours: nat): (i: nat)
    requires hours >= 1 && at >= windowStart
    ensures i < hours
  {
    Clamp((at - windowStart) / Hour, 0, hours - 1)
  }

  function Bump(severities: map<Severity, nat>, s: Severity): map<Severity, nat> {
    severities[s := (if s in severities then severities[s] else 0) + 1]
  }

  function Reopen(open: map<RuleId, Incident>, x: Row): map<RuleId, Incident> {
    if x.rule in open
    then open[x.rule := open[x.rule].(refires := open[x.rule].refires + 1)]
    else open[x.rule := Incident(x, 0)]
  }

  function Empty(hours: nat): Tallies {
    Tallies(seq(hours, i => Bucket(0, 0)), map[], 0, 0, 0, map[], [], 0)
  }

  function Count(t: Tallies, x: Row, windowStart: int): (r: Tallies)
    requires |t.buckets| >= 1
    ensures |r.buckets| == |t.buckets|
  {
    var inWindow := x.at >= windowStart;
    if IsFiring(x) then
      var t1 := t.(open := Reopen(t.open, x));
      if !inWindow then t1
      else
        var i := BucketIndex(x.at, windowStart, |t.buckets|);
        var b := t.buckets[i];
        var t2 := t1.(severities := Bump(t.severities, x.severity));
        if x.kind == Fired
        then t2.(buckets := t.buckets[i := b.(fired := b.fired + 1)], fired := t.fired + 1)
        else t2.(buckets := t.buckets[i := b.(suppressed := b.suppressed + 1)], suppressed := t.suppressed + 1)
    else
      var closed := x.rule in t.open;
      t.(resolved := if inWindow then t.resolved + 1 else t.resolved,
         open := t.open - {x.rule},
         durations :=
           if closed && inWindow then t.durations + [AtLeastZero(x.at - t.open[x.rule].opening.at)] else t.durations,
         orphans := if !closed && inWindow then t.orphans + 1 else t.orphans)
  }

  /** All rows, in order. */
  function Tally(rows: seq<Row>, windowStart: int, hours: nat): (t: Tallies)
    requires hours >= 1
    ensures |t.buckets| == hours
    decreases |rows|
  {
    if rows == [] then Empty(hours)
    else Count(Tally(rows[..|rows| - 1], windowStart, hours), rows[|rows| - 1], windowStart)
  }

  // ---- The builder ----

  predicate NewestFirst(list: seq<Incident>) {
    forall i, j :: 0 <= i < j < |list| ==> list[i].opening.at >= list[j].opening.at
  }

  /** The open incidents, newest first. */
  method ListOpen(open: map<RuleId, Incident>) returns (list: seq<Incident>)
    ensures NewestFirst(list) && |list| == |open|
    ensures forall n :: n in list <==> n in open.Values
  {
    list := [];
    var left := open.Keys;
    while left != {}
      invariant left <= open.Keys && |list| == |open| - |left|
      invariant NewestFirst(list)
      invariant forall n :: n in list <==> exists rule :: rule in open && rule !in left && open[rule] == n
      decreases left
    {
      var rule :| rule in left;
      var i := 0;
      while i < |list| && list[i].opening.at >= open[rule].opening.at
        invariant 0 <= i <= |list|
        invariant forall k :: 0 <= k < i ==> list[k].opening.at >= open[rule].opening.at
      {
        i := i + 1;
      }
      ghost var before := list;
      list := list[..i] + [open[rule]] + list[i..];
      Inserted(before, i, open[rule]);
      left := left - {rule};
    }
  }

  lemma Inserted(list: seq<Incident>, i: nat, n: Incident)
    requires i <= |list|
    ensures forall m :: m in list[..i] + [n] + list[i..] <==> m == n || m in list
  {
    assert list == list[..i] + list[i..];
  }

  function SumOf(s: seq<int>): int
    decreases |s|
  {
    if s == [] then 0 else SumOf(s[..|s| - 1]) + s[|s| - 1]
  }

  predicate Ascending(s: seq<int>) {
    forall i, j :: 0 <= i < j < |s| ==> s[i] <= s[j]
  }

  /** In-place insertion order for the durations. */
  method SortDurations(s: seq<int>) returns (r: seq<int>)
    ensures Ascending(r) && multiset(r) == multiset(s)
  {
    r := [];
    for k := 0 to |s|
      invariant Ascending(r) && multiset(r) == multiset(s[..k])
    {
      var i := 0;
      while i < |r| && r[i] <= s[k]
        invariant 0 <= i <= |r|
        invariant forall j :: 0 <= j < i ==> r[j] <= s[k]
      {
        i := i + 1;
      }
      InsertKeeps(r, i, s[k]);
      assert s[..k + 1] == s[..k] + [s[k]];
      r := r[..i] + [s[k]] + r[i..];
    }
    assert s[..|s|] == s;
  }

  lemma InsertKeeps(r: seq<int>, i: nat, x: int)
    requires Ascending(r) && i <= |r| && (i < |r| ==> x < r[i])
    requires forall j :: 0 <= j < i ==> r[j] <= x
    ensures Ascending(r[..i] + [x] + r[i..]) && multiset(r[..i] + [x] + r[i..]) == multiset(r) + multiset{x}
  {
    InsertBag(r, i, x);
    InsertAscends(r, i, x);
  }

  lemma InsertBag(r: seq<int>, i: nat, x: int)
    requires i <= |r|
    ensures multiset(r[..i] + [x] + r[i..]) == multiset(r) + multiset{x}
  {
    assert r == r[..i] + r[i..];
  }

  lemma InsertAscends(r: seq<int>, i: nat, x: int)
    requires Ascending(r) && i <= |r| && (i < |r| ==> x < r[i])
    requires forall j :: 0 <= j < i ==> r[j] <= x
    ensures Ascending(r[..i] + [x] + r[i..])
  {
    var more := r[..i] + [x] + r[i..];
    forall j, k | 0 <= j < k < |more| ensures more[j] <= more[k] {
      assert more[j] == if j < i then r[j] else if j == i then x else r[j - 1];
      assert more[k] == if k < i then r[k] else if k == i then x else r[k - 1];
    }
  }

  function Median(sorted: seq<int>): real
    requires sorted != []
  {
    var mid := |sorted| / 2;
    if |sorted| % 2 == 1 then sorted[mid] as real else (sorted[mid - 1] + sorted[mid]) as real / 2.0
  }

  function Mean(s: seq<int>): real
    requires s != []
  {
    SumOf(s) as real / |s| as real
  }

  /** The counting pass over the sorted rows. */
  method CountRows(sorted: seq<Row>, windowStart: int, windowHours: nat) returns (t: Tallies)
    requires windowHours >= 1
    ensures t == Tally(sorted, windowStart, windowHours)
  {
    var buckets := seq(windowHours, i => Bucket(0, 0));
    var severities: map<Severity, nat> := map[];
    var fired, suppressed, resolved, orphans := 0, 0, 0, 0;
    var open: map<RuleId, Incident> := map[];
    var durations: seq<int> := [];
    for k := 0 to |sorted|
      invariant Tallies(buckets, severities, fired, suppressed, resolved, open, durations, orphans)
        == Tally(sorted[..k], windowStart, windowHours)
    {
      assert sorted[..k + 1][..k] == sorted[..k];
      ghost var before := Tallies(buckets, severities, fired, suppressed, resolved, open, durations, orphans);
      var x := sorted[k];
      var inWindow := x.at >= windowStart;
      if x.kind == Fired || x.kind == Suppressed {
        if inWindow {
          var i := BucketIndex(x.at, windowStart, |buckets|);
          if x.kind == Fired {
            buckets := buckets[i := buckets[i].(fired := buckets[i].fired + 1)];
            fired := fired + 1;
          } else {
            buckets := buckets[i := buckets[i].(suppressed := buckets[i].suppressed + 1)];
            suppressed := suppressed + 1;
          }
          severities := severities[x.severity := (if x.severity in severities then severities[x.severity] else 0) + 1];
        }
        if x.rule in open {
          open := open[x.rule := open[x.rule].(refires := open[x.rule].refires + 1)];
        } else {
          open := open[x.rule := Incident(x, 0)];
        }
      } else {
        if inWindow {
          resolved := resolved + 1;
        }
        if x.rule in open {
          if inWindow {
            var elapsed := x.at - open[x.rule].opening.at;
            durations := durations + [if elapsed < 0 then 0 else elapsed];
          }
          open := open - {x.rule};
        } else if inWindow {
          orphans := orphans + 1;
        }
      }
      assert Tallies(buckets, severities, fired, suppressed, resolved, open, durations, orphans)
        == Count(before, x, windowStart);
    }
    assert sorted[..|sorted|] == sorted;
    t := Tallies(buckets, severities, fired, suppressed, resolved, open, durations, orphans);
  }

  /** Mean, median and maximum of the durations; nothing for none. */
  predicate MttrOf(sorted: seq<int>, m: Mttr) {
    && m.pairs == |sorted|
    && if sorted == [] then m.mean == None && m.median == None && m.max == None
       else m.mean == Some(Mean(sorted)) && m.median == Some(Median(sorted)) && m.max == Some(sorted[|sorted| - 1])
  }

  method Resolutions(durations: seq<int>, orphans: nat) returns (mttr: Mttr, ghost sorted: seq<int>)
    ensures Ascending(sorted) && multiset(sorted) == multiset(durations) && MttrOf(sorted, mttr)
      && mttr.orphans == orphans
  {
    var ascending := SortDurations(durations);
    sorted := ascending;
    mttr := Mttr(|ascending|, None, None, None, orphans);
    if ascending != [] {
      mttr := mttr.(mean := Some(Mean(ascending)), median := Some(Median(ascending)),
                    max := Some(ascending[|ascending| - 1]));
    }
  }

  /** The listed incidents are the newest open ones, at most a hundred. */
  predicate Lists(open: map<RuleId, Incident>, listed: seq<Incident>) {
    && |listed| == (if |open| < 100 then |open| else 100)
    && NewestFirst(listed)
    && (forall n :: n in listed ==> n in open.Values)
    && (forall n, m :: n in listed && m in open.Values && m !in listed ==> n.opening.at >= m.opening.at)
  }

  /** The summary of a history, given in any order. */
  method Build(entries: seq<Row>, windowHours: nat, now: int) returns (s: Summary, ghost sorted: seq<int>)
    requires windowHours >= 1
    ensures s.windowStart == now - windowHours * Hour
    ensures var t := Tally(Sort(entries), s.windowStart, windowHours);
      && s.buckets == t.buckets && s.severities == t.severities
      && s.fired == t.fired && s.suppressed == t.suppressed && s.resolved == t.resolved
      && s.openCount == |t.open| && Lists(t.open, s.listed)
      && s.mttr.orphans == t.orphans
      && Ascending(sorted) && multiset(sorted) == multiset(t.durations) && MttrOf(sorted, s.mttr)
  {
    var windowStart := now - windowHours * Hour;
    var t := CountRows(Sort(entries), windowStart, windowHours);
    var mttr;
    mttr, sorted := Resolutions(t.durations, t.orphans);
    var list := ListOpen(t.open);
    var shown := if |list| < MaxOpenIncidentsListed then list else list[..MaxOpenIncidentsListed];
    ShownAreNewest(t.open, list, |shown|);
    s := Summary(windowStart, t.buckets, t.fired, t.suppressed, t.resolved, t.severities, shown, |list|, mttr);
  }

  lemma ShownAreNewest(open: map<RuleId, Incident>, list: seq<Incident>, count: nat)
    requires NewestFirst(list) && |list| == |open| && (forall n :: n in list <==> n in open.Values)
    requires count == if |open| < MaxOpenIncidentsListed then |open| else MaxOpenIncidentsListed
    ensures Lists(open, list[..count])
  {
    forall n, m | n in list[..count] && m in open.Values && m !in list[..count] ensures n.opening.at >= m.opening.at {
      var i :| 0 <= i < count && list[i] == n;
      var j :| 0 <= j < |list| && list[j] == m;
      if j < count {
        TakeHas(list, count, j);
        assert false;
      }
    }
  }

  lemma TakeHas(list: seq<Incident>, count: nat, j: nat)
    requires j < count <= |list|
    ensures list[j] in list[..count]
  {
    assert list[..count][j] == list[j];
  }
}
