/** What the summary means, stated without the counting pass. */
module SummaryLaws {
  import opened Wrappers
  import opened AlertRows
  import opened AlertSummary

  // ---- Open incidents ----

  /** The incident state of one rule after its rows, in order. */
  function Replay(rows: seq<Row>): Option<Incident>
    decreases |rows|
  {
    if rows == [] then None
    else Next(Replay(rows[..|rows| - 1]), rows[|rows| - 1])
  }

  function OpenOf(t: Tallies, rule: RuleId): Option<Incident> {
    if rule in t.open then Some(t.open[rule]) else None
  }

  /** One more row of the same rule. */
  function Next(before: Option<Incident>, x: Row): Option<Incident> {
    if !IsFiring(x) then None
    else if before.None? then Some(Incident(x, 0))
    else Some(before.value.(refires := before.value.refires + 1))
  }

  lemma CountOpens(t: Tallies, x: Row, windowStart: int, rule: RuleId)
    requires |t.buckets| >= 1
    ensures OpenOf(Count(t, x, windowStart), rule) ==
      if x.rule == rule then Next(OpenOf(t, rule), x) else OpenOf(t, rule)
  {
  }

  /** The pass over all rules at once replays each rule by itself. */
  lemma {:induction false} OpenIsReplay(rows: seq<Row>, windowStart: int, hours: nat, rule: RuleId)
    requires hours >= 1
    ensures OpenOf(Tally(rows, windowStart, hours), rule) == Replay(Of(rows, rule))
    decreases |rows|
  {
    if rows != [] {
      var front, x := rows[..|rows| - 1], rows[|rows| - 1];
      OpenIsReplay(front, windowStart, hours, rule);
      CountOpens(Tally(front, windowStart, hours), x, windowStart, rule);
      ReplayExtends(Of(front, rule), x);
    }
  }

  lemma ReplayExtends(rows: seq<Row>, x: Row)
    ensures Replay(rows + [x]) == Next(Replay(rows), x)
  {
    assert (rows + [x])[..|rows|] == rows;
  }

  /** i is the first firing after the last resolution among one rule's rows. */
  predicate OpensAt(rows: seq<Row>, i: nat) {
    i < |rows| && (forall k :: i <= k < |rows| ==> IsFiring(rows[k])) && (i > 0 ==> !IsFiring(rows[i - 1]))
  }

  lemma {:induction false} OpenWhileFiring(rows: seq<Row>)
    ensures Replay(rows).Some? <==> rows != [] && IsFiring(rows[|rows| - 1])
  {
  }

  lemma {:induction false} OpeningRow(rows: seq<Row>, i: nat)
    requires OpensAt(rows, i)
    ensures Replay(rows) == Some(Incident(rows[i], |rows| - i - 1))
    decreases |rows|
  {
    var front := rows[..|rows| - 1];
    OpenWhileFiring(front);
    if i < |front| { OpeningRow(front, i); }
  }

  lemma {:induction false} OpeningExists(rows: seq<Row>) returns (i: nat)
    requires rows != [] && IsFiring(rows[|rows| - 1])
    ensures OpensAt(rows, i)
    decreases |rows|
  {
    var front := rows[..|rows| - 1];
    if front == [] || !IsFiring(front[|front| - 1]) {
      i := |front|;
    } else {
      i := OpeningExists(front);
    }
  }

  /** A rule is open exactly when its last row is a firing; the incident dates from the first firing after
      the last resolution, and its re-fire count is the number of firings since. */
  lemma ReplayMeans(rows: seq<Row>)
    ensures Replay(rows).Some? <==> rows != [] && IsFiring(rows[|rows| - 1])
    ensures forall i: nat :: OpensAt(rows, i) ==> Replay(rows) == Some(Incident(rows[i], |rows| - i - 1))
    ensures Replay(rows).Some? ==> exists i: nat :: OpensAt(rows, i)
  {
    OpenWhileFiring(rows);
    forall i: nat | OpensAt(rows, i) ensures Replay(rows) == Some(Incident(rows[i], |rows| - i - 1)) {
      OpeningRow(rows, i);
    }
    if Replay(rows).Some? {
      var i := OpeningExists(rows);
    }
  }

  lemma OpenIncidents(entries: seq<Row>, windowStart: int, hours: nat, rule: RuleId)
    requires hours >= 1
    ensures var t, rows := Tally(Sort(entries), windowStart, hours), Of(Sort(entries), rule);
      && (rule in t.open <==> rows != [] && IsFiring(rows[|rows| - 1]))
      && (forall i: nat :: OpensAt(rows, i) ==> rule in t.open && t.open[rule] == Incident(rows[i], |rows| - i - 1))
      && (rule in t.open ==> exists i: nat :: OpensAt(rows, i))
  {
    OpenIsReplay(Sort(entries), windowStart, hours, rule);
    ReplayMeans(Of(Sort(entries), rule));
  }

  // ---- Order of the input ----

  /** Only the rows matter, not the order they come in: with distinct ids, any permutation of the history
      gives the same sorted rows and so the same summary. */
  lemma OrderDoesNotMatter(a: seq<Row>, b: seq<Row>, windowStart: int, hours: nat)
    requires hours >= 1 && multiset(a) == multiset(b) && Told(a)
    ensures Tally(Sort(a), windowStart, hours) == Tally(Sort(b), windowStart, hours)
  {
    SortSorts(a);
    SortSorts(b);
    forall x | x in Sort(a) ensures x in a {
      assert x in multiset(Sort(a));
    }
    SortedUnique(Sort(a), Sort(b));
  }

  // ---- Durations ----

  lemma {:induction false} ReplayOpensFromRow(rows: seq<Row>)
    ensures Replay(rows).Some? ==> Replay(rows).value.opening in rows
    decreases |rows|
  {
    if rows != [] {
      ReplayOpensFromRow(rows[..|rows| - 1]);
      assert rows[|rows| - 1] in rows;
    }
  }

  /** The clamp on durations never applies: in sorted rows a resolution is never earlier than the firing
      that opened its incident. */
  lemma ClampNeverApplies(entries: seq<Row>, windowStart: int, hours: nat, k: nat)
    requires hours >= 1 && k < |Sort(entries)|
    requires Sort(entries)[k].rule in Tally(Sort(entries)[..k], windowStart, hours).open
    ensures var x := Sort(entries)[k];
      Tally(Sort(entries)[..k], windowStart, hours).open[x.rule].opening.at <= x.at
  {
    var rows := Sort(entries);
    SortSorts(entries);
    OpenIsReplay(rows[..k], windowStart, hours, rows[k].rule);
    ReplayOpensFromRow(Of(rows[..k], rows[k].rule));
    OfMembers(rows[..k], rows[k].rule);
  }

  /** How long each incident lasted that a resolution inside the window closed, from its first firing. */
  function Lengths(rows: seq<Row>, windowStart: int): seq<int>
    decreases |rows|
  {
    if rows == [] then []
    else
      var front, x := rows[..|rows| - 1], rows[|rows| - 1];
      var incident := Replay(Of(front, x.rule));
      Lengths(front, windowStart)
      + if !IsFiring(x) && x.at >= windowStart && incident.Some? then [x.at - incident.value.opening.at] else []
  }

  /** The recorded durations are the lengths of the incidents closed in the window, unclamped. */
  lemma {:induction false} DurationsAreLengths(rows: seq<Row>, windowStart: int, hours: nat)
    requires hours >= 1 && Sorted(rows)
    ensures Tally(rows, windowStart, hours).durations == Lengths(rows, windowStart)
    decreases |rows|
  {
    if rows != [] {
      var front, x := rows[..|rows| - 1], rows[|rows| - 1];
      DurationsAreLengths(front, windowStart, hours);
      OpenIsReplay(front, windowStart, hours, x.rule);
      OpenedBefore(front, x);
      DurationStep(Tally(front, windowStart, hours), x, windowStart, Replay(Of(front, x.rule)));
    }
  }

  /** A rule's incident was opened no later than any row that follows. */
  lemma OpenedBefore(front: seq<Row>, x: Row)
    requires forall y :: y in front ==> Before(y, x)
    ensures var incident := Replay(Of(front, x.rule)); incident.Some? ==> incident.value.opening.at <= x.at
  {
    ReplayOpensFromRow(Of(front, x.rule));
    OfMembers(front, x.rule);
  }

  lemma DurationStep(t: Tallies, x: Row, windowStart: int, incident: Option<Incident>)
    requires |t.buckets| >= 1 && OpenOf(t, x.rule) == incident && (incident.Some? ==> incident.value.opening.at <= x.at)
    ensures Count(t, x, windowStart).durations == t.durations
      + if !IsFiring(x) && x.at >= windowStart && incident.Some? then [x.at - incident.value.opening.at] else []
  {
  }

  function HowSevere(rows: seq<Row>, s: Severity, windowStart: int): nat
    decreases |rows|
  {
    if rows == [] then 0
    else
      var x := rows[|rows| - 1];
      HowSevere(rows[..|rows| - 1], s, windowStart)
      + if IsFiring(x) && x.severity == s && x.at >= windowStart then 1 else 0
  }

  /** Each severity count is the number of firings of that severity in the window. */
  lemma {:induction false} SeveritiesCounted(rows: seq<Row>, s: Severity, windowStart: int, hours: nat)
    requires hours >= 1
    ensures At(Tally(rows, windowStart, hours).severities, s) == HowSevere(rows, s, windowStart)
    decreases |rows|
  {
    if rows != [] { SeveritiesCounted(rows[..|rows| - 1], s, windowStart, hours); }
  }

  // ---- Conservation ----

  function FiredIn(buckets: seq<Bucket>): nat
    decreases |buckets|
  {
    if buckets == [] then 0 else FiredIn(buckets[..|buckets| - 1]) + buckets[|buckets| - 1].fired
  }

  function SuppressedIn(buckets: seq<Bucket>): nat
    decreases |buckets|
  {
    if buckets == [] then 0 else SuppressedIn(buckets[..|buckets| - 1]) + buckets[|buckets| - 1].suppressed
  }

  function At(m: map<Severity, nat>, s: Severity): nat { if s in m then m[s] else 0 }

  lemma {:induction false} BucketChanged(buckets: seq<Bucket>, i: nat, b: Bucket)
    requires i < |buckets|
    ensures FiredIn(buckets[i := b]) == FiredIn(buckets) - buckets[i].fired + b.fired
    ensures SuppressedIn(buckets[i := b]) == SuppressedIn(buckets) - buckets[i].suppressed + b.suppressed
    decreases |buckets|
  {
    var last := |buckets| - 1;
    if i == last {
      assert buckets[i := b][..last] == buckets[..last];
    } else {
      assert buckets[i := b][..last] == buckets[..last][i := b];
      BucketChanged(buckets[..last], i, b);
    }
  }

  lemma {:induction false} EmptyBuckets(hours: nat)
    ensures FiredIn(seq(hours, i => Bucket(0, 0))) == 0 && SuppressedIn(seq(hours, i => Bucket(0, 0))) == 0
    decreases hours
  {
    if hours > 0 {
      var s := seq(hours, i => Bucket(0, 0));
      assert s[..hours - 1] == seq(hours - 1, i => Bucket(0, 0));
      EmptyBuckets(hours - 1);
    }
  }

  predicate Balanced(t: Tallies) {
    && FiredIn(t.buckets) == t.fired
    && SuppressedIn(t.buckets) == t.suppressed
    && At(t.severities, Warning) + At(t.severities, Critical) == t.fired + t.suppressed
    && t.resolved == |t.durations| + t.orphans
  }

  lemma BumpAddsOne(m: map<Severity, nat>, s: Severity)
    ensures At(Bump(m, s), Warning) + At(Bump(m, s), Critical) == At(m, Warning) + At(m, Critical) + 1
  {
    match s
    case Warning =>
    case Critical =>
  }

  lemma FiringBalances(t: Tallies, x: Row, windowStart: int)
    requires |t.buckets| >= 1 && Balanced(t) && IsFiring(x)
    ensures Balanced(Count(t, x, windowStart))
  {
    if x.at >= windowStart {
      var i := BucketIndex(x.at, windowStart, |t.buckets|);
      var b := t.buckets[i];
      BucketChanged(t.buckets, i,
        if x.kind == Fired then b.(fired := b.fired + 1) else b.(suppressed := b.suppressed + 1));
      BumpAddsOne(t.severities, x.severity);
    }
  }

  lemma ResolutionBalances(t: Tallies, x: Row, windowStart: int)
    requires |t.buckets| >= 1 && Balanced(t) && !IsFiring(x)
    ensures Balanced(Count(t, x, windowStart))
  {
  }

  /** Nothing is counted twice or dropped: the buckets add up to the totals, the severities to all firings
      in the window, and every resolution in the window is either paired or an orphan. */
  lemma {:induction false} CountsAgree(rows: seq<Row>, windowStart: int, hours: nat)
    requires hours >= 1
    ensures Balanced(Tally(rows, windowStart, hours))
    decreases |rows|
  {
    if rows == [] {
      EmptyBuckets(hours);
    } else {
      var t, x := Tally(rows[..|rows| - 1], windowStart, hours), rows[|rows| - 1];
      CountsAgree(rows[..|rows| - 1], windowStart, hours);
      if IsFiring(x) { FiringBalances(t, x, windowStart); } else { ResolutionBalances(t, x, windowStart); }
    }
  }

  // ---- Hour buckets ----

  /** The time lies in hour b of the window; the last hour also takes everything later. */
  predicate InHour(at: int, windowStart: int, hours: nat, b: nat) {
    windowStart + b * 36_000_000_000 <= at && (b < hours - 1 ==> at < windowStart + (b + 1) * 36_000_000_000)
  }

  function HowMany(rows: seq<Row>, kind: Kind, windowStart: int, hours: nat, b: nat): nat
    decreases |rows|
  {
    if rows == [] then 0
    else
      var x := rows[|rows| - 1];
      HowMany(rows[..|rows| - 1], kind, windowStart, hours, b)
      + if x.kind == kind && InHour(x.at, windowStart, hours, b) then 1 else 0
  }

  lemma IndexIsHour(at: int, windowStart: int, hours: nat, b: nat)
    requires hours >= 1 && at >= windowStart && b < hours
    ensures BucketIndex(at, windowStart, hours) == b <==> InHour(at, windowStart, hours, b)
  {
  }

  /** Each bucket holds exactly the firings of its hour. */
  lemma {:induction false} BucketsHoldTheirHour(rows: seq<Row>, windowStart: int, hours: nat, b: nat)
    requires hours >= 1 && b < hours
    ensures var t := Tally(rows, windowStart, hours);
      && t.buckets[b].fired == HowMany(rows, Fired, windowStart, hours, b)
      && t.buckets[b].suppressed == HowMany(rows, Suppressed, windowStart, hours, b)
    decreases |rows|
  {
    if rows != [] {
      var x := rows[|rows| - 1];
      BucketsHoldTheirHour(rows[..|rows| - 1], windowStart, hours, b);
      if x.at >= windowStart { IndexIsHour(x.at, windowStart, hours, b); }
    }
  }

  // ---- Mean and median ----

  lemma {:induction false} SumBetween(s: seq<int>, low: int, high: int)
    requires forall i :: 0 <= i < |s| ==> low <= s[i] <= high
    ensures low * |s| <= SumOf(s) <= high * |s|
    decreases |s|
  {
    if s != [] {
      var n := |s| - 1;
      SumBetween(s[..n], low, high);
      assert low * (n + 1) == low * n + low && high * (n + 1) == high * n + high;
    }
  }

  lemma Average(sum: int, n: nat, low: int, high: int)
    requires n >= 1 && low * n <= sum <= high * n
    ensures low as real <= sum as real / n as real <= high as real
  {
    assert (low as real) * (n as real) == (low * n) as real;
    assert (high as real) * (n as real) == (high * n) as real;
    var q := sum as real / n as real;
    assert q * (n as real) == sum as real;
  }

  lemma SumGrows(s: seq<int>, x: int)
    ensures SumOf([]) == 0 && SumOf(s + [x]) == SumOf(s) + x
  {
    assert (s + [x])[..|s|] == s;
  }

  /** The mean times the number of durations is their sum; the median is half way between the two durations
      in the middle, which are the same one for an odd number. */
  lemma MeanAndMedianAre(sorted: seq<int>)
    requires sorted != []
    ensures Mean(sorted) * |sorted| as real == SumOf(sorted) as real
    ensures 2.0 * Median(sorted) == (sorted[(|sorted| - 1) / 2] + sorted[|sorted| / 2]) as real
  {
    var mid := |sorted| / 2;
    if |sorted| % 2 == 1 { assert (|sorted| - 1) / 2 == mid; } else { assert (|sorted| - 1) / 2 == mid - 1; }
  }

  /** Mean and median lie between the smallest and the largest duration. */
  lemma MeanAndMedianWithin(sorted: seq<int>)
    requires sorted != [] && Ascending(sorted)
    ensures sorted[0] as real <= Mean(sorted) <= sorted[|sorted| - 1] as real
    ensures sorted[0] as real <= Median(sorted) <= sorted[|sorted| - 1] as real
  {
    SumBetween(sorted, sorted[0], sorted[|sorted| - 1]);
    Average(SumOf(sorted), |sorted|, sorted[0], sorted[|sorted| - 1]);
  }
}
