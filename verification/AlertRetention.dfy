/** The bounded history store, and what the summary still says once old rows are gone. */
module AlertRetention {
  import opened AlertRows
  import opened AlertSummary
  import opened SummaryLaws
  import opened AlertEngine
  import opened AlertReplay

  const MaxEntries: nat := 2000

  // ---- The store ----

  function Without(rows: seq<Row>, id: int): seq<Row>
    decreases |rows|
  {
    if rows == [] then []
    else (if rows[0].id == id then [] else [rows[0]]) + Without(rows[1..], id)
  }

  function Place(x: Row, rows: seq<Row>): seq<Row>
    decreases |rows|
  {
    if rows == [] || x.at >= rows[0].at then [x] + rows else [rows[0]] + Place(x, rows[1..])
  }

  /** Newest first; equal times keep their order. */
  function NewestSorted(rows: seq<Row>): seq<Row>
    decreases |rows|
  {
    if rows == [] then [] else Place(rows[0], NewestSorted(rows[1..]))
  }

  function Cut(rows: seq<Row>): seq<Row> {
    if |rows| > MaxEntries then rows[..MaxEntries] else rows
  }

  function Retain(entries: seq<Row>, x: Row): seq<Row> {
    Cut(NewestSorted([x] + Without(entries, x.id)))
  }

  class AlertHistoryRepository {
    var entries: seq<Row>

    constructor ()
      ensures entries == []
    {
      entries := [];
    }

    method Append(x: Row)
      modifies this
      ensures entries == Retain(old(entries), x)
    {
      entries := [x] + Without(entries, x.id);
      entries := NewestSorted(entries);
      if |entries| > MaxEntries {
        entries := entries[..MaxEntries];
      }
    }
  }

  // ---- The newest two thousand ----

  function Newest(log: seq<Row>): seq<Row> {
    if |log| > 2000 then log[|log| - 2000..] else log
  }

  function Reversed(rows: seq<Row>): (r: seq<Row>)
    ensures |r| == |rows| && forall i :: 0 <= i < |rows| ==> r[i] == rows[|rows| - 1 - i]
    decreases |rows|
  {
    if rows == [] then [] else Reversed(rows[1..]) + [rows[0]]
  }

  predicate InOrder(log: seq<Row>) {
    forall i, j :: 0 <= i < j < |log| ==> log[i].at <= log[j].at
  }

  predicate DistinctIds(log: seq<Row>) {
    forall i, j :: 0 <= i < j < |log| ==> log[i].id != log[j].id
  }

  lemma {:induction false} WithoutAbsent(rows: seq<Row>, id: int)
    requires forall i :: 0 <= i < |rows| ==> rows[i].id != id
    ensures Without(rows, id) == rows
    decreases |rows|
  {
    if rows != [] { WithoutAbsent(rows[1..], id); }
  }

  lemma {:induction false} AlreadyNewestFirst(rows: seq<Row>)
    requires forall i, j :: 0 <= i < j < |rows| ==> rows[i].at >= rows[j].at
    ensures NewestSorted(rows) == rows
    decreases |rows|
  {
    if rows != [] { AlreadyNewestFirst(rows[1..]); }
  }

  /** One more row, not older than those kept and with an id of its own, goes in front. */
  lemma RetainInFront(kept: seq<Row>, x: Row)
    requires forall i :: 0 <= i < |kept| ==> kept[i].id != x.id && kept[i].at <= x.at
    requires forall i, j :: 0 <= i < j < |kept| ==> kept[i].at >= kept[j].at
    ensures Retain(kept, x) == Cut([x] + kept)
  {
    WithoutAbsent(kept, x.id);
    AlreadyNewestFirst([x] + kept);
  }

  lemma NewestGrows(log: seq<Row>, x: Row)
    ensures Cut([x] + Reversed(Newest(log))) == Reversed(Newest(log + [x]))
  {
    var a, b := Cut([x] + Reversed(Newest(log))), Reversed(Newest(log + [x]));
    assert |a| == |b|;
    forall i | 0 <= i < |a| ensures a[i] == b[i] {
      assert b[i] == (log + [x])[|log| - i];
      if i > 0 { assert a[i] == Reversed(Newest(log))[i - 1] == log[|log| - i]; }
    }
  }

  /** The store after appending a whole log, row by row. */
  function Stored(log: seq<Row>): seq<Row>
    decreases |log|
  {
    if log == [] then [] else Retain(Stored(log[..|log| - 1]), log[|log| - 1])
  }

  /** The store holds the newest two thousand rows, newest first. */
  lemma {:induction false} StoreHoldsNewest(log: seq<Row>)
    requires InOrder(log) && DistinctIds(log)
    ensures Stored(log) == Reversed(Newest(log))
    decreases |log|
  {
    if log != [] {
      var front, x := log[..|log| - 1], log[|log| - 1];
      assert log == front + [x];
      StoreHoldsNewest(front);
      KeptRows(front, x);
      RetainInFront(Reversed(Newest(front)), x);
      NewestGrows(front, x);
    }
  }

  lemma KeptRows(front: seq<Row>, x: Row)
    requires InOrder(front + [x]) && DistinctIds(front + [x])
    ensures var kept := Reversed(Newest(front));
      && (forall i :: 0 <= i < |kept| ==> kept[i].id != x.id && kept[i].at <= x.at)
      && (forall i, j :: 0 <= i < j < |kept| ==> kept[i].at >= kept[j].at)
  {
    var kept, all := Reversed(Newest(front)), front + [x];
    assert all[|front|] == x;
    forall i | 0 <= i < |kept| ensures kept[i] == all[|front| - 1 - i] {
    }
  }

  // ---- The engine writes its rows in time order ----

  predicate LogInOrder(e: Engine) {
    && InOrder(e.log)
    && (forall i :: 0 <= i < |e.log| ==> e.log[i].at <= e.clock)
    && (forall rule :: rule in e.pending ==> e.pending[rule].at == e.clock)
  }

  lemma StepInOrder(e: Engine, ev: Event)
    requires LogInOrder(e)
    ensures LogInOrder(Apply(e, ev))
  {
    if ev.Evaluate? { PendingAtClock(e, ev); }
  }

  lemma PendingAtClock(e: Engine, ev: Event)
    requires ev.Evaluate? && forall rule :: rule in e.pending ==> e.pending[rule].at == e.clock
    ensures var e' := Apply(e, ev);
      e'.log == e.log && e'.clock == e.clock && forall rule :: rule in e'.pending ==> e'.pending[rule].at == e.clock
  {
    if Resolves(e, ev) || Records(e, ev) {
      var x := Apply(e, ev).pending[ev.rule];
      assert x.at == e.clock && Apply(e, ev).pending == e.pending[ev.rule := x];
    } else {
      assert Apply(e, ev).pending == e.pending;
    }
  }

  lemma {:induction false} RunInOrder(rules: map<RuleId, Rule>, evs: seq<Event>)
    ensures LogInOrder(Execute(rules, evs))
    decreases |evs|
  {
    if evs != [] {
      RunInOrder(rules, evs[..|evs| - 1]);
      StepInOrder(Execute(rules, evs[..|evs| - 1]), evs[|evs| - 1]);
    }
  }

  // ---- Dropping a prefix ----

  lemma ReversedRows(rows: seq<Row>)
    ensures multiset(Reversed(rows)) == multiset(rows)
    decreases |rows|
  {
    if rows != [] {
      ReversedRows(rows[1..]);
      assert rows == [rows[0]] + rows[1..];
    }
  }

  lemma SortedRule(rows: seq<Row>, suffix: seq<Row>, rule: RuleId)
    requires multiset(rows) == multiset(suffix) && Increasing(Of(suffix, rule))
    ensures Of(Sort(rows), rule) == Of(suffix, rule)
  {
    SortSorts(rows);
    OfSorted(Sort(rows), rule);
    var a, b := Of(suffix, rule), Of(Sort(rows), rule);
    forall x ensures multiset(a)[x] == multiset(b)[x] {
      OfCounts(suffix, rule, x);
      OfCounts(Sort(rows), rule, x);
    }
    assert multiset(a) == multiset(b);
    SortedUnique(a, b);
  }

  /** A rule's retained rows are the last ones of all its rows. */
  lemma RetainedRule(log: seq<Row>, k: nat, rows: seq<Row>, rule: RuleId) returns (j: nat)
    requires k <= |log| && multiset(rows) == multiset(log[k..]) && Increasing(Of(log, rule))
    ensures j <= |Of(log, rule)| && Of(Sort(rows), rule) == Of(log, rule)[j..]
  {
    assert log == log[..k] + log[k..];
    OfConcat(log[..k], log[k..], rule);
    j := |Of(log[..k], rule)|;
    assert Of(log, rule)[j..] == Of(log[k..], rule);
    SortedRule(rows, log[k..], rule);
  }

  lemma NoLaterOrphan(rows: seq<Row>, all: seq<Row>, j: nat, i: nat)
    requires i < |rows| && j <= |all| && Of(rows, rows[i].rule) == all[j..] && Paired(all)
    requires Of(rows[..i], rows[i].rule) != []
    ensures !OrphanAt(rows, i)
  {
    RowInPlace(rows, i);
    SuffixPaired(all, j);
  }

  lemma SuffixPaired(all: seq<Row>, j: nat)
    requires j <= |all| && Paired(all)
    ensures forall k :: 0 < k < |all[j..]| && !IsFiring(all[j..][k]) ==> IsFiring(all[j..][k - 1])
  {
    forall k | 0 < k < |all[j..]| && !IsFiring(all[j..][k]) ensures IsFiring(all[j..][k - 1]) {
      assert !IsFiring(all[j + k]);
    }
  }

  /** Among its rule's rows, a row stands right after those of the rule before it. */
  lemma RowInPlace(rows: seq<Row>, i: nat)
    requires i < |rows|
    ensures var before, own := Of(rows[..i], rows[i].rule), Of(rows, rows[i].rule);
      |before| < |own| && own[|before|] == rows[i] && (before != [] ==> own[|before| - 1] == before[|before| - 1])
  {
    var rule := rows[i].rule;
    assert rows == rows[..i + 1] + rows[i + 1..] && rows[..i + 1][..i] == rows[..i];
    OfConcat(rows[..i + 1], rows[i + 1..], rule);
    assert Of(rows[..i + 1], rule) == Of(rows[..i], rule) + [rows[i]];
  }

  /** Whatever prefix of the history has been dropped, and in whatever order the rest is given: a rule
      rebuilt as open is open in the whole history too, hence open in the engine or dropped from it by a
      reload or a restart; and an orphaned resolution is always its rule's first retained row. */
  lemma RetentionKeepsTruth(rules: map<RuleId, Rule>, evs: seq<Event>, k: nat, rows: seq<Row>, windowStart: int,
      hours: nat)
    requires hours >= 1 && Execute(rules, evs).pending == map[]
    requires var log := Execute(rules, evs).log; k <= |log| && multiset(rows) == multiset(log[k..])
    ensures forall rule :: rule in Tally(Sort(rows), windowStart, hours).open ==>
      rule in Execute(rules, evs).open || rule in Stale(rules, evs)
    ensures forall i :: 0 <= i < |Sort(rows)| && OrphanAt(Sort(rows), i) ==>
      Of(Sort(rows)[..i], Sort(rows)[i].rule) == []
  {
    var e := Execute(rules, evs);
    RunKeeps(rules, evs);
    var sorted := Sort(rows);
    forall rule | rule in Tally(sorted, windowStart, hours).open ensures rule in e.open || rule in Stale(rules, evs) {
      var v := ViewOf(e, Live(rules, evs), Stale(rules, evs), rule);
      assert Good(v) && v.rows == Of(e.log, rule);
      var j := RetainedRule(e.log, k, rows, rule);
      OpenIsReplay(sorted, windowStart, hours, rule);
      OpenWhileFiring(Of(sorted, rule));
      OpenWhileFiring(v.rows);
    }
    forall i | 0 <= i < |sorted| && OrphanAt(sorted, i) ensures Of(sorted[..i], sorted[i].rule) == [] {
      var rule := sorted[i].rule;
      var v := ViewOf(e, Live(rules, evs), Stale(rules, evs), rule);
      assert Good(v) && v.rows == Of(e.log, rule);
      var j := RetainedRule(e.log, k, rows, rule);
      if Of(sorted[..i], rule) != [] { NoLaterOrphan(sorted, Of(e.log, rule), j, i); }
    }
  }

  /** So one rule has at most one orphan. */
  lemma OneOrphanPerRule(rules: map<RuleId, Rule>, evs: seq<Event>, k: nat, rows: seq<Row>, a: nat, b: nat)
    requires Execute(rules, evs).pending == map[]
    requires var log := Execute(rules, evs).log; k <= |log| && multiset(rows) == multiset(log[k..])
    requires a < b < |Sort(rows)| && Sort(rows)[a].rule == Sort(rows)[b].rule
    ensures !(OrphanAt(Sort(rows), a) && OrphanAt(Sort(rows), b))
  {
    RetentionKeepsTruth(rules, evs, k, rows, 0, 1);
    OfMembers(Sort(rows)[..b], Sort(rows)[b].rule);
    assert Sort(rows)[..b][a] == Sort(rows)[a];
  }

  /** The store after a whole run: the newest rows of the engine's log, and the summary of it tells no
      incident but those open in the engine and those a reload or a restart dropped unresolved. */
  lemma StoredHistoryTellsTruth(rules: map<RuleId, Rule>, evs: seq<Event>, windowStart: int, hours: nat)
    requires hours >= 1 && Execute(rules, evs).pending == map[]
    requires DistinctIds(Execute(rules, evs).log)
    ensures Tally(Sort(Stored(Execute(rules, evs).log)), windowStart, hours).open.Keys
      <= Execute(rules, evs).open + Stale(rules, evs)
  {
    RunInOrder(rules, evs);
    StoreHoldsNewest(Execute(rules, evs).log);
    var log := Execute(rules, evs).log;
    var k := |log| - |Newest(log)|;
    assert log[k..] == Newest(log);
    ReversedRows(log[k..]);
    RetentionKeepsTruth(rules, evs, k, Reversed(Newest(log)), windowStart, hours);
  }
}
