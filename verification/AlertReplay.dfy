/** Replaying the durable history gives back the engine's live state. */
module AlertReplay {
  import opened Wrappers
  import opened AlertRows
  import opened AlertSummary
  import opened SummaryLaws
  import opened AlertEngine

  /** The evaluation closes an open incident. */
  predicate Resolves(e: Engine, ev: Event) {
    ev.Evaluate? && ev.rule in e.due && e.due[ev.rule].hasSource && ev.signal == SignalOk && ev.rule in e.open
  }

  /** A recorded firing opens an incident or counts on it, a clean evaluation closes it, a reload drops
      those of deleted rules. */
  function LiveStep(e: Engine, ev: Event, live: map<RuleId, Incident>): map<RuleId, Incident> {
    if Records(e, ev) then Reopen(live, Apply(e, ev).pending[ev.rule])
    else if Resolves(e, ev) then live - {ev.rule}
    else if ev.Reload? then live - (live.Keys - ev.rules.Keys)
    else if ev.Restart? then map[]
    else live
  }

  predicate EndsFiring(rows: seq<Row>) {
    rows != [] && IsFiring(rows[|rows| - 1])
  }

  /** A restart parts the rule from an incident the history goes on showing: one that is open or was dropped
      before, unless the row that opened it was never appended; or one whose resolution was never appended. */
  predicate CutOff(e: Engine, stale: set<RuleId>, rule: RuleId) {
    if rule !in e.pending then rule in stale || rule in e.open
    else IsFiring(e.pending[rule]) ==> EndsFiring(Of(e.log, rule))
  }

  function StaleStep(e: Engine, ev: Event, stale: set<RuleId>): set<RuleId> {
    if ev.Reload? then stale + (e.open - ev.rules.Keys)
    else if ev.Restart? then set rule | rule in stale + e.open + e.pending.Keys && CutOff(e, stale, rule)
    else if Resolves(e, ev) then stale - {ev.rule}
    else stale
  }

  /** The incidents as the run makes them. */
  function Live(rules: map<RuleId, Rule>, evs: seq<Event>): map<RuleId, Incident>
    decreases |evs|
  {
    if evs == [] then map[]
    else LiveStep(Execute(rules, evs[..|evs| - 1]), evs[|evs| - 1], Live(rules, evs[..|evs| - 1]))
  }

  /** Rules that lost an incident to a reload or a restart and have not been resolved since. */
  function Stale(rules: map<RuleId, Rule>, evs: seq<Event>): set<RuleId>
    decreases |evs|
  {
    if evs == [] then {}
    else StaleStep(Execute(rules, evs[..|evs| - 1]), evs[|evs| - 1], Stale(rules, evs[..|evs| - 1]))
  }

  // ---- One rule ----

  /** What a run says about one rule. rows: those appended, then the one decided but not appended yet. */
  datatype View = View(rows: seq<Row>, clock: int, isDue: bool, isPending: bool, isOpen: bool, stale: bool,
      live: Option<Incident>)

  function RowsOf(e: Engine, rule: RuleId): seq<Row> {
    Of(e.log, rule) + if rule in e.pending then [e.pending[rule]] else []
  }

  function LiveOf(live: map<RuleId, Incident>, rule: RuleId): Option<Incident> {
    if rule in live then Some(live[rule]) else None
  }

  function ViewOf(e: Engine, live: map<RuleId, Incident>, stale: set<RuleId>, rule: RuleId): View {
    View(RowsOf(e, rule), e.clock, rule in e.due, rule in e.pending, rule in e.open, rule in stale, LiveOf(live, rule))
  }

  /** Every resolution directly follows a firing. */
  predicate Paired(rows: seq<Row>) {
    forall i :: 0 <= i < |rows| && !IsFiring(rows[i]) ==> i > 0 && IsFiring(rows[i - 1])
  }

  predicate Good(v: View) {
    && Increasing(v.rows) && Paired(v.rows)
    && (forall i :: 0 <= i < |v.rows| ==> v.rows[i].at <= v.clock && (v.isDue ==> v.rows[i].at < v.clock))
    && !(v.isDue && v.isPending)
    && (v.live.Some? <==> v.isOpen)
    && if v.stale then Outlives(Replay(v.rows), v.live) else Replay(v.rows) == v.live
  }

  /** The replayed incident is older than the live one, or there is no live one. */
  predicate Outlives(replayed: Option<Incident>, live: Option<Incident>) {
    replayed.Some? && (live.Some? ==> replayed.value.opening.at < live.value.opening.at)
  }

  lemma FiringKeeps(v: View, x: Row)
    requires Good(v) && v.isDue && x.at == v.clock && IsFiring(x)
    ensures Good(View(v.rows + [x], v.clock, false, true, true, v.stale, Next(v.live, x)))
  {
    ReplayExtends(v.rows, x);
    ReplayOpensFromRow(v.rows);
  }

  lemma ResolutionKeeps(v: View, x: Row)
    requires Good(v) && v.isDue && v.isOpen && x.at == v.clock && !IsFiring(x)
    ensures Good(View(v.rows + [x], v.clock, false, true, false, false, None))
  {
    ReplayExtends(v.rows, x);
    OpenWhileFiring(v.rows);
  }

  lemma DropKeeps(v: View)
    requires Good(v)
    ensures Good(v.(isOpen := false, stale := v.stale || v.isOpen, live := None))
  {
  }

  lemma LessPendingKeeps(v: View, pending: bool)
    requires Good(v) && (pending ==> v.isPending)
    ensures Good(v.(isPending := pending))
  {
  }

  // ---- The engine's steps, seen from one rule ----

  ghost predicate Inv(e: Engine, live: map<RuleId, Incident>, stale: set<RuleId>) {
    && (forall rule :: rule in e.pending ==> e.pending[rule].rule == rule)
    && forall rule :: Good(ViewOf(e, live, stale, rule))
  }

  /** What one evaluation may change, for the rule evaluated and for any other. */
  predicate SameFor(a: Engine, b: Engine, rule: RuleId) {
    && b.log == a.log && b.clock == a.clock
    && (rule in b.due <==> rule in a.due)
    && (rule in b.open <==> rule in a.open)
    && (rule in b.pending <==> rule in a.pending)
    && (rule in a.pending ==> b.pending[rule] == a.pending[rule])
  }

  lemma OtherRuleUnmoved(e: Engine, own: RuleId, signal: Signal, suppressed: bool, rowId: int, rule: RuleId)
    requires own != rule
    ensures SameFor(e, EvaluateStep(e, own, signal, suppressed, rowId), rule)
  {
    if own in e.due && e.due[own].hasSource {
      match signal
      case SignalOk => assert SameFor(e, EvaluateStep(e, own, SignalOk, suppressed, rowId), rule);
      case SignalFiring => assert SameFor(e, EvaluateStep(e, own, SignalFiring, suppressed, rowId), rule);
      case _ => assert SameFor(e, EvaluateStep(e, own, signal, suppressed, rowId), rule);
    }
  }

  lemma FiringMoves(e: Engine, ev: Event)
    requires Records(e, ev) && ev.rule !in e.pending
    ensures var e' := Apply(e, ev);
      e'.log == e.log && e'.clock == e.clock && ev.rule !in e'.due && ev.rule in e'.open && ev.rule in e'.pending
      && e'.pending[ev.rule].at == e.clock && e'.pending[ev.rule].rule == ev.rule && IsFiring(e'.pending[ev.rule])
  {
  }

  lemma ResolutionMoves(e: Engine, ev: Event)
    requires Resolves(e, ev) && ev.rule !in e.pending
    ensures var e' := Apply(e, ev);
      e'.log == e.log && e'.clock == e.clock && ev.rule !in e'.due && ev.rule !in e'.open && ev.rule in e'.pending
      && e'.pending[ev.rule].at == e.clock && e'.pending[ev.rule].rule == ev.rule && !IsFiring(e'.pending[ev.rule])
  {
  }

  lemma NothingMoves(e: Engine, ev: Event)
    requires ev.Evaluate? && ev.rule in e.due && !Records(e, ev) && !Resolves(e, ev)
    ensures var e' := Apply(e, ev);
      e'.log == e.log && e'.clock == e.clock && ev.rule !in e'.due && e'.open == e.open && e'.pending == e.pending
  {
  }

  lemma OwnFiringKeeps(e: Engine, live: map<RuleId, Incident>, stale: set<RuleId>, ev: Event)
    requires Records(e, ev) && Good(ViewOf(e, live, stale, ev.rule))
    ensures Good(ViewOf(Apply(e, ev), LiveStep(e, ev, live), StaleStep(e, ev, stale), ev.rule))
  {
    FiringMoves(e, ev);
    var x := Apply(e, ev).pending[ev.rule];
    FiringKeeps(ViewOf(e, live, stale, ev.rule), x);
    assert RowsOf(Apply(e, ev), ev.rule) == RowsOf(e, ev.rule) + [x];
    assert LiveOf(Reopen(live, x), ev.rule) == Next(LiveOf(live, ev.rule), x);
  }

  lemma OwnResolutionKeeps(e: Engine, live: map<RuleId, Incident>, stale: set<RuleId>, ev: Event)
    requires Resolves(e, ev) && Good(ViewOf(e, live, stale, ev.rule))
    ensures Good(ViewOf(Apply(e, ev), LiveStep(e, ev, live), StaleStep(e, ev, stale), ev.rule))
  {
    ResolutionMoves(e, ev);
    var x := Apply(e, ev).pending[ev.rule];
    ResolutionKeeps(ViewOf(e, live, stale, ev.rule), x);
    assert RowsOf(Apply(e, ev), ev.rule) == RowsOf(e, ev.rule) + [x];
  }

  lemma OwnRestKeeps(e: Engine, live: map<RuleId, Incident>, stale: set<RuleId>, ev: Event)
    requires ev.Evaluate? && !Records(e, ev) && !Resolves(e, ev) && Good(ViewOf(e, live, stale, ev.rule))
    ensures Good(ViewOf(Apply(e, ev), live, stale, ev.rule))
  {
    if ev.rule in e.due {
      NothingMoves(e, ev);
      assert ViewOf(Apply(e, ev), live, stale, ev.rule) == ViewOf(e, live, stale, ev.rule).(isDue := false);
    } else {
      assert Apply(e, ev) == e;
    }
  }

  lemma OtherRuleKeeps(e: Engine, live: map<RuleId, Incident>, stale: set<RuleId>, ev: Event, rule: RuleId)
    requires ev.Evaluate? && ev.rule != rule && Good(ViewOf(e, live, stale, rule))
      && (Records(e, ev) ==> ev.rule !in e.pending)
    ensures Good(ViewOf(Apply(e, ev), LiveStep(e, ev, live), StaleStep(e, ev, stale), rule))
  {
    OtherRuleUnmoved(e, ev.rule, ev.signal, ev.suppressed, ev.rowId, rule);
    SameRows(e, Apply(e, ev), rule);
    OtherRuleLive(e, live, stale, ev, rule);
    assert ViewOf(Apply(e, ev), LiveStep(e, ev, live), StaleStep(e, ev, stale), rule) == ViewOf(e, live, stale, rule);
  }

  lemma SameRows(a: Engine, b: Engine, rule: RuleId)
    requires SameFor(a, b, rule)
    ensures RowsOf(b, rule) == RowsOf(a, rule)
  {
  }

  lemma OtherRuleLive(e: Engine, live: map<RuleId, Incident>, stale: set<RuleId>, ev: Event, rule: RuleId)
    requires ev.Evaluate? && ev.rule != rule && (Records(e, ev) ==> ev.rule !in e.pending)
    ensures LiveOf(LiveStep(e, ev, live), rule) == LiveOf(live, rule)
    ensures rule in StaleStep(e, ev, stale) <==> rule in stale
  {
    if Records(e, ev) { FiringMoves(e, ev); }
  }

  lemma AppendMovesRow(e: Engine, appended: RuleId, rule: RuleId)
    requires appended in e.pending && e.pending[appended].rule == appended
    ensures RowsOf(AppendStep(e, appended), rule) == RowsOf(e, rule)
  {
    OfAppend(e.log, e.pending[appended], rule);
  }

  lemma OfAppend(rows: seq<Row>, x: Row, rule: RuleId)
    ensures Of(rows + [x], rule) == if x.rule == rule then Of(rows, rule) + [x] else Of(rows, rule)
  {
    assert (rows + [x])[..|rows|] == rows;
  }

  lemma AppendKeeps(e: Engine, live: map<RuleId, Incident>, stale: set<RuleId>, appended: RuleId, rule: RuleId)
    requires Good(ViewOf(e, live, stale, rule)) && (appended in e.pending ==> e.pending[appended].rule == appended)
    ensures Good(ViewOf(AppendStep(e, appended), live, stale, rule))
  {
    if appended in e.pending {
      AppendMovesRow(e, appended, rule);
      LessPendingKeeps(ViewOf(e, live, stale, rule), rule in AppendStep(e, appended).pending);
    }
  }

  lemma BeginKeeps(e: Engine, live: map<RuleId, Incident>, stale: set<RuleId>, now: int, rule: RuleId)
    requires Good(ViewOf(e, live, stale, rule))
    ensures Good(ViewOf(BeginStep(e, now), live, stale, rule))
  {
    var v, v' := ViewOf(e, live, stale, rule), ViewOf(BeginStep(e, now), live, stale, rule);
    assert v' == v || (now > e.clock && !v.isPending && v' == v.(clock := now, isDue := v'.isDue));
  }

  lemma ReloadKeeps(e: Engine, live: map<RuleId, Incident>, stale: set<RuleId>, newRules: map<RuleId, Rule>,
      rule: RuleId)
    requires Good(ViewOf(e, live, stale, rule))
    ensures Good(ViewOf(
      ReloadStep(e, newRules), live - (live.Keys - newRules.Keys), stale + (e.open - newRules.Keys), rule))
  {
    var v := ViewOf(e, live, stale, rule);
    DropKeeps(v);
    var v' := ViewOf(
      ReloadStep(e, newRules), live - (live.Keys - newRules.Keys), stale + (e.open - newRules.Keys), rule);
    assert v'.rows == v.rows;
    assert v' == if rule in newRules then v else v.(isOpen := false, stale := v.stale || v.isOpen, live := None);
  }

  lemma RestartKeeps(e: Engine, live: map<RuleId, Incident>, stale: set<RuleId>, newRules: map<RuleId, Rule>,
      rule: RuleId)
    requires Good(ViewOf(e, live, stale, rule))
    ensures Good(ViewOf(RestartStep(e, newRules), map[], StaleStep(e, Restart(newRules), stale), rule))
  {
    CutOffIff(e, live, stale, rule);
    RestartView(e, stale, newRules, rule);
    BareGood(Of(e.log, rule), e.clock);
  }

  lemma RestartView(e: Engine, stale: set<RuleId>, newRules: map<RuleId, Rule>, rule: RuleId)
    ensures ViewOf(RestartStep(e, newRules), map[], StaleStep(e, Restart(newRules), stale), rule) ==
      View(Of(e.log, rule), e.clock, false, false, false, CutOff(e, stale, rule), None)
  {
    var rows := Of(e.log, rule);
    assert RowsOf(RestartStep(e, newRules), rule) == rows by { assert rows + [] == rows; }
  }

  /** Rows no engine table speaks of any more. */
  lemma BareGood(rows: seq<Row>, clock: int)
    requires Increasing(rows) && Paired(rows) && forall i :: 0 <= i < |rows| ==> rows[i].at <= clock
    ensures Good(View(rows, clock, false, false, false, EndsFiring(rows), None))
  {
    OpenWhileFiring(rows);
  }

  lemma CutOffIff(e: Engine, live: map<RuleId, Incident>, stale: set<RuleId>, rule: RuleId)
    requires Good(ViewOf(e, live, stale, rule))
    ensures var rows := Of(e.log, rule);
      && (CutOff(e, stale, rule) <==> EndsFiring(rows))
      && Increasing(rows) && Paired(rows) && (forall i :: 0 <= i < |rows| ==> rows[i].at <= e.clock)
  {
    var rows, v := Of(e.log, rule), ViewOf(e, live, stale, rule);
    if rule in e.pending {
      FrontGood(rows, e.pending[rule], v);
    } else {
      assert v.rows == rows;
      OpenWhileFiring(rows);
    }
  }

  /** Without the row that was never appended. */
  lemma FrontGood(rows: seq<Row>, x: Row, v: View)
    requires Good(v) && v.rows == rows + [x]
    ensures Increasing(rows) && Paired(rows) && (forall i :: 0 <= i < |rows| ==> rows[i].at <= v.clock)
    ensures !IsFiring(x) ==> EndsFiring(rows)
  {
    assert forall i :: 0 <= i < |rows| ==> rows[i] == v.rows[i];
    assert v.rows[|rows|] == x;
  }

  lemma StepKeeps(e: Engine, live: map<RuleId, Incident>, stale: set<RuleId>, ev: Event, rule: RuleId)
    requires Inv(e, live, stale)
    ensures Good(ViewOf(Apply(e, ev), LiveStep(e, ev, live), StaleStep(e, ev, stale), rule))
  {
    assert Good(ViewOf(e, live, stale, rule));
    match ev
    case Append(appended) => AppendKeeps(e, live, stale, appended, rule);
    case BeginPass(now) => BeginKeeps(e, live, stale, now, rule);
    case Reload(newRules) => ReloadKeeps(e, live, stale, newRules, rule);
    case Restart(newRules) => RestartKeeps(e, live, stale, newRules, rule);
    case Evaluate(own, _, _, _) =>
      if own != rule {
        assert Good(ViewOf(e, live, stale, own));
        OtherRuleKeeps(e, live, stale, ev, rule);
      } else if Records(e, ev) {
        OwnFiringKeeps(e, live, stale, ev);
      } else if Resolves(e, ev) {
        OwnResolutionKeeps(e, live, stale, ev);
      } else {
        OwnRestKeeps(e, live, stale, ev);
      }
  }

  lemma PendingOwned(e: Engine, ev: Event)
    requires forall rule :: rule in e.pending ==> e.pending[rule].rule == rule
    ensures forall rule :: rule in Apply(e, ev).pending ==> Apply(e, ev).pending[rule].rule == rule
  {
  }

  lemma {:induction false} RunKeeps(rules: map<RuleId, Rule>, evs: seq<Event>)
    ensures Inv(Execute(rules, evs), Live(rules, evs), Stale(rules, evs))
    decreases |evs|
  {
    if evs != [] {
      var front, ev := evs[..|evs| - 1], evs[|evs| - 1];
      assert evs == front + [ev];
      RunKeeps(rules, front);
      PendingOwned(Execute(rules, front), ev);
      forall rule ensures Good(ViewOf(Execute(rules, evs), Live(rules, evs), Stale(rules, evs), rule)) {
        StepKeeps(Execute(rules, front), Live(rules, front), Stale(rules, front), ev, rule);
      }
    }
  }

  // ---- The refinement ----

  /** Row i is a resolution with no incident open before it. */
  predicate OrphanAt(rows: seq<Row>, i: nat)
    requires i < |rows|
  {
    !IsFiring(rows[i]) && !EndsFiring(Of(rows[..i], rows[i].rule))
  }

  function Orphans(rows: seq<Row>, windowStart: int): nat
    decreases |rows|
  {
    if rows == [] then 0
    else
      var front, last := rows[..|rows| - 1], rows[|rows| - 1];
      Orphans(front, windowStart) + if OrphanAt(rows, |front|) && last.at >= windowStart then 1 else 0
  }

  /** The pass counts as orphans exactly the window's resolutions with no open incident before them. */
  lemma {:induction false} CountsOrphans(rows: seq<Row>, windowStart: int, hours: nat)
    requires hours >= 1
    ensures Tally(rows, windowStart, hours).orphans == Orphans(rows, windowStart)
    decreases |rows|
  {
    if rows != [] {
      var front, x := rows[..|rows| - 1], rows[|rows| - 1];
      CountsOrphans(front, windowStart, hours);
      OpenIsReplay(front, windowStart, hours, x.rule);
      OpenWhileFiring(Of(front, x.rule));
    }
  }

  lemma {:induction false} PairedHasNoOrphan(rows: seq<Row>, i: nat)
    requires i < |rows| && Paired(Of(rows, rows[i].rule))
    ensures !OrphanAt(rows, i)
  {
    var rule := rows[i].rule;
    assert rows == rows[..i + 1] + rows[i + 1..] && rows[..i + 1][..i] == rows[..i];
    OfConcat(rows[..i + 1], rows[i + 1..], rule);
    assert Of(rows[..i + 1], rule) == Of(rows[..i], rule) + [rows[i]];
    var k := |Of(rows[..i], rule)|;
    assert Of(rows, rule)[k] == rows[i];
    if !IsFiring(rows[i]) { assert Of(rows, rule)[k - 1] == Of(rows[..i], rule)[k - 1]; }
  }

  lemma {:induction false} NoOrphans(rows: seq<Row>, windowStart: int)
    requires forall i :: 0 <= i < |rows| ==> !OrphanAt(rows, i)
    ensures Orphans(rows, windowStart) == 0
    decreases |rows|
  {
    if rows != [] {
      var front := rows[..|rows| - 1];
      forall i | 0 <= i < |front| ensures !OrphanAt(front, i) {
        assert !OrphanAt(rows, i) && front[..i] == rows[..i];
      }
      NoOrphans(front, windowStart);
    }
  }

  /** Whenever every decided row has been appended, the summary built from the history, in any window,
      agrees with the engine about a rule: it shows the rule open exactly when the engine has it open or a
      reload or a restart once dropped its incident unresolved; its incident (the firing that opened it and
      the number of firings since) is the live one exactly when no such drop is outstanding; and no resolution
      is an orphan. */
  lemma LogRefinesLiveState(rules: map<RuleId, Rule>, evs: seq<Event>, windowStart: int, hours: nat, rule: RuleId)
    requires hours >= 1 && Execute(rules, evs).pending == map[]
    ensures var e, t := Execute(rules, evs), Tally(Sort(Execute(rules, evs).log), windowStart, hours);
      && (rule in t.open <==> rule in e.open || rule in Stale(rules, evs))
      && (OpenOf(t, rule) == LiveOf(Live(rules, evs), rule) <==> rule !in Stale(rules, evs))
      && (rule in e.open <==> rule in Live(rules, evs))
      && t.orphans == 0
  {
    RunKeeps(rules, evs);
    var e := Execute(rules, evs);
    SortedRows(rules, evs, rule);
    OpenIsReplay(Sort(e.log), windowStart, hours, rule);
    assert Good(ViewOf(e, Live(rules, evs), Stale(rules, evs), rule));
    forall i | 0 <= i < |Sort(e.log)| ensures !OrphanAt(Sort(e.log), i) {
      SortedRows(rules, evs, Sort(e.log)[i].rule);
      PairedHasNoOrphan(Sort(e.log), i);
    }
    NoOrphans(Sort(e.log), windowStart);
    CountsOrphans(Sort(e.log), windowStart, hours);
  }

  lemma SortedRows(rules: map<RuleId, Rule>, evs: seq<Event>, rule: RuleId)
    requires Execute(rules, evs).pending == map[]
    ensures var e := Execute(rules, evs); Of(Sort(e.log), rule) == RowsOf(e, rule) && Paired(RowsOf(e, rule))
  {
    RunKeeps(rules, evs);
    var e := Execute(rules, evs);
    assert Good(ViewOf(e, Live(rules, evs), Stale(rules, evs), rule));
    assert RowsOf(e, rule) == Of(e.log, rule);
    SortKeepsRule(e.log, rule);
  }

  /** The rebuilt open incidents are the live ones, all of them and with their opening rows and counts,
      exactly when no reload or restart has dropped an incident that is still unresolved in the history. */
  lemma SummaryMirrorsEngineIff(rules: map<RuleId, Rule>, evs: seq<Event>, windowStart: int, hours: nat)
    requires hours >= 1 && Execute(rules, evs).pending == map[]
    ensures Tally(Sort(Execute(rules, evs).log), windowStart, hours).open == Live(rules, evs) <==>
      Stale(rules, evs) == {}
    ensures Live(rules, evs).Keys == Execute(rules, evs).open
  {
    var t, live := Tally(Sort(Execute(rules, evs).log), windowStart, hours), Live(rules, evs);
    forall rule
      ensures OpenOf(t, rule) == LiveOf(live, rule) <==> rule !in Stale(rules, evs)
      ensures rule in Execute(rules, evs).open <==> rule in live
    {
      LogRefinesLiveState(rules, evs, windowStart, hours, rule);
    }
    SameLookups(t.open, live);
  }

  lemma SameLookups(a: map<RuleId, Incident>, b: map<RuleId, Incident>)
    ensures a == b <==> forall rule :: LiveOf(a, rule) == LiveOf(b, rule)
  {
    if forall rule :: LiveOf(a, rule) == LiveOf(b, rule) {
      forall rule
        ensures rule in a <==> rule in b
        ensures rule in a ==> a[rule] == b[rule]
      {
        assert LiveOf(a, rule) == LiveOf(b, rule);
      }
      assert a == b;
    }
  }

  const Watched: Rule := Rule(true, true, Critical, 60, 0)
  const Watch: map<RuleId, Rule> := map[3 := Watched]
  const FiredOnce: seq<Event> := [BeginPass(1), Evaluate(3, SignalFiring, false, 7), Append(3)]

  lemma FiredOnceOpens()
    ensures var e := Execute(Watch, FiredOnce);
      && e.open == {3} && e.pending == map[] && e.log == [Row(7, 3, Critical, Fired, 1)]
      && Stale(Watch, FiredOnce) == {}
  {
    var a, b, c := BeginPass(1), Evaluate(3, SignalFiring, false, 7), Append(3);
    assert FiredOnce == [a, b, c] && [a, b, c][..2] == [a, b] && [a, b][..1] == [a] && [a][..0] == [];
    var e1 := Execute(Watch, [a]);
    assert Execute(Watch, []) == Fresh(Watch);
    assert e1 == BeginStep(Fresh(Watch), 1);
    assert e1.due == Watch;
    var e2 := Execute(Watch, [a, b]);
    assert e2.pending == map[3 := Row(7, 3, Critical, Fired, 1)] && e2.open == {3};
    assert Stale(Watch, []) == Stale(Watch, [a]) == Stale(Watch, [a, b]) == Stale(Watch, [a, b, c]) == {};
  }

  /** What ends the engine's incident without a row leaves it in the summary. */
  lemma OnceFiredStaysOpen(last: Event, windowStart: int, hours: nat)
    requires hours >= 1 && (last == Reload(map[]) || last == Restart(Watch))
    ensures var e := Execute(Watch, FiredOnce + [last]);
      && e.open == {} && Live(Watch, FiredOnce + [last]) == map[] && e.log == [Row(7, 3, Critical, Fired, 1)]
      && Tally(Sort(e.log), windowStart, hours).open.Keys == {3}
  {
    var evs := FiredOnce + [last];
    FiredOnceOpens();
    assert evs[..|evs| - 1] == FiredOnce;
    assert Execute(Watch, evs) == Apply(Execute(Watch, FiredOnce), last);
    assert Stale(Watch, evs) == {3} && Execute(Watch, evs).pending == map[];
    SummaryMirrorsEngineIff(Watch, evs, windowStart, hours);
    forall rule ensures rule in Tally(Sort(Execute(Watch, evs).log), windowStart, hours).open <==> rule == 3 {
      LogRefinesLiveState(Watch, evs, windowStart, hours, rule);
    }
  }

  /** A run that leaves the summary out of step: the rule fires and is deleted; the engine has nothing open,
      and the summary of the history, whatever its window, goes on showing the incident. */
  lemma DeletedRuleStaysOpen(windowStart: int, hours: nat)
    requires hours >= 1
    ensures var evs := [BeginPass(1), Evaluate(3, SignalFiring, false, 7), Append(3), Reload(map[])];
      var e := Execute(Watch, evs);
      && e.open == {} && Live(Watch, evs) == map[] && e.log == [Row(7, 3, Critical, Fired, 1)]
      && Tally(Sort(e.log), windowStart, hours).open.Keys == {3}
  {
    assert FiredOnce + [Reload(map[])] == [BeginPass(1), Evaluate(3, SignalFiring, false, 7), Append(3), Reload(map[])];
    OnceFiredStaysOpen(Reload(map[]), windowStart, hours);
  }

  /** So does a restart: the rule fires, its row is saved, the process dies and comes back with the same
      rules; the new engine has nothing open. */
  lemma RestartStaysOpen(windowStart: int, hours: nat)
    requires hours >= 1
    ensures var evs := [BeginPass(1), Evaluate(3, SignalFiring, false, 7), Append(3), Restart(Watch)];
      var e := Execute(Watch, evs);
      && e.open == {} && Live(Watch, evs) == map[] && e.log == [Row(7, 3, Critical, Fired, 1)]
      && Tally(Sort(e.log), windowStart, hours).open.Keys == {3}
  {
    assert FiredOnce + [Restart(Watch)]
      == [BeginPass(1), Evaluate(3, SignalFiring, false, 7), Append(3), Restart(Watch)];
    OnceFiredStaysOpen(Restart(Watch), windowStart, hours);
  }
}
