/** Proactive insights: one investigation at a time, one per firing episode. Every access to the shared
    flag, the episode table or the status stream is a step of its own; steps of different flights and of
    the alert engine interleave freely. */
module Insight {
  type RuleId = nat
  type FlightId = nat

  /** Where a flight stands. Refused: turned away without the flag. Skipping, Failing, Reporting,
      Releasing: on the way out, still holding the flag. */
  datatype Stage =
    | Queued | Refused
    | Gating | Deduplicating | Claimed | Investigating | Publishing
    | Skipping | Failing | Reporting | Releasing
    | Done

  /** threw: a subscriber to the finished insight threw. */
  datatype Flight = Flight(rule: RuleId, suppressed: bool, stage: Stage, threw: bool)

  /** What the outside sees, in order. */
  datatype Seen =
    | Started(rule: RuleId, id: FlightId)
    | Skipped(rule: RuleId, id: FlightId)
    | Failed(rule: RuleId, id: FlightId)
    | Ready(rule: RuleId, id: FlightId)
    | Recovered(rule: RuleId)

  datatype System = System(flights: map<FlightId, Flight>, busy: bool, episodes: set<RuleId>, log: seq<Seen>)

  datatype Outcome = Good | Bad | Threw

  datatype Event =
    | Fire(id: FlightId, rule: RuleId, suppressed: bool)
    | Step(id: FlightId, outcome: Outcome)
    | EvaluateOk(rule: RuleId)

  function Initial(): System { System(map[], false, {}, []) }

  /** Where a section leaves its flight. marked: the rule's episode is already claimed. */
  function NextStage(f: Flight, busy: bool, marked: bool, outcome: Outcome): Stage {
    match f.stage
    case Queued => if f.suppressed || busy then Refused else Gating
    case Refused => Done
    case Gating => (match outcome case Good => Deduplicating case Bad => Skipping case Threw => Failing)
    case Deduplicating => if marked then Skipping else Claimed
    case Claimed => Investigating
    case Investigating => if outcome == Good then Publishing else Failing
    case Publishing => if outcome == Threw then Failing else Releasing
    case Skipping => Releasing
    case Failing => Reporting
    case Reporting => Releasing
    case Releasing => Done
    case Done => Done
  }

  /** What a section tells the outside. */
  function Says(f: Flight, id: FlightId): seq<Seen> {
    match f.stage
    case Refused => [Skipped(f.rule, id)]
    case Skipping => [Skipped(f.rule, id)]
    case Claimed => [Started(f.rule, id)]
    case Publishing => [Ready(f.rule, id)]
    case Reporting => [Failed(f.rule, id)]
    case _ => []
  }

  /** The next section of one flight; the outcome is what its environment answers. The flag goes up with
      the first gate and comes down last; the claim marks the episode, a failure unmarks it before it is
      reported. */
  function Advance(s: System, id: FlightId, outcome: Outcome): System {
    if id !in s.flights then s
    else
      var f := s.flights[id];
      var stage := NextStage(f, s.busy, f.rule in s.episodes, outcome);
      System(
        s.flights[id := Flight(f.rule, f.suppressed, stage, f.threw || (f.stage == Publishing && outcome == Threw))],
        (s.busy || stage == Gating) && f.stage != Releasing,
        if stage == Claimed then s.episodes + {f.rule}
        else if f.stage == Failing then s.episodes - {f.rule}
        else s.episodes,
        s.log + Says(f, id))
  }

  function Apply(s: System, ev: Event): System {
    match ev
    case Fire(id, rule, suppressed) =>
      if id in s.flights then s else s.(flights := s.flights[id := Flight(rule, suppressed, Queued, false)])
    case Step(id, outcome) => Advance(s, id, outcome)
    case EvaluateOk(rule) => s.(episodes := s.episodes - {rule}, log := s.log + [Recovered(rule)])
  }

  function Run(s: System, evs: seq<Event>): System
    decreases |evs|
  {
    if evs == [] then s else Apply(Run(s, evs[..|evs| - 1]), evs[|evs| - 1])
  }

  // ---- Single flight ----

  predicate Holds(stage: Stage) {
    stage != Queued && stage != Refused && stage != Done
  }

  /** The flag is up exactly while one flight is past it, and no two are. */
  ghost predicate SingleFlight(s: System) {
    && (forall a, b :: a in s.flights && b in s.flights && Holds(s.flights[a].stage) && Holds(s.flights[b].stage) ==>
         a == b)
    && (s.busy <==> exists a :: a in s.flights && Holds(s.flights[a].stage))
  }

  /** One section touches its own flight, and the flag only on the way in and out. */
  lemma AdvanceTouches(s: System, id: FlightId, outcome: Outcome)
    requires id in s.flights
    ensures var s', f := Advance(s, id, outcome), s.flights[id];
      && id in s'.flights && s'.flights == s.flights[id := s'.flights[id]] && s'.flights[id].rule == f.rule
      && (Holds(f.stage) && !Holds(s'.flights[id].stage) ==> !s'.busy)
      && (!Holds(f.stage) && Holds(s'.flights[id].stage) ==> !s.busy && s'.busy)
      && (Holds(f.stage) == Holds(s'.flights[id].stage) ==> s'.busy == s.busy)
  {
  }

  lemma SingleFlightKept(s: System, ev: Event)
    requires SingleFlight(s)
    ensures SingleFlight(Apply(s, ev))
  {
    var s' := Apply(s, ev);
    match ev
    case Step(id, outcome) =>
      if id in s.flights {
        AdvanceTouches(s, id, outcome);
        HolderMoves(s.flights, id, s'.flights[id], s.busy, s'.busy);
      }
    case Fire(id, rule, suppressed) =>
      if id !in s.flights { HolderMoves(s.flights, id, Flight(rule, suppressed, Queued, false), s.busy, s.busy); }
    case EvaluateOk(_) =>
      assert s'.flights == s.flights && s'.busy == s.busy;
  }

  lemma HolderMoves(flights: map<FlightId, Flight>, id: FlightId, f: Flight, busy: bool, busy': bool)
    requires SingleFlight(System(flights, busy, {}, []))
    requires var held := id in flights && Holds(flights[id].stage);
      if held == Holds(f.stage) then busy' == busy else if held then !busy' else !busy && busy'
    ensures SingleFlight(System(flights[id := f], busy', {}, []))
  {
    var flights' := flights[id := f];
    if Holds(f.stage) {
      assert id in flights' && Holds(flights'[id].stage);
    } else if busy' {
      var a :| a in flights && Holds(flights[a].stage);
      assert a in flights' && Holds(flights'[a].stage);
    }
  }

  lemma {:induction false} AtMostOneInvestigation(evs: seq<Event>)
    ensures SingleFlight(Run(Initial(), evs))
    decreases |evs|
  {
    if evs != [] {
      AtMostOneInvestigation(evs[..|evs| - 1]);
      SingleFlightKept(Run(Initial(), evs[..|evs| - 1]), evs[|evs| - 1]);
    }
  }

  // ---- How a flight ends ----

  predicate EndsFlight(x: Seen, id: FlightId) {
    (x.Skipped? || x.Failed? || x.Ready?) && x.id == id
  }

  function Ends(log: seq<Seen>, id: FlightId): nat
    decreases |log|
  {
    if log == [] then 0 else Ends(log[..|log| - 1], id) + if EndsFlight(log[|log| - 1], id) then 1 else 0
  }

  predicate Over(stage: Stage) { stage == Releasing || stage == Done }

  predicate EndsRight(s: System, id: FlightId) {
    if id !in s.flights then Ends(s.log, id) == 0
    else Ends(s.log, id) == Answered(s.flights[id]) && ThrewRight(s.flights[id])
  }

  lemma EndsOneMore(log: seq<Seen>, x: Seen, id: FlightId)
    ensures Ends(log + [x], id) == Ends(log, id) + if EndsFlight(x, id) then 1 else 0
  {
    assert (log + [x])[..|log|] == log;
  }

  predicate Answers(stage: Stage) { stage == Refused || stage == Publishing || stage == Skipping || stage == Reporting }

  lemma SaysEnds(log: seq<Seen>, f: Flight, id: FlightId)
    ensures Ends(log + Says(f, id), id) == Ends(log, id) + if Answers(f.stage) then 1 else 0
  {
    if Says(f, id) == [] {
      assert log + Says(f, id) == log;
    } else {
      EndsOneMore(log, Says(f, id)[0], id);
      assert log + Says(f, id) == log + [Says(f, id)[0]];
    }
  }

  predicate ThrewRight(f: Flight) {
    f.threw ==> f.stage == Failing || f.stage == Reporting || Over(f.stage)
  }

  function Answered(f: Flight): nat { (if Over(f.stage) then 1 else 0) + if f.threw then 1 else 0 }

  lemma OwnAnswer(f: Flight, busy: bool, marked: bool, outcome: Outcome)
    requires ThrewRight(f)
    ensures var f' := Flight(f.rule, f.suppressed, NextStage(f, busy, marked, outcome),
                             f.threw || (f.stage == Publishing && outcome == Threw));
      ThrewRight(f') && Answered(f') == Answered(f) + if Answers(f.stage) then 1 else 0
  {
  }

  lemma OwnEnds(s: System, id: FlightId, outcome: Outcome)
    requires id in s.flights && EndsRight(s, id)
    ensures EndsRight(Advance(s, id, outcome), id)
  {
    var f := s.flights[id];
    SaysEnds(s.log, f, id);
    OwnAnswer(f, s.busy, f.rule in s.episodes, outcome);
  }

  lemma OtherEnds(s: System, own: FlightId, outcome: Outcome, id: FlightId)
    requires own in s.flights && own != id && EndsRight(s, id)
    ensures EndsRight(Advance(s, own, outcome), id)
  {
    SaysNothingElse(s.log, s.flights[own], own, id);
    if id in s.flights { assert Advance(s, own, outcome).flights[id] == s.flights[id]; }
  }

  /** What one flight tells ends no other. */
  lemma SaysNothingElse(log: seq<Seen>, f: Flight, own: FlightId, id: FlightId)
    requires own != id
    ensures Ends(log + Says(f, own), id) == Ends(log, id)
  {
    if Says(f, own) == [] {
      assert log + Says(f, own) == log;
    } else {
      EndsOneMore(log, Says(f, own)[0], id);
      assert log + Says(f, own) == log + [Says(f, own)[0]];
    }
  }

  lemma EndsStep(s: System, ev: Event, id: FlightId)
    requires EndsRight(s, id)
    ensures EndsRight(Apply(s, ev), id)
  {
    match ev
    case Step(own, outcome) =>
      if own in s.flights {
        if own == id { OwnEnds(s, id, outcome); } else { OtherEnds(s, own, outcome, id); }
      }
    case Fire(_, _, _) =>
    case EvaluateOk(rule) => EndsOneMore(s.log, Recovered(rule), id);
  }

  /** When a flight is done, its firing has been answered by exactly one of Skipped, Failed and Ready, if
      and only if no subscriber to the finished insight threw; otherwise by both Ready and Failed. */
  lemma {:induction false} AnsweredOnceIff(evs: seq<Event>, id: FlightId)
    ensures EndsRight(Run(Initial(), evs), id)
    ensures ToldBoth(Run(Initial(), evs), id)
    ensures var s := Run(Initial(), evs);
      id in s.flights && s.flights[id].stage == Done ==>
        && (Ends(s.log, id) == 1 <==> !s.flights[id].threw)
        && (s.flights[id].threw ==>
              Ends(s.log, id) == 2 && Ready(s.flights[id].rule, id) in s.log && Failed(s.flights[id].rule, id) in s.log)
    decreases |evs|
  {
    if evs != [] {
      AnsweredOnceIff(evs[..|evs| - 1], id);
      EndsStep(Run(Initial(), evs[..|evs| - 1]), evs[|evs| - 1], id);
      ToldBothStep(Run(Initial(), evs[..|evs| - 1]), evs[|evs| - 1], id);
    }
  }

  /** A flight whose subscriber threw has told Ready, and, once over, Failed. */
  predicate ToldBoth(s: System, id: FlightId) {
    id in s.flights && s.flights[id].threw ==>
      var f := s.flights[id];
      && Ready(f.rule, id) in s.log && ThrewRight(f) && (Over(f.stage) ==> Failed(f.rule, id) in s.log)
  }

  lemma ToldBothStep(s: System, ev: Event, id: FlightId)
    requires ToldBoth(s, id)
    ensures ToldBoth(Apply(s, ev), id)
  {
    LogGrows(s, ev);
    assert forall x :: x in s.log ==> x in Apply(s, ev).log;
    if ev.Step? && ev.id == id && id in s.flights {
      OwnToldBoth(s, id, ev.outcome);
    }
  }

  lemma OwnToldBoth(s: System, id: FlightId, outcome: Outcome)
    requires ToldBoth(s, id) && id in s.flights
    ensures ToldBoth(Advance(s, id, outcome), id)
  {
    var f, log := s.flights[id], Advance(s, id, outcome).log;
    assert log == s.log + Says(f, id);
    if f.stage == Publishing {
      assert log[|s.log|] == Ready(f.rule, id);
    } else if f.stage == Reporting {
      assert log[|s.log|] == Failed(f.rule, id);
    }
  }

  // ---- One investigation per episode ----

  predicate Reopens(x: Seen, rule: RuleId) {
    (x.Recovered? || x.Failed?) && x.rule == rule
  }

  /** Neither a recovery nor a failure of the rule is logged from position n on. */
  predicate Quiet(log: seq<Seen>, n: nat, rule: RuleId) {
    forall i :: n <= i < |log| ==> !Reopens(log[i], rule)
  }

  predicate StartedSince(log: seq<Seen>, n: nat, rule: RuleId) {
    exists i :: n <= i < |log| && log[i].Started? && log[i].rule == rule
  }

  /** The rule's episode is open and stays closed to others: marked, or its only holder of the flag is about
      to report a failure. */
  ghost predicate Shut(s: System, rule: RuleId) {
    && (forall a :: a in s.flights && s.flights[a].rule == rule ==> s.flights[a].stage != Claimed)
    && (rule in s.episodes
        || exists a :: a in s.flights && s.flights[a].rule == rule && s.flights[a].stage == Reporting)
  }

  lemma ShutStays(s: System, ev: Event, rule: RuleId)
    requires SingleFlight(s) && Shut(s, rule)
    ensures var s' := Apply(s, ev);
      && s.log <= s'.log
      && (Quiet(s'.log, |s.log|, rule) ==> Shut(s', rule))
      && !StartedSince(s'.log, |s.log|, rule)
  {
    var s' := Apply(s, ev);
    if ev.Step? && ev.id in s.flights {
      ShutStep(s, ev.id, ev.outcome, rule);
    } else if ev.Fire? && rule !in s.episodes {
      var a :| a in s.flights && s.flights[a].rule == rule && s.flights[a].stage == Reporting;
      assert s'.flights[a] == s.flights[a];
    } else if ev.EvaluateOk? {
      assert s'.log[|s.log|] == Recovered(ev.rule);
      if ev.rule != rule && rule !in s.episodes {
        var a :| a in s.flights && s.flights[a].rule == rule && s.flights[a].stage == Reporting;
        assert s'.flights[a] == s.flights[a];
      }
    }
  }

  lemma ShutStep(s: System, id: FlightId, outcome: Outcome, rule: RuleId)
    requires SingleFlight(s) && Shut(s, rule) && id in s.flights
    ensures var s' := Advance(s, id, outcome);
      && s.log <= s'.log
      && (Quiet(s'.log, |s.log|, rule) ==> Shut(s', rule))
      && !StartedSince(s'.log, |s.log|, rule)
  {
    var s' := Advance(s, id, outcome);
    var f := s.flights[id];
    if rule !in s.episodes {
      var a :| a in s.flights && s.flights[a].rule == rule && s.flights[a].stage == Reporting;
      if a == id {
        assert s'.log[|s.log|] == Failed(rule, id);
      } else {
        assert !Holds(f.stage) && s.busy;
        assert s'.flights[a] == s.flights[a];
      }
    } else if f.stage == Failing && f.rule == rule {
      assert s'.flights[id].stage == Reporting;
    }
  }

  lemma {:induction false} ShutLasts(s: System, evs: seq<Event>, rule: RuleId)
    requires SingleFlight(s) && Shut(s, rule)
    ensures var s' := Run(s, evs);
      && SingleFlight(s') && s.log <= s'.log
      && (Quiet(s'.log, |s.log|, rule) ==> Shut(s', rule) && !StartedSince(s'.log, |s.log|, rule))
    decreases |evs|
  {
    if evs != [] {
      var front, ev := evs[..|evs| - 1], evs[|evs| - 1];
      ShutLasts(s, front, rule);
      var m, s' := Run(s, front), Run(s, evs);
      SingleFlightKept(m, ev);
      LogGrows(m, ev);
      if Quiet(s'.log, |s.log|, rule) {
        assert Quiet(m.log, |s.log|, rule) by {
          forall i | |s.log| <= i < |m.log| ensures !Reopens(m.log[i], rule) { assert m.log[i] == s'.log[i]; }
        }
        ShutStays(m, ev, rule);
        assert Quiet(s'.log, |m.log|, rule);
      }
    }
  }

  lemma LogGrows(s: System, ev: Event)
    ensures s.log <= Apply(s, ev).log
  {
  }

  /** A run from s in which the rule is investigated again although it neither recovered nor failed. */
  ghost predicate StartsAgain(s: System, evs: seq<Event>, rule: RuleId) {
    var log := Run(s, evs).log;
    Quiet(log, |s.log|, rule) && StartedSince(log, |s.log|, rule)
  }

  /** Right after an investigation of a rule has been announced, the rule can be announced again without a
      recovery or a failure in between if and only if its episode marker is already gone. */
  lemma StartsAgainIff(s: System, id: FlightId, rule: RuleId)
    requires SingleFlight(s) && id in s.flights && s.flights[id].rule == rule && s.flights[id].stage == Investigating
    ensures (exists evs :: StartsAgain(s, evs, rule)) <==> rule !in s.episodes
  {
    if rule in s.episodes {
      forall a | a in s.flights && s.flights[a].rule == rule ensures s.flights[a].stage != Claimed {
        if a != id { assert !Holds(s.flights[a].stage); }
      }
      forall evs ensures !StartsAgain(s, evs, rule) {
        ShutLasts(s, evs, rule);
      }
    } else {
      var next := FreshId(s.flights.Keys);
      SecondRound(s, id, next);
      assert StartsAgain(s, Round(id, next, rule), rule);
    }
  }

  lemma FreshId(used: set<FlightId>) returns (id: FlightId)
    ensures id !in used
    decreases used
  {
    if used == {} {
      id := 0;
    } else {
      var top := MaxOf(used);
      id := top + 1;
    }
  }

  lemma MaxOf(used: set<FlightId>) returns (top: FlightId)
    requires used != {}
    ensures top in used && forall x :: x in used ==> x <= top
    decreases used
  {
    var x :| x in used;
    if used == {x} {
      top := x;
    } else {
      assert used == {x} + (used - {x});
      top := MaxOf(used - {x});
      if top < x { top := x; }
    }
  }

  /** The running flight publishes and leaves; the rule fires again and is investigated again. */
  function Round(id: FlightId, next: FlightId, rule: RuleId): seq<Event> {
    Leaving(id) + Entering(next, rule)
  }

  function Leaving(id: FlightId): seq<Event> { [Step(id, Good), Step(id, Good), Step(id, Good)] }

  function Entering(id: FlightId, rule: RuleId): seq<Event> {
    [Fire(id, rule, false), Step(id, Good), Step(id, Good), Step(id, Good), Step(id, Good)]
  }

  lemma {:induction false} RunConcat(s: System, a: seq<Event>, b: seq<Event>)
    ensures Run(s, a + b) == Run(Run(s, a), b)
    decreases |b|
  {
    if b == [] {
      assert a + b == a;
    } else {
      assert (a + b)[..|a + b| - 1] == a + b[..|b| - 1];
      RunConcat(s, a, b[..|b| - 1]);
    }
  }

  lemma Run3(s: System, a: Event, b: Event, c: Event)
    ensures Run(s, [a, b, c]) == Apply(Apply(Apply(s, a), b), c)
  {
    assert [a, b, c][..2] == [a, b];
    Run2(s, a, b);
  }

  lemma Run2(s: System, a: Event, b: Event)
    ensures Run(s, [a, b]) == Apply(Apply(s, a), b)
  {
    assert [a, b][..1] == [a] && [a][..0] == [];
    assert Run(s, [a]) == Apply(s, a);
  }

  lemma Leave(s: System, id: FlightId)
    requires id in s.flights && s.flights[id].stage == Investigating
    ensures var s' := Run(s, Leaving(id));
      !s'.busy && s'.episodes == s.episodes && s'.flights.Keys == s.flights.Keys
        && s'.log == s.log + [Ready(s.flights[id].rule, id)]
  {
    Run3(s, Step(id, Good), Step(id, Good), Step(id, Good));
    var s1 := Advance(s, id, Good);
    assert s1.flights[id] == s.flights[id].(stage := Publishing) && s1.episodes == s.episodes && s1.log == s.log;
    Published(s1, id);
    Released(Advance(s1, id, Good), id);
  }

  lemma Published(s: System, id: FlightId)
    requires id in s.flights && s.flights[id].stage == Publishing
    ensures var s' := Advance(s, id, Good);
      && s'.flights.Keys == s.flights.Keys && s'.flights[id].stage == Releasing && s'.episodes == s.episodes
      && s'.log == s.log + [Ready(s.flights[id].rule, id)]
  {
  }

  lemma Released(s: System, id: FlightId)
    requires id in s.flights && s.flights[id].stage == Releasing
    ensures var s' := Advance(s, id, Good);
      !s'.busy && s'.flights.Keys == s.flights.Keys && s'.episodes == s.episodes && s'.log == s.log
  {
    assert s.log + [] == s.log;
  }

  /** From the firing up to the claim. */
  lemma ReachClaim(s: System, id: FlightId, rule: RuleId)
    requires id !in s.flights && !s.busy && rule !in s.episodes
    ensures var s' := Run(s, Entering(id, rule)[..4]);
      && id in s'.flights && s'.flights[id] == Flight(rule, false, Claimed, false) && s'.log == s.log
      && s'.episodes == s.episodes + {rule}
  {
    var f, a := Fire(id, rule, false), Step(id, Good);
    assert Entering(id, rule)[..4] == [f, a] + [a, a];
    RunConcat(s, [f, a], [a, a]);
    TakesFlag(s, id, rule);
    Claims(Run(s, [f, a]), id);
  }

  lemma TakesFlag(s: System, id: FlightId, rule: RuleId)
    requires id !in s.flights && !s.busy
    ensures var s' := Run(s, [Fire(id, rule, false), Step(id, Good)]);
      && id in s'.flights && s'.flights[id] == Flight(rule, false, Gating, false)
      && s'.episodes == s.episodes && s'.log == s.log
  {
    Run2(s, Fire(id, rule, false), Step(id, Good));
  }

  lemma Claims(s: System, id: FlightId)
    requires id in s.flights && s.flights[id].stage == Gating && s.flights[id].rule !in s.episodes
    ensures var s' := Run(s, [Step(id, Good), Step(id, Good)]);
      && id in s'.flights && s'.flights[id] == s.flights[id].(stage := Claimed)
      && s'.episodes == s.episodes + {s.flights[id].rule} && s'.log == s.log
  {
    Run2(s, Step(id, Good), Step(id, Good));
    var s1 := Advance(s, id, Good);
    assert s1.flights[id] == s.flights[id].(stage := Deduplicating) && s1.episodes == s.episodes && s1.log == s.log;
  }

  lemma Enter(s: System, id: FlightId, rule: RuleId)
    requires id !in s.flights && !s.busy && rule !in s.episodes
    ensures Run(s, Entering(id, rule)).log == s.log + [Started(rule, id)]
  {
    ReachClaim(s, id, rule);
    assert Entering(id, rule)[..|Entering(id, rule)| - 1] == Entering(id, rule)[..4];
  }

  lemma SecondRound(s: System, id: FlightId, next: FlightId)
    requires id in s.flights && s.flights[id].stage == Investigating && next !in s.flights
      && s.flights[id].rule !in s.episodes
    ensures StartsAgain(s, Round(id, next, s.flights[id].rule), s.flights[id].rule)
  {
    var rule := s.flights[id].rule;
    Leave(s, id);
    Enter(Run(s, Leaving(id)), next, rule);
    RunConcat(s, Leaving(id), Entering(next, rule));
    var log := Run(s, Round(id, next, rule)).log;
    assert log[|s.log| + 1] == Started(rule, next);
  }

  /** Such a state is reachable: the rule recovers between the claim of its episode and the announcement. */
  lemma RecoveryDuringClaim()
    ensures var s := Run(Initial(), Entering(0, 5)[..4] + [EvaluateOk(5), Step(0, Good)]);
      && 0 in s.flights && s.flights[0] == Flight(5, false, Investigating, false) && 5 !in s.episodes
      && s.log == [Recovered(5), Started(5, 0)]
  {
    ReachClaim(Initial(), 0, 5);
    var claimed := Run(Initial(), Entering(0, 5)[..4]);
    RunConcat(Initial(), Entering(0, 5)[..4], [EvaluateOk(5), Step(0, Good)]);
    Run2(claimed, EvaluateOk(5), Step(0, Good));
  }

  // ---- After a recovery ----

  /** After a clean evaluation the rule is unmarked and every other marker, the flag and the flights are as
      they were, from any state. */
  lemma RecoveryUnmarks(s: System, rule: RuleId, other: RuleId)
    ensures var s' := Apply(s, EvaluateOk(rule));
      && rule !in s'.episodes && (other != rule ==> (other in s'.episodes <==> other in s.episodes))
      && s'.busy == s.busy && s'.flights == s.flights && s'.log == s.log + [Recovered(rule)]
  {
  }

  /** The rule's next unsuppressed firing, handled alone with the flag free and its gates good, is
      announced, whatever the run before. */
  lemma RecoveredRuleStarts(evs: seq<Event>, id: FlightId, rule: RuleId)
    requires id !in Run(Initial(), evs).flights && !Run(Initial(), evs).busy
    ensures Run(Initial(), evs + ([EvaluateOk(rule)] + Entering(id, rule))).log
      == Run(Initial(), evs).log + [Recovered(rule)] + [Started(rule, id)]
  {
    var s := Run(Initial(), evs);
    RunConcat(Initial(), evs, [EvaluateOk(rule)] + Entering(id, rule));
    RunConcat(s, [EvaluateOk(rule)], Entering(id, rule));
    assert [EvaluateOk(rule)][..0] == [];
    assert Run(s, [EvaluateOk(rule)]) == Apply(s, EvaluateOk(rule));
    RecoveryUnmarks(s, rule, rule);
    Enter(Apply(s, EvaluateOk(rule)), id, rule);
  }

  // ---- Whole runs ----

  /** No rule recovers while one of its flights stands between its claim and its announcement. */
  ghost predicate NoRecoveryDuringClaim(evs: seq<Event>) {
    forall k, a :: 0 <= k < |evs| && evs[k].EvaluateOk? && a in Run(Initial(), evs[..k]).flights ==>
      !(Run(Initial(), evs[..k]).flights[a].stage == Claimed && Run(Initial(), evs[..k]).flights[a].rule == evs[k].rule)
  }

  /** Every claimed flight of a rule is marked; and once a rule's last word is an announcement, it is shut. */
  ghost predicate Marked(s: System, rule: RuleId) {
    && (forall a :: a in s.flights && s.flights[a].rule == rule && s.flights[a].stage == Claimed ==> rule in s.episodes)
    && (Announced(s.log, rule) ==> Shut(s, rule))
  }

  /** The rule's last announcement has been followed by neither recovery nor failure. */
  predicate Announced(log: seq<Seen>, rule: RuleId)
    decreases |log|
  {
    log != []
    && var x := log[|log| - 1];
    if Reopens(x, rule) then false
    else if x.Started? && x.rule == rule then true
    else Announced(log[..|log| - 1], rule)
  }

  lemma StartShuts(s: System, id: FlightId, outcome: Outcome)
    requires SingleFlight(s) && id in s.flights && s.flights[id].stage == Claimed && s.flights[id].rule in s.episodes
    ensures Shut(Advance(s, id, outcome), s.flights[id].rule)
  {
    var s' := Advance(s, id, outcome);
    forall a | a in s.flights && a != id ensures s'.flights[a].stage != Claimed {
      assert s'.flights[a] == s.flights[a];
      assert Holds(s.flights[id].stage);
    }
  }

  /** A claim is marked when made, and only a recovery can take the mark away before the announcement. */
  lemma ClaimsMarked(s: System, id: FlightId, outcome: Outcome, rule: RuleId)
    requires SingleFlight(s) && Marked(s, rule) && id in s.flights
    ensures var s' := Advance(s, id, outcome);
      forall a :: a in s'.flights && s'.flights[a].rule == rule && s'.flights[a].stage == Claimed ==>
        rule in s'.episodes
  {
    AdvanceTouches(s, id, outcome);
    var s' := Advance(s, id, outcome);
    forall a | a in s.flights && a != id && s.flights[a].rule == rule && s.flights[a].stage == Claimed
      ensures rule in s'.episodes
    {
      assert Holds(s.flights[a].stage);
      assert s.flights[id].stage != Failing;
    }
  }

  lemma AnnouncedBefore(s: System, id: FlightId, outcome: Outcome, rule: RuleId)
    requires id in s.flights && !(s.flights[id].stage == Claimed && s.flights[id].rule == rule)
    requires Announced(Advance(s, id, outcome).log, rule)
    ensures Announced(s.log, rule) && Quiet(Advance(s, id, outcome).log, |s.log|, rule)
  {
    var s' := Advance(s, id, outcome);
    assert s'.log == s.log || s'.log[..|s.log|] == s.log;
  }

  lemma MarkedStep(s: System, id: FlightId, outcome: Outcome, rule: RuleId)
    requires SingleFlight(s) && Marked(s, rule) && id in s.flights
    ensures Marked(Advance(s, id, outcome), rule)
  {
    ClaimsMarked(s, id, outcome, rule);
    if s.flights[id].stage == Claimed && s.flights[id].rule == rule {
      StartShuts(s, id, outcome);
    } else if Announced(Advance(s, id, outcome).log, rule) {
      AnnouncedBefore(s, id, outcome, rule);
      ShutStep(s, id, outcome, rule);
    }
  }

  lemma FireMarked(s: System, id: FlightId, own: RuleId, suppressed: bool, rule: RuleId)
    requires SingleFlight(s) && Marked(s, rule)
    ensures Marked(Apply(s, Fire(id, own, suppressed)), rule)
  {
    if Announced(s.log, rule) { ShutStays(s, Fire(id, own, suppressed), rule); }
  }

  lemma RecoveryMarked(s: System, own: RuleId, rule: RuleId)
    requires SingleFlight(s) && Marked(s, rule)
    requires own == rule ==> forall a :: a in s.flights && s.flights[a].rule == rule ==> s.flights[a].stage != Claimed
    ensures Marked(Apply(s, EvaluateOk(own)), rule)
  {
    var s' := Apply(s, EvaluateOk(own));
    assert s'.log[..|s.log|] == s.log && s'.flights == s.flights;
    if own != rule && Announced(s'.log, rule) {
      ShutStays(s, EvaluateOk(own), rule);
      assert Quiet(s'.log, |s.log|, rule);
    }
  }

  lemma MarkedKept(s: System, ev: Event, rule: RuleId)
    requires SingleFlight(s) && Marked(s, rule)
    requires ev.EvaluateOk? && ev.rule == rule ==>
      forall a :: a in s.flights && s.flights[a].rule == rule ==> s.flights[a].stage != Claimed
    ensures Marked(Apply(s, ev), rule)
  {
    match ev
    case Step(id, outcome) => if id in s.flights { MarkedStep(s, id, outcome, rule); }
    case Fire(id, own, suppressed) => FireMarked(s, id, own, suppressed, rule);
    case EvaluateOk(own) => RecoveryMarked(s, own, rule);
  }

  lemma {:induction false} RunMarked(evs: seq<Event>, rule: RuleId)
    requires NoRecoveryDuringClaim(evs)
    ensures Marked(Run(Initial(), evs), rule)
    decreases |evs|
  {
    if evs != [] {
      var front, ev := evs[..|evs| - 1], evs[|evs| - 1];
      assert NoRecoveryDuringClaim(front) by {
        forall k | 0 <= k < |front| ensures front[..k] == evs[..k] {
        }
      }
      RunMarked(front, rule);
      AtMostOneInvestigation(front);
      MarkedKept(Run(Initial(), front), ev, rule);
    }
  }

  /** Whenever an investigation of a rule is announced, the rule has recovered or failed since its last
      announcement, provided no recovery falls between a claim and its announcement. */
  lemma OnePerEpisode(evs: seq<Event>, id: FlightId)
    requires NoRecoveryDuringClaim(evs)
    requires var s := Run(Initial(), evs); id in s.flights && s.flights[id].stage == Claimed
    ensures var s := Run(Initial(), evs); !Announced(s.log, s.flights[id].rule)
  {
    RunMarked(evs, Run(Initial(), evs).flights[id].rule);
  }

  // ---- The service object ----

  class ProactiveInsightService {
    var busy: bool
    var openFiringEpisodes: set<RuleId>
    var nextFlightId: nat
    var inFlight: map<FlightId, Flight>
    var seen: seq<Seen>

    function Model(): System
      reads this
    {
      System(inFlight, busy, openFiringEpisodes, seen)
    }

    ghost predicate Valid()
      reads this
    {
      forall id :: id in inFlight ==> id <= nextFlightId
    }

    constructor ()
      ensures Valid() && Model() == Initial()
    {
      busy, openFiringEpisodes, nextFlightId, inFlight, seen := false, {}, 0, map[], [];
    }

    /** Only a clean evaluation ends an episode. */
    method OnEvaluationCompleted(rule: RuleId, ok: bool)
      requires Valid()
      modifies this`openFiringEpisodes, this`seen
      ensures Valid() && Model() == if ok then Apply(old(Model()), EvaluateOk(rule)) else old(Model())
      ensures openFiringEpisodes == if ok then old(openFiringEpisodes) - {rule} else old(openFiringEpisodes)
    {
      if ok {
        openFiringEpisodes := openFiringEpisodes - {rule};
        seen := seen + [Recovered(rule)];
      }
    }

    method OnAlertFired(rule: RuleId, suppressed: bool) returns (id: FlightId)
      requires Valid()
      modifies this`nextFlightId, this`inFlight
      ensures Valid() && id !in old(inFlight) && Model() == Apply(old(Model()), Fire(id, rule, suppressed))
    {
      nextFlightId := nextFlightId + 1;
      id := nextFlightId;
      inFlight := inFlight[id := Flight(rule, suppressed, Queued, false)];
    }

    method MoveTo(id: FlightId, stage: Stage)
      requires id in inFlight
      modifies this`inFlight
      ensures inFlight == old(inFlight)[id := old(inFlight)[id].(stage := stage)]
    {
      inFlight := inFlight[id := inFlight[id].(stage := stage)];
    }

    /** Suppressed firings never compete for the flag; of the others only one gets it. */
    method TakeFlag(id: FlightId) returns (taken: bool)
      requires id in inFlight && inFlight[id].stage == Queued
      modifies this`busy, this`inFlight
      ensures Model() == Advance(old(Model()), id, Good) && taken == (inFlight[id].stage == Gating)
    {
      taken := false;
      if !inFlight[id].suppressed && !busy {
        busy := true;
        taken := true;
      }
      MoveTo(id, if taken then Gating else Refused);
    }

    method PassGates(id: FlightId, answer: Outcome)
      requires id in inFlight && inFlight[id].stage == Gating && busy
      modifies this`inFlight
      ensures Model() == Advance(old(Model()), id, answer)
    {
      MoveTo(id, match answer case Good => Deduplicating case Bad => Skipping case Threw => Failing);
    }

    method ClaimEpisode(id: FlightId)
      requires id in inFlight && inFlight[id].stage == Deduplicating && busy
      modifies this`openFiringEpisodes, this`inFlight
      ensures Model() == Advance(old(Model()), id, Good)
    {
      if inFlight[id].rule in openFiringEpisodes {
        MoveTo(id, Skipping);
      } else {
        openFiringEpisodes := openFiringEpisodes + {inFlight[id].rule};
        MoveTo(id, Claimed);
      }
    }

    method Announce(id: FlightId)
      requires id in inFlight && inFlight[id].stage == Claimed && busy
      modifies this`seen, this`inFlight
      ensures Model() == Advance(old(Model()), id, Good)
    {
      seen := seen + [Started(inFlight[id].rule, id)];
      MoveTo(id, Investigating);
    }

    method Investigate(id: FlightId, answer: Outcome)
      requires id in inFlight && inFlight[id].stage == Investigating && busy
      modifies this`inFlight
      ensures Model() == Advance(old(Model()), id, answer)
    {
      MoveTo(id, if answer == Good then Publishing else Failing);
    }

    method Publish(id: FlightId, subscribers: Outcome)
      requires id in inFlight && inFlight[id].stage == Publishing && !inFlight[id].threw && busy
      modifies this`seen, this`inFlight
      ensures Model() == Advance(old(Model()), id, subscribers)
    {
      seen := seen + [Ready(inFlight[id].rule, id)];
      inFlight := inFlight[id := inFlight[id].(threw := subscribers == Threw)];
      MoveTo(id, if subscribers == Threw then Failing else Releasing);
    }

    method Skip(id: FlightId)
      requires id in inFlight && (inFlight[id].stage == Skipping ==> busy)
        && (inFlight[id].stage == Skipping || inFlight[id].stage == Refused)
      modifies this`seen, this`inFlight
      ensures Model() == Advance(old(Model()), id, Good)
    {
      seen := seen + [Skipped(inFlight[id].rule, id)];
      MoveTo(id, if inFlight[id].stage == Skipping then Releasing else Done);
    }

    /** A failed run gives its episode back before it says so. */
    method Fail(id: FlightId)
      requires id in inFlight && inFlight[id].stage == Failing && busy
      modifies this`openFiringEpisodes, this`seen, this`inFlight
      ensures Model() == Advance(Advance(old(Model()), id, Good), id, Good)
      ensures seen == old(seen) + [Failed(old(inFlight[id]).rule, id)]
        && openFiringEpisodes == old(openFiringEpisodes) - {old(inFlight[id]).rule}
      ensures inFlight == old(inFlight)[id := old(inFlight[id]).(stage := Releasing)]
    {
      openFiringEpisodes := openFiringEpisodes - {inFlight[id].rule};
      MoveTo(id, Reporting);
      assert Model() == Advance(old(Model()), id, Good);
      seen := seen + [Failed(inFlight[id].rule, id)];
      MoveTo(id, Releasing);
    }

    method DropFlag(id: FlightId)
      requires id in inFlight && inFlight[id].stage == Releasing
      modifies this`busy, this`inFlight
      ensures Model() == Advance(old(Model()), id, Good)
    {
      busy := false;
      MoveTo(id, Done);
    }

    /** From the claim to the published insight, or to the way out. */
    method InvestigateEpisode(id: FlightId, investigation: Outcome, subscribers: Outcome)
      requires id in inFlight && inFlight[id].stage == Deduplicating && !inFlight[id].threw && busy
      modifies this`openFiringEpisodes, this`seen, this`inFlight
      ensures id in inFlight && inFlight == old(inFlight)[id := inFlight[id]]
      ensures inFlight[id].rule == old(inFlight[id]).rule
        && inFlight[id].stage == InvestigationLeads(old(Model()), id, investigation, subscribers)
      ensures seen == old(seen) + InvestigationSays(old(Model()), id, investigation)
      ensures openFiringEpisodes == old(openFiringEpisodes) + {old(inFlight[id]).rule}
    {
      ghost var rule := inFlight[id].rule;
      ClaimEpisode(id);
      assert inFlight[id].rule == rule && seen == old(seen) && openFiringEpisodes == old(openFiringEpisodes) + {rule};
      if inFlight[id].stage == Claimed {
        InvestigateClaimed(id, investigation, subscribers);
      }
    }

    /** From the announcement on. */
    method InvestigateClaimed(id: FlightId, investigation: Outcome, subscribers: Outcome)
      requires id in inFlight && inFlight[id].stage == Claimed && !inFlight[id].threw && busy
      modifies this`seen, this`inFlight
      ensures id in inFlight && inFlight == old(inFlight)[id := inFlight[id]]
        && inFlight[id].rule == old(inFlight[id]).rule
      ensures inFlight[id].stage == if investigation != Good || subscribers == Threw then Failing else Releasing
      ensures seen == old(seen) + if investigation != Good then [Started(old(inFlight[id]).rule, id)]
                                  else [Started(old(inFlight[id]).rule, id), Ready(old(inFlight[id]).rule, id)]
    {
      ghost var rule := inFlight[id].rule;
      Announce(id);
      assert inFlight[id].stage == Investigating && inFlight[id].rule == rule
        && seen == old(seen) + [Started(rule, id)];
      Investigate(id, investigation);
      if inFlight[id].stage == Publishing {
        Publish(id, subscribers);
        assert old(seen) + [Started(rule, id)] + [Ready(rule, id)] == old(seen) + [Started(rule, id), Ready(rule, id)];
      }
    }

    /** The way out: what is left to report, then the flag. */
    method Leave(id: FlightId)
      requires id in inFlight
        && (inFlight[id].stage == Skipping || inFlight[id].stage == Failing || inFlight[id].stage == Releasing) && busy
      modifies this`busy, this`openFiringEpisodes, this`seen, this`inFlight
      ensures !busy && inFlight == old(inFlight)[id := old(inFlight)[id].(stage := Done)]
      ensures seen == old(seen) + LeavingSays(old(inFlight)[id], id)
      ensures openFiringEpisodes ==
        if old(inFlight)[id].stage == Failing then old(openFiringEpisodes) - {old(inFlight)[id].rule}
        else old(openFiringEpisodes)
    {
      var stage := inFlight[id].stage;
      if stage == Skipping {
        Skip(id);
        assert inFlight[id].stage == Releasing && busy;
      } else if stage == Failing {
        Fail(id);
        assert inFlight[id].stage == Releasing && busy;
      }
      DropFlag(id);
    }

    /** The whole handler of a queued firing when nothing interleaves: it always finishes, leaves the flag as
        it found it, and tells the outside exactly this. The arguments are what the gates, the investigation
        and the subscribers answer. */
    method HandleAlertFired(id: FlightId, gates: Outcome, investigation: Outcome, subscribers: Outcome)
      requires Valid() && id in inFlight && inFlight[id].stage == Queued && !inFlight[id].threw
      modifies this
      ensures Valid() && busy == old(busy) && id in inFlight && inFlight[id].stage == Done
      ensures inFlight == old(inFlight)[id := inFlight[id]]
      ensures seen == old(seen) + HandlerSays(old(Model()), id, gates, investigation, subscribers)
      ensures var f := old(inFlight[id]); var told := seen[|old(seen)|..];
        && (told == [Skipped(f.rule, id)] <==>
              f.suppressed || old(busy) || gates == Bad || (gates == Good && f.rule in old(openFiringEpisodes)))
        && (Started(f.rule, id) in told <==>
              !f.suppressed && !old(busy) && gates == Good && f.rule !in old(openFiringEpisodes))
        && (f.rule in openFiringEpisodes && f.rule !in old(openFiringEpisodes) ==> Ready(f.rule, id) in told)
      ensures openFiringEpisodes == HandlerLeaves(old(Model()), id, gates, investigation, subscribers)
    {
      var taken := TakeFlag(id);
      if !taken {
        Skip(id);
        return;
      }
      ghost var taking := Model();
      HandleGated(id, gates, investigation, subscribers);
      TakenIsHandler(old(Model()), taking, id, gates, investigation, subscribers);
    }

    /** The handler once it has the flag. */
    method HandleGated(id: FlightId, gates: Outcome, investigation: Outcome, subscribers: Outcome)
      requires id in inFlight && inFlight[id].stage == Gating && !inFlight[id].threw && busy
      modifies this`busy, this`openFiringEpisodes, this`seen, this`inFlight
      ensures !busy && id in inFlight && inFlight[id].stage == Done && inFlight == old(inFlight)[id := inFlight[id]]
      ensures seen == old(seen) + GatedSays(old(Model()), id, gates, investigation, subscribers)
      ensures openFiringEpisodes == GatedLeaves(old(Model()), id, gates, investigation, subscribers)
    {
      PassGates(id, gates);
      HandleHeld(id, investigation, subscribers);
    }

    /** The handler past its gates. */
    method HandleHeld(id: FlightId, investigation: Outcome, subscribers: Outcome)
      requires id in inFlight && !inFlight[id].threw && busy
      requires inFlight[id].stage == Deduplicating || inFlight[id].stage == Skipping || inFlight[id].stage == Failing
      modifies this`busy, this`openFiringEpisodes, this`seen, this`inFlight
      ensures !busy && id in inFlight && inFlight[id].stage == Done && inFlight == old(inFlight)[id := inFlight[id]]
      ensures seen == old(seen) + HeldSays(old(Model()), id, investigation, subscribers)
      ensures openFiringEpisodes == HeldLeaves(old(Model()), id, investigation, subscribers)
    {
      if inFlight[id].stage == Deduplicating {
        InvestigateEpisode(id, investigation, subscribers);
      }
      Leave(id);
    }
  }

  function Gated(s: System, id: FlightId, gates: Outcome): System
    requires id in s.flights
  {
    var stage := match gates case Good => Deduplicating case Bad => Skipping case Threw => Failing;
    s.(flights := s.flights[id := s.flights[id].(stage := stage)])
  }

  /** What is told, and left behind, once the flag is taken. */
  function GatedSays(s: System, id: FlightId, gates: Outcome, investigation: Outcome, subscribers: Outcome): seq<Seen>
    requires id in s.flights
  {
    HeldSays(Gated(s, id, gates), id, investigation, subscribers)
  }

  function GatedLeaves(s: System, id: FlightId, gates: Outcome, investigation: Outcome,
      subscribers: Outcome): set<RuleId>
    requires id in s.flights
  {
    HeldLeaves(Gated(s, id, gates), id, investigation, subscribers)
  }

  lemma TakenIsHandler(s: System, taken: System, id: FlightId, gates: Outcome, investigation: Outcome,
      subscribers: Outcome)
    requires id in s.flights && id in taken.flights && taken.flights[id].rule == s.flights[id].rule
    requires !s.flights[id].suppressed && !s.busy && taken.episodes == s.episodes
    ensures GatedSays(taken, id, gates, investigation, subscribers)
      == HandlerSays(s, id, gates, investigation, subscribers)
    ensures GatedLeaves(taken, id, gates, investigation, subscribers)
      == HandlerLeaves(s, id, gates, investigation, subscribers)
  {
  }

  /** What is told past the gates. */
  function HeldSays(s: System, id: FlightId, investigation: Outcome, subscribers: Outcome): seq<Seen>
    requires id in s.flights
  {
    var f := s.flights[id];
    if f.stage != Deduplicating then LeavingSays(f, id)
    else
      InvestigationSays(s, id, investigation)
      + LeavingSays(f.(stage := InvestigationLeads(s, id, investigation, subscribers)), id)
  }

  function HeldLeaves(s: System, id: FlightId, investigation: Outcome, subscribers: Outcome): set<RuleId>
    requires id in s.flights
  {
    var f := s.flights[id];
    if f.stage == Skipping || (f.stage == Deduplicating && f.rule in s.episodes) then s.episodes
    else if f.stage == Deduplicating && investigation == Good && subscribers != Threw then s.episodes + {f.rule}
    else s.episodes - {f.rule}
  }

  function InvestigationLeads(s: System, id: FlightId, investigation: Outcome, subscribers: Outcome): Stage
    requires id in s.flights
  {
    if s.flights[id].rule in s.episodes then Skipping
    else if investigation != Good || subscribers == Threw then Failing
    else Releasing
  }

  function InvestigationSays(s: System, id: FlightId, investigation: Outcome): seq<Seen>
    requires id in s.flights
  {
    var rule := s.flights[id].rule;
    if rule in s.episodes then []
    else if investigation != Good then [Started(rule, id)]
    else [Started(rule, id), Ready(rule, id)]
  }

  function LeavingSays(f: Flight, id: FlightId): seq<Seen> {
    if f.stage == Skipping then [Skipped(f.rule, id)] else if f.stage == Failing then [Failed(f.rule, id)] else []
  }

  predicate TurnedAway(s: System, id: FlightId, gates: Outcome)
    requires id in s.flights
  {
    s.flights[id].suppressed || s.busy || gates == Bad || (gates == Good && s.flights[id].rule in s.episodes)
  }

  /** The story of one firing handled alone. */
  function HandlerSays(s: System, id: FlightId, gates: Outcome, investigation: Outcome, subscribers: Outcome): seq<Seen>
    requires id in s.flights
  {
    var rule := s.flights[id].rule;
    if TurnedAway(s, id, gates) then [Skipped(rule, id)]
    else if gates == Threw then [Failed(rule, id)]
    else if investigation != Good then [Started(rule, id), Failed(rule, id)]
    else if subscribers == Threw then [Started(rule, id), Ready(rule, id), Failed(rule, id)]
    else [Started(rule, id), Ready(rule, id)]
  }

  /** The episode stays marked after a finished insight, and after no failure. */
  function HandlerLeaves(s: System, id: FlightId, gates: Outcome, investigation: Outcome,
      subscribers: Outcome): set<RuleId>
    requires id in s.flights
  {
    if TurnedAway(s, id, gates) then s.episodes
    else if gates == Good && investigation == Good && subscribers != Threw then s.episodes + {s.flights[id].rule}
    else s.episodes - {s.flights[id].rule}
  }
}
