/** When rules are evaluated and how often they may fire. */
module AlertSchedule {
  import opened Wrappers
  import opened AlertRows
  import opened AlertEngine

  // ---- The backoff curve ----

  lemma {:induction false} DoubledGrows(base: int, a: nat, b: nat)
    requires base >= 1 && a <= b
    ensures 1 <= Doubled(base, a) <= Doubled(base, b)
    decreases a, b
  {
    if a > 0 { DoubledGrows(base, a - 1, b - 1); } else if b > 0 { DoubledGrows(base, a, b - 1); }
  }

  /** The delay never shrinks as failures go on, starts at the interval, doubles until the cap and stays there. */
  lemma BackoffCurve(base: int, j: nat, k: nat)
    requires base >= 10 && 1 <= j <= k
    ensures Backoff(base, j) <= Backoff(base, k) <= 600
    ensures Backoff(base, 1) == if base < 600 then base else 600
    ensures Backoff(base, k + 1) == if 2 * Backoff(base, k) < 600 then 2 * Backoff(base, k) else 600
    ensures k >= 7 ==> Backoff(base, k) == 600
  {
    DoubledGrows(base, j - 1, k - 1);
    if k >= 7 {
      DoubledGrows(base, 6, k - 1);
      assert Doubled(base, 1) == 2 * base;
      assert Doubled(base, 2) == 4 * base;
      assert Doubled(base, 3) == 8 * base;
      assert Doubled(base, 4) == 16 * base;
      assert Doubled(base, 5) == 32 * base;
      assert Doubled(base, 6) == 64 * base;
    }
  }

  // ---- Failures in a row ----

  /** The evaluation asks a signal source. */
  predicate Reached(e: Engine, ev: Event) {
    ev.Evaluate? && ev.rule in e.due && e.due[ev.rule].hasSource
  }

  predicate Healthy(s: Signal) {
    s.SignalOk? || s.SignalFiring?
  }

  /** How many evaluations of the rule in a row, up to now, ended in an error, a skip or an exception; a
      clean or firing evaluation, a reload or a restart starts over. */
  function InARow(rules: map<RuleId, Rule>, evs: seq<Event>, rule: RuleId): nat
    decreases |evs|
  {
    if evs == [] then 0
    else
      var front, ev := evs[..|evs| - 1], evs[|evs| - 1];
      if ev.Reload? || ev.Restart? then 0
      else if Reached(Execute(rules, front), ev) && ev.rule == rule
        then if Healthy(ev.signal) then 0 else InARow(rules, front, rule) + 1
      else InARow(rules, front, rule)
  }

  lemma FailuresStep(e: Engine, ev: Event, rule: RuleId)
    ensures FailuresOf(Apply(e, ev), rule) ==
      if ev.Reload? || ev.Restart? then 0
      else if Reached(e, ev) && ev.rule == rule then if Healthy(ev.signal) then 0 else FailuresOf(e, rule) + 1
      else FailuresOf(e, rule)
  {
    if ev.Evaluate? && ev.rule in e.due && e.due[ev.rule].hasSource {
      EvaluatedFailures(e, ev, rule);
    }
  }

  lemma EvaluatedFailures(e: Engine, ev: Event, rule: RuleId)
    requires Reached(e, ev)
    ensures Apply(e, ev).failures ==
      if Healthy(ev.signal) then e.failures - {ev.rule} else e.failures[ev.rule := FailuresOf(e, ev.rule) + 1]
  {
    match ev.signal
    case SignalOk =>
    case SignalFiring =>
    case _ =>
  }

  lemma {:induction false} CountsFailuresInARow(rules: map<RuleId, Rule>, evs: seq<Event>, rule: RuleId)
    ensures FailuresOf(Execute(rules, evs), rule) == InARow(rules, evs, rule)
    decreases |evs|
  {
    if evs != [] {
      CountsFailuresInARow(rules, evs[..|evs| - 1], rule);
      FailuresStep(Execute(rules, evs[..|evs| - 1]), evs[|evs| - 1], rule);
    }
  }

  /** After its k-th failing evaluation in a row a rule waits for the k-th step of the backoff curve; after
      a clean or firing one, for its interval. */
  lemma NextDelay(rules: map<RuleId, Rule>, evs: seq<Event>, ev: Event)
    requires Reached(Execute(rules, evs), ev)
    ensures var e, e' := Execute(rules, evs), Execute(rules, evs + [ev]);
      var base, k := BaseInterval(e.due[ev.rule]), InARow(rules, evs + [ev], ev.rule);
      ev.rule in e'.nextEvaluateAt
      && e'.nextEvaluateAt[ev.rule] == e.clock + (if k == 0 then base else Backoff(base, k)) * Second
      && (k == 0 <==> Healthy(ev.signal))
  {
    OneMore(rules, evs, ev);
    CountsFailuresInARow(rules, evs, ev.rule);
    DelayStep(Execute(rules, evs), ev);
  }

  lemma OneMore(rules: map<RuleId, Rule>, evs: seq<Event>, ev: Event)
    ensures Execute(rules, evs + [ev]) == Apply(Execute(rules, evs), ev)
    ensures Reached(Execute(rules, evs), ev) ==>
      InARow(rules, evs + [ev], ev.rule) == if Healthy(ev.signal) then 0 else InARow(rules, evs, ev.rule) + 1
  {
    assert (evs + [ev])[..|evs|] == evs;
  }

  lemma DelayStep(e: Engine, ev: Event)
    requires Reached(e, ev)
    ensures var e' := Apply(e, ev);
      ev.rule in e'.nextEvaluateAt
      && e'.nextEvaluateAt[ev.rule] == e.clock + Second * (
           if Healthy(ev.signal) then BaseInterval(e.due[ev.rule])
           else Backoff(BaseInterval(e.due[ev.rule]), FailuresOf(e, ev.rule) + 1))
  {
    match ev.signal
    case SignalOk =>
    case SignalFiring =>
    case _ =>
  }

  // ---- No rule is forgotten ----

  /** Whatever the outcome, the next evaluation is at most max(interval, 600) seconds away; without a
      source for the rule it is two minutes away. */
  lemma EvaluationSchedules(e: Engine, ev: Event)
    requires ev.Evaluate? && ev.rule in e.due
    ensures var e' := Apply(e, ev);
      ev.rule in e'.nextEvaluateAt
      && e'.nextEvaluateAt[ev.rule] <= e.clock + Second * Max(e.due[ev.rule].intervalSeconds, 600)
      && (!e.due[ev.rule].hasSource ==> e'.nextEvaluateAt[ev.rule] == e.clock + Second * 120)
  {
    if Reached(e, ev) { DelayStep(e, ev); }
  }

  lemma ScheduleUntouched(e: Engine, ev: Event, rule: RuleId)
    requires !(ev.Evaluate? && ev.rule == rule)
    ensures rule in Apply(e, ev).nextEvaluateAt ==>
      rule in e.nextEvaluateAt && Apply(e, ev).nextEvaluateAt[rule] == e.nextEvaluateAt[rule]
  {
    if ev.Evaluate? && ev.rule in e.due && e.due[ev.rule].hasSource {
      DelayOnly(e, ev, rule);
    }
  }

  lemma DelayOnly(e: Engine, ev: Event, rule: RuleId)
    requires Reached(e, ev) && ev.rule != rule
    ensures rule in Apply(e, ev).nextEvaluateAt ==>
      rule in e.nextEvaluateAt && Apply(e, ev).nextEvaluateAt[rule] == e.nextEvaluateAt[rule]
  {
    match ev.signal
    case SignalOk =>
    case SignalFiring =>
    case _ =>
  }

  /** The rule's schedule does not keep it waiting past the time. */
  predicate ReadyBy(e: Engine, rule: RuleId, now: int) {
    rule in e.nextEvaluateAt ==> now >= e.nextEvaluateAt[rule]
  }

  lemma ReadyStays(e: Engine, ev: Event, rule: RuleId, now: int)
    requires ReadyBy(e, rule, now) && !(ev.Evaluate? && ev.rule == rule)
    ensures ReadyBy(Apply(e, ev), rule, now)
  {
    ScheduleUntouched(e, ev, rule);
  }

  lemma {:induction false} ReadyLasts(rules: map<RuleId, Rule>, start: seq<Event>, later: seq<Event>, rule: RuleId,
      now: int)
    requires ReadyBy(Execute(rules, start), rule, now)
    requires forall i :: 0 <= i < |later| ==> !(later[i].Evaluate? && later[i].rule == rule)
    ensures ReadyBy(Execute(rules, start + later), rule, now)
    decreases |later|
  {
    if later == [] {
      assert start + later == start;
    } else {
      var front, last := later[..|later| - 1], later[|later| - 1];
      ReadyLasts(rules, start, front, rule, now);
      ReadyStays(Execute(rules, start + front), last, rule, now);
      assert start + later == (start + front) + [last];
      OneMore(rules, start + front, last);
    }
  }

  /** Evaluated at some time, a rule that is enabled is due at every later time from max(interval, 600)
      seconds on, however many passes, reloads, restarts and evaluations of other rules come between. */
  lemma DueAgain(rules: map<RuleId, Rule>, evs: seq<Event>, ev: Event, later: seq<Event>, now: int)
    requires ev.Evaluate? && ev.rule in Execute(rules, evs).due
    requires forall i :: 0 <= i < |later| ==> !(later[i].Evaluate? && later[i].rule == ev.rule)
    requires var e := Execute(rules, evs);
      now >= e.clock + Second * Max(BaseInterval(e.due[ev.rule]), MaxBackoffSeconds)
    ensures var e := Execute(rules, (evs + [ev]) + later);
      ev.rule in e.rules && e.rules[ev.rule].enabled ==> Due(e, ev.rule, now)
  {
    OneMore(rules, evs, ev);
    EvaluationSchedules(Execute(rules, evs), ev);
    ReadyLasts(rules, evs + [ev], later, ev.rule, now);
  }

  // ---- Who is evaluated when ----

  /** The rule is evaluated: it belongs to the running pass. */
  predicate Evaluates(e: Engine, ev: Event, rule: RuleId) {
    ev.Evaluate? && ev.rule == rule && rule in e.due
  }

  /** The seconds an evaluation earns: the interval, at least 10, after a clean or firing one; the k-th step
      of the backoff curve after the k-th failure in a row; 120 where there is no source. */
  function Earns(r: Rule, signal: Signal, k: nat): int
    requires Healthy(signal) || k >= 1
  {
    var interval := if r.intervalSeconds < 10 then 10 else r.intervalSeconds;
    if !r.hasSource then 120 else if Healthy(signal) then interval else Backoff(interval, k)
  }

  /** Until when the rule's last evaluation since the last reload or restart keeps it waiting. */
  function WaitsUntil(rules: map<RuleId, Rule>, evs: seq<Event>, rule: RuleId): Option<int>
    decreases |evs|
  {
    if evs == [] then None
    else
      var front, ev := evs[..|evs| - 1], evs[|evs| - 1];
      var e := Execute(rules, front);
      if ev.Reload? || ev.Restart? then None
      else if Evaluates(e, ev, rule)
        then Some(e.clock + 10_000_000 * Earns(e.due[rule], ev.signal, InARow(rules, front, rule) + 1))
      else WaitsUntil(rules, front, rule)
  }

  function ScheduleOf(e: Engine, rule: RuleId): Option<int> {
    if rule in e.nextEvaluateAt then Some(e.nextEvaluateAt[rule]) else None
  }

  lemma ScheduleKept(e: Engine, ev: Event, rule: RuleId)
    requires !Evaluates(e, ev, rule) && !ev.Reload? && !ev.Restart?
    ensures ScheduleOf(Apply(e, ev), rule) == ScheduleOf(e, rule)
  {
    if ev.Evaluate? && ev.rule in e.due && e.due[ev.rule].hasSource {
      match ev.signal
      case SignalOk =>
      case SignalFiring =>
      case _ =>
    }
  }

  lemma ScheduleEarned(e: Engine, ev: Event, rule: RuleId)
    requires Evaluates(e, ev, rule)
    ensures ScheduleOf(Apply(e, ev), rule) ==
      Some(e.clock + 10_000_000 * Earns(e.due[rule], ev.signal, FailuresOf(e, rule) + 1))
  {
    if Reached(e, ev) { DelayStep(e, ev); }
  }

  /** In every run the stored time is that one. */
  lemma {:induction false} SchedulesAsEarned(rules: map<RuleId, Rule>, evs: seq<Event>, rule: RuleId)
    ensures ScheduleOf(Execute(rules, evs), rule) == WaitsUntil(rules, evs, rule)
    decreases |evs|
  {
    if evs != [] {
      var front, ev := evs[..|evs| - 1], evs[|evs| - 1];
      var e := Execute(rules, front);
      SchedulesAsEarned(rules, front, rule);
      CountsFailuresInARow(rules, front, rule);
      if Evaluates(e, ev, rule) {
        ScheduleEarned(e, ev, rule);
      } else if !ev.Reload? && !ev.Restart? {
        ScheduleKept(e, ev, rule);
      }
    }
  }

  /** A pass that begins after any run takes exactly the enabled rules whose wait is over; a rule not
      evaluated since the last reload or restart has none. */
  lemma PassTakesIff(rules: map<RuleId, Rule>, evs: seq<Event>, now: int, rule: RuleId)
    requires var e := Execute(rules, evs); e.due == map[] && e.pending == map[] && now > e.clock
    ensures var e, e' := Execute(rules, evs), Execute(rules, evs + [BeginPass(now)]);
      && e'.clock == now && e'.rules == e.rules
      && (rule in e'.due <==>
            && rule in e.rules && e.rules[rule].enabled
            && (WaitsUntil(rules, evs, rule).Some? ==> now >= WaitsUntil(rules, evs, rule).value))
      && (rule in e'.due ==> e'.due[rule] == e.rules[rule])
  {
    OneMore(rules, evs, BeginPass(now));
    SchedulesAsEarned(rules, evs, rule);
  }

  lemma {:induction false} NotWaiting(rules: map<RuleId, Rule>, start: seq<Event>, later: seq<Event>, rule: RuleId)
    requires start == [] || start[|start| - 1].Reload? || start[|start| - 1].Restart?
    requires forall i :: 0 <= i < |later| ==> !(later[i].Evaluate? && later[i].rule == rule)
    ensures WaitsUntil(rules, start + later, rule) == None
    decreases |later|
  {
    if later == [] {
      assert start + later == start;
    } else {
      assert (start + later)[..|start + later| - 1] == start + later[..|later| - 1];
      NotWaiting(rules, start, later[..|later| - 1], rule);
    }
  }

  /** An enabled rule not evaluated since the last reload or restart is in the next pass; a disabled one is
      in none. */
  lemma UnevaluatedRuleIsTaken(rules: map<RuleId, Rule>, start: seq<Event>, later: seq<Event>, now: int, rule: RuleId)
    requires start == [] || start[|start| - 1].Reload? || start[|start| - 1].Restart?
    requires forall i :: 0 <= i < |later| ==> !(later[i].Evaluate? && later[i].rule == rule)
    requires var e := Execute(rules, start + later); e.due == map[] && e.pending == map[] && now > e.clock
    ensures var e := Execute(rules, start + later);
      rule in Execute(rules, start + later + [BeginPass(now)]).due <==> rule in e.rules && e.rules[rule].enabled
  {
    NotWaiting(rules, start, later, rule);
    PassTakesIff(rules, start + later, now, rule);
  }

  /** The rule is not evaluated before the time: it is in no pass, and its schedule keeps it out of the next,
      until then. */
  predicate Rests(e: Engine, rule: RuleId, time: int) {
    e.clock >= time || (rule !in e.due && rule in e.nextEvaluateAt && e.nextEvaluateAt[rule] >= time)
  }

  lemma RestsOn(e: Engine, ev: Event, rule: RuleId, time: int)
    requires Rests(e, rule, time) && !ev.Reload? && !ev.Restart?
    ensures Rests(Apply(e, ev), rule, time)
  {
    ClockGrows(e, ev);
    if e.clock < time {
      ScheduleKept(e, ev, rule);
      if ev.Evaluate? { OthersStayOut(e, ev, rule); }
    }
  }

  lemma OthersStayOut(e: Engine, ev: Event, rule: RuleId)
    requires ev.Evaluate? && rule !in e.due
    ensures rule !in Apply(e, ev).due
  {
    if ev.rule in e.due && e.due[ev.rule].hasSource {
      match ev.signal
      case SignalOk =>
      case SignalFiring =>
      case _ =>
    }
  }

  lemma RestStarts(e: Engine, ev: Event, rule: RuleId)
    requires Evaluates(e, ev, rule)
    ensures Rests(Apply(e, ev), rule,
                  e.clock + 10_000_000 * Earns(e.due[rule], ev.signal, FailuresOf(e, rule) + 1))
  {
    ScheduleEarned(e, ev, rule);
    if Reached(e, ev) {
      match ev.signal
      case SignalOk =>
      case SignalFiring =>
      case _ =>
    }
  }

  lemma {:induction false} RestLasts(rules: map<RuleId, Rule>, evs: seq<Event>, i: nat, j: nat, time: int)
    requires i < j <= |evs| && evs[i].Evaluate? && Rests(Execute(rules, evs[..i + 1]), evs[i].rule, time)
    requires forall m :: i < m < j ==> !evs[m].Reload? && !evs[m].Restart?
    ensures Rests(Execute(rules, evs[..j]), evs[i].rule, time)
    decreases j
  {
    if j > i + 1 {
      RestLasts(rules, evs, i, j - 1, time);
      assert evs[..j] == evs[..j - 1] + [evs[j - 1]];
      OneMore(rules, evs[..j - 1], evs[j - 1]);
      RestsOn(Execute(rules, evs[..j - 1]), evs[j - 1], evs[i].rule, time);
    }
  }

  /** Two evaluations of one rule with no reload or restart between are at least as far apart as the first
      one earned, whatever passes and other evaluations come between. */
  lemma EvaluationsSpaced(rules: map<RuleId, Rule>, evs: seq<Event>, i: nat, j: nat, rule: RuleId)
    requires i < j < |evs| && Evaluates(Execute(rules, evs[..i]), evs[i], rule)
    requires Evaluates(Execute(rules, evs[..j]), evs[j], rule)
    requires forall m :: i < m < j ==> !evs[m].Reload? && !evs[m].Restart?
    ensures var a, b := Execute(rules, evs[..i]), Execute(rules, evs[..j]);
      b.clock >= a.clock + 10_000_000 * Earns(a.due[rule], evs[i].signal, InARow(rules, evs[..i], rule) + 1)
  {
    var e := Execute(rules, evs[..i]);
    assert evs[..i + 1] == evs[..i] + [evs[i]];
    OneMore(rules, evs[..i], evs[i]);
    CountsFailuresInARow(rules, evs[..i], rule);
    RestStarts(e, evs[i], rule);
    RestLasts(rules, evs, i, j, e.clock + 10_000_000 * Earns(e.due[rule], evs[i].signal, FailuresOf(e, rule) + 1));
  }

  // ---- Cooldown ----

  lemma ClockGrows(e: Engine, ev: Event)
    ensures Apply(e, ev).clock >= e.clock
  {
    if ev.Evaluate? && ev.rule in e.due && e.due[ev.rule].hasSource {
      match ev.signal
      case SignalOk =>
      case SignalFiring =>
      case _ =>
    }
  }

  /** No firing of the rule is recorded before the time: the cooldown runs until then, or it has passed. */
  predicate QuietUntil(e: Engine, rule: RuleId, time: int) {
    e.clock >= time || (rule in e.cooldowns && e.cooldowns[rule] >= time)
  }

  lemma RecordingStarts(e: Engine, ev: Event)
    requires Records(e, ev)
    ensures QuietUntil(Apply(e, ev), ev.rule, e.clock + 60 * Second * e.due[ev.rule].cooldownMinutes)
  {
  }

  lemma CooldownsChange(e: Engine, ev: Event, rule: RuleId)
    requires !ev.Reload? && !ev.Restart? && !(Records(e, ev) && ev.rule == rule)
    ensures rule in e.cooldowns ==> rule in Apply(e, ev).cooldowns && Apply(e, ev).cooldowns[rule] == e.cooldowns[rule]
  {
    if ev.Evaluate? && ev.rule in e.due && e.due[ev.rule].hasSource {
      match ev.signal
      case SignalOk =>
      case SignalFiring =>
      case _ =>
    }
  }

  lemma QuietStays(e: Engine, ev: Event, rule: RuleId, time: int)
    requires QuietUntil(e, rule, time) && !ev.Reload? && !ev.Restart?
    ensures QuietUntil(Apply(e, ev), rule, time)
  {
    ClockGrows(e, ev);
    if !(Records(e, ev) && ev.rule == rule) { CooldownsChange(e, ev, rule); }
  }

  lemma {:induction false} QuietLasts(rules: map<RuleId, Rule>, evs: seq<Event>, i: nat, j: nat)
    requires i < j <= |evs| && Records(Execute(rules, evs[..i]), evs[i])
    requires forall m :: i < m < j ==> !evs[m].Reload? && !evs[m].Restart?
    ensures var e := Execute(rules, evs[..i]);
      QuietUntil(Execute(rules, evs[..j]), evs[i].rule, e.clock + 60 * Second * e.due[evs[i].rule].cooldownMinutes)
    decreases j
  {
    var e := Execute(rules, evs[..i]);
    assert evs[..j] == evs[..j - 1] + [evs[j - 1]];
    OneMore(rules, evs[..j - 1], evs[j - 1]);
    if j == i + 1 {
      RecordingStarts(e, evs[i]);
    } else {
      QuietLasts(rules, evs, i, j - 1);
      QuietStays(Execute(rules, evs[..j - 1]), evs[j - 1], evs[i].rule,
        e.clock + 60 * Second * e.due[evs[i].rule].cooldownMinutes);
    }
  }

  /** Two recorded firings of one rule, suppressed or not, with no reload or restart between them are at
      least the cooldown of the first apart. */
  lemma CooldownSpacing(rules: map<RuleId, Rule>, evs: seq<Event>, i: nat, j: nat)
    requires i < j < |evs| && evs[i].Evaluate? && evs[j].Evaluate? && evs[i].rule == evs[j].rule
    requires Records(Execute(rules, evs[..i]), evs[i]) && Records(Execute(rules, evs[..j]), evs[j])
    requires forall m :: i < m < j ==> !evs[m].Reload? && !evs[m].Restart?
    ensures var a, b := Execute(rules, evs[..i]), Execute(rules, evs[..j]);
      b.clock >= a.clock + 60 * Second * a.due[evs[i].rule].cooldownMinutes
  {
    QuietLasts(rules, evs, i, j);
  }

  /** Until when the last recorded firing since the last reload or restart keeps the rule quiet. */
  function QuietTime(rules: map<RuleId, Rule>, evs: seq<Event>, rule: RuleId): Option<int>
    decreases |evs|, 0
  {
    if evs == [] then None
    else
      var front, ev := evs[..|evs| - 1], evs[|evs| - 1];
      var e := Execute(rules, front);
      if ev.Reload? || ev.Restart? then None
      else if Reached(e, ev) && ev.rule == rule && ev.signal == SignalFiring && Loud(rules, front, rule)
        then Some(e.clock + 60 * 10_000_000 * e.due[rule].cooldownMinutes)
      else QuietTime(rules, front, rule)
  }

  /** The rule is not kept quiet any more. */
  predicate Loud(rules: map<RuleId, Rule>, evs: seq<Event>, rule: RuleId)
    decreases |evs|, 1
  {
    QuietTime(rules, evs, rule).Some? ==> Execute(rules, evs).clock >= QuietTime(rules, evs, rule).value
  }

  function CooldownOf(e: Engine, rule: RuleId): Option<int> {
    if rule in e.cooldowns then Some(e.cooldowns[rule]) else None
  }

  lemma CooldownStep(e: Engine, ev: Event, rule: RuleId)
    ensures CooldownOf(Apply(e, ev), rule) ==
      if ev.Reload? || ev.Restart? then None
      else if Reached(e, ev) && ev.rule == rule && ev.signal == SignalFiring
           && (CooldownOf(e, rule).Some? ==> e.clock >= CooldownOf(e, rule).value)
        then Some(e.clock + 60 * 10_000_000 * e.due[rule].cooldownMinutes)
      else CooldownOf(e, rule)
  {
    if ev.Evaluate? && ev.rule in e.due && e.due[ev.rule].hasSource {
      match ev.signal
      case SignalOk =>
      case SignalFiring =>
      case _ =>
    }
  }

  lemma {:induction false} CooldownsAsClaimed(rules: map<RuleId, Rule>, evs: seq<Event>, rule: RuleId)
    ensures CooldownOf(Execute(rules, evs), rule) == QuietTime(rules, evs, rule)
    decreases |evs|
  {
    if evs != [] {
      CooldownsAsClaimed(rules, evs[..|evs| - 1], rule);
      CooldownStep(Execute(rules, evs[..|evs| - 1]), evs[|evs| - 1], rule);
    }
  }

  /** After any run, a firing evaluation of a rule is recorded if and only if the cooldown of its last
      recorded firing is over; the row has the rule's severity, the time of the pass, and the kind that says
      whether it was suppressed, and the incident is open. */
  lemma FiringRecordedIff(rules: map<RuleId, Rule>, evs: seq<Event>, rule: RuleId, suppressed: bool, rowId: int)
    requires var e := Execute(rules, evs); rule in e.due && e.due[rule].hasSource && rule !in e.pending
    ensures var e, e' := Execute(rules, evs), Execute(rules, evs + [Evaluate(rule, SignalFiring, suppressed, rowId)]);
      && (rule in e'.pending <==> Loud(rules, evs, rule))
      && (Loud(rules, evs, rule) ==>
            && rule in e'.open
            && e'.pending[rule] ==
                 Row(rowId, rule, e.due[rule].severity, if suppressed then Suppressed else Fired, e.clock))
      && (!Loud(rules, evs, rule) ==> e'.open == e.open && e'.pending == e.pending)
  {
    var ev := Evaluate(rule, SignalFiring, suppressed, rowId);
    assert (evs + [ev])[..|evs|] == evs;
    CooldownsAsClaimed(rules, evs, rule);
  }

  /** A firing of the rule has been recorded since its last clean evaluation, since the last restart and
      since the last reload that dropped the rule. */
  predicate FiredLast(rules: map<RuleId, Rule>, evs: seq<Event>, rule: RuleId)
    decreases |evs|
  {
    evs != [] &&
    var front, ev := evs[..|evs| - 1], evs[|evs| - 1];
    match ev
    case Restart(_) => false
    case Reload(kept) => rule in kept && FiredLast(rules, front, rule)
    case Evaluate(of, signal, _, _) =>
      if of != rule || !Reached(Execute(rules, front), ev) then FiredLast(rules, front, rule)
      else if signal == SignalFiring then Loud(rules, front, rule) || FiredLast(rules, front, rule)
      else signal != SignalOk && FiredLast(rules, front, rule)
    case _ => FiredLast(rules, front, rule)
  }

  lemma OpenStep(e: Engine, ev: Event, rule: RuleId)
    ensures rule in Apply(e, ev).open <==>
      match ev
      case Restart(_) => false
      case Reload(kept) => rule in kept && rule in e.open
      case Evaluate(of, signal, _, _) =>
        if of != rule || !Reached(e, ev) then rule in e.open
        else if signal == SignalFiring
          then (CooldownOf(e, rule).Some? ==> e.clock >= CooldownOf(e, rule).value) || rule in e.open
        else signal != SignalOk && rule in e.open
      case _ => rule in e.open
  {
    if ev.Evaluate? && ev.rule in e.due && e.due[ev.rule].hasSource {
      match ev.signal
      case SignalOk =>
      case SignalFiring =>
      case _ =>
    }
  }

  lemma {:induction false} OpenSinceFired(rules: map<RuleId, Rule>, evs: seq<Event>, rule: RuleId)
    ensures rule in Execute(rules, evs).open <==> FiredLast(rules, evs, rule)
    decreases |evs|
  {
    if evs != [] {
      var front := evs[..|evs| - 1];
      OpenSinceFired(rules, front, rule);
      CooldownsAsClaimed(rules, front, rule);
      OpenStep(Execute(rules, front), evs[|evs| - 1], rule);
    }
  }

  /** After any run, a clean evaluation of a rule is recorded as a recovery if and only if a firing has been
      recorded since the last one; the row has the rule's severity and the time of the pass, and nothing of
      the rule is open any more. */
  lemma RecoveryRecordedIff(rules: map<RuleId, Rule>, evs: seq<Event>, rule: RuleId, suppressed: bool, rowId: int)
    requires var e := Execute(rules, evs); rule in e.due && e.due[rule].hasSource && rule !in e.pending
    ensures var e, e' := Execute(rules, evs), Execute(rules, evs + [Evaluate(rule, SignalOk, suppressed, rowId)]);
      && (rule in e'.pending <==> FiredLast(rules, evs, rule))
      && (FiredLast(rules, evs, rule) ==>
            e'.pending == e.pending[rule := Row(rowId, rule, e.due[rule].severity, Resolved, e.clock)])
      && e'.open == e.open - {rule}
  {
    assert (evs + [Evaluate(rule, SignalOk, suppressed, rowId)])[..|evs|] == evs;
    OpenSinceFired(rules, evs, rule);
  }

  const Hourly: Rule := Rule(true, true, Warning, 60, 60)
  const FirstPass: seq<Event> := [BeginPass(1), Evaluate(3, SignalFiring, false, 7), Append(3)]

  lemma FirstPassFires()
    ensures var r := map[3 := Hourly]; var e := Execute(r, FirstPass);
      Records(Execute(r, FirstPass[..1]), FirstPass[1]) && e.due == map[] && e.pending == map[] && e.clock == 1
  {
    var r := map[3 := Hourly];
    assert FirstPass[..3] == FirstPass && FirstPass[..2][..1] == FirstPass[..1] && FirstPass[..1][..0] == [];
    assert Execute(r, []) == Fresh(r);
    var e1 := Execute(r, FirstPass[..1]);
    assert e1 == BeginStep(Fresh(r), 1);
    assert e1.due == r;
    var e2 := Execute(r, FirstPass[..2]);
    assert e2 == EvaluateStep(e1, 3, SignalFiring, false, 7) && e2.due == map[] && e2.pending.Keys == {3};
    assert Execute(r, FirstPass) == AppendStep(e2, 3);
  }

  /** A reload in between removes the spacing: the rule fires at time 1 with a cooldown of an hour, the
      rules are reloaded unchanged, and it fires again one tick later. */
  lemma ReloadEndsCooldown()
    ensures var r := map[3 := Hourly];
      Records(Execute(r, FirstPass[..1]), FirstPass[1])
      && Records(Execute(r, FirstPass + [Reload(r)] + [BeginPass(2)]), Evaluate(3, SignalFiring, false, 8))
  {
    var r := map[3 := Hourly];
    FirstPassFires();
    OneMore(r, FirstPass, Reload(r));
    OneMore(r, FirstPass + [Reload(r)], BeginPass(2));
    var e := ReloadStep(Execute(r, FirstPass), r);
    assert BeginStep(e, 2).due.Keys == {3};
  }
}
