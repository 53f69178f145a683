/** The alert evaluation engine: due passes, exponential backoff, cooldown, the open-incident set and the
    durable history it writes. `Apply` is one atomic section; sections of different rules interleave in
    any order inside a pass, and a reload or the death of the process can come at any point. */
module AlertEngine {
  import opened AlertRows

  /** The parts of a rule the engine reads. */
  datatype Rule = Rule(enabled: bool, hasSource: bool, severity: Severity, intervalSeconds: int, cooldownMinutes: int)

  /** What a signal source answers; Threw is an exception other than cancellation. */
  datatype Signal = SignalOk | SignalFiring | SignalSkipped | SignalError | Threw

  /** due: the rules of the running pass not evaluated yet, as they were when it began.
      pending: history rows decided but not yet appended. log: appended rows, oldest first. */
  datatype Engine = Engine(
    rules: map<RuleId, Rule>,
    clock: int,
    due: map<RuleId, Rule>,
    cooldowns: map<RuleId, int>,
    nextEvaluateAt: map<RuleId, int>,
    failures: map<RuleId, nat>,
    open: set<RuleId>,
    pending: map<RuleId, Row>,
    log: seq<Row>)

  datatype Event =
    | BeginPass(now: int)
    | Evaluate(rule: RuleId, signal: Signal, suppressed: bool, rowId: int)
    | Append(rule: RuleId)
    | Reload(rules: map<RuleId, Rule>)
    | Restart(rules: map<RuleId, Rule>)

  const MaxBackoffSeconds: int := 600
  const MissingSourceSeconds: int := 120
  const MinIntervalSeconds: int := 10

  function Max(a: int, b: int): int { if a < b then b else a }

  function Min(a: int, b: int): int { if a < b then a else b }

  /** base * 2^n. */
  function Doubled(base: int, n: nat): int {
    if n == 0 then base else 2 * Doubled(base, n - 1)
  }

  function BaseInterval(r: Rule): int { Max(MinIntervalSeconds, r.intervalSeconds) }

  /** Delay after the k-th failure in a row. */
  function Backoff(base: int, k: nat): int
    requires k >= 1
  {
    Min(Doubled(base, k - 1), MaxBackoffSeconds)
  }

  function FailuresOf(e: Engine, rule: RuleId): nat { if rule in e.failures then e.failures[rule] else 0 }

  predicate Due(e: Engine, rule: RuleId, now: int) {
    rule in e.rules && e.rules[rule].enabled && (rule in e.nextEvaluateAt ==> now >= e.nextEvaluateAt[rule])
  }

  predicate InCooldown(e: Engine, rule: RuleId) {
    rule in e.cooldowns && e.clock < e.cooldowns[rule]
  }

  function Fresh(rules: map<RuleId, Rule>): Engine {
    Engine(rules, 0, map[], map[], map[], map[], {}, map[], [])
  }

  /** A pass begins only after the previous one has finished, at a later time. */
  function BeginStep(e: Engine, now: int): Engine {
    if e.due != map[] || e.pending != map[] || now <= e.clock then e
    else e.(clock := now, due := map rule | rule in e.rules && Due(e, rule, now) :: e.rules[rule])
  }

  function BackoffStep(e: Engine, rule: RuleId, base: int): Engine {
    var k := FailuresOf(e, rule) + 1;
    e.(failures := e.failures[rule := k],
      nextEvaluateAt := e.nextEvaluateAt[rule := e.clock + Backoff(base, k) * Second])
  }

  /** A clean evaluation: the failure count goes, the normal interval applies. */
  function SucceedStep(e: Engine, rule: RuleId, base: int): Engine {
    e.(failures := e.failures - {rule}, nextEvaluateAt := e.nextEvaluateAt[rule := e.clock + base * Second])
  }

  /** A recovery closes the open incident and writes its resolution. */
  function ResolveStep(e: Engine, rule: RuleId, r: Rule, rowId: int): Engine {
    if rule in e.open
    then e.(open := e.open - {rule}, pending := e.pending[rule := Row(rowId, rule, r.severity, Resolved, e.clock)])
    else e
  }

  /** A firing outside the cooldown claims it, opens the incident and is recorded, suppressed or not. */
  function FireStep(e: Engine, rule: RuleId, r: Rule, suppressed: bool, rowId: int): Engine {
    if InCooldown(e, rule) then e
    else e.(cooldowns := e.cooldowns[rule := e.clock + 60 * Second * r.cooldownMinutes],
            open := e.open + {rule},
            pending := e.pending[rule :=
              Row(rowId, rule, r.severity, if suppressed then Suppressed else Fired, e.clock)])
  }

  function EvaluateStep(e: Engine, rule: RuleId, signal: Signal, suppressed: bool, rowId: int): Engine {
    if rule !in e.due then e
    else
      var r := e.due[rule];
      var e1 := e.(due := e.due - {rule});
      var base := BaseInterval(r);
      if !r.hasSource then e1.(nextEvaluateAt := e.nextEvaluateAt[rule := e.clock + MissingSourceSeconds * Second])
      else match signal
        case SignalOk => ResolveStep(SucceedStep(e1, rule, base), rule, r, rowId)
        case SignalFiring => FireStep(SucceedStep(e1, rule, base), rule, r, suppressed, rowId)
        case _ => BackoffStep(e1, rule, base)
  }

  function AppendStep(e: Engine, rule: RuleId): Engine {
    if rule in e.pending then e.(pending := e.pending - {rule}, log := e.log + [e.pending[rule]]) else e
  }

  /** New rules clear every schedule; incidents of rules that are gone are dropped. */
  function ReloadStep(e: Engine, rules: map<RuleId, Rule>): Engine {
    e.(rules := rules, nextEvaluateAt := map[], failures := map[], cooldowns := map[], open := e.open * rules.Keys)
  }

  /** The process dies and a new one reads the rules. Every table is memory only and starts empty; rows that
      were not appended are lost, the history stays. */
  function RestartStep(e: Engine, rules: map<RuleId, Rule>): Engine {
    e.(rules := rules, due := map[], cooldowns := map[], nextEvaluateAt := map[], failures := map[], open := {},
       pending := map[])
  }

  function Apply(e: Engine, ev: Event): Engine {
    match ev
    case BeginPass(now) => BeginStep(e, now)
    case Evaluate(rule, signal, suppressed, rowId) => EvaluateStep(e, rule, signal, suppressed, rowId)
    case Append(rule) => AppendStep(e, rule)
    case Reload(rules) => ReloadStep(e, rules)
    case Restart(rules) => RestartStep(e, rules)
  }

  /** A run from an empty history. */
  function Execute(rules: map<RuleId, Rule>, evs: seq<Event>): Engine
    decreases |evs|
  {
    if evs == [] then Fresh(rules) else Apply(Execute(rules, evs[..|evs| - 1]), evs[|evs| - 1])
  }

  /** The evaluation records a firing: it is due, has a source, fires, and is outside its cooldown. */
  predicate Records(e: Engine, ev: Event) {
    ev.Evaluate? && ev.rule in e.due && e.due[ev.rule].hasSource && ev.signal == SignalFiring && !InCooldown(e, ev.rule)
  }

  // ---- The service object ----

  class MonitoringAlertEvaluationService {
    var rules: map<RuleId, Rule>
    var clock: int
    var due: map<RuleId, Rule>
    var cooldowns: map<RuleId, int>
    var nextEvaluateAt: map<RuleId, int>
    var consecutiveFailures: map<RuleId, nat>
    var openIncidents: set<RuleId>
    var history: seq<Row>
    var recentAlerts: seq<Row>

    const RingBufferCapacity: nat := 200

    /** The engine between two rules, with every decided row appended. */
    function Model(): Engine
      reads this
    {
      Engine(rules, clock, due, cooldowns, nextEvaluateAt, consecutiveFailures, openIncidents, map[], history)
    }

    constructor (rules: map<RuleId, Rule>)
      ensures Model() == Fresh(rules) && recentAlerts == []
    {
      this.rules := rules;
      clock, due, cooldowns, nextEvaluateAt, consecutiveFailures := 0, map[], map[], map[], map[];
      openIncidents, history, recentAlerts := {}, [], [];
    }

    method ReloadRules(newRules: map<RuleId, Rule>)
      modifies this
      ensures Model() == ReloadStep(old(Model()), newRules)
    {
      rules := newRules;
      nextEvaluateAt := map[];
      consecutiveFailures := map[];
      cooldowns := map[];
      openIncidents := set id | id in openIncidents && id in rules;
    }

    /** What a new process starts with: the rules as they are saved, and the history as it is on disk. */
    method Restart(newRules: map<RuleId, Rule>)
      modifies this
      ensures Model() == RestartStep(old(Model()), newRules) && recentAlerts == []
    {
      rules := newRules;
      due, cooldowns, nextEvaluateAt, consecutiveFailures := map[], map[], map[], map[];
      openIncidents, recentAlerts := {}, [];
    }

    /** Snapshots the due rules of a new pass. */
    method BeginDuePass(now: int)
      requires due == map[] && now > clock
      modifies this
      ensures Model() == BeginStep(old(Model()), now)
      ensures forall id :: id in due <==>
        id in rules && rules[id].enabled && (id in nextEvaluateAt ==> now >= nextEvaluateAt[id])
    {
      due := map id | id in rules && rules[id].enabled && (id in nextEvaluateAt ==> now >= nextEvaluateAt[id]) ::
        rules[id];
      clock := now;
    }

    method ScheduleWithBackoff(id: RuleId, base: int)
      modifies this`consecutiveFailures, this`nextEvaluateAt
      ensures Model() == BackoffStep(old(Model()), id, base)
    {
      var failures := (if id in consecutiveFailures then consecutiveFailures[id] else 0) + 1;
      consecutiveFailures := consecutiveFailures[id := failures];
      var backoff := Doubled(base, failures - 1);
      if backoff > MaxBackoffSeconds {
        backoff := MaxBackoffSeconds;
      }
      nextEvaluateAt := nextEvaluateAt[id := clock + backoff * Second];
    }

    /** Emits the recovery of a rule whose incident is open; nothing for one that never fired. */
    method ResolveOpenIncident(id: RuleId, r: Rule, rowId: int)
      modifies this`openIncidents, this`history
      ensures Model() == AppendStep(ResolveStep(old(Model()), id, r, rowId), id)
    {
      if id !in openIncidents {
        return;
      }
      openIncidents := openIncidents - {id};
      history := history + [Row(rowId, id, r.severity, Resolved, clock)];
    }

    /** The firing stage: the cooldown is claimed before suppression is decided, and a suppressed firing is
        recorded like any other. The ring buffer keeps the newest alerts. */
    method Fire(id: RuleId, r: Rule, suppressed: bool, rowId: int)
      requires |recentAlerts| <= 200
      modifies this`cooldowns, this`openIncidents, this`history, this`recentAlerts
      ensures Model() == AppendStep(FireStep(old(Model()), id, r, suppressed, rowId), id)
      ensures |recentAlerts| <= 200
      ensures recentAlerts == (
        if InCooldown(old(Model()), id) then old(recentAlerts)
        else (if |old(recentAlerts)| == 200 then old(recentAlerts)[1..] else old(recentAlerts))
             + [history[|history| - 1]])
    {
      if id in cooldowns && clock < cooldowns[id] {
        return;
      }
      cooldowns := cooldowns[id := clock + 60 * Second * r.cooldownMinutes];
      var row := Row(rowId, id, r.severity, if suppressed then Suppressed else Fired, clock);
      if |recentAlerts| >= RingBufferCapacity {
        recentAlerts := recentAlerts[1..];
      }
      recentAlerts := recentAlerts + [row];
      openIncidents := openIncidents + {id};
      history := history + [row];
    }

    method ScheduleNormally(id: RuleId, base: int)
      modifies this`consecutiveFailures, this`nextEvaluateAt
      ensures Model() == SucceedStep(old(Model()), id, base)
    {
      consecutiveFailures := consecutiveFailures - {id};
      nextEvaluateAt := nextEvaluateAt[id := clock + base * Second];
    }

    /** A whole evaluation of one due rule: the decision and, when there is one, its row. */
    method EvaluateRule(id: RuleId, signal: Signal, suppressed: bool, rowId: int)
      requires id in due && |recentAlerts| <= 200
      modifies this
      ensures Model() == AppendStep(EvaluateStep(old(Model()), id, signal, suppressed, rowId), id)
      ensures |recentAlerts| <= 200
    {
      var r := due[id];
      due := due - {id};
      var interval := Max(MinIntervalSeconds, r.intervalSeconds);
      if !r.hasSource {
        nextEvaluateAt := nextEvaluateAt[id := clock + MissingSourceSeconds * Second];
        return;
      }
      if signal == Threw || signal == SignalError || signal == SignalSkipped {
        ScheduleWithBackoff(id, interval);
        return;
      }
      ScheduleNormally(id, interval);
      if signal == SignalOk {
        ResolveOpenIncident(id, r, rowId);
      } else {
        Fire(id, r, suppressed, rowId);
      }
    }
  }
}
