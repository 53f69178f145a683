/** "Completed means nothing of the operation is left stamped" over whole runs of the system: when it
    holds, and a run in which it does not. */
module ReachCompletion {
  import opened Wrappers
  import opened Operations
  import opened OperationInvariant
  import opened ReplayRuns
  import opened ReachRuns
  import opened StatusRuns
  import opened Lifecycle

  // ---- One operation ----

  /** A restore sees every stamped message, and a completed operation has left none. */
  predicate Clear(c: Cell) {
    c.job.ReachMessage? && c.op.Some? ==>
      var o := c.op.value;
      && (o.task.Collecting? ==> forall n :: n in c.broker.locked ==> n in o.task.got)
      && (o.task.Restoring? ==> c.broker.unseen == {})
      && (o.state == Completed ==> c.broker.stamped == {})
  }

  predicate Collects(c: Cell) {
    c.op.Some? && c.op.value.task.Collecting?
  }

  /** The event begins a restore pass of the operation. */
  predicate Begins(s: System, e: Event, id: OpId) {
    id in s.cells && id in Apply(s, e).cells && !Collects(s.cells[id]) && Collects(Apply(s, e).cells[id])
  }

  /** Another operation's receiver picks up a message of this one while its restore is receiving. */
  predicate Intrudes(s: System, e: Event, id: OpId) {
    && e.Borrow? && e.id == id && Shares(s, e.peer, id) && Collects(s.cells[id])
    && e.n in s.cells[id].broker.stamped && e.n !in s.cells[id].broker.locked
  }

  /** No receiver holds a message of the operation when a restore pass of it begins, and no other
      operation's receiver picks one up while the pass is receiving. */
  predicate Undisturbed(s: System, e: Event, id: OpId) {
    (Begins(s, e, id) ==> s.cells[id].broker.locked == {}) && !Intrudes(s, e, id)
  }

  lemma ParkingClear(c: Cell, e: TaskEvent)
    requires c.job.ReachMessage? && c.op.Some? && Clear(c) && (c.op.value.state == Completed ==> c.op.value.task.Idle?)
    requires !c.op.value.task.Collecting? && !c.op.value.task.Restoring?
    requires c.op.value.task.Reached? && e == BeginRestore ==> c.broker.locked == {}
    ensures Clear(ReachStep(c, c.op.value, e))
  {
  }

  lemma CollectingClear(c: Cell, e: TaskEvent)
    requires c.job.ReachMessage? && c.op.Some? && Clear(c) && c.op.value.task.Collecting? && c.op.value.state == Running
    ensures Clear(ReachStep(c, c.op.value, e))
  {
    var c' := ReachStep(c, c.op.value, e);
    if c'.op.value.task.Restoring? {
      assert forall n :: n !in c'.broker.unseen;
    }
  }

  lemma RestoringClear(c: Cell, e: TaskEvent)
    requires c.job.ReachMessage? && c.op.Some? && Clear(c) && c.op.value.task.Restoring? && c.op.value.state == Running
    requires c.broker.unseen == {} && c.op.value.task.failures == 0 && c.op.value.task.todo == [] ==>
      c.broker.stamped == {}
    ensures Clear(ReachStep(c, c.op.value, e))
  {
  }

  lemma TaskClear(c: Cell, held: Option<Entry>, lost: nat, e: TaskEvent)
    requires CellInv(c, held, lost) && Clear(c)
    requires !Collects(c) && Collects(TaskStep(c, e)) ==> c.broker.locked == {}
    ensures Clear(TaskStep(c, e))
  {
    if c.op.Some? && c.job.ReachMessage? {
      if c.op.value.task.Collecting? {
        CollectingClear(c, e);
      } else if c.op.value.task.Restoring? {
        if c.broker.unseen == {} && c.op.value.task.failures == 0 && c.op.value.task.todo == [] {
          NothingLeft(c, held, lost);
        }
        RestoringClear(c, e);
      } else {
        ParkingClear(c, e);
      }
    } else if c.op.Some? {
      ReplayStepRecord(c, e);
    }
  }

  lemma NothingLeft(c: Cell, held: Option<Entry>, lost: nat)
    requires CellInv(c, held, lost) && c.job.ReachMessage? && c.op.Some? && c.op.value.task.Restoring?
    requires c.broker.unseen == {} && c.op.value.task.failures == 0 && c.op.value.task.todo == []
    ensures c.broker.stamped == {}
  {
    assert forall n :: n !in c.broker.stamped;
  }

  // ---- Every event ----

  lemma LandClear(s: System, ok: bool, id: OpId)
    requires id in s.cells && Clear(s.cells[id]) && Undisturbed(s, Land(ok), id)
    ensures id in LandStep(s, ok).cells && Clear(LandStep(s, ok).cells[id])
  {
  }

  lemma CrashClear(c: Cell, held: Option<Entry>, lost: nat)
    requires CellInv(c, held, lost) && Clear(c)
    ensures Clear(Recovered(c))
  {
  }

  lemma LocalClear(s: System, e: Event, id: OpId)
    requires Inv(s) && id in s.cells && Clear(s.cells[id]) && Undisturbed(s, e, id)
    requires e.Step? || e.Capture? || e.LockExpires?
    ensures id in Apply(s, e).cells && Clear(Apply(s, e).cells[id])
  {
    if e.Step? && e.id == id {
      assert Apply(s, e).cells[id] == TaskStep(s.cells[id], e.task);
      TaskClear(s.cells[id], HeldRow(s, id), s.lostWrites, e.task);
    }
  }

  /** A borrowed message stays stamped; a taken one is gone. */
  lemma SharedClear(s: System, e: Event, id: OpId)
    requires id in s.cells && Clear(s.cells[id]) && Undisturbed(s, e, id) && (e.Borrow? || e.Take?)
    ensures id in Apply(s, e).cells && Clear(Apply(s, e).cells[id])
  {
  }

  lemma ControlClear(s: System, e: Event, id: OpId)
    requires id in s.cells && Clear(s.cells[id]) && (e.Start? || e.Cancel? || e.Resume? || e.Dismiss? || e.Acquire?)
    ensures id in Apply(s, e).cells && Clear(Apply(s, e).cells[id])
  {
  }

  lemma StepClear(s: System, e: Event, id: OpId)
    requires Inv(s) && id in s.cells && Clear(s.cells[id]) && Undisturbed(s, e, id)
    ensures id in Apply(s, e).cells && Clear(Apply(s, e).cells[id])
  {
    match e
    case Land(ok) => LandClear(s, ok, id);
    case Crash => CrashClear(s.cells[id], HeldRow(s, id), s.lostWrites);
    case Step(_, _) => LocalClear(s, e, id);
    case Capture(_, _) => LocalClear(s, e, id);
    case LockExpires(_, _) => LocalClear(s, e, id);
    case Borrow(_, _, _) => SharedClear(s, e, id);
    case Take(_, _, _) => SharedClear(s, e, id);
    case _ => ControlClear(s, e, id);
  }

  lemma StartsClear(s: System, e: Event, id: OpId)
    requires id !in s.cells && id in Apply(s, e).cells
    ensures Clear(Apply(s, e).cells[id])
  {
    if !e.Start? { OnlyStartAdds(s, e); }
  }

  lemma {:induction false} RunClear(es: seq<Event>, id: OpId)
    requires forall i :: 0 <= i < |es| ==> Undisturbed(Execute(Initial(), es[..i]), es[i], id)
    ensures id in Execute(Initial(), es).cells ==> Clear(Execute(Initial(), es).cells[id])
    decreases |es|
  {
    if es != [] {
      var front, e := es[..|es| - 1], es[|es| - 1];
      forall i | 0 <= i < |front| ensures Undisturbed(Execute(Initial(), front[..i]), front[i], id) {
        assert front[..i] == es[..i];
      }
      RunClear(front, id);
      RunKeeps(front);
      var s := Execute(Initial(), front);
      assert Undisturbed(Execute(Initial(), es[..|front|]), es[|front|], id);
      if id in s.cells { StepClear(s, e, id); } else if id in Apply(s, e).cells { StartsClear(s, e, id); }
    }
  }

  // ---- Whole runs ----

  /** Completed means nothing is left stamped, in every run in which every restore pass of the operation
      begins with none of its messages held, and none is picked up by another operation while it receives. */
  lemma CompletedLeavesNothing(es: seq<Event>, id: OpId)
    requires forall i :: 0 <= i < |es| ==> Undisturbed(Execute(Initial(), es[..i]), es[i], id)
    requires id in Execute(Initial(), es).cells && Execute(Initial(), es).cells[id].job.ReachMessage?
    ensures LeavesNothing(Execute(Initial(), es).cells[id])
  {
    RunClear(es, id);
  }

  predicate NotRestarting(c: Cell) {
    c.op.Some? ==> c.op.value.task != Starting(true)
  }

  lemma TaskNotRestarting(c: Cell, e: TaskEvent)
    requires NotRestarting(c)
    ensures NotRestarting(TaskStep(c, e))
  {
  }

  lemma StaysNotRestarting(s: System, e: Event, id: OpId)
    requires id in s.cells && NotRestarting(s.cells[id]) && !(e.Resume? && e.id == id)
    ensures id in Apply(s, e).cells && NotRestarting(Apply(s, e).cells[id])
  {
    if e.Step? && e.id == id { TaskNotRestarting(s.cells[id], e.task); }
  }

  lemma {:induction false} NeverRestarting(es: seq<Event>, id: OpId)
    requires forall i :: 0 <= i < |es| ==> !(es[i].Resume? && es[i].id == id)
    ensures id in Execute(Initial(), es).cells ==> NotRestarting(Execute(Initial(), es).cells[id])
    decreases |es|
  {
    if es != [] {
      var front, e := es[..|es| - 1], es[|es| - 1];
      NeverRestarting(front, id);
      var s := Execute(Initial(), front);
      if id in s.cells { StaysNotRestarting(s, e, id); } else if !e.Start? { OnlyStartAdds(s, e); }
    }
  }

  // ---- One runner per entity ----

  predicate AllAlone(es: seq<Event>) {
    forall i :: 0 <= i < |es| ==> ResumesAlone(Execute(Initial(), es[..i]), es[i])
  }

  /** With one runner per entity no other operation can reach the messages of a running one. */
  lemma ExclusiveShuts(s: System, peer: OpId, id: OpId)
    requires Inv(s) && Exclusive(s) && id in s.cells && IsRunning(s.cells[id])
    ensures !Shares(s, peer, id)
  {
    if Shares(s, peer, id) {
      assert CellInv(s.cells[peer], HeldRow(s, peer), s.lostWrites);
      assert IsRunning(s.cells[peer]);
    }
  }

  lemma ExclusiveBefore(es: seq<Event>, i: nat)
    requires AllAlone(es) && i <= |es|
    ensures Exclusive(Execute(Initial(), es[..i])) && Inv(Execute(Initial(), es[..i]))
  {
    AloneBefore(es, i);
    OneRunnerPerEntity(es[..i]);
    RunKeeps(es[..i]);
  }

  /** So in a run whose resumes find their entity free, only what is held when a pass begins matters. */
  lemma CompletedAloneLeavesNothing(es: seq<Event>, id: OpId)
    requires AllAlone(es)
    requires forall i :: 0 <= i < |es| && Begins(Execute(Initial(), es[..i]), es[i], id) ==>
      Execute(Initial(), es[..i]).cells[id].broker.locked == {}
    requires id in Execute(Initial(), es).cells && Execute(Initial(), es).cells[id].job.ReachMessage?
    ensures LeavesNothing(Execute(Initial(), es).cells[id])
  {
    forall i | 0 <= i < |es| ensures Undisturbed(Execute(Initial(), es[..i]), es[i], id) {
      var s := Execute(Initial(), es[..i]);
      ExclusiveBefore(es, i);
      if Intrudes(s, es[i], id) {
        assert CellInv(s.cells[id], HeldRow(s, id), s.lostWrites);
        ExclusiveShuts(s, es[i].peer, id);
      }
    }
    CompletedLeavesNothing(es, id);
  }

  /** Before the first restore pass nobody holds a message of the operation. */
  predicate Fresh(c: Cell) {
    c.op.Some? && (c.op.value.task == Starting(false) || c.op.value.task.Parking? || c.op.value.task.Reached?) ==>
      c.broker.locked == {}
  }

  lemma TaskFresh(c: Cell, e: TaskEvent)
    requires Fresh(c)
    ensures Fresh(TaskStep(c, e))
  {
  }

  lemma StepFresh(s: System, e: Event, id: OpId)
    requires Inv(s) && Exclusive(s) && id in s.cells && Fresh(s.cells[id])
    ensures id in Apply(s, e).cells && Fresh(Apply(s, e).cells[id])
  {
    if e.Step? || e.Borrow? { WorkFresh(s, e, id); } else { QuietFresh(s, e, id); }
  }

  lemma WorkFresh(s: System, e: Event, id: OpId)
    requires Inv(s) && Exclusive(s) && id in s.cells && Fresh(s.cells[id]) && (e.Step? || e.Borrow?)
    ensures id in Apply(s, e).cells && Fresh(Apply(s, e).cells[id])
  {
    if e.Step? {
      if e.id == id { TaskFresh(s.cells[id], e.task); }
    } else {
      assert CellInv(s.cells[id], HeldRow(s, id), s.lostWrites);
      if e.id == id && IsRunning(s.cells[id]) { ExclusiveShuts(s, e.peer, id); }
    }
  }

  lemma QuietFresh(s: System, e: Event, id: OpId)
    requires id in s.cells && Fresh(s.cells[id]) && !e.Step? && !e.Borrow?
    ensures id in Apply(s, e).cells && Fresh(Apply(s, e).cells[id])
  {
  }

  lemma StartsFresh(s: System, e: Event, id: OpId)
    requires id !in s.cells && id in Apply(s, e).cells
    ensures Fresh(Apply(s, e).cells[id])
  {
    if !e.Start? { OnlyStartAdds(s, e); }
  }

  predicate FreshAfter(es: seq<Event>, id: OpId) {
    var s := Execute(Initial(), es);
    id in s.cells ==> Fresh(s.cells[id])
  }

  lemma NextFresh(es: seq<Event>, k: nat, id: OpId)
    requires 0 < k <= |es| && AllAlone(es) && FreshAfter(es[..k - 1], id)
    ensures FreshAfter(es[..k], id)
  {
    var s, e := Execute(Initial(), es[..k - 1]), es[k - 1];
    assert es[..k][..k - 1] == es[..k - 1];
    ExclusiveBefore(es, k - 1);
    if id in s.cells { StepFresh(s, e, id); } else if id in Apply(s, e).cells { StartsFresh(s, e, id); }
  }

  lemma {:induction false} RunFresh(es: seq<Event>, k: nat, id: OpId)
    requires k <= |es| && AllAlone(es)
    ensures FreshAfter(es[..k], id)
    decreases k
  {
    if k > 0 {
      RunFresh(es, k - 1, id);
      NextFresh(es, k, id);
    }
  }

  /** A restore pass begins after the target was acted on, or with a resume. */
  lemma BeginsHow(s: System, e: Event, id: OpId)
    requires Begins(s, e, id)
    ensures s.cells[id].op.Some? && (s.cells[id].op.value.task == Starting(true) || s.cells[id].op.value.task.Reached?)
  {
    if e.Step? && e.id == id { TaskBeginsHow(s.cells[id], e.task); }
  }

  lemma TaskBeginsHow(c: Cell, e: TaskEvent)
    requires !Collects(c) && Collects(TaskStep(c, e))
    ensures c.op.Some? && c.op.value.task.Reached?
  {
  }

  /** In particular, with one runner per entity, an operation that completes without ever being resumed
      leaves nothing behind, whatever else the run holds: cancels and faults, lock expiries, restores and
      replays of other operations on its entity, crashes and lost writes. */
  lemma NeverResumedLeavesNothing(es: seq<Event>, id: OpId)
    requires AllAlone(es)
    requires forall i :: 0 <= i < |es| ==> !(es[i].Resume? && es[i].id == id)
    requires id in Execute(Initial(), es).cells && Execute(Initial(), es).cells[id].job.ReachMessage?
    ensures LeavesNothing(Execute(Initial(), es).cells[id])
  {
    forall i | 0 <= i < |es| && Begins(Execute(Initial(), es[..i]), es[i], id)
      ensures Execute(Initial(), es[..i]).cells[id].broker.locked == {}
    {
      FirstBeginsUnlocked(es, i, id);
    }
    CompletedAloneLeavesNothing(es, id);
  }

  lemma FirstBeginsUnlocked(es: seq<Event>, i: nat, id: OpId)
    requires AllAlone(es) && i < |es| && forall k :: 0 <= k < |es| ==> !(es[k].Resume? && es[k].id == id)
    requires Begins(Execute(Initial(), es[..i]), es[i], id)
    ensures Execute(Initial(), es[..i]).cells[id].broker.locked == {}
  {
    var before := es[..i];
    RunFresh(es, i, id);
    NeverRestarting(before, id);
    BeginsHow(Execute(Initial(), before), es[i], id);
  }

  lemma AloneBefore(es: seq<Event>, i: nat)
    requires AllAlone(es) && i <= |es|
    ensures AllAlone(es[..i])
  {
    forall k | 0 <= k < i ensures ResumesAlone(Execute(Initial(), es[..i][..k]), es[..i][k]) {
      assert es[..i][..k] == es[..k];
    }
  }

  // ---- The exact condition ----

  /** No resume of the operation. */
  predicate NoResume(more: seq<Event>, id: OpId) {
    forall i :: 0 <= i < |more| ==> !(more[i].Resume? && more[i].id == id)
  }

  /** No other operation picks up a message of this one. */
  predicate NoBorrow(more: seq<Event>, id: OpId) {
    forall i :: 0 <= i < |more| ==> !(more[i].Borrow? && more[i].id == id)
  }

  /** The restore pass under way is the last one, unless the operation is resumed. */
  predicate LastPass(c: Cell) {
    c.op.Some? ==> !c.op.value.task.Starting? && !c.op.value.task.Parking? && !c.op.value.task.Reached?
  }

  lemma TaskLastPass(c: Cell, e: TaskEvent)
    requires LastPass(c)
    ensures LastPass(TaskStep(c, e))
  {
  }

  lemma StaysLastPass(s: System, e: Event, id: OpId)
    requires id in s.cells && LastPass(s.cells[id]) && !(e.Resume? && e.id == id)
    ensures id in Apply(s, e).cells && LastPass(Apply(s, e).cells[id])
  {
    if e.Step? && e.id == id { TaskLastPass(s.cells[id], e.task); }
  }

  lemma LastPassBeginsNoOther(s: System, e: Event, id: OpId)
    requires id in s.cells && LastPass(s.cells[id])
    ensures !Begins(s, e, id)
  {
    if Begins(s, e, id) { BeginsHow(s, e, id); }
  }

  lemma {:induction false} ClearFrom(s: System, more: seq<Event>, id: OpId)
    requires Inv(s) && id in s.cells && Clear(s.cells[id]) && LastPass(s.cells[id])
    requires NoResume(more, id) && NoBorrow(more, id)
    ensures var s' := Execute(s, more);
      && Inv(s') && id in s'.cells && Clear(s'.cells[id]) && LastPass(s'.cells[id])
      && s'.cells[id].job == s.cells[id].job
    decreases |more|
  {
    if more != [] {
      var front, e := more[..|more| - 1], more[|more| - 1];
      ClearFrom(s, front, id);
      var m := Execute(s, front);
      ApplyKeeps(m, e);
      LastPassBeginsNoOther(m, e, id);
      StepClear(m, e, id);
      StaysLastPass(m, e, id);
      JobStays(m, e, id);
    }
  }

  function AsEvents(id: OpId, es: seq<PassEvent>): seq<Event>
    decreases |es|
  {
    if es == [] then []
    else [match es[0] case Did(task) => Step(id, task) case Expired(n) => LockExpires(id, n)] + AsEvents(id, es[1..])
  }

  /** A pass of one operation is a run of the system. */
  lemma {:induction false} PassInSystem(s: System, id: OpId, es: seq<PassEvent>)
    requires id in s.cells
    ensures NoResume(AsEvents(id, es), id) && NoBorrow(AsEvents(id, es), id)
    ensures var s' := Execute(s, AsEvents(id, es)); id in s'.cells && s'.cells[id] == Pass(s.cells[id], es)
    decreases |es|
  {
    if es != [] {
      var e := match es[0] case Did(task) => Step(id, task) case Expired(n) => LockExpires(id, n);
      ExecuteConcat(s, [e], AsEvents(id, es[1..]));
      ExecuteOne(s, e);
      PassInSystem(Apply(s, e), id, es[1..]);
    }
  }

  /** Some run from s, without another resume of the operation, completes it and leaves a message stamped. */
  ghost predicate CanStrand(s: System, id: OpId) {
    exists more :: NoResume(more, id) && Strands(s, more, id)
  }

  /** So does a run in which no other operation picks up its messages. */
  ghost predicate CanStrandUndisturbed(s: System, id: OpId) {
    exists more :: NoResume(more, id) && NoBorrow(more, id) && Strands(s, more, id)
  }

  predicate Strands(s: System, more: seq<Event>, id: OpId) {
    id in Execute(s, more).cells && !LeavesNothing(Execute(s, more).cells[id])
  }

  /** A restore pass of the operation has just begun. */
  predicate PassBegun(s: System, id: OpId) {
    && id in s.cells && s.cells[id].job.ReachMessage?
    && s.cells[id].op.Some? && s.cells[id].op.value.task == Collecting([])
  }

  /** Whenever a restore pass has begun, in whatever reachable system, a run without another resume of the
      operation and in which no other operation picks up its messages can end Completed with a message
      left stamped if and only if a receiver holds one of the operation's messages now. */
  lemma StrandsIff(s: System, id: OpId)
    requires Inv(s) && PassBegun(s, id)
    ensures CanStrandUndisturbed(s, id) <==> s.cells[id].broker.locked != {}
  {
    if forall n :: n !in s.cells[id].broker.locked {
      assert s.cells[id].broker.locked == {};
      forall more | NoResume(more, id) && NoBorrow(more, id) ensures !Strands(s, more, id) {
        if id in Execute(s, more).cells { ClearStart(s, more, id); }
      }
    } else {
      var more := LockedStrands(s, id);
      assert CanStrandUndisturbed(s, id);
    }
  }

  lemma ClearStart(s: System, more: seq<Event>, id: OpId)
    requires Inv(s) && PassBegun(s, id) && s.cells[id].broker.locked == {} && NoResume(more, id) && NoBorrow(more, id)
    ensures !Strands(s, more, id)
  {
    assert CellInv(s.cells[id], HeldRow(s, id), s.lostWrites);
    assert Clear(s.cells[id]);
    ClearFrom(s, more, id);
  }

  lemma LockedStrands(s: System, id: OpId) returns (more: seq<Event>)
    requires Inv(s) && PassBegun(s, id) && exists n :: n in s.cells[id].broker.locked
    ensures NoResume(more, id) && NoBorrow(more, id) && Strands(s, more, id)
  {
    var c := s.cells[id];
    assert CellInv(c, HeldRow(s, id), s.lostWrites);
    AnyJournal(c, HeldRow(s, id), s.lostWrites);
    var es := StrayLockStrands(c);
    PassInSystem(s, id, es);
    more := AsEvents(id, es);
  }

  /** While another operation's receiver is at the same queue, one stamped message is enough. */
  lemma StrandsBesideIff(s: System, id: OpId, peer: OpId)
    requires Inv(s) && PassBegun(s, id) && Shares(s, peer, id)
    ensures CanStrand(s, id) <==> s.cells[id].broker.stamped != {}
  {
    var b := s.cells[id].broker;
    if forall n :: n !in b.stamped {
      assert b.stamped == {};
      forall more | NoResume(more, id) ensures !Strands(s, more, id) {
        StampedShrinks(s, more, id);
      }
    } else if forall n :: n !in b.locked {
      var n :| n in b.stamped;
      var s1 := Apply(s, Borrow(peer, id, n));
      ApplyKeeps(s, Borrow(peer, id, n));
      assert n in s1.cells[id].broker.locked;
      var more := LockedStrands(s1, id);
      ExecuteConcat(s, [Borrow(peer, id, n)], more);
      ExecuteOne(s, Borrow(peer, id, n));
      assert Strands(s, [Borrow(peer, id, n)] + more, id);
    } else {
      var more := LockedStrands(s, id);
      assert Strands(s, more, id);
    }
  }

  lemma {:induction false} StampedShrinks(s: System, more: seq<Event>, id: OpId)
    requires id in s.cells && s.cells[id].job.ReachMessage? && ParkingOver(s.cells[id])
    ensures var s' := Execute(s, more);
      id in s'.cells && s'.cells[id].job == s.cells[id].job && ParkingOver(s'.cells[id])
      && s'.cells[id].broker.stamped <= s.cells[id].broker.stamped
    decreases |more|
  {
    if more != [] {
      var front, e := more[..|more| - 1], more[|more| - 1];
      StampedShrinks(s, front, id);
      var m := Execute(s, front);
      if Local(e) || e.Acquire? { LocalNeverParksAgain(m, e, id); } else { ControlNeverParksAgain(m, e, id); }
      StampedShrinksOnce(m, e, id);
    }
  }

  lemma StampedShrinksOnce(s: System, e: Event, id: OpId)
    requires id in s.cells && s.cells[id].job.ReachMessage? && ParkingOver(s.cells[id])
    ensures id in Apply(s, e).cells && Apply(s, e).cells[id].broker.stamped <= s.cells[id].broker.stamped
  {
    if e.Step? && e.id == id && s.cells[id].op.Some? { TaskStampedShrinks(s.cells[id], e.task); }
  }

  lemma TaskStampedShrinks(c: Cell, e: TaskEvent)
    requires c.job.ReachMessage? && c.op.Some? && ParkingOver(c)
    ensures ReachStep(c, c.op.value, e).broker.stamped <= c.broker.stamped
  {
  }

  /** A pass does not depend on what the journal is doing. */
  lemma AnyJournal(c: Cell, held: Option<Entry>, lost: nat)
    requires CellInv(c, held, lost)
    ensures CellInv(c, None, 1)
  {
  }

  // ---- A run that strands a message ----

  const Reach2 := ReachMessage(2, Complete, true, 10)

  /** One message is parked, the target is acted on, the restore receives the message and is cancelled
      before settling it; the user resumes while the lock is still held. */
  const CancelledRestore: seq<Event> :=
    [Start(0, 0, Reach2)] + Saving(0) + [Step(0, Park(1)), Step(0, Act), Step(0, BeginRestore)] + Saving(0)
    + [Step(0, Receive(1)), Cancel(0), Step(0, ObserveCancel)] + Saving(0)

  const BlindRestore: seq<Event> := [Resume(0, true)] + Saving(0) + [Step(0, Drained([])), Step(0, FinishRestore)]

  const Once1 := Untouched.(parked := {1}, stamped := {1})

  function ReachCell(state: State, task: Task, cancel: bool, owed: seq<Writer>, row: Option<Entry>, b: Broker): Cell {
    Cell(0, Reach2, Some(Operation(state, {}, {}, cancel, false, task, owed, [])), row, row, b)
  }

  lemma Three(s: System, a: Event, b: Event, c: Event)
    ensures Execute(s, [a, b, c]) == Apply(Apply(Apply(s, a), b), c)
  {
    assert [a, b, c] == [a] + ([b] + [c]);
    ExecuteConcat(s, [a], [b] + [c]);
    ExecuteOne(s, a);
    ExecuteConcat(Apply(s, a), [b], [c]);
    ExecuteOne(Apply(s, a), b);
    ExecuteOne(Apply(Apply(s, a), b), c);
  }

  lemma ParkingStarts()
    ensures Execute(Execute(Initial(), [Start(0, 0, Reach2)]), Saving(0)) ==
      Alone(ReachCell(Running, Parking(0), false, [], Some(Entry(SavedRunning, {})), Untouched), false)
  {
    ExecuteOne(Initial(), Start(0, 0, Reach2));
    var c := ReachCell(Running, Starting(false), false, [Control], None, Untouched);
    assert Apply(Initial(), Start(0, 0, Reach2)) == Alone(c, true);
    SavingAlone(c, true);
  }

  lemma ParksAndActs()
    ensures var row := Some(Entry(SavedRunning, {}));
      Execute(Alone(ReachCell(Running, Parking(0), false, [], row, Untouched), false),
        [Step(0, Park(1)), Step(0, Act), Step(0, BeginRestore)])
      == Alone(ReachCell(Running, Collecting([]), false, [Runner], row, Once1.(acted := 1)), false)
  {
    var row := Some(Entry(SavedRunning, {}));
    var c0 := ReachCell(Running, Parking(0), false, [], row, Untouched);
    Three(Alone(c0, false), Step(0, Park(1)), Step(0, Act), Step(0, BeginRestore));
    assert {} + {1} == {1};
    var c1 := ReachCell(Running, Parking(1), false, [], row, Once1);
    assert TaskStep(c0, Park(1)) == c1;
    var c2 := ReachCell(Running, Reached, false, [], row, Once1.(acted := 1));
    assert TaskStep(c1, Act) == c2;
    assert [] + [Runner] == [Runner];
    assert TaskStep(c2, BeginRestore) == ReachCell(Running, Collecting([]), false, [Runner], row, Once1.(acted := 1));
  }

  const Held1 := Once1.(acted := 1, locked := {1})

  lemma ReceivesOne(row: Option<Entry>)
    ensures TaskStep(ReachCell(Running, Collecting([]), false, [], row, Once1.(acted := 1)), Receive(1))
      == ReachCell(Running, Collecting([1]), false, [], row, Held1)
  {
    assert {} + {1} == {1} && [] + [1] == [1];
  }

  lemma ObservesCancel(row: Option<Entry>)
    ensures TaskStep(ReachCell(Running, Collecting([1]), true, [], row, Held1), ObserveCancel)
      == ReachCell(Cancelled, Idle, true, [Runner], row, Held1)
  {
    assert [] + [Runner] == [Runner];
  }

  lemma ReceivesAndCancels()
    ensures var row := Some(Entry(SavedRunning, {}));
      Execute(Alone(ReachCell(Running, Collecting([]), false, [], row, Once1.(acted := 1)), false),
              [Step(0, Receive(1)), Cancel(0), Step(0, ObserveCancel)])
      == Alone(ReachCell(Cancelled, Idle, true, [Runner], row, Held1), false)
  {
    var row := Some(Entry(SavedRunning, {}));
    var c0 := ReachCell(Running, Collecting([]), false, [], row, Once1.(acted := 1));
    Three(Alone(c0, false), Step(0, Receive(1)), Cancel(0), Step(0, ObserveCancel));
    ReceivesOne(row);
    StepAlone(c0, Receive(1));
    var c1 := ReachCell(Running, Collecting([1]), false, [], row, Held1);
    CancelAlone(c1);
    ObservesCancel(row);
    StepAlone(ReachCell(Running, Collecting([1]), true, [], row, Held1), ObserveCancel);
  }

  lemma CancelAlone(c: Cell)
    requires c.op.Some? && c.op.value.state == Running
    ensures Apply(Alone(c, false), Cancel(0)) == Alone(c.(op := Some(c.op.value.(cancelRequested := true))), false)
  {
    var c' := c.(op := Some(c.op.value.(cancelRequested := true)));
    assert map[0 := c][0 := c'] == map[0 := c'];
  }

  lemma RestoreCancelled()
    ensures Execute(Initial(), CancelledRestore) ==
      Alone(ReachCell(Cancelled, Idle, true, [], Some(Entry(SavedCancelled, {})), Held1), false)
  {
    var start, park := [Start(0, 0, Reach2)] + Saving(0), [Step(0, Park(1)), Step(0, Act), Step(0, BeginRestore)];
    var cancel := [Step(0, Receive(1)), Cancel(0), Step(0, ObserveCancel)];
    var row, b := Some(Entry(SavedRunning, {})), Once1.(acted := 1);
    ExecuteConcat(Initial(), start + park + Saving(0) + cancel, Saving(0));
    ExecuteConcat(Initial(), start + park + Saving(0), cancel);
    ExecuteConcat(Initial(), start + park, Saving(0));
    ExecuteConcat(Initial(), start, park);
    ExecuteConcat(Initial(), [Start(0, 0, Reach2)], Saving(0));
    ParkingStarts();
    ParksAndActs();
    SavingAlone(ReachCell(Running, Collecting([]), false, [Runner], row, b), false);
    ReceivesAndCancels();
    SavingAlone(ReachCell(Cancelled, Idle, true, [Runner], row, Held1), false);
  }

  lemma ResumesBlind(c: Cell)
    requires c == ReachCell(Cancelled, Idle, true, [], Some(Entry(SavedCancelled, {})), Held1)
    ensures Execute(Alone(c, false), [Resume(0, true)] + Saving(0))
      == Alone(ReachCell(Running, Collecting([]), false, [], Some(Entry(SavedRunning, {})), Held1), false)
  {
    var s := Alone(c, false);
    ExecuteConcat(s, [Resume(0, true)], Saving(0));
    ExecuteOne(s, Resume(0, true));
    assert [] + [Control] == [Control];
    var c1 := ReachCell(Running, Starting(true), false, [Control], c.disk, c.broker);
    assert Apply(s, Resume(0, true)) == Alone(c1, true);
    SavingAlone(c1, true);
    assert SavedCell(c1) == ReachCell(Running, Collecting([]), false, [], Some(Entry(SavedRunning, {})), Held1);
  }

  lemma DrainsNothing(c: Cell)
    requires c == ReachCell(Running, Collecting([]), false, [], Some(Entry(SavedRunning, {})), Held1)
    ensures TaskStep(c, Drained([])).op == Some(c.op.value.(task := Restoring([], false, 0, [])))
    ensures TaskStep(c, Drained([])).broker.stamped == {1} && TaskStep(c, Drained([])).job == c.job
  {
  }

  lemma FinishesBlind(c: Cell)
    requires c.job.ReachMessage? && c.op.Some? && c.op.value.task == Restoring([], false, 0, [])
    ensures var c' := TaskStep(c, FinishRestore); c'.op.Some? && c'.op.value.state == Completed && c'.broker == c.broker
  {
  }

  /** "Completed means no stamped message remains" is false of the code: this run has no crash, no fault and
      no lost write, and ends Completed with message 1 still stamped and without a copy. */
  lemma CompletedButStranded()
    ensures var s := Execute(Initial(), CancelledRestore + BlindRestore);
      s.lostWrites == 0 && 0 in s.cells && s.cells[0].op.Some? && s.cells[0].op.value.state == Completed
      && s.cells[0].broker.stamped == {1} && s.cells[0].broker.tail == []
  {
    var c := ReachCell(Cancelled, Idle, true, [], Some(Entry(SavedCancelled, {})), Held1);
    var c2 := ReachCell(Running, Collecting([]), false, [], Some(Entry(SavedRunning, {})), Held1);
    var last := [Step(0, Drained([])), Step(0, FinishRestore)];
    ExecuteConcat(Initial(), CancelledRestore, BlindRestore);
    RestoreCancelled();
    ExecuteConcat(Alone(c, false), [Resume(0, true)] + Saving(0), last);
    ResumesBlind(c);
    TwoStepsAlone(c2);
  }

  lemma TwoStepsAlone(c: Cell)
    requires c == ReachCell(Running, Collecting([]), false, [], Some(Entry(SavedRunning, {})), Held1)
    ensures var s := Execute(Alone(c, false), [Step(0, Drained([])), Step(0, FinishRestore)]);
      s.lostWrites == 0 && 0 in s.cells && s.cells[0].op.Some? && s.cells[0].op.value.state == Completed
      && s.cells[0].broker.stamped == {1} && s.cells[0].broker.tail == []
  {
    var last := [Step(0, Drained([])), Step(0, FinishRestore)];
    assert last == [last[0]] + [last[1]];
    ExecuteConcat(Alone(c, false), [last[0]], [last[1]]);
    ExecuteOne(Alone(c, false), last[0]);
    StepAlone(c, Drained([]));
    DrainsNothing(c);
    var c3 := TaskStep(c, Drained([]));
    ExecuteOne(Alone(c3, false), last[1]);
    StepAlone(c3, FinishRestore);
    FinishesBlind(c3);
    assert c3.broker.tail == [];
  }

  // ---- A run in which another operation strands one ----

  /** Operation 0 fails while it parks; operation 1 starts on the entity and parks message 1; operation 0 is
      resumed beside it, its restore receives message 1 and is cancelled before abandoning it. */
  const FailsParking: seq<Event> := [Step(0, StopParking)] + Saving(0)

  const StartsSecond: seq<Event> := [Start(1, 0, Reach2)] + Saving(1)

  const ResumesFirst: seq<Event> := [Step(1, Park(1)), Resume(0, true)] + Saving(0)

  const Intrusion: seq<Event> := [Borrow(0, 1, 1), Cancel(0), Step(0, ObserveCancel)]

  /** Operation 1 acts on its target; its restore receives nothing. */
  const SeesNothing: seq<Event> := [Step(1, Act), Step(1, BeginRestore), Step(1, Drained([])), Step(1, FinishRestore)]

  const BothPark: seq<Event> := [Start(0, 0, Reach2)] + Saving(0) + FailsParking + StartsSecond

  const RivalRun: seq<Event> := BothPark + ResumesFirst + Intrusion + SeesNothing

  function Pair(a: Cell, b: Cell, gateTaken: bool): System { System(map[0 := a, 1 := b], gateTaken, None, 0) }

  const RunningRow := Some(Entry(SavedRunning, {}))
  const FailedRow := Some(Entry(SavedFailed, {}))

  const Parks0 := ReachCell(Running, Parking(0), false, [], RunningRow, Untouched)
  const Failed0 := ReachCell(Failed, Idle, false, [], FailedRow, Untouched)
  const Parked1 := ReachCell(Running, Parking(1), false, [], RunningRow, Once1)
  const Collects0 := ReachCell(Running, Collecting([]), false, [], RunningRow, Untouched)
  const Lent1 := ReachCell(Running, Parking(1), false, [], RunningRow, Once1.(locked := {1}))
  const Gone0 := ReachCell(Cancelled, Idle, true, [Runner], RunningRow, Untouched)

  lemma FirstFails()
    ensures Execute(Alone(Parks0, false), FailsParking) == Alone(Failed0, false)
  {
    var c := ReachCell(Failed, Idle, false, [Runner], RunningRow, Untouched);
    ExecuteConcat(Alone(Parks0, false), [Step(0, StopParking)], Saving(0));
    ExecuteOne(Alone(Parks0, false), Step(0, StopParking));
    assert TaskStep(Parks0, StopParking) == c by { assert [] + [Runner] == [Runner]; }
    StepAlone(Parks0, StopParking);
    SavingAlone(c, false);
  }

  lemma SecondStarts()
    ensures Execute(Alone(Failed0, false), StartsSecond) == Pair(Failed0, Parks0, false)
  {
    var s, c := Alone(Failed0, false), ReachCell(Running, Starting(false), false, [Control], None, Untouched);
    ExecuteConcat(s, [Start(1, 0, Reach2)], Saving(1));
    ExecuteOne(s, Start(1, 0, Reach2));
    var s1 := Pair(Failed0, c, true);
    assert StartStep(s, 1, 0, Reach2) == s1 by { assert map[0 := Failed0][1 := c] == s1.cells; }
    SavingAt(s1, 1);
    assert SavedCell(c) == Parks0;
    assert s1.cells[1 := Parks0] == map[0 := Failed0, 1 := Parks0];
  }

  lemma PairFirst(a: Cell, b: Cell, a': Cell, gateTaken: bool)
    ensures Update(Pair(a, b, gateTaken), 0, a') == Pair(a', b, gateTaken)
  {
    assert Pair(a, b, gateTaken).cells[0 := a'] == map[0 := a', 1 := b];
  }

  lemma PairSecond(a: Cell, b: Cell, b': Cell, gateTaken: bool)
    ensures Update(Pair(a, b, gateTaken), 1, b') == Pair(a, b', gateTaken)
  {
    assert Pair(a, b, gateTaken).cells[1 := b'] == map[0 := a, 1 := b'];
  }

  lemma FirstResumes()
    ensures Execute(Pair(Failed0, Parks0, false), ResumesFirst) == Pair(Collects0, Parked1, false)
  {
    var s := Pair(Failed0, Parks0, false);
    var c := ReachCell(Running, Starting(true), false, [Control], FailedRow, Untouched);
    ExecuteConcat(s, [Step(1, Park(1)), Resume(0, true)], Saving(0));
    TwoSteps(s, Step(1, Park(1)), Resume(0, true));
    assert TaskStep(Parks0, Park(1)) == Parked1 by { assert {} + {1} == {1}; }
    PairSecond(Failed0, Parks0, Parked1, false);
    assert [] + [Control] == [Control];
    PairFirst(Failed0, Parked1, c, false);
    var s1 := Pair(c, Parked1, true);
    assert ResumeStep(Pair(Failed0, Parked1, false), 0, true) == s1;
    SavingAt(s1, 0);
    assert SavedCell(c) == Collects0;
    PairFirst(c, Parked1, Collects0, true);
  }

  lemma FirstIntrudes()
    ensures Execute(Pair(Collects0, Parked1, false), Intrusion) == Pair(Gone0, Lent1, false)
  {
    var s := Pair(Collects0, Parked1, false);
    Three(s, Borrow(0, 1, 1), Cancel(0), Step(0, ObserveCancel));
    FirstBorrows();
    var c := ReachCell(Running, Collecting([]), true, [], RunningRow, Untouched);
    CancelFirst(Collects0, Lent1);
    assert TaskStep(c, ObserveCancel) == Gone0 by { assert [] + [Runner] == [Runner]; }
    StepFirst(c, Lent1, ObserveCancel);
  }

  lemma FirstBorrows()
    ensures BorrowStep(Pair(Collects0, Parked1, false), 0, 1, 1) == Pair(Collects0, Lent1, false)
  {
    assert Borrowed(Parked1, 1) == Lent1 by { assert {} + {1} == {1}; }
    PairSecond(Collects0, Parked1, Lent1, false);
  }

  lemma CancelFirst(a: Cell, b: Cell)
    requires a.op.Some? && a.op.value.state == Running
    ensures CancelStep(Pair(a, b, false), 0) == Pair(a.(op := Some(a.op.value.(cancelRequested := true))), b, false)
  {
    PairFirst(a, b, a.(op := Some(a.op.value.(cancelRequested := true))), false);
  }

  lemma StepFirst(a: Cell, b: Cell, e: TaskEvent)
    ensures Apply(Pair(a, b, false), Step(0, e)) == Pair(TaskStep(a, e), b, false)
  {
    PairFirst(a, b, TaskStep(a, e), false);
  }

  lemma StepSecond(a: Cell, b: Cell, e: TaskEvent)
    ensures Apply(Pair(a, b, false), Step(1, e)) == Pair(a, TaskStep(b, e), false)
  {
    PairSecond(a, b, TaskStep(b, e), false);
  }

  lemma SecondSeesNothing()
    ensures var s := Execute(Pair(Gone0, Lent1, false), SeesNothing);
      && s.lostWrites == 0 && 1 in s.cells && s.cells[1].op.Some? && s.cells[1].op.value.state == Completed
      && s.cells[1].broker.stamped == {1} && s.cells[1].broker.tail == []
  {
    var s, b := Pair(Gone0, Lent1, false), Once1.(locked := {1}, acted := 1);
    assert SeesNothing == [Step(1, Act), Step(1, BeginRestore)] + [Step(1, Drained([])), Step(1, FinishRestore)];
    ExecuteConcat(s, [Step(1, Act), Step(1, BeginRestore)], [Step(1, Drained([])), Step(1, FinishRestore)]);
    TwoSteps(s, Step(1, Act), Step(1, BeginRestore));
    var c1 := ReachCell(Running, Reached, false, [], RunningRow, b);
    assert TaskStep(Lent1, Act) == c1;
    StepSecond(Gone0, Lent1, Act);
    var c2 := ReachCell(Running, Collecting([]), false, [Runner], RunningRow, b);
    assert TaskStep(c1, BeginRestore) == c2 by { assert [] + [Runner] == [Runner]; }
    StepSecond(Gone0, c1, BeginRestore);
    BlindPass(Gone0, c2);
  }

  lemma BlindPass(a: Cell, c: Cell)
    requires c.job.ReachMessage? && c.op.Some? && c.op.value.task == Collecting([])
    requires c.broker.stamped == c.broker.locked == {1} && c.broker.tail == []
    ensures var s := Execute(Pair(a, c, false), [Step(1, Drained([])), Step(1, FinishRestore)]);
      && s.lostWrites == 0 && 1 in s.cells && s.cells[1].op.Some? && s.cells[1].op.value.state == Completed
      && s.cells[1].broker.stamped == {1} && s.cells[1].broker.tail == []
  {
    TwoSteps(Pair(a, c, false), Step(1, Drained([])), Step(1, FinishRestore));
    var c1 := TaskStep(c, Drained([]));
    assert c1.op == Some(c.op.value.(task := Restoring([], false, 0, [])));
    StepSecond(a, c, Drained([]));
    FinishesBlind(c1);
    StepSecond(a, c1, FinishRestore);
  }

  lemma FourParts(s: System, a: seq<Event>, b: seq<Event>, c: seq<Event>, d: seq<Event>)
    ensures Execute(s, a + b + c + d) == Execute(Execute(Execute(Execute(s, a), b), c), d)
  {
    ExecuteConcat(s, a + b + c, d);
    ExecuteConcat(s, a + b, c);
    ExecuteConcat(s, a, b);
  }

  lemma BothParking()
    ensures Execute(Initial(), BothPark) == Pair(Failed0, Parks0, false)
  {
    FourParts(Initial(), [Start(0, 0, Reach2)], Saving(0), FailsParking, StartsSecond);
    ParkingStarts();
    FirstFails();
    SecondStarts();
  }

  /** Neither a crash nor a resume of operation 1. */
  predicate Plain(es: seq<Event>) {
    forall i :: 0 <= i < |es| ==> es[i] != Crash && !(es[i].Resume? && es[i].id == 1)
  }

  lemma PlainParts(a: seq<Event>, b: seq<Event>, c: seq<Event>, d: seq<Event>)
    requires Plain(a) && Plain(b) && Plain(c) && Plain(d)
    ensures Plain(a + b + c + d)
  {
  }

  /** Without one runner per entity, an operation that was never resumed and whose own receiver never held
      the message ends Completed with message 1 stamped and without a copy: no crash, no fault, no lost write. */
  lemma RivalStrands()
    ensures Plain(RivalRun)
    ensures var s := Execute(Initial(), RivalRun);
      && s.lostWrites == 0 && 1 in s.cells && s.cells[1].op.Some? && s.cells[1].op.value.state == Completed
      && s.cells[1].broker.stamped == {1} && s.cells[1].broker.tail == []
  {
    RivalRunPlain();
    FourParts(Initial(), BothPark, ResumesFirst, Intrusion, SeesNothing);
    BothParking();
    FirstResumes();
    FirstIntrudes();
    SecondSeesNothing();
  }

  lemma RivalRunPlain()
    ensures Plain(RivalRun)
  {
    PlainParts([Start(0, 0, Reach2)], Saving(0), FailsParking, StartsSecond);
    PlainParts(BothPark, ResumesFirst, Intrusion, SeesNothing);
  }
}
