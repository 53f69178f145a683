/** The operation's life: which states follow which, one runner per entity, what a completed replay
    accounts for, and what the crash marker buys. */
module Lifecycle {
  import opened Wrappers
  import opened Operations
  import opened OperationInvariant
  import opened ReplayRuns
  import opened StatusRuns

  // ---- State machine ----

  predicate Follows(from: State, to: State) {
    || to == from
    || (from == Running && (to == Completed || to == Failed || to == Cancelled))
    || ((from == Interrupted || from == Failed || from == Cancelled)
        && (to == Running || to == Failed || to == Dismissed))
  }

  predicate StateFollows(c: Cell, c': Cell) {
    c.op.Some? && c'.op.Some? ==> Follows(c.op.value.state, c'.op.value.state)
  }

  /** A task at work belongs to a running operation. */
  predicate WorksWhileRunning(o: Operation) {
    o.task.Idle? || o.task.Starting? || o.state == Running
  }

  lemma InvWorks(c: Cell, held: Option<Entry>, lost: nat)
    requires CellInv(c, held, lost) && c.op.Some?
    ensures WorksWhileRunning(c.op.value)
  {
  }

  lemma ReplayStateFollows(c: Cell, e: TaskEvent)
    requires c.op.Some? && WorksWhileRunning(c.op.value)
    ensures StateFollows(c, ReplayStep(c, c.op.value, e))
  {
  }

  lemma ReachStateFollows(c: Cell, e: TaskEvent)
    requires c.op.Some? && WorksWhileRunning(c.op.value) && c.job.ReachMessage?
    ensures StateFollows(c, ReachStep(c, c.op.value, e))
  {
  }

  lemma TaskStateFollows(s: System, e: Event, id: OpId)
    requires Inv(s) && id in s.cells && e.Step?
    ensures id in Apply(s, e).cells && StateFollows(s.cells[id], Apply(s, e).cells[id])
  {
    var c := s.cells[id];
    if c.op.Some? {
      InvWorks(c, HeldRow(s, id), s.lostWrites);
      if c.job.ReplayTo? {
        ReplayStateFollows(c, e.task);
      } else {
        ReachStateFollows(c, e.task);
      }
    }
  }

  lemma OtherStateFollows(s: System, e: Event, id: OpId)
    requires id in s.cells && !e.Step? && !e.Crash?
    ensures id in Apply(s, e).cells && StateFollows(s.cells[id], Apply(s, e).cells[id])
  {
  }

  /** Within one process every step of every run follows the state machine; Completed and Dismissed
      are final. A restart is StatusRuns.RestartState. */
  lemma StatesFollow(es: seq<Event>, e: Event, id: OpId)
    requires e != Crash && id in Execute(Initial(), es).cells
    ensures id in Apply(Execute(Initial(), es), e).cells
    ensures StateFollows(Execute(Initial(), es).cells[id], Apply(Execute(Initial(), es), e).cells[id])
  {
    RunKeeps(es);
    if e.Step? {
      TaskStateFollows(Execute(Initial(), es), e, id);
    } else {
      OtherStateFollows(Execute(Initial(), es), e, id);
    }
  }

  /** A resume with the gate free is accepted exactly in the states Interrupted, Failed and Cancelled. It puts
      the operation back to Running with a new runner and its cancel forgotten; a replay whose target is gone
      becomes Failed and starts nothing. Either way one write is asked for. */
  lemma ResumeAcceptedIff(s: System, id: OpId, targetResolves: bool)
    requires id in s.cells && s.cells[id].op.Some? && !s.gateTaken
    ensures var s' := Apply(s, Resume(id, targetResolves));
      var o := s.cells[id].op.value;
      && (s' != s <==> o.state == Interrupted || o.state == Failed || o.state == Cancelled)
      && (s' != s ==>
            && s'.cells[id].op.Some?
            && var o' := s'.cells[id].op.value;
               && o'.owed == o.owed + [Control] && o'.processed == o.processed
               && (if s.cells[id].job.ReplayTo? && !targetResolves
                   then o'.state == Failed && o'.task == o.task
                   else o'.state == Running && o'.task == Starting(true) && !o'.cancelRequested))
  {
  }

  lemma DismissAcceptedIff(s: System, id: OpId)
    requires id in s.cells && s.cells[id].op.Some? && !s.gateTaken
    ensures var s' := Apply(s, Dismiss(id));
      var o := s.cells[id].op.value;
      && (s' != s <==> o.state == Interrupted || o.state == Failed || o.state == Cancelled)
      && (s' != s ==>
            && s'.cells[id].op.Some? && s'.cells[id].op.value.state == Dismissed
            && s'.cells[id].op.value.owed == o.owed + [Control] && s'.cells[id].op.value.task == o.task)
  {
  }

  /** Whatever its job and wherever its runner is at work: a cancel of a running operation is observed by the
      runner's next check, which ends it Cancelled, asks for the closing write and changes nothing else; a
      check without a cancel passes by. */
  lemma CancelEnds(s: System, id: OpId)
    requires Inv(s) && id in s.cells && s.cells[id].op.Some? && s.cells[id].op.value.state == Running
    requires !s.cells[id].op.value.task.Starting?
    ensures var o, c' := s.cells[id].op.value, Apply(Apply(s, Cancel(id)), Step(id, ObserveCancel)).cells[id];
      && c'.op.Some? && c'.op.value.state == Cancelled && c'.op.value.task == Idle
      && c'.op.value.owed == o.owed + [Runner] && c'.op.value.processed == o.processed
      && c'.broker == s.cells[id].broker
    ensures !s.cells[id].op.value.cancelRequested ==> Apply(s, Step(id, ObserveCancel)).cells[id] == s.cells[id]
  {
    assert CellInv(s.cells[id], HeldRow(s, id), s.lostWrites);
    var c := s.cells[id].(op := Some(s.cells[id].op.value.(cancelRequested := true)));
    assert Apply(s, Cancel(id)).cells[id] == c;
    if c.job.ReplayTo? { ReplayCancelled(c); } else { ReachCancelled(c); }
    if !s.cells[id].op.value.cancelRequested { NotCancelled(s.cells[id]); }
  }

  lemma ReplayCancelled(c: Cell)
    requires c.job.ReplayTo? && c.op.Some? && c.op.value.task.Transferring? && c.op.value.cancelRequested
    ensures TaskStep(c, ObserveCancel) ==
      c.(op := Some(c.op.value.(state := Cancelled, task := Idle, owed := c.op.value.owed + [Runner])))
  {
  }

  lemma ReachCancelled(c: Cell)
    requires c.job.ReachMessage? && c.op.Some? && c.op.value.cancelRequested
    requires !c.op.value.task.Idle? && !c.op.value.task.Starting?
    ensures TaskStep(c, ObserveCancel) ==
      c.(op := Some(c.op.value.(state := Cancelled, task := Idle, owed := c.op.value.owed + [Runner])))
  {
  }

  /** A fault outside the sending of a message ends a runner Failed, wherever it is at work; it asks for the
      closing write and changes nothing else. */
  lemma FaultEnds(s: System, id: OpId)
    requires Inv(s) && id in s.cells && s.cells[id].op.Some? && s.cells[id].op.value.state == Running
    requires var task := s.cells[id].op.value.task;
      !task.Starting? && (task.Transferring? ==> task.sending.None?) && (task.Restoring? ==> !task.copied)
    ensures var o, c' := s.cells[id].op.value, Apply(s, Step(id, Throw)).cells[id];
      && c'.op == Some(o.(state := Failed, task := Idle, owed := o.owed + [Runner]))
      && c'.broker == s.cells[id].broker
  {
    assert CellInv(s.cells[id], HeldRow(s, id), s.lostWrites);
    if s.cells[id].job.ReplayTo? { ReplayFaults(s.cells[id]); } else { ReachFaults(s.cells[id]); }
  }

  lemma ReplayFaults(c: Cell)
    requires c.job.ReplayTo? && c.op.Some? && c.op.value.task.Transferring? && c.op.value.task.sending.None?
    ensures TaskStep(c, Throw) ==
      c.(op := Some(c.op.value.(state := Failed, task := Idle, owed := c.op.value.owed + [Runner])))
  {
  }

  lemma ReachFaults(c: Cell)
    requires c.job.ReachMessage? && c.op.Some? && !c.op.value.task.Idle? && !c.op.value.task.Starting?
    requires c.op.value.task.Restoring? ==> !c.op.value.task.copied
    ensures TaskStep(c, Throw) ==
      c.(op := Some(c.op.value.(state := Failed, task := Idle, owed := c.op.value.owed + [Runner])))
  {
  }

  lemma NotCancelled(c: Cell)
    requires c.op.Some? && !c.op.value.cancelRequested
    ensures TaskStep(c, ObserveCancel) == c
  {
  }

  // ---- One runner per entity ----

  predicate Exclusive(s: System) {
    forall a, b | a in s.cells && b in s.cells && IsRunning(s.cells[a]) && IsRunning(s.cells[b]) ::
      s.cells[a].entity == s.cells[b].entity ==> a == b
  }

  /** Another operation runs on the entity of operation id. */
  predicate Contended(s: System, id: OpId) {
    id in s.cells &&
    exists other | other in s.cells && other != id ::
      IsRunning(s.cells[other]) && s.cells[other].entity == s.cells[id].entity
  }

  /** The resume is accepted and puts the operation back to Running. */
  predicate ResumeRuns(s: System, id: OpId, targetResolves: bool) {
    id in s.cells && !s.gateTaken && s.cells[id].op.Some? && Resumable(s.cells[id].op.value.state)
    && (s.cells[id].job.ReachMessage? || targetResolves)
  }

  /** No event but Start and Resume puts an operation into Running, and none moves it to another entity. */
  predicate NoNewRunner(s: System, s': System) {
    s'.cells.Keys == s.cells.Keys
    && forall id :: id in s.cells ==>
         s'.cells[id].entity == s.cells[id].entity && (IsRunning(s'.cells[id]) ==> IsRunning(s.cells[id]))
  }

  lemma QuietKeepsExclusive(s: System, s': System)
    requires Exclusive(s) && NoNewRunner(s, s')
    ensures Exclusive(s')
  {
  }

  lemma TaskStartsNoRunner(c: Cell, held: Option<Entry>, lost: nat, e: TaskEvent)
    requires CellInv(c, held, lost)
    ensures TaskStep(c, e).entity == c.entity && (IsRunning(TaskStep(c, e)) ==> IsRunning(c))
  {
    if c.op.Some? {
      InvWorks(c, held, lost);
      if c.job.ReplayTo? {
        ReplayStateFollows(c, e); ReplayStepRecord(c, e); ReplayIdle(c, e);
      } else {
        ReachStateFollows(c, e); ReachStepRecord(c, e); ReachIdle(c, e);
      }
    }
  }

  lemma ReplayIdle(c: Cell, e: TaskEvent)
    requires c.op.Some? && c.job.ReplayTo?
    ensures c.op.value.task.Idle? ==> ReplayStep(c, c.op.value, e) == c
  {
  }

  lemma ReachIdle(c: Cell, e: TaskEvent)
    requires c.op.Some? && c.job.ReachMessage?
    ensures c.op.value.task.Idle? ==> ReachStep(c, c.op.value, e) == c
  {
  }

  lemma LandStartsNoRunner(s: System, ok: bool)
    ensures NoNewRunner(s, LandStep(s, ok))
  {
  }

  lemma CrashStartsNoRunner(s: System)
    ensures NoNewRunner(s, CrashStep(s))
  {
  }

  lemma TaskEventStartsNoRunner(s: System, id: OpId, e: TaskEvent)
    requires Inv(s)
    ensures NoNewRunner(s, Apply(s, Step(id, e)))
  {
    if id in s.cells { TaskStartsNoRunner(s.cells[id], HeldRow(s, id), s.lostWrites, e); }
  }

  /** One cell replaced by another on the same entity that does not start running. */
  lemma UpdateStartsNoRunner(s: System, id: OpId, c: Cell)
    requires id in s.cells && c.entity == s.cells[id].entity && (IsRunning(c) ==> IsRunning(s.cells[id]))
    ensures NoNewRunner(s, Update(s, id, c))
  {
  }

  lemma AcquireStartsNoRunner(s: System, id: OpId, k: nat)
    ensures NoNewRunner(s, AcquireStep(s, id, k))
  {
  }

  lemma SharingStartsNoRunner(s: System, e: Event)
    requires e.Borrow? || e.Take?
    ensures NoNewRunner(s, Apply(s, e))
  {
    if e.id in s.cells {
      UpdateStartsNoRunner(s, e.id, Borrowed(s.cells[e.id], e.n));
      UpdateStartsNoRunner(s, e.id, Taken(s.cells[e.id], e.n));
    }
  }

  lemma StepStartsNoRunner(s: System, e: Event)
    requires Inv(s) && !e.Start? && !e.Resume?
    ensures NoNewRunner(s, Apply(s, e))
  {
    match e
    case Step(id, task) => TaskEventStartsNoRunner(s, id, task);
    case Land(ok) => LandStartsNoRunner(s, ok);
    case Crash => CrashStartsNoRunner(s);
    case Acquire(id, k) => AcquireStartsNoRunner(s, id, k);
    case Capture(id, k) => if id in s.cells { UpdateStartsNoRunner(s, id, CaptureStep(s.cells[id], k)); }
    case LockExpires(id, n) => if id in s.cells { UpdateStartsNoRunner(s, id, ExpireStep(s.cells[id], n)); }
    case Borrow(_, _, _) => SharingStartsNoRunner(s, e);
    case Take(_, _, _) => SharingStartsNoRunner(s, e);
    case _ =>
  }

  /** With the gate free and a new id, a start leaves a running operation with that job on that entity if
      and only if no operation in state Running has that entity, whatever runs elsewhere; else it changes
      nothing. */
  lemma StartsIff(s: System, id: OpId, entity: Entity, job: Job)
    requires id !in s.cells && !s.gateTaken
    ensures var s' := Apply(s, Start(id, entity, job));
      var taken := exists other | other in s.cells && s.cells[other].op.Some? ::
        s.cells[other].op.value.state == Running && s.cells[other].entity == entity;
      && (taken ==> s' == s)
      && (!taken ==>
            && s'.cells.Keys == s.cells.Keys + {id}
            && (forall other :: other in s.cells ==> s'.cells[other] == s.cells[other])
            && s'.cells[id].entity == entity && s'.cells[id].job == job
            && s'.cells[id].op.Some? && s'.cells[id].op.value.state == Running)
  {
  }

  /** The same after any run: what other entities' operations have done and still do does not matter. */
  lemma StartsInRunIff(es: seq<Event>, id: OpId, entity: Entity, job: Job)
    requires id !in Execute(Initial(), es).cells && !Execute(Initial(), es).gateTaken
    ensures id in Execute(Initial(), es + [Start(id, entity, job)]).cells <==>
      var cells := Execute(Initial(), es).cells;
      forall other | other in cells && cells[other].op.Some? ::
        cells[other].op.value.state == Running ==> cells[other].entity != entity
  {
    ExecuteConcat(Initial(), es, [Start(id, entity, job)]);
    ExecuteOne(Execute(Initial(), es), Start(id, entity, job));
    StartsIff(Execute(Initial(), es), id, entity, job);
  }

  /** Start keeps one runner per entity unconditionally. */
  lemma StartKeepsExclusive(s: System, id: OpId, entity: Entity, job: Job)
    requires Exclusive(s)
    ensures Exclusive(StartStep(s, id, entity, job))
  {
  }

  /** Resume keeps it exactly when it starts no runner or nothing else runs on the entity. */
  lemma ResumeKeepsExclusiveIff(s: System, id: OpId, targetResolves: bool)
    requires Inv(s) && Exclusive(s)
    ensures Exclusive(ResumeStep(s, id, targetResolves)) <==> !(ResumeRuns(s, id, targetResolves) && Contended(s, id))
  {
    if ResumeRuns(s, id, targetResolves) && Contended(s, id) {
      assert ResumeStep(s, id, targetResolves) == ResumeStep(s, id, true);
      ContendedResumeBreaks(s, id);
    }
  }

  /** Operation 0 fails, operation 1 starts on the free entity, and the user resumes operation 0. */
  const ResumeBesideRunner: seq<Event> :=
    [Start(0, 0, Seven)] + Saving(0) + [Step(0, Throw), Start(1, 0, Seven)] + Saving(1) + [Resume(0, true)]

  lemma SecondStarts(c: Cell)
    requires c == TransferCell(Transferring({7}, None, {}), [], Running, Some(Entry(SavedRunning, {})), NoCopy)
    ensures Execute(Alone(c, false), [Step(0, Throw), Start(1, 0, Seven)]) ==
      System(map[0 := SevenCell(Failed, [Runner], []),
                 1 := Cell(0, Seven, Some(FreshOperation()), None, None, Untouched)], true, None, 0)
  {
    TwoSteps(Alone(c, false), Step(0, Throw), Start(1, 0, Seven));
    assert TaskStep(c, Throw) == SevenCell(Failed, [Runner], []) by { assert [] + [Runner] == [Runner]; }
  }

  lemma SecondRuns(s: System)
    requires s == System(map[0 := SevenCell(Failed, [Runner], []),
                             1 := Cell(0, Seven, Some(FreshOperation()), None, None, Untouched)], true, None, 0)
    ensures var s' := Execute(s, Saving(1));
      ResumeRuns(s', 0, true) && Contended(s', 0)
  {
    var es := Saving(1);
    assert es == [es[0]] + [es[1], es[2]];
    ExecuteConcat(s, [es[0]], [es[1], es[2]]);
    ExecuteOne(s, es[0]);
    var s1 := Apply(s, es[0]);
    assert s1.cells[1].op.value.waiting == [Write(Control, SavedRunning)];
    TwoSteps(s1, es[1], es[2]);
    assert IsRunning(Execute(s, es).cells[1]);
  }

  /** So the guard is needed: without it a run puts two runners on one entity. */
  lemma TwoRunnersOnOneEntity()
    ensures !Exclusive(Execute(Initial(), ResumeBesideRunner))
  {
    var start, middle := [Start(0, 0, Seven)] + Saving(0), [Step(0, Throw), Start(1, 0, Seven)];
    ExecuteConcat(Initial(), start + middle + Saving(1), [Resume(0, true)]);
    ExecuteConcat(Initial(), start + middle, Saving(1));
    ExecuteConcat(Initial(), start, middle);
    ExecuteConcat(Initial(), [Start(0, 0, Seven)], Saving(0));
    TransferStarts();
    SecondStarts(TransferCell(Transferring({7}, None, {}), [], Running, Some(Entry(SavedRunning, {})), NoCopy));
    SecondRuns(Execute(Initial(), start + middle));
    var s := Execute(Initial(), start + middle + Saving(1));
    ExecuteOne(s, Resume(0, true));
    ContendedResumeBreaks(s, 0);
  }

  lemma ContendedResumeBreaks(s: System, id: OpId)
    requires ResumeRuns(s, id, true) && Contended(s, id)
    ensures !Exclusive(ResumeStep(s, id, true))
  {
    var other :| other in s.cells && other != id && IsRunning(s.cells[other])
      && s.cells[other].entity == s.cells[id].entity;
    assert IsRunning(ResumeStep(s, id, true).cells[other]) && IsRunning(ResumeStep(s, id, true).cells[id]);
  }

  predicate ResumesAlone(s: System, e: Event) {
    e.Resume? ==> !(ResumeRuns(s, e.id, e.targetResolves) && Contended(s, e.id))
  }

  /** Over whole runs: one runner per entity as long as every resume finds the entity free. */
  lemma {:induction false} OneRunnerPerEntity(es: seq<Event>)
    requires forall i :: 0 <= i < |es| ==> ResumesAlone(Execute(Initial(), es[..i]), es[i])
    ensures Exclusive(Execute(Initial(), es))
    decreases |es|
  {
    if es != [] {
      var before, e := es[..|es| - 1], es[|es| - 1];
      forall i | 0 <= i < |before| ensures ResumesAlone(Execute(Initial(), before[..i]), before[i]) {
        assert before[..i] == es[..i];
      }
      OneRunnerPerEntity(before);
      RunKeeps(before);
      var s := Execute(Initial(), before);
      match e
      case Start(id, entity, job) => StartKeepsExclusive(s, id, entity, job);
      case Resume(id, resolves) => ResumeKeepsExclusiveIff(s, id, resolves);
      case _ => StepStartsNoRunner(s, e); QuietKeepsExclusive(s, Apply(s, e));
    }
  }

  // ---- What a replay accounts for ----

  /** A completed replay has every requested sequence either confirmed or found missing by its final
      pass, and never both, in every run. */
  lemma CompletedAccountsForAll(es: seq<Event>, id: OpId)
    requires id in Execute(Initial(), es).cells
    ensures var c := Execute(Initial(), es).cells[id];
      c.job.ReplayTo? && c.op.Some? && c.op.value.state == Completed ==>
        c.job.requested == c.op.value.processed + c.op.value.missing && c.op.value.processed !! c.op.value.missing
  {
    RunKeeps(es);
    var s := Execute(Initial(), es);
    assert CellInv(s.cells[id], HeldRow(s, id), s.lostWrites);
  }

  /** A pass that ends Failed by count leaves exactly the failed and the never-found sequences for the
      next resume to attempt. */
  lemma FailedPassResumesTheRest(es: seq<Event>, id: OpId)
    requires var s := Execute(Initial(), es);
      id in s.cells && s.cells[id].op.Some? && s.cells[id].op.value.task.Transferring?
      && s.cells[id].op.value.task.sending == None && s.cells[id].op.value.task.failed != {}
    ensures var c := Execute(Initial(), es).cells[id];
      var t, o' := c.op.value.task, ReplayStep(c, c.op.value, Finish).op.value;
      o'.state == Failed && Launched(c.job, o'.(task := Starting(true))) == Transferring(t.failed + t.wanted, None, {})
  {
    RunKeeps(es);
    var s := Execute(Initial(), es);
    var c := s.cells[id];
    assert CellInv(c, HeldRow(s, id), s.lostWrites);
    assert c.job.requested - c.op.value.processed == c.op.value.task.failed + c.op.value.task.wanted;
  }

  // ---- The crash marker ----

  /** Unless a journal save has failed, no operation that touched the broker is forgotten by a restart,
      at whatever moment it happens; one still in progress comes back resumable. */
  lemma CrashMarker(es: seq<Event>, id: OpId)
    requires var s := Execute(Initial(), es);
      id in s.cells && s.lostWrites == 0 && s.cells[id].broker != Untouched
    ensures var s := Execute(Initial(), es);
      && CrashStep(s).cells[id].op.Some?
      && (IsRunning(s.cells[id]) ==> Resumable(CrashStep(s).cells[id].op.value.state))
  {
    RunKeeps(es);
    var s := Execute(Initial(), es);
    assert CellInv(s.cells[id], HeldRow(s, id), s.lostWrites);
  }
}
