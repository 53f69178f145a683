/** The service object itself: each method is one section of the service that runs under its gate, or
    the whole background task of a replay, updating the operation tables in place. */
module OperationService {
  import opened Wrappers
  import opened Operations
  import opened ReplayPass

  class SbOperationService {
    var cells: map<OpId, Cell>
    var gateTaken: bool
    var held: Option<Held>
    var lostWrites: nat

    function Model(): System
      reads this
    {
      System(cells, gateTaken, held, lostWrites)
    }

    constructor ()
      ensures Model() == Initial()
    {
      cells, gateTaken, held, lostWrites := map[], false, None, 0;
    }

    /** Is any operation running on this entity? */
    method HasRunning(entity: Entity) returns (found: bool)
      ensures found <==> exists id | id in cells && cells[id].op.Some? ::
        cells[id].op.value.state == Running && cells[id].entity == entity
    {
      var ids := cells.Keys;
      while ids != {}
        invariant ids <= cells.Keys
        invariant forall id :: id in cells && id !in ids && IsRunning(cells[id]) ==> cells[id].entity != entity
        decreases ids
      {
        var id :| id in ids;
        if IsRunning(cells[id]) && cells[id].entity == entity {
          return true;
        }
        ids := ids - {id};
      }
      return false;
    }

    /** Starts an operation unless one runs on the entity. The caller holds the gate. */
    method TryStart(id: OpId, entity: Entity, job: Job) returns (started: bool)
      requires id !in cells && !gateTaken
      modifies this
      ensures Model() == StartStep(old(Model()), id, entity, job)
      ensures started <==> forall other | other in old(cells) && old(cells[other]).op.Some? ::
        old(cells[other]).op.value.state == Running ==> old(cells[other]).entity != entity
      ensures started <==> id in cells
      ensures started ==> cells[id].entity == entity && cells[id].job == job && IsRunning(cells[id])
    {
      var busy := HasRunning(entity);
      if busy {
        return false;
      }
      cells := cells[id := Cell(entity, job, Some(FreshOperation()), None, None, Untouched)];
      gateTaken := true;
      return true;
    }

    method Cancel(id: OpId) returns (state: Option<State>)
      modifies this
      ensures Model() == CancelStep(old(Model()), id)
      ensures state == if id in old(cells) && IsRunning(old(cells[id])) then Some(Running) else None
    {
      if id !in cells || !IsRunning(cells[id]) {
        return None;
      }
      Store(id, cells[id].op.value.(cancelRequested := true));
      return Some(Running);
    }

    /** Re-runs the resumable phase, or fails the operation when its replay target is gone. */
    method Resume(id: OpId, targetResolves: bool) returns (state: Option<State>)
      requires !gateTaken
      modifies this
      ensures Model() == ResumeStep(old(Model()), id, targetResolves)
      ensures state.Some? <==>
        id in old(cells) && old(cells[id]).op.Some?
        && old(cells[id]).op.value.state in {Interrupted, Failed, State.Cancelled}
      ensures state.Some? ==> state == Some(cells[id].op.value.state)
    {
      if id !in cells || cells[id].op.None? || !Resumable(cells[id].op.value.state) {
        return None;
      }
      var o := cells[id].op.value;
      gateTaken := true;
      if cells[id].job.ReplayTo? && !targetResolves {
        Store(id, Owe(o.(state := Failed), Control));
        return Some(Failed);
      }
      o := o.(state := Running);
      o := o.(task := Starting(true), cancelRequested := false);
      Store(id, Owe(o, Control));
      return Some(Running);
    }

    method Dismiss(id: OpId) returns (state: Option<State>)
      requires !gateTaken
      modifies this
      ensures Model() == DismissStep(old(Model()), id)
      ensures state == if id in old(cells) && old(cells[id]).op.Some?
                          && old(cells[id]).op.value.state in {Interrupted, Failed, State.Cancelled}
                       then Some(Dismissed) else None
    {
      if id !in cells || cells[id].op.None? || !Resumable(cells[id].op.value.state) {
        return None;
      }
      gateTaken := true;
      Store(id, Owe(cells[id].op.value.(state := Dismissed), Control));
      return Some(Dismissed);
    }

    /** The start of a journal write: the status is read here, before the persist gate. */
    method BeginPersist(id: OpId, index: nat)
      requires id in cells && cells[id].op.Some? && index < |cells[id].op.value.owed|
      modifies this`cells
      ensures cells == old(cells)[id := CaptureStep(old(cells[id]), index)]
    {
      var o := cells[id].op.value;
      var writer, status := o.owed[index], SavedRunning;
      match o.state {
        case Completed => status := SavedCompleted;
        case Cancelled => status := SavedCancelled;
        case Failed => status := SavedFailed;
        case Dismissed => status := SavedDismissed;
        case _ =>
      }
      o := o.(owed := o.owed[..index] + o.owed[index + 1..]);
      Store(id, o.(waiting := o.waiting + [Write(writer, status)]));
    }

    /** The write enters the free persist gate and snapshots the skip-set. */
    method EnterPersistGate(id: OpId, index: nat)
      requires id in cells && cells[id].op.Some? && index < |cells[id].op.value.waiting| && held.None?
      modifies this`cells, this`held
      ensures Model() == AcquireStep(old(Model()), id, index)
    {
      var o := cells[id].op.value;
      held := Some(Held(id, o.waiting[index].writer, Entry(o.waiting[index].status, o.processed)));
      Store(id, o.(waiting := o.waiting[..index] + o.waiting[index + 1..]));
    }

    /** The repository replaces its row, the save succeeds or fails, and the gate is released. */
    method LeavePersistGate(ok: bool)
      requires held.Some? && held.value.id in cells
      modifies this
      ensures Model() == LandStep(old(Model()), ok)
    {
      var h := held.value;
      ReplaceRow(h);
      if ok {
        cells := map id | id in cells :: cells[id].(disk := cells[id].cached);
      } else {
        lostWrites := lostWrites + 1;
      }
      if h.writer == Control {
        gateTaken := false;
      }
      held := None;
    }

    /** The cached row is replaced, and the operation that waited for the write goes on. */
    method ReplaceRow(h: Held)
      requires h.id in cells
      modifies this`cells
      ensures cells == old(cells)[h.id := Released(old(cells[h.id]).(cached := Some(h.entry)), h.writer)]
    {
      cells := cells[h.id := cells[h.id].(cached := Some(h.entry))];
      if cells[h.id].op.Some? {
        var o := cells[h.id].op.value;
        if h.writer == Flush {
          Store(h.id, o.(flushing := false));
        } else if h.writer == Control && o.task.Starting? {
          Store(h.id, o.(task := Launched(cells[h.id].job, o)));
        }
      }
    }

    method Store(id: OpId, o: Operation)
      requires id in cells
      modifies this`cells
      ensures cells == old(cells)[id := old(cells[id]).(op := Some(o))]
    {
      cells := cells[id := cells[id].(op := Some(o))];
    }

    /** A transfer between two messages. */
    predicate Transfers(id: OpId)
      reads this
    {
      id in cells && AtWork(cells[id], WantedIn(cells[id]), CancelIn(cells[id]))
    }

    /** The inline progress callback: the sequence in flight is confirmed, and every 25th confirmation
        asks for a flush unless one is in flight. */
    method OnProgress(id: OpId)
      requires id in cells && cells[id].op.Some? && cells[id].job.ReplayTo?
      requires cells[id].op.value.task.Transferring? && cells[id].op.value.task.sending.Some?
      modifies this`cells
      ensures cells == old(cells)[id := TaskStep(old(cells[id]), Confirm)]
      ensures var o, o' := old(cells[id]).op.value, cells[id].op.value;
        && o'.processed == o.processed + {o.task.sending.value}
        && o'.owed == if |o'.processed| % 25 == 0 && !o.flushing then o.owed + [Flush] else o.owed
    {
      var c := cells[id];
      var o := c.op.value;
      var n := o.task.sending.value;
      o := o.(task := o.task.(sending := None), processed := o.processed + {n});
      var flush := |o.processed| % FlushEvery == 0;
      if flush && !o.flushing {
        o := Owe(o.(flushing := true), Flush);
      }
      assert ReplayStep(c, c.op.value, Confirm) == c.(op := Some(o));
      Store(id, o);
    }

    /** The target accepted a copy; the source message is not settled yet. */
    method Sent(id: OpId, n: int)
      requires Transfers(id) && n in WantedIn(cells[id])
      modifies this`cells
      ensures cells == old(cells)[id := TaskStep(old(cells[id]), Send(n))]
    {
      var c := cells[id];
      var task := c.op.value.task.(wanted := c.op.value.task.wanted - {n}, sending := Some(n));
      cells := cells[id := c.(broker := c.broker.(sent := c.broker.sent[n := c.broker.sent[n] + 1]))];
      Store(id, c.op.value.(task := task));
    }

    /** A message is counted as failed: its send was refused, or its settle failed after the send. */
    method CountFailed(id: OpId, n: int, afterSend: bool)
      requires id in cells && cells[id].op.Some? && cells[id].job.ReplayTo? && cells[id].op.value.task.Transferring?
      requires if afterSend then cells[id].op.value.task.sending == Some(n)
               else cells[id].op.value.task.sending.None? && n in cells[id].op.value.task.wanted
      modifies this`cells
      ensures cells == old(cells)[id := TaskStep(old(cells[id]), if afterSend then SettleFault else Reject(n))]
    {
      var c := cells[id];
      var o := c.op.value;
      var left := if afterSend then o.task.wanted else o.task.wanted - {n};
      o := o.(task := Transferring(left, None, o.task.failed + {n}));
      assert ReplayStep(c, c.op.value, if afterSend then SettleFault else Reject(n)) == c.(op := Some(o));
      Store(id, o);
    }

    /** The pass is over: the state is set, the missing set replaced when the pass ran to its end, and the
        closing write asked for. */
    method Close(id: OpId, ending: TaskEvent)
      requires id in cells && cells[id].op.Some? && cells[id].job.ReplayTo? && cells[id].op.value.task.Transferring?
      requires ending == Finish || ending == Throw || ending == ObserveCancel
      requires ending == ObserveCancel ==> cells[id].op.value.cancelRequested
      requires ending != ObserveCancel ==> cells[id].op.value.task.sending.None?
      modifies this`cells
      ensures cells == old(cells)[id := TaskStep(old(cells[id]), ending)]
    {
      var c := cells[id];
      var o := c.op.value;
      var state := if ending == ObserveCancel then Cancelled else Failed;
      if ending == Finish {
        o := o.(missing := o.task.wanted);
        if o.task.failed == {} {
          state := Completed;
        }
      }
      o := o.(state := state, task := Idle);
      o := o.(owed := o.owed + [Runner]);
      assert ReplayStep(c, c.op.value, ending) == c.(op := Some(o));
      Store(id, o);
    }

    /** One wanted message: sent and settled, refused, or sent with its settle failing. */
    method Transfer(id: OpId, n: int, outcome: Outcome)
      requires Transfers(id) && n in WantedIn(cells[id])
      modifies this`cells
      ensures cells == old(cells)[id := HearOne(old(cells[id]), Delivered(n, outcome))]
    {
      ghost var c := cells[id];
      if outcome == SendRefused {
        CountFailed(id, n, false);
        TaskRunOne(c, Reject(n));
        return;
      }
      Sent(id, n);
      if outcome == Accepted {
        OnProgress(id);
        TaskRunTwo(c, Send(n), Confirm);
      } else {
        CountFailed(id, n, true);
        TaskRunTwo(c, Send(n), SettleFault);
      }
    }

    /** One message of a receive batch; one that is not wanted is released. */
    method OnMessage(id: OpId, n: int, outcome: Outcome, confirmed: seq<int>, failedCount: nat)
      returns (confirmed': seq<int>, failedCount': nat)
      requires Transfers(id)
      modifies this`cells
      ensures cells == old(cells)[id := HearOne(old(cells[id]), Delivered(n, outcome))]
      ensures confirmed' == confirmed + if n in old(WantedIn(cells[id])) && outcome == Accepted then [n] else []
      ensures failedCount' == failedCount + if n in old(WantedIn(cells[id])) && outcome != Accepted then 1 else 0
    {
      confirmed', failedCount' := confirmed, failedCount;
      if n in cells[id].op.value.task.wanted {
        Transfer(id, n, outcome);
        if outcome == Accepted {
          confirmed' := confirmed + [n];
        } else {
          failedCount' := failedCount + 1;
        }
      }
    }

    /** Anything else a batch can hold: a fault or an observed cancel ends the pass. */
    method OnInterrupt(id: OpId, signal: Signal) returns (ended: bool)
      requires Transfers(id) && !signal.Delivered?
      modifies this`cells
      ensures cells == old(cells)[id := HearOne(old(cells[id]), signal)]
      ensures ended <==> Stops(signal, old(CancelIn(cells[id])))
    {
      ghost var c := cells[id];
      ended := signal.Fault? || cells[id].op.value.cancelRequested;
      if signal.Fault? {
        Close(id, Throw);
        TaskRunOne(c, Throw);
      } else if ended {
        if signal.CancelledInCall? && signal.n in cells[id].op.value.task.wanted {
          Sent(id, signal.n);
          Close(id, ObserveCancel);
          TaskRunTwo(c, Send(signal.n), ObserveCancel);
        } else {
          Close(id, ObserveCancel);
          TaskRunOne(c, ObserveCancel);
        }
      }
    }

    /** One signal of a batch. */
    method OnSignal(id: OpId, signal: Signal, confirmed: seq<int>, failedCount: nat)
      returns (ended: bool, confirmed': seq<int>, failedCount': nat)
      requires Transfers(id)
      modifies this`cells
      ensures OnlyAt(old(cells), cells, id)
      ensures Pass(cells[id], confirmed', failedCount')
        == ListenOne(Pass(old(cells[id]), confirmed, failedCount), signal)
      ensures ended == Stops(signal, old(CancelIn(cells[id])))
    {
      ended, confirmed', failedCount' := false, confirmed, failedCount;
      if signal.Delivered? {
        confirmed', failedCount' := OnMessage(id, signal.n, signal.outcome, confirmed, failedCount);
      } else {
        ended := OnInterrupt(id, signal);
        assert confirmed + [] == confirmed;
      }
    }

    /** One receive batch: its signals up to the one that ends the pass, and no others. */
    method OnBatch(id: OpId, received: seq<Signal>, confirmed: seq<int>, failedCount: nat)
      returns (ended: bool, confirmed': seq<int>, failedCount': nat, ghost batch: seq<Signal>)
      requires Transfers(id)
      modifies this`cells
      ensures batch == Cut(received, old(CancelIn(cells[id]))) && OnlyAt(old(cells), cells, id)
      ensures Pass(cells[id], confirmed', failedCount') == Listen(Pass(old(cells[id]), confirmed, failedCount), batch)
      ensures ended <==> Stopped(batch, old(CancelIn(cells[id])))
    {
      ended, confirmed', failedCount', batch := false, confirmed, failedCount, [];
      ghost var start, cancel := Pass(cells[id], confirmed, failedCount), CancelIn(cells[id]);
      var m := 0;
      while m < |received|
        invariant 0 <= m <= |received| && !ended && batch == received[..m] && OnlyAt(old(cells), cells, id)
        invariant Pass(cells[id], confirmed', failedCount') == Listen(start, batch)
        invariant Uninterrupted(batch, cancel)
      {
        ListenNext(start, cancel, batch, received[m]);
        ended, confirmed', failedCount' := OnSignal(id, received[m], confirmed', failedCount');
        batch := batch + [received[m]];
        if ended {
          CutsHere(received, cancel, m);
          return;
        }
        m := m + 1;
      }
      CutsNowhere(received, cancel);
    }

    /** Receives until nothing is wanted, a receive brings nothing, or a signal ends the pass. */
    method ReceiveBatches(id: OpId, batches: seq<seq<Signal>>)
      returns (ended: bool, confirmed: seq<int>, failedCount: nat, ghost heard: seq<Signal>)
      requires Transfers(id)
      modifies this`cells
      ensures heard == Heard(old(WantedIn(cells[id])), old(CancelIn(cells[id])), batches)
        && OnlyAt(old(cells), cells, id)
      ensures Pass(cells[id], confirmed, failedCount) == Listen(Pass(old(cells[id]), [], 0), heard)
      ensures ended <==> Stopped(heard, old(CancelIn(cells[id])))
    {
      ghost var start, wanted, cancel := Pass(cells[id], [], 0), WantedIn(cells[id]), CancelIn(cells[id]);
      ended, confirmed, failedCount, heard := false, [], 0, [];
      var b := 0;
      while cells[id].op.value.task.wanted != {} && b < |batches| && batches[b] != []
        invariant 0 <= b <= |batches| && OnlyAt(old(cells), cells, id) && !ended
        invariant Pass(cells[id], confirmed, failedCount) == Listen(start, heard)
        invariant AtWork(cells[id], WantedAfter(wanted, heard), cancel) && Uninterrupted(heard, cancel)
        invariant Heard(wanted, cancel, batches) == heard + Heard(WantedAfter(wanted, heard), cancel, batches[b..])
        decreases |batches| - b
      {
        NextBatch(start, wanted, cancel, heard, batches, b);
        ghost var batch := Cut(batches[b], cancel);
        assert CancelIn(cells[id]) == cancel;
        ghost var read;
        ended, confirmed, failedCount, read := OnBatch(id, batches[b], confirmed, failedCount);
        assert read == batch;
        heard := heard + batch;
        if ended {
          return;
        }
        b := b + 1;
      }
      LastBatch(wanted, cancel, heard, batches, b);
    }

    /** A whole replay pass with nothing else running. What it does is fixed by what the broker's receives
        bring: the cell ends as ReplayPass.PassCell says for them. It attempts only requested sequences not
        yet confirmed, confirms each at most once, and is Completed if and only if nothing ended it early and
        no wanted message was refused; the missing set is then the wanted sequences no message had. */
    method RunReplay(id: OpId, batches: seq<seq<Signal>>) returns (confirmed: seq<int>, failedCount: nat)
      requires Transfers(id)
      requires cells[id].op.value.task == Transferring(cells[id].job.requested - cells[id].op.value.processed, None, {})
      modifies this`cells
      ensures OnlyAt(old(cells), cells, id)
      ensures cells[id] == PassCell(old(cells[id]), batches)
      ensures confirmed
        == Confirms(old(WantedIn(cells[id])), Heard(old(WantedIn(cells[id])), old(CancelIn(cells[id])), batches))
      ensures failedCount
        == |Fails(old(WantedIn(cells[id])), Heard(old(WantedIn(cells[id])), old(CancelIn(cells[id])), batches))|
      ensures PassReport(old(cells[id]), batches, cells[id], confirmed, failedCount)
    {
      ghost var c := cells[id];
      ghost var heard;
      var ended: bool;
      ended, confirmed, failedCount, heard := ReceiveBatches(id, batches);
      HeardShape(WantedIn(c), CancelIn(c), batches);
      Listens(c, WantedIn(c), CancelIn(c), heard, [], 0);
      ListensToCell(Pass(c, [], 0), heard);
      assert [] + Confirms(WantedIn(c), heard) == Confirms(WantedIn(c), heard);
      if !ended {
        Proceeds(c, WantedIn(c), CancelIn(c), heard);
        Close(id, Finish);
      }
      PassTallied(c, WantedIn(c), CancelIn(c), batches);
    }

    /** The in-memory record of one saved row: a row left running was interrupted. Only the state, the
        skip-set and the missing set, of which the row has the size, survive. */
    method Materialize(row: Entry, missing: set<int>) returns (o: Operation)
      ensures o.state == StateOf(row.status) && o.processed == row.processed && o.missing == missing
      ensures o == Operation(o.state, o.processed, o.missing, false, false, Idle, [], [])
    {
      var state := Completed;
      match row.status {
        case SavedRunning => state := Interrupted;
        case SavedCancelled => state := Cancelled;
        case SavedFailed => state := Failed;
        case SavedDismissed => state := Dismissed;
        case _ =>
      }
      o := Operation(state, {}, missing, false, false, Idle, [], []);
      if row.processed != {} {
        o := o.(processed := o.processed + row.processed);
      }
    }

    /** A restarted process loads the journal and materializes an operation for every row, one at a time. */
    method Restart()
      modifies this
      ensures Model() == CrashStep(old(Model()))
    {
      var left := cells.Keys;
      ghost var before := cells;
      while left != {}
        invariant left <= before.Keys && cells.Keys == before.Keys && lostWrites == old(lostWrites)
        invariant forall id :: id in before ==> cells[id] == if id in left then before[id] else Recovered(before[id])
        decreases left
      {
        var id :| id in left;
        var row := cells[id].disk;
        if row.Some? {
          var o := Materialize(row.value, if cells[id].op.Some? then cells[id].op.value.missing else {});
          cells := cells[id := cells[id].(op := Some(o), cached := row)];
        } else {
          cells := cells[id := cells[id].(op := None, cached := row)];
        }
        left := left - {id};
      }
      gateTaken, held := false, None;
      assert cells == (map id | id in before :: Recovered(before[id]));
    }
  }

  /** Every other operation is as it was. */
  predicate OnlyAt(a: map<OpId, Cell>, b: map<OpId, Cell>, id: OpId) {
    id in a && b.Keys == a.Keys && forall other :: other in a && other != id ==> b[other] == a[other]
  }

  /** The next batch, when something is wanted and the receive is not empty. */
  lemma HeardUnrolls(left: set<int>, cancel: bool, batches: seq<seq<Signal>>, b: nat)
    requires b < |batches| && batches[b] != [] && left != {}
    ensures var batch := Cut(batches[b], cancel);
      Heard(left, cancel, batches[b..])
      == if Stopped(batch, cancel) then batch else batch + Heard(WantedAfter(left, batch), cancel, batches[b + 1..])
  {
    assert batches[b..][0] == batches[b] && batches[b..][1..] == batches[b + 1..];
  }

  /** One more batch: the pass is over with it, or goes on behind it. */
  lemma NextBatch(start: Pass, wanted: set<int>, cancel: bool, heard: seq<Signal>, batches: seq<seq<Signal>>, b: nat)
    requires b < |batches| && batches[b] != [] && WantedAfter(wanted, heard) != {}
    requires AtWork(start.cell, wanted, cancel) && Uninterrupted(heard, cancel)
    requires Heard(wanted, cancel, batches) == heard + Heard(WantedAfter(wanted, heard), cancel, batches[b..])
    ensures var batch := Cut(batches[b], cancel); var more := heard + batch;
      && Listen(start, more) == Listen(Listen(start, heard), batch)
      && (Stopped(batch, cancel) ==> Heard(wanted, cancel, batches) == more && Stopped(more, cancel))
      && (!Stopped(batch, cancel) ==>
            && Heard(wanted, cancel, batches) == more + Heard(WantedAfter(wanted, more), cancel, batches[b + 1..])
            && Uninterrupted(more, cancel) && AtWork(Listen(start, more).cell, WantedAfter(wanted, more), cancel))
  {
    var batch := Cut(batches[b], cancel);
    HeardUnrolls(WantedAfter(wanted, heard), cancel, batches, b);
    ListenConcat(start, heard, batch);
    if Stopped(batch, cancel) {
      assert (heard + batch)[|heard + batch| - 1] == batch[|batch| - 1];
    } else {
      WantedConcat(wanted, heard, batch);
      Associates(heard, batch, Heard(WantedAfter(wanted, heard + batch), cancel, batches[b + 1..]));
      CutShape(batches[b], cancel);
      UninterruptedConcat(heard, batch, cancel);
      ListensAtWork(start, wanted, cancel, heard + batch);
    }
  }

  /** Nothing more is heard. */
  lemma LastBatch(wanted: set<int>, cancel: bool, heard: seq<Signal>, batches: seq<seq<Signal>>, b: nat)
    requires b <= |batches| && (WantedAfter(wanted, heard) == {} || b == |batches| || batches[b] == [])
      && Uninterrupted(heard, cancel)
    requires Heard(wanted, cancel, batches) == heard + Heard(WantedAfter(wanted, heard), cancel, batches[b..])
    ensures Heard(wanted, cancel, batches) == heard && !Stopped(heard, cancel)
  {
    assert heard + [] == heard;
  }

  /** What a finished pass reports: the tally of its confirmations, Completed exactly when nothing ended it
      early and nothing wanted was refused, and then the sequences no message had as missing. */
  ghost predicate PassReport(c: Cell, batches: seq<seq<Signal>>, now: Cell, confirmed: seq<int>, failedCount: nat) {
    var wanted, cancel := WantedIn(c), CancelIn(c);
    var heard := Heard(wanted, cancel, batches);
    && c.op.Some? && Tallied(c, now, confirmed) && now.op.value.task.Idle?
    && (now.op.value.state == Completed <==> !Stopped(heard, cancel) && RefusedOf(wanted, heard) == {})
    && (now.op.value.state == Completed ==> failedCount == 0)
    && now.op.value.missing == (if Stopped(heard, cancel) then c.op.value.missing else UnheardOf(wanted, heard))
  }

  /** The confirmed messages were requested, not confirmed before, all different, and are exactly what the
      skip-set gained. */
  ghost predicate Tallied(start: Cell, now: Cell, confirmed: seq<int>) {
    start.op.Some? && now.op.Some? && start.job.ReplayTo?
    && now.op.value.processed == start.op.value.processed + (set n | n in confirmed)
    && (forall n :: n in confirmed ==> n in start.job.requested && n !in start.op.value.processed)
    && (forall i, j :: 0 <= i < j < |confirmed| ==> confirmed[i] != confirmed[j])
  }

  /** A pass over what was requested and not confirmed yet: what it confirms and how it ends. */
  lemma PassTallied(c: Cell, wanted: set<int>, cancel: bool, batches: seq<seq<Signal>>)
    requires AtWork(c, wanted, cancel) && c.op.value.task.failed == {}
      && wanted == c.job.requested - c.op.value.processed
    ensures var heard := Heard(wanted, cancel, batches);
      PassReport(c, batches, PassCell(c, batches), Confirms(wanted, heard), |Fails(wanted, heard)|)
  {
    var heard := Heard(wanted, cancel, batches);
    PassMeans(c, wanted, cancel, batches);
    ConfirmsAreAccepted(wanted, heard);
    FailsAreRefused(wanted, heard);
  }

  lemma ConfirmsAreAccepted(wanted: set<int>, heard: seq<Signal>)
    ensures (set n | n in Confirms(wanted, heard)) == AcceptedOf(wanted, heard)
    ensures Distinct(Confirms(wanted, heard)) && forall n :: n in Confirms(wanted, heard) ==> n in wanted
  {
    EachOnce(wanted, heard);
    forall n
      ensures n in Confirms(wanted, heard) <==> n in AcceptedOf(wanted, heard)
    {
      FirstDecides(wanted, heard, n);
    }
  }

  lemma FailsAreRefused(wanted: set<int>, heard: seq<Signal>)
    ensures RefusedOf(wanted, heard) == {} ==> Fails(wanted, heard) == []
  {
    if Fails(wanted, heard) != [] {
      FirstDecides(wanted, heard, Fails(wanted, heard)[0]);
      assert Fails(wanted, heard)[0] in RefusedOf(wanted, heard);
    }
  }
}
