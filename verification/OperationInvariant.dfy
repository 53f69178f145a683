/** What every step of the operation machine keeps, one cell at a time. */
module OperationInvariant {
  import opened Wrappers
  import opened Operations

  /** A row that says the operation is over tells the truth and carries the whole skip-set. */
  predicate Honest(row: Entry, o: Operation) {
    row.status == SavedCompleted || row.status == SavedDismissed ==>
      o.state == StateOf(row.status) && row.processed == o.processed
  }

  predicate HonestWrites(o: Operation) {
    forall i :: 0 <= i < |o.waiting|
                && (o.waiting[i].status == SavedCompleted || o.waiting[i].status == SavedDismissed) ==>
      o.state == StateOf(o.waiting[i].status)
  }

  /** disk <= cached <= the row in the persist gate <= memory, as skip-sets. */
  predicate JournalOrdered(c: Cell, held: Option<Entry>) {
    && (c.disk.Some? ==> c.cached.Some? && c.disk.value.processed <= c.cached.value.processed)
    && (c.op.None? ==> c.cached.None? && held.None?)
    && (c.op.Some? && c.cached.Some? ==> c.cached.value.processed <= c.op.value.processed)
    && (c.op.Some? && held.Some? ==> held.value.processed <= c.op.value.processed)
    && (c.cached.Some? && held.Some? ==> c.cached.value.processed <= held.value.processed)
  }

  predicate JournalHonest(c: Cell, held: Option<Entry>) {
    c.op.Some? ==>
      && HonestWrites(c.op.value)
      && (c.disk.Some? ==> Honest(c.disk.value, c.op.value))
      && (c.cached.Some? ==> Honest(c.cached.value, c.op.value))
      && (held.Some? ==> Honest(held.value, c.op.value))
  }

  /** Every requested sequence is in exactly one place while a transfer runs. */
  predicate Partitioned(requested: set<int>, processed: set<int>, wanted: set<int>, sending: Option<int>,
      failed: set<int>)
  {
    && requested == processed + wanted + failed + (if sending.Some? then {sending.value} else {})
    && processed !! wanted && processed !! failed && wanted !! failed
    && (sending.Some? ==> sending.value !in processed && sending.value !in wanted && sending.value !in failed)
  }

  predicate TaskFits(job: Job, op: Option<Operation>) {
    op.Some? ==>
      var o := op.value;
      && (o.state == Running <==> !o.task.Idle?)
      && o.processed <= Requested(job)
      && (o.task.Transferring? ==>
            job.ReplayTo? && Partitioned(job.requested, o.processed, o.task.wanted, o.task.sending, o.task.failed))
      && (o.task.Parking? || o.task.Reached? || o.task.Collecting? || o.task.Restoring? ==> job.ReachMessage?)
      && (o.state == Completed && job.ReplayTo? ==>
            job.requested == o.processed + o.missing && o.processed !! o.missing)
  }

  /** Stamped messages, their copies and the target: what reach-message owes the queue. */
  predicate NothingLost(b: Broker) {
    && b.stamped <= b.parked
    && b.locked <= b.stamped
    && b.taken <= b.parked
    && (forall n :: n in b.parked ==> n in b.stamped || n in b.tail || n in b.taken)
    && b.acted <= 1
  }

  predicate RestoreFits(job: Job, b: Broker, t: Task)
    requires job.ReachMessage? && t.Restoring?
  {
    && (t.copied ==> t.todo != [] && t.pass != [] && t.pass[|t.pass| - 1] == t.todo[0] && t.todo[0] in b.tail)
    && b.unseen <= b.stamped
    && (forall n :: n in b.unseen ==> n !in t.todo)
    && (t.failures == 0 ==> forall n :: n in b.stamped ==> n in b.unseen || n in t.todo)
    && RestoreOrdered(job, t.pass + if t.copied then t.todo[1..] else t.todo)
    && |t.pass| <= |b.tail| && b.tail[|b.tail| - |t.pass|..] == t.pass
  }

  predicate BrokerFits(job: Job, op: Option<Operation>, b: Broker) {
    if job.ReplayTo? then
      b == Untouched.(sent := b.sent)
    else
      && b.sent == multiset{}
      && NothingLost(b)
      && (op.Some? ==>
            var o := op.value;
            && (o.task == Starting(false) ==> b == Untouched)
            && (o.task.Parking? ==> b.acted == 0)
            && (o.task.Restoring? ==> RestoreFits(job, b, o.task))
            && (o.state == Completed ==> b.stamped == b.unseen))
  }

  /** Crash marker: unless a save has failed, nothing touches the broker before its row is on disk. */
  predicate Marked(c: Cell, lostWrites: nat) {
    lostWrites == 0 && c.disk.None? ==>
      c.broker == Untouched && (c.op.Some? ==> c.op.value.task == Starting(false))
  }

  predicate CellInv(c: Cell, held: Option<Entry>, lostWrites: nat) {
    && JournalOrdered(c, held)
    && JournalHonest(c, held)
    && TaskFits(c.job, c.op)
    && BrokerFits(c.job, c.op, c.broker)
    && Marked(c, lostWrites)
  }

  function HeldRow(s: System, id: OpId): Option<Entry> {
    if s.held.Some? && s.held.value.id == id then Some(s.held.value.entry) else None
  }

  ghost predicate Inv(s: System) {
    && (s.held.Some? ==> s.held.value.id in s.cells)
    && forall id :: id in s.cells ==> CellInv(s.cells[id], HeldRow(s, id), s.lostWrites)
  }

  // ---- What a step leaves alone ----

  /** The parts of a cell that only a landing write or a restart can change. */
  predicate SameRecord(c: Cell, c': Cell) {
    c'.entity == c.entity && c'.job == c.job && c'.cached == c.cached && c'.disk == c.disk && c'.op.Some? == c.op.Some?
  }

  lemma ReachStepRecord(c: Cell, e: TaskEvent)
    requires c.job.ReachMessage? && c.op.Some?
    ensures SameRecord(c, ReachStep(c, c.op.value, e))
  {
  }

  lemma ReplayStepRecord(c: Cell, e: TaskEvent)
    requires c.job.ReplayTo? && c.op.Some?
    ensures SameRecord(c, ReplayStep(c, c.op.value, e))
  {
  }

  /** The event changes one cell and nothing else. */
  predicate Local(e: Event) {
    e.Step? || e.Capture? || e.LockExpires? || e.Borrow? || e.Take?
  }

  lemma LocalRecord(s: System, e: Event, id: OpId)
    requires id in s.cells && Local(e)
    ensures id in Apply(s, e).cells && SameRecord(s.cells[id], Apply(s, e).cells[id])
  {
    if e.Step? && s.cells[id].op.Some? {
      if s.cells[id].job.ReplayTo? {
        ReplayStepRecord(s.cells[id], e.task);
      } else {
        ReachStepRecord(s.cells[id], e.task);
      }
    }
  }

  lemma ControlRecord(s: System, e: Event, id: OpId)
    requires id in s.cells && !Local(e) && !e.Land? && !e.Crash?
    ensures id in Apply(s, e).cells && SameRecord(s.cells[id], Apply(s, e).cells[id])
  {
  }

  lemma StepRecord(s: System, e: Event, id: OpId)
    requires id in s.cells && !e.Land? && !e.Crash?
    ensures id in Apply(s, e).cells && SameRecord(s.cells[id], Apply(s, e).cells[id])
  {
    if Local(e) { LocalRecord(s, e, id); } else { ControlRecord(s, e, id); }
  }

  lemma JobStays(s: System, e: Event, id: OpId)
    requires id in s.cells
    ensures id in Apply(s, e).cells && Apply(s, e).cells[id].job == s.cells[id].job
  {
    if !e.Land? && !e.Crash? { StepRecord(s, e, id); }
  }

  // ---- One cell ----

  lemma ReplayStepKeeps(c: Cell, held: Option<Entry>, lost: nat, e: TaskEvent)
    requires CellInv(c, held, lost) && c.op.Some? && c.job.ReplayTo?
    ensures CellInv(ReplayStep(c, c.op.value, e), held, lost)
  {
    var o := c.op.value;
    var c' := ReplayStep(c, o, e);
    match e
    case Send(n) =>
    case Reject(n) =>
    case Confirm =>
      if o.task.Transferring? && o.task.sending.Some? {
        ConfirmKeeps(c, held, lost);
      }
    case SettleFault =>
    case Finish =>
    case Throw =>
    case ObserveCancel =>
    case _ =>
  }

  lemma ConfirmKeeps(c: Cell, held: Option<Entry>, lost: nat)
    requires CellInv(c, held, lost) && c.op.Some? && c.job.ReplayTo?
    requires c.op.value.task.Transferring? && c.op.value.task.sending.Some?
    ensures CellInv(ReplayStep(c, c.op.value, Confirm), held, lost)
  {
    var o := c.op.value;
    var t := o.task;
    var o' := Confirmed(o.(task := Transferring(t.wanted, None, t.failed)), t.sending.value);
    GrownKeeps(c, o', held, lost);
  }

  /** Moving the sequence in flight to the skip-set, whatever else the step asks the journal for. */
  lemma GrownKeeps(c: Cell, o': Operation, held: Option<Entry>, lost: nat)
    requires CellInv(c, held, lost) && c.op.Some? && c.job.ReplayTo?
    requires c.op.value.task.Transferring? && c.op.value.task.sending.Some?
    requires o'.processed == c.op.value.processed + {c.op.value.task.sending.value}
    requires o'.task == Transferring(c.op.value.task.wanted, None, c.op.value.task.failed)
    requires o'.waiting == c.op.value.waiting && o'.state == c.op.value.state
    ensures CellInv(c.(op := Some(o')), held, lost)
  {
  }

  lemma ReachStepKeeps(c: Cell, held: Option<Entry>, lost: nat, e: TaskEvent)
    requires CellInv(c, held, lost) && c.op.Some? && c.job.ReachMessage?
    ensures CellInv(ReachStep(c, c.op.value, e), held, lost)
  {
    var task := c.op.value.task;
    if task.Restoring? {
      RestoringKeeps(c, held, lost, e);
    } else if task.Collecting? {
      CollectingKeeps(c, held, lost, e);
    }
  }

  lemma CollectingKeeps(c: Cell, held: Option<Entry>, lost: nat, e: TaskEvent)
    requires CellInv(c, held, lost) && c.op.Some? && c.job.ReachMessage? && c.op.value.task.Collecting?
    ensures CellInv(ReachStep(c, c.op.value, e), held, lost)
  {
    match e
    case Drained(order) =>
      var got := c.op.value.task.got;
      if multiset(order) == multiset(got) && RestoreOrdered(c.job, order) {
        DrainedKeeps(c, got, order);
      }
    case _ =>
  }

  lemma RestoringKeeps(c: Cell, held: Option<Entry>, lost: nat, e: TaskEvent)
    requires CellInv(c, held, lost) && c.op.Some? && c.job.ReachMessage? && c.op.value.task.Restoring?
    ensures CellInv(ReachStep(c, c.op.value, e), held, lost)
  {
    var task := c.op.value.task;
    if task.todo == [] {
      RestoredAllKeeps(c, held, lost, e);
    } else if task.copied {
      SettlingKeeps(c, held, lost, e);
    } else {
      CopyingKeeps(c, held, lost, e);
    }
  }

  lemma RestoredAllKeeps(c: Cell, held: Option<Entry>, lost: nat, e: TaskEvent)
    requires CellInv(c, held, lost) && c.op.Some? && c.job.ReachMessage?
    requires c.op.value.task.Restoring? && c.op.value.task.todo == []
    ensures CellInv(ReachStep(c, c.op.value, e), held, lost)
  {
    var b := c.broker;
    assert c.op.value.task.failures == 0 ==> b.stamped == b.unseen by {
      if c.op.value.task.failures == 0 {
        forall n ensures n in b.stamped <==> n in b.unseen {
        }
      }
    }
  }

  lemma CopyingKeeps(c: Cell, held: Option<Entry>, lost: nat, e: TaskEvent)
    requires CellInv(c, held, lost) && c.op.Some? && c.job.ReachMessage?
    requires c.op.value.task.Restoring? && c.op.value.task.todo != [] && !c.op.value.task.copied
    ensures CellInv(ReachStep(c, c.op.value, e), held, lost)
  {
    var Restoring(todo, copied, failures, pass) := c.op.value.task;
    assert todo == [todo[0]] + todo[1..];
    assert pass + todo == (pass + [todo[0]]) + todo[1..];
    HeadDropKeepsOrder(c.job, pass, todo);
  }

  lemma SettlingKeeps(c: Cell, held: Option<Entry>, lost: nat, e: TaskEvent)
    requires CellInv(c, held, lost) && c.op.Some? && c.job.ReachMessage?
    requires c.op.value.task.Restoring? && c.op.value.task.todo != [] && c.op.value.task.copied
    ensures CellInv(ReachStep(c, c.op.value, e), held, lost)
  {
    var Restoring(todo, copied, failures, pass) := c.op.value.task;
    assert todo == [todo[0]] + todo[1..];
  }

  lemma DrainedKeeps(c: Cell, got: seq<int>, order: seq<int>)
    requires c.job.ReachMessage? && NothingLost(c.broker)
    requires multiset(order) == multiset(got) && RestoreOrdered(c.job, order)
    ensures RestoreFits(c.job, c.broker.(unseen := set n | n in c.broker.stamped && n !in got),
      Restoring(order, false, 0, []))
  {
    SameMembers(order, got);
    assert [] + order == order;
    var b := c.broker;
    assert b.tail[|b.tail|..] == [];
  }

  lemma SameMembers(order: seq<int>, got: seq<int>)
    requires multiset(order) == multiset(got)
    ensures forall n :: n in order <==> n in got
  {
    forall n ensures n in order <==> n in got {
      assert n in order <==> n in multiset(order);
    }
  }

  lemma HeadDropKeepsOrder(job: Job, pass: seq<int>, todo: seq<int>)
    requires job.ReachMessage? && todo != []
    ensures RestoreOrdered(job, pass + todo) ==> RestoreOrdered(job, pass + todo[1..])
  {
    if RestoreOrdered(job, pass + todo) {
      var s, t := pass + todo, pass + todo[1..];
      forall i, j | 0 <= i < j < |t| ensures InRestoreOrder(job, t[i], t[j]) {
        var i' := if i < |pass| then i else i + 1;
        var j' := if j < |pass| then j else j + 1;
        assert t[i] == s[i'] && t[j] == s[j'];
      }
    }
  }

  lemma CaptureKeeps(c: Cell, held: Option<Entry>, lost: nat, index: nat)
    requires CellInv(c, held, lost)
    ensures CellInv(CaptureStep(c, index), held, lost)
  {
  }

  lemma RecoveredKeeps(c: Cell, held: Option<Entry>, lost: nat)
    requires CellInv(c, held, lost)
    ensures CellInv(Recovered(c), None, lost)
  {
  }

  /** The held row becomes the repository's cached row, and with a successful save the one on disk. */
  lemma CachedKeeps(c: Cell, row: Entry, lost: nat)
    requires CellInv(c, Some(row), lost)
    ensures CellInv(c.(cached := Some(row)), None, lost)
    ensures CellInv(c.(cached := Some(row), disk := Some(row)), None, lost)
  {
  }

  /** Leaving the persist gate clears the flush mark or launches the runner that waited for it. */
  lemma ReleasedKeeps(c: Cell, w: Writer, lost: nat)
    requires CellInv(c, None, lost) && (c.disk.Some? || lost > 0)
    ensures CellInv(Released(c, w), None, lost)
  {
    if c.op.Some? && w == Control && c.op.value.task.Starting? {
      var o := c.op.value;
      if c.job.ReplayTo? {
        assert Partitioned(c.job.requested, o.processed, c.job.requested - o.processed, None, {});
      }
    }
  }

  lemma LandedKeeps(c: Cell, h: Held, lost: nat, ok: bool)
    requires CellInv(c, Some(h.entry), lost)
    ensures var c' := Released(c.(cached := Some(h.entry)), h.writer);
      CellInv(if ok then Saved(c') else c', None, if ok then lost else lost + 1)
  {
    CachedKeeps(c, h.entry, lost);
    if ok {
      var c1 := c.(cached := Some(h.entry), disk := Some(h.entry));
      ReleasedKeeps(c1, h.writer, lost);
      assert Released(c1, h.writer) == Saved(Released(c.(cached := Some(h.entry)), h.writer));
    } else {
      var c1 := c.(cached := Some(h.entry));
      assert CellInv(c1, None, lost + 1);
      ReleasedKeeps(c1, h.writer, lost + 1);
    }
  }

  lemma ResumedKeeps(c: Cell, held: Option<Entry>, lost: nat)
    requires CellInv(c, held, lost) && c.op.Some? && Resumable(c.op.value.state)
    ensures var o := c.op.value.(state := Running, task := Starting(true), cancelRequested := false);
      CellInv(c.(op := Some(Owe(o, Control))), held, lost)
  {
  }

  lemma SettledKeeps(c: Cell, held: Option<Entry>, lost: nat, state: State)
    requires CellInv(c, held, lost) && c.op.Some? && Resumable(c.op.value.state)
    requires state == Failed || state == Dismissed
    ensures CellInv(c.(op := Some(Owe(c.op.value.(state := state), Control))), held, lost)
  {
  }

  lemma CancelledKeeps(c: Cell, held: Option<Entry>, lost: nat)
    requires CellInv(c, held, lost) && c.op.Some?
    ensures CellInv(c.(op := Some(c.op.value.(cancelRequested := true))), held, lost)
  {
  }

  // ---- The system ----

  lemma LandKeeps(s: System, ok: bool)
    requires Inv(s)
    ensures Inv(LandStep(s, ok))
  {
    if s.held.Some? {
      var h := s.held.value;
      LandedKeeps(s.cells[h.id], h, s.lostWrites, ok);
      var s' := LandStep(s, ok);
      forall id | id in s'.cells ensures CellInv(s'.cells[id], HeldRow(s', id), s'.lostWrites) {
        if id != h.id { assert CellInv(s.cells[id], None, s.lostWrites); }
      }
    }
  }

  lemma AcquireKeeps(s: System, id: OpId, index: nat)
    requires Inv(s)
    ensures Inv(AcquireStep(s, id, index))
  {
    if id in s.cells && s.held.None? && s.cells[id].op.Some? && index < |s.cells[id].op.value.waiting| {
      var s' := AcquireStep(s, id, index);
      assert CellInv(s.cells[id], None, s.lostWrites);
      assert CellInv(s'.cells[id], HeldRow(s', id), s'.lostWrites);
    }
  }

  lemma ReplacedKeeps(s: System, id: OpId, c: Cell, gate: bool)
    requires Inv(s)
    requires CellInv(c, HeldRow(s, id), s.lostWrites)
    ensures Inv(Update(s, id, c).(gateTaken := gate))
  {
  }

  lemma ControlKeeps(s: System, e: Event)
    requires Inv(s)
    requires e.Start? || e.Cancel? || e.Resume? || e.Dismiss?
    ensures Inv(Apply(s, e))
  {
    if Apply(s, e) != s {
      match e
      case Start(id, entity, job) =>
        ReplacedKeeps(s, id, Cell(entity, job, Some(FreshOperation()), None, None, Untouched), true);
      case Cancel(id) =>
        CancelledKeeps(s.cells[id], HeldRow(s, id), s.lostWrites);
        ReplacedKeeps(s, id, Apply(s, e).cells[id], s.gateTaken);
      case Resume(id, _) =>
        ResumedKeeps(s.cells[id], HeldRow(s, id), s.lostWrites);
        SettledKeeps(s.cells[id], HeldRow(s, id), s.lostWrites, Failed);
        ReplacedKeeps(s, id, Apply(s, e).cells[id], true);
      case Dismiss(id) =>
        SettledKeeps(s.cells[id], HeldRow(s, id), s.lostWrites, Dismissed);
        ReplacedKeeps(s, id, Apply(s, e).cells[id], true);
    }
  }

  lemma TaskStepKeeps(c: Cell, held: Option<Entry>, lost: nat, e: TaskEvent)
    requires CellInv(c, held, lost)
    ensures CellInv(TaskStep(c, e), held, lost)
  {
    if c.op.Some? {
      if c.job.ReplayTo? { ReplayStepKeeps(c, held, lost, e); } else { ReachStepKeeps(c, held, lost, e); }
    }
  }

  lemma ExpiryKeeps(c: Cell, held: Option<Entry>, lost: nat, n: int)
    requires CellInv(c, held, lost)
    ensures CellInv(ExpireStep(c, n), held, lost)
  {
  }

  lemma BorrowedKeeps(c: Cell, held: Option<Entry>, lost: nat, n: int)
    requires CellInv(c, held, lost)
    ensures CellInv(Borrowed(c, n), held, lost)
  {
  }

  lemma TakenKeeps(c: Cell, held: Option<Entry>, lost: nat, n: int)
    requires CellInv(c, held, lost)
    ensures CellInv(Taken(c, n), held, lost)
  {
  }

  /** What another operation does to a message of this one. */
  lemma SharedKeeps(s: System, e: Event)
    requires Inv(s)
    requires e.Borrow? || e.Take?
    ensures Inv(Apply(s, e))
  {
    if e.id in s.cells {
      var c, held := s.cells[e.id], HeldRow(s, e.id);
      BorrowedKeeps(c, held, s.lostWrites, e.n);
      TakenKeeps(c, held, s.lostWrites, e.n);
      var c' := if e.Borrow? then Borrowed(c, e.n) else Taken(c, e.n);
      ReplacedKeeps(s, e.id, c', s.gateTaken);
      assert Apply(s, e) == s || Apply(s, e) == Update(s, e.id, c').(gateTaken := s.gateTaken);
    }
  }

  lemma LocalKeeps(s: System, e: Event)
    requires Inv(s)
    requires e.Step? || e.Capture? || e.LockExpires?
    ensures Inv(Apply(s, e))
  {
    if e.id in s.cells {
      var c, held := s.cells[e.id], HeldRow(s, e.id);
      var c';
      match e {
        case Step(_, task) =>
          TaskStepKeeps(c, held, s.lostWrites, task);
          c' := TaskStep(c, task);
        case Capture(_, index) =>
          CaptureKeeps(c, held, s.lostWrites, index);
          c' := CaptureStep(c, index);
        case LockExpires(_, n) =>
          ExpiryKeeps(c, held, s.lostWrites, n);
          c' := ExpireStep(c, n);
      }
      ReplacedKeeps(s, e.id, c', s.gateTaken);
      assert Apply(s, e) == Update(s, e.id, c').(gateTaken := s.gateTaken);
    }
  }

  lemma CrashKeeps(s: System)
    requires Inv(s)
    ensures Inv(CrashStep(s))
  {
    forall id | id in s.cells { RecoveredKeeps(s.cells[id], HeldRow(s, id), s.lostWrites); }
  }

  lemma ApplyKeeps(s: System, e: Event)
    requires Inv(s)
    ensures Inv(Apply(s, e))
  {
    match e
    case Start(_, _, _) => ControlKeeps(s, e);
    case Cancel(_) => ControlKeeps(s, e);
    case Resume(_, _) => ControlKeeps(s, e);
    case Dismiss(_) => ControlKeeps(s, e);
    case Step(_, _) => LocalKeeps(s, e);
    case Capture(_, _) => LocalKeeps(s, e);
    case LockExpires(_, _) => LocalKeeps(s, e);
    case Borrow(_, _, _) => SharedKeeps(s, e);
    case Take(_, _, _) => SharedKeeps(s, e);
    case Acquire(id, index) => AcquireKeeps(s, id, index);
    case Land(ok) => LandKeeps(s, ok);
    case Crash => CrashKeeps(s);
  }

  /** Every run keeps every cell's invariant. */
  lemma {:induction false} RunKeeps(es: seq<Event>)
    ensures Inv(Execute(Initial(), es))
    decreases |es|
  {
    if es != [] {
      RunKeeps(es[..|es| - 1]);
      ApplyKeeps(Execute(Initial(), es[..|es| - 1]), es[|es| - 1]);
    }
  }
}
