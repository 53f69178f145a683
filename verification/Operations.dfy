/** The journaled Service Bus operation machine: process memory, crash journal and broker, and every
    atomic step the service, its runners, its journal writers and its environment can take.

    A `Cell` is one operation seen at three layers that survive different events: the in-memory record
    (lost when the process dies), the journal row (cached by the repository, and on disk) and the
    broker (never lost). `Apply` is one atomic step; `Execute` is a run. A step that is not enabled
    leaves the system as it is. */
module Operations {
  import opened Wrappers

  type OpId = nat

  /** A namespace and an entity path, after case folding. */
  type Entity = nat

  datatype TargetAction = Complete | DeadLetter | Resubmit

  datatype Job =
    | ReplayTo(requested: set<int>, deadLetter: bool, removeSource: bool)
    | ReachMessage(target: int, action: TargetAction, targetLast: bool, maxParked: nat)

  datatype State = Running | Completed | Cancelled | Failed | Interrupted | Dismissed

  datatype Status = SavedRunning | SavedCompleted | SavedCancelled | SavedFailed | SavedDismissed

  /** The status a journal write records for an in-memory state. */
  function StatusOf(s: State): Status {
    match s
    case Completed => SavedCompleted
    case Cancelled => SavedCancelled
    case Failed => SavedFailed
    case Dismissed => SavedDismissed
    case Running => SavedRunning
    case Interrupted => SavedRunning
  }

  /** The state a restarted process gives a journal row: a surviving "running" row was interrupted. */
  function StateOf(s: Status): State {
    match s
    case SavedRunning => Interrupted
    case SavedCompleted => Completed
    case SavedCancelled => Cancelled
    case SavedFailed => Failed
    case SavedDismissed => Dismissed
  }

  predicate Resumable(s: State) {
    s == Interrupted || s == Failed || s == Cancelled
  }

  /** Who asked for a journal write: Start, Resume or Dismiss (holding the operation gate), the runner,
      or the throttled mid-transfer flush. */
  datatype Writer = Control | Runner | Flush

  /** A journal write that has read the state but not yet entered the persist gate. */
  datatype Write = Write(writer: Writer, status: Status)

  datatype Entry = Entry(status: Status, processed: set<int>)

  /** Where the operation's background task stands. */
  datatype Task =
    | Idle
    | Starting(resumed: bool)
    | Transferring(wanted: set<int>, sending: Option<int>, failed: set<int>)
    | Parking(count: nat)
    | Reached
    | Collecting(got: seq<int>)
    | Restoring(todo: seq<int>, copied: bool, failures: nat, pass: seq<int>)

  /** The in-memory operation record. `missing` is the final pass's missing set; the record and the
      journal keep only its size. */
  datatype Operation = Operation(
    state: State,
    processed: set<int>,
    missing: set<int>,
    cancelRequested: bool,
    flushing: bool,
    task: Task,
    owed: seq<Writer>,
    waiting: seq<Write>)

  /** What has become of one operation's messages at the broker.
      sent: replay copies the target accepted, by source sequence.
      parked: every message this operation ever stamped into the dead-letter queue, by original sequence.
      stamped: those still there. locked: those of them a receiver holds, this operation's own or another
      one's, so that no receive sees them.
      unseen: stamped messages the last restore pass never received.
      tail: restored copies, in the order they were appended. acted: how often the target was acted on.
      taken: those a replay from the dead-letter queue has removed after sending its copy. */
  datatype Broker = Broker(
    sent: multiset<int>,
    parked: set<int>,
    stamped: set<int>,
    locked: set<int>,
    unseen: set<int>,
    tail: seq<int>,
    acted: nat,
    taken: set<int>)

  datatype Cell = Cell(
    entity: Entity,
    job: Job,
    op: Option<Operation>,
    cached: Option<Entry>,
    disk: Option<Entry>,
    broker: Broker)

  datatype Held = Held(id: OpId, writer: Writer, entry: Entry)

  /** gateTaken: the operation gate is held by a Start, Resume or Dismiss whose write has not landed.
      held: the write inside the persist gate, with the row it will save. */
  datatype System = System(cells: map<OpId, Cell>, gateTaken: bool, held: Option<Held>, lostWrites: nat)

  datatype TaskEvent =
    | Send(n: int)
    | Reject(n: int)
    | Confirm
    | SettleFault
    | Finish
    | Park(n: int)
    | Act
    | StopParking
    | BeginRestore
    | Receive(n: int)
    | Drained(order: seq<int>)
    | SendCopy
    | RejectCopy
    | SettleCopy
    | SettleCopyFault
    | FinishRestore
    | Throw
    | ObserveCancel

  datatype Event =
    | Start(id: OpId, entity: Entity, job: Job)
    | Cancel(id: OpId)
    | Resume(id: OpId, targetResolves: bool)
    | Dismiss(id: OpId)
    | Step(id: OpId, task: TaskEvent)
    | Capture(id: OpId, index: nat)
    | Acquire(id: OpId, index: nat)
    | Land(ok: bool)
    | LockExpires(id: OpId, n: int)
    | Borrow(peer: OpId, id: OpId, n: int)
    | Take(peer: OpId, id: OpId, n: int)
    | Crash

  const Untouched := Broker(multiset{}, {}, {}, {}, {}, [], 0, {})

  function Initial(): System { System(map[], false, None, 0) }

  function Requested(job: Job): set<int> {
    if job.ReplayTo? then job.requested else {}
  }

  predicate IsRunning(c: Cell) {
    c.op.Some? && c.op.value.state == Running
  }

  predicate Busy(s: System, entity: Entity) {
    exists id :: id in s.cells && IsRunning(s.cells[id]) && s.cells[id].entity == entity
  }

  // ---- Memory updates ----

  function Owe(o: Operation, w: Writer): Operation {
    o.(owed := o.owed + [w])
  }

  /** The runner is over: the state is set and its closing write is due. */
  function Ended(o: Operation, state: State): Operation {
    Owe(o.(state := state, task := Idle), Runner)
  }

  const FlushEvery: nat := 25

  /** One confirmed send: the skip-set grows, and every 25th confirmation asks for a flush unless one
      is already in flight. */
  function Confirmed(o: Operation, n: int): Operation {
    var flush := |o.processed + {n}| % FlushEvery == 0 && !o.flushing;
    o.(processed := o.processed + {n},
       flushing := o.flushing || flush,
       owed := if flush then o.owed + [Flush] else o.owed)
  }

  function FreshOperation(): Operation {
    Operation(Running, {}, {}, false, false, Starting(false), [Control], [])
  }

  /** The first real step of the background task, once the "running" write is behind it. */
  function Launched(job: Job, o: Operation): Task {
    if job.ReplayTo? then Transferring(job.requested - o.processed, None, {})
    else if o.task == Starting(false) then Parking(0)
    else Collecting([])
  }

  // ---- Restore order ----

  /** Prefix copies in original sequence order, the resubmitted target last or first. */
  function RestoreRank(job: Job, n: int): int
    requires job.ReachMessage?
  {
    if (n == job.target) == job.targetLast then 1 else 0
  }

  predicate InRestoreOrder(job: Job, a: int, b: int)
    requires job.ReachMessage?
  {
    RestoreRank(job, a) < RestoreRank(job, b) || (RestoreRank(job, a) == RestoreRank(job, b) && a <= b)
  }

  predicate RestoreOrdered(job: Job, s: seq<int>)
    requires job.ReachMessage?
  {
    forall i, j :: 0 <= i < j < |s| ==> InRestoreOrder(job, s[i], s[j])
  }

  // ---- Steps of one cell ----

  function TaskStep(c: Cell, e: TaskEvent): Cell {
    if c.op.None? then c
    else if c.job.ReplayTo? then ReplayStep(c, c.op.value, e)
    else ReachStep(c, c.op.value, e)
  }

  function ReplayStep(c: Cell, o: Operation, e: TaskEvent): Cell {
    match (o.task, e)
    case (Transferring(wanted, None, failed), Send(n)) =>
      if n in wanted
      then c.(op := Some(o.(task := Transferring(wanted - {n}, Some(n), failed))),
              broker := c.broker.(sent := c.broker.sent[n := c.broker.sent[n] + 1]))
      else c
    case (Transferring(wanted, None, failed), Reject(n)) =>
      if n in wanted
      then c.(op := Some(o.(task := Transferring(wanted - {n}, None, failed + {n}))))
      else c
    case (Transferring(wanted, Some(n), failed), Confirm) =>
      c.(op := Some(Confirmed(o.(task := Transferring(wanted, None, failed)), n)))
    case (Transferring(wanted, Some(n), failed), SettleFault) =>
      c.(op := Some(o.(task := Transferring(wanted, None, failed + {n}))))
    case (Transferring(wanted, None, failed), Finish) =>
      c.(op := Some(Ended(o.(missing := wanted), if failed == {} then Completed else Failed)))
    case (Transferring(_, None, _), Throw) =>
      c.(op := Some(Ended(o, Failed)))
    case (Transferring(_, _, _), ObserveCancel) =>
      if o.cancelRequested then c.(op := Some(Ended(o, Cancelled))) else c
    case _ => c
  }

  function ReachStep(c: Cell, o: Operation, e: TaskEvent): Cell
    requires c.job.ReachMessage?
  {
    var b := c.broker;
    match (o.task, e)
    case (Parking(count), Park(n)) =>
      if n < c.job.target && n !in b.parked && count < c.job.maxParked
      then c.(op := Some(o.(task := Parking(count + 1))),
              broker := b.(parked := b.parked + {n}, stamped := b.stamped + {n}))
      else c
    case (Parking(_), Act) =>
      c.(op := Some(o.(task := Reached)),
         broker := if c.job.action == Resubmit
                   then b.(acted := b.acted + 1, parked := b.parked + {c.job.target},
                           stamped := b.stamped + {c.job.target})
                   else b.(acted := b.acted + 1))
    case (Parking(_), StopParking) => c.(op := Some(Ended(o, Failed)))
    case (Reached, BeginRestore) => c.(op := Some(Owe(o.(task := Collecting([])), Runner)))
    case (Collecting(got), Receive(n)) =>
      if n in b.stamped && n !in b.locked
      then c.(op := Some(o.(task := Collecting(got + [n]))), broker := b.(locked := b.locked + {n}))
      else c
    case (Collecting(got), Drained(order)) =>
      if b.stamped <= b.locked && multiset(order) == multiset(got) && RestoreOrdered(c.job, order)
      then c.(op := Some(o.(task := Restoring(order, false, 0, []))),
              broker := b.(unseen := set n | n in b.stamped && n !in got))
      else c
    case (Restoring(todo, false, failures, pass), SendCopy) =>
      if todo != []
      then c.(op := Some(o.(task := Restoring(todo, true, failures, pass + [todo[0]]))),
              broker := b.(tail := b.tail + [todo[0]]))
      else c
    case (Restoring(todo, false, failures, pass), RejectCopy) =>
      if todo != [] then c.(op := Some(o.(task := Restoring(todo[1..], false, failures + 1, pass)))) else c
    case (Restoring(todo, true, failures, pass), SettleCopy) =>
      if todo != [] && todo[0] in b.stamped
      then c.(op := Some(o.(task := Restoring(todo[1..], false, failures, pass))),
              broker := b.(stamped := b.stamped - {todo[0]}, locked := b.locked - {todo[0]}))
      else c
    case (Restoring(todo, true, failures, pass), SettleCopyFault) =>
      if todo != [] then c.(op := Some(o.(task := Restoring(todo[1..], false, failures + 1, pass)))) else c
    case (Restoring(todo, false, failures, _), FinishRestore) =>
      if todo == [] then c.(op := Some(Ended(o, if failures == 0 then Completed else Failed))) else c
    case (Restoring(_, true, _, _), Throw) => c
    case (_, Throw) =>
      if o.task.Idle? || o.task.Starting? then c else c.(op := Some(Ended(o, Failed)))
    case (_, ObserveCancel) =>
      if o.task.Idle? || o.task.Starting? || !o.cancelRequested then c else c.(op := Some(Ended(o, Cancelled)))
    case _ => c
  }

  /** A journal write reads the state it will save as the row's status. */
  function CaptureStep(c: Cell, index: nat): Cell {
    if c.op.Some? && index < |c.op.value.owed|
    then var o := c.op.value;
         c.(op := Some(o.(owed := o.owed[..index] + o.owed[index + 1..],
                          waiting := o.waiting + [Write(o.owed[index], StatusOf(o.state))])))
    else c
  }

  /** What the process keeps of an operation when it restarts: exactly its journal row. */
  function Recovered(c: Cell): Cell {
    match c.disk
    case None => c.(op := None, cached := None)
    case Some(row) =>
      var missing := if c.op.Some? then c.op.value.missing else {};
      c.(op := Some(Operation(StateOf(row.status), row.processed, missing, false, false, Idle, [], [])),
         cached := c.disk)
  }

  /** A lock runs out, or its holder abandons the message. */
  function ExpireStep(c: Cell, n: int): Cell {
    c.(broker := c.broker.(locked := c.broker.locked - {n}))
  }

  /** Another operation's receiver holds the message. */
  function Borrowed(c: Cell, n: int): Cell {
    if n in c.broker.stamped && n !in c.broker.locked
    then c.(broker := c.broker.(locked := c.broker.locked + {n}))
    else c
  }

  /** Another operation settles the message it holds, which leaves the queue. */
  function Taken(c: Cell, n: int): Cell {
    var b := c.broker;
    if n in b.stamped && n in b.locked
    then c.(broker := b.(stamped := b.stamped - {n}, locked := b.locked - {n}, unseen := b.unseen - {n},
                         taken := b.taken + {n}))
    else c
  }

  /** A stretch of the background task. */
  function TaskRun(c: Cell, es: seq<TaskEvent>): Cell
    decreases |es|
  {
    if es == [] then c else TaskStep(TaskRun(c, es[..|es| - 1]), es[|es| - 1])
  }

  // ---- Steps of the system ----

  function Update(s: System, id: OpId, c: Cell): System {
    s.(cells := s.cells[id := c])
  }

  function StartStep(s: System, id: OpId, entity: Entity, job: Job): System {
    if id in s.cells || s.gateTaken || Busy(s, entity) then s
    else Update(s, id, Cell(entity, job, Some(FreshOperation()), None, None, Untouched)).(gateTaken := true)
  }

  function CancelStep(s: System, id: OpId): System {
    if id in s.cells && IsRunning(s.cells[id])
    then Update(s, id, s.cells[id].(op := Some(s.cells[id].op.value.(cancelRequested := true))))
    else s
  }

  function ResumeStep(s: System, id: OpId, targetResolves: bool): System {
    if id !in s.cells || s.gateTaken || s.cells[id].op.None? || !Resumable(s.cells[id].op.value.state) then s
    else
      var o := s.cells[id].op.value;
      var o' := if s.cells[id].job.ReplayTo? && !targetResolves
                then o.(state := Failed)
                else o.(state := Running, task := Starting(true), cancelRequested := false);
      Update(s, id, s.cells[id].(op := Some(Owe(o', Control)))).(gateTaken := true)
  }

  function DismissStep(s: System, id: OpId): System {
    if id !in s.cells || s.gateTaken || s.cells[id].op.None? || !Resumable(s.cells[id].op.value.state) then s
    else
      var o := s.cells[id].op.value.(state := Dismissed);
      Update(s, id, s.cells[id].(op := Some(Owe(o, Control)))).(gateTaken := true)
  }

  /** A waiting write enters the persist gate and snapshots the skip-set there. */
  function AcquireStep(s: System, id: OpId, index: nat): System {
    if id !in s.cells || s.held.Some? || s.cells[id].op.None? || index >= |s.cells[id].op.value.waiting| then s
    else
      var o := s.cells[id].op.value;
      var w := o.waiting[index];
      Update(s, id, s.cells[id].(op := Some(o.(waiting := o.waiting[..index] + o.waiting[index + 1..]))))
        .(held := Some(Held(id, w.writer, Entry(w.status, o.processed))))
  }

  /** The memory of the operation whose write just left the persist gate. */
  function Released(c: Cell, w: Writer): Cell {
    if c.op.None? then c
    else
      var o := c.op.value;
      match w
      case Flush => c.(op := Some(o.(flushing := false)))
      case Control => if o.task.Starting? then c.(op := Some(o.(task := Launched(c.job, o)))) else c
      case Runner => c
  }

  function Saved(c: Cell): Cell { c.(disk := c.cached) }

  /** The held write lands. The repository replaces its cached row either way; only a successful save
      puts the cache, with every row in it, on disk. */
  function LandStep(s: System, ok: bool): System {
    if s.held.None? || s.held.value.id !in s.cells then s
    else
      var h := s.held.value;
      var c := Released(s.cells[h.id].(cached := Some(h.entry)), h.writer);
      var cells := s.cells[h.id := c];
      System(if ok then map id | id in cells :: Saved(cells[id]) else cells,
             if h.writer == Control then false else s.gateTaken,
             None,
             if ok then s.lostWrites else s.lostWrites + 1)
  }

  /** The dead-letter queue of an entity is one queue. A restore receives every message in it and abandons
      those that are not its own; a replay from that queue does the same with those it does not want. */
  predicate Drains(c: Cell) {
    && c.op.Some?
    && (c.op.value.task.Collecting? || (c.op.value.task.Transferring? && c.job.ReplayTo? && c.job.deadLetter))
  }

  predicate Shares(s: System, peer: OpId, id: OpId) {
    && peer in s.cells && id in s.cells && peer != id
    && s.cells[peer].entity == s.cells[id].entity && Drains(s.cells[peer])
  }

  /** The replay has sent its copy of the message and now settles it by removing it. */
  predicate Removes(s: System, peer: OpId, id: OpId) {
    && Shares(s, peer, id) && s.cells[peer].op.value.task.Transferring? && s.cells[peer].op.value.task.sending.Some?
    && s.cells[peer].job.ReplayTo? && s.cells[peer].job.removeSource
  }

  function BorrowStep(s: System, peer: OpId, id: OpId, n: int): System {
    if Shares(s, peer, id) then Update(s, id, Borrowed(s.cells[id], n)) else s
  }

  function TakeStep(s: System, peer: OpId, id: OpId, n: int): System {
    if Removes(s, peer, id) then Update(s, id, Taken(s.cells[id], n)) else s
  }

  function CrashStep(s: System): System {
    System(map id | id in s.cells :: Recovered(s.cells[id]), false, None, s.lostWrites)
  }

  function Apply(s: System, e: Event): System {
    match e
    case Start(id, entity, job) => StartStep(s, id, entity, job)
    case Cancel(id) => CancelStep(s, id)
    case Resume(id, targetResolves) => ResumeStep(s, id, targetResolves)
    case Dismiss(id) => DismissStep(s, id)
    case Step(id, task) => if id in s.cells then Update(s, id, TaskStep(s.cells[id], task)) else s
    case Capture(id, index) => if id in s.cells then Update(s, id, CaptureStep(s.cells[id], index)) else s
    case Acquire(id, index) => AcquireStep(s, id, index)
    case Land(ok) => LandStep(s, ok)
    case LockExpires(id, n) => if id in s.cells then Update(s, id, ExpireStep(s.cells[id], n)) else s
    case Borrow(peer, id, n) => BorrowStep(s, peer, id, n)
    case Take(peer, id, n) => TakeStep(s, peer, id, n)
    case Crash => CrashStep(s)
  }

  /** A run: the events in order. */
  function Execute(s: System, es: seq<Event>): System
    decreases |es|
  {
    if es == [] then s else Apply(Execute(s, es[..|es| - 1]), es[|es| - 1])
  }

  lemma {:induction false} ExecuteConcat(s: System, a: seq<Event>, b: seq<Event>)
    ensures Execute(s, a + b) == Execute(Execute(s, a), b)
    decreases |b|
  {
    if b == [] {
      assert a + b == a;
    } else {
      var front, last := b[..|b| - 1], b[|b| - 1];
      assert (a + b)[..|a + b| - 1] == a + front;
      ExecuteConcat(s, a, front);
    }
  }

  lemma ExecuteOne(s: System, e: Event)
    ensures Execute(s, [e]) == Apply(s, e)
  {
    assert [e][..0] == [];
  }
}
