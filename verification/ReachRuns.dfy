/** Reach-message over whole runs: no parked message is lost, the target is acted on at most once, and
    exactly what a completed restore can leave behind. */
module ReachRuns {
  import opened Wrappers
  import opened Operations
  import opened OperationInvariant
  import opened ReplayRuns

  /** In every run each message the operation ever parked is still stamped in the dead-letter queue, has a
      restored copy, or was taken by a replay; and the target was acted on at most once. */
  lemma NothingParkedIsLost(es: seq<Event>, id: OpId, n: int)
    requires id in Execute(Initial(), es).cells && n in Execute(Initial(), es).cells[id].broker.parked
    ensures var b := Execute(Initial(), es).cells[id].broker;
      (n in b.stamped || n in b.tail || n in b.taken) && b.acted <= 1
  {
    RunKeeps(es);
    var s := Execute(Initial(), es);
    assert CellInv(s.cells[id], HeldRow(s, id), s.lostWrites);
  }

  /** A message that was taken was taken by a replay from the entity's dead-letter queue that removes its
      source, and what this replay was settling at the time is on its target. */
  lemma {:induction false} TakenWasSent(es: seq<Event>, id: OpId, n: int) returns (k: nat, sequence: int)
    requires id in Execute(Initial(), es).cells && n in Execute(Initial(), es).cells[id].broker.taken
    ensures k < |es| && es[k].Take? && es[k].id == id && es[k].n == n
    ensures var s, peer := Execute(Initial(), es[..k]), es[k].peer;
      && id in s.cells && peer in s.cells && s.cells[peer].entity == s.cells[id].entity
      && s.cells[peer].job.ReplayTo? && s.cells[peer].job.deadLetter && s.cells[peer].job.removeSource
      && InFlight(s.cells[peer]) == Some(sequence) && s.cells[peer].broker.sent[sequence] >= 1
    decreases |es|
  {
    var front, e := es[..|es| - 1], es[|es| - 1];
    var s := Execute(Initial(), front);
    if id in s.cells && n in s.cells[id].broker.taken {
      k, sequence := TakenWasSent(front, id, n);
      assert es[..k] == front[..k];
    } else {
      TakingStep(s, e, id, n);
      k, sequence := |front|, s.cells[e.peer].op.value.task.sending.value;
      SentAccounting(front, e.peer, sequence);
    }
  }

  lemma TakingStep(s: System, e: Event, id: OpId, n: int)
    requires id in Apply(s, e).cells && n in Apply(s, e).cells[id].broker.taken
    requires !(id in s.cells && n in s.cells[id].broker.taken)
    ensures e.Take? && e.id == id && e.n == n && Removes(s, e.peer, id)
  {
    if e.Step? && id in s.cells && s.cells[id].op.Some? {
      if s.cells[id].job.ReplayTo? {
        ReplayTakesNothing(s.cells[id], e.task);
      } else {
        ReachTakesNothing(s.cells[id], e.task);
      }
    }
  }

  lemma ReplayTakesNothing(c: Cell, e: TaskEvent)
    requires c.job.ReplayTo? && c.op.Some?
    ensures ReplayStep(c, c.op.value, e).broker.taken == c.broker.taken
  {
  }

  lemma ReachTakesNothing(c: Cell, e: TaskEvent)
    requires c.job.ReachMessage? && c.op.Some?
    ensures ReachStep(c, c.op.value, e).broker.taken == c.broker.taken
  {
  }

  /** A replay from the entity's dead-letter queue that removes its source, at the settle of a copy it has
      sent, takes a held message of another operation out of the queue; nothing else of the system changes. */
  lemma TakeRemoves(s: System, peer: OpId, id: OpId, n: int)
    requires peer in s.cells && id in s.cells && peer != id && s.cells[peer].entity == s.cells[id].entity
    requires s.cells[peer].job.ReplayTo? && s.cells[peer].job.deadLetter && s.cells[peer].job.removeSource
    requires InFlight(s.cells[peer]).Some? && n in s.cells[id].broker.stamped && n in s.cells[id].broker.locked
    ensures var s', b := Apply(s, Take(peer, id, n)), s.cells[id].broker;
      && s' == s.(cells := s.cells[id := s'.cells[id]]) && s'.cells[id] == s.cells[id].(broker := s'.cells[id].broker)
      && s'.cells[id].broker.stamped == b.stamped - {n} && s'.cells[id].broker.taken == b.taken + {n}
      && s'.cells[id].broker.tail == b.tail && s'.cells[id].broker.parked == b.parked
  {
  }

  /** A restore, and a replay from the dead-letter queue, can hold any free stamped message of the entity. */
  lemma BorrowHolds(s: System, peer: OpId, id: OpId, n: int)
    requires peer in s.cells && id in s.cells && peer != id && s.cells[peer].entity == s.cells[id].entity
    requires s.cells[peer].op.Some?
    requires s.cells[peer].op.value.task.Collecting?
      || (s.cells[peer].op.value.task.Transferring? && s.cells[peer].job.ReplayTo? && s.cells[peer].job.deadLetter)
    requires n in s.cells[id].broker.stamped
    ensures n in Apply(s, Borrow(peer, id, n)).cells[id].broker.locked
  {
  }

  // ---- What is parked ----

  /** Acting on the target stamps it exactly when it is to be resubmitted. */
  lemma ActStamps(c: Cell)
    requires c.job.ReachMessage? && c.op.Some? && c.op.value.task.Parking?
    ensures var b, b' := c.broker, TaskStep(c, Act).broker;
      && b'.acted == b.acted + 1 && b'.tail == b.tail
      && b'.stamped == (if c.job.action == Resubmit then b.stamped + {c.job.target} else b.stamped)
      && b'.parked == (if c.job.action == Resubmit then b.parked + {c.job.target} else b.parked)
  {
  }

  /** Messages below the target, at most the cap of them; and the target if it was acted on by resubmitting. */
  predicate WithinCap(job: Job, parked: set<int>, acted: nat)
    requires job.ReachMessage?
  {
    && |parked - {job.target}| <= job.maxParked && (forall n :: n in parked && n != job.target ==> n < job.target)
    && (job.target in parked ==> job.action == Resubmit && acted >= 1)
  }

  /** The counter of the parking loop is what was parked. */
  predicate Counts(job: Job, op: Option<Operation>, parked: set<int>)
    requires job.ReachMessage?
  {
    && (op.Some? && op.value.task.Parking? ==> op.value.task.count == |parked - {job.target}| && job.target !in parked)
    && (op.Some? && op.value.task == Starting(false) ==> parked == {})
  }

  predicate ParksWithin(c: Cell) {
    c.job.ReachMessage? ==> WithinCap(c.job, c.broker.parked, c.broker.acted) && Counts(c.job, c.op, c.broker.parked)
  }

  /** Nothing was parked, and the counter is as it was or starts at zero. */
  predicate SameParking(c: Cell, c': Cell) {
    && c'.job == c.job && c'.broker.parked == c.broker.parked && c'.broker.acted == c.broker.acted
    && (c'.op.Some? && c'.op.value.task.Parking? ==>
          && c.op.Some?
          && (|| c'.op.value.task == c.op.value.task
              || (c.op.value.task == Starting(false) && c'.op.value.task == Parking(0))))
    && (c'.op.Some? && c'.op.value.task == Starting(false) ==> c.op.Some? && c.op.value.task == Starting(false))
  }

  lemma SameWithin(c: Cell, c': Cell)
    requires ParksWithin(c) && SameParking(c, c')
    ensures ParksWithin(c')
  {
  }

  lemma ParksOne(c: Cell, n: int)
    requires ParksWithin(c) && c.op.Some? && c.job.ReachMessage? && c.op.value.task.Parking?
    ensures ParksWithin(ReachStep(c, c.op.value, Park(n)))
  {
    if n < c.job.target && n !in c.broker.parked { PrefixGrows(c.broker.parked, c.job.target, n); }
  }

  lemma PrefixGrows(parked: set<int>, target: int, n: int)
    requires n != target && n !in parked
    ensures |parked + {n} - {target}| == |parked - {target}| + 1
  {
    assert parked + {n} - {target} == parked - {target} + {n};
  }

  lemma ActsWithin(c: Cell)
    requires ParksWithin(c) && c.op.Some? && c.job.ReachMessage? && c.op.value.task.Parking?
    ensures ParksWithin(ReachStep(c, c.op.value, Act))
  {
    var parked := c.broker.parked;
    assert parked + {c.job.target} - {c.job.target} == parked - {c.job.target};
    ActStamps(c);
  }

  lemma OtherStepParksNothing(c: Cell, e: TaskEvent)
    requires c.op.Some? && c.job.ReachMessage? && (c.op.value.task.Parking? ==> !e.Park? && !e.Act?)
    ensures SameParking(c, ReachStep(c, c.op.value, e))
  {
  }

  lemma TaskParksWithin(c: Cell, e: TaskEvent)
    requires ParksWithin(c)
    ensures ParksWithin(TaskStep(c, e))
  {
    if c.op.Some? {
      if c.job.ReplayTo? { ReplayStepRecord(c, e); } else { ReachParksWithin(c, e); }
    }
  }

  lemma ReachParksWithin(c: Cell, e: TaskEvent)
    requires ParksWithin(c) && c.op.Some? && c.job.ReachMessage?
    ensures ParksWithin(ReachStep(c, c.op.value, e))
  {
    if c.op.value.task.Parking? && e.Park? {
      ParksOne(c, e.n);
    } else if c.op.value.task.Parking? && e.Act? {
      ActsWithin(c);
    } else {
      OtherStepParksNothing(c, e);
      SameWithin(c, ReachStep(c, c.op.value, e));
    }
  }

  lemma LandParksNothing(s: System, ok: bool, id: OpId)
    requires id in s.cells && s.cells[id].job.ReachMessage?
    ensures id in LandStep(s, ok).cells && SameParking(s.cells[id], LandStep(s, ok).cells[id])
  {
  }

  lemma QuietParksNothing(s: System, e: Event, id: OpId)
    requires id in s.cells && s.cells[id].job.ReachMessage? && !e.Step? && !e.Land?
    ensures id in Apply(s, e).cells && SameParking(s.cells[id], Apply(s, e).cells[id])
  {
  }

  lemma StepParksWithin(s: System, e: Event, id: OpId)
    requires id in s.cells && ParksWithin(s.cells[id])
    ensures id in Apply(s, e).cells && ParksWithin(Apply(s, e).cells[id])
  {
    JobStays(s, e, id);
    if e.Step? {
      TaskParksWithin(s.cells[id], e.task);
    } else if s.cells[id].job.ReachMessage? {
      if e.Land? { LandParksNothing(s, e.ok, id); } else { QuietParksNothing(s, e, id); }
      SameWithin(s.cells[id], Apply(s, e).cells[id]);
    }
  }

  lemma NewParksWithin(s: System, e: Event, id: OpId)
    requires id !in s.cells && id in Apply(s, e).cells
    ensures ParksWithin(Apply(s, e).cells[id])
  {
    if !e.Start? { OnlyStartAdds(s, e); }
  }

  /** In every run: what an operation has parked are messages below its target, never more than its cap, and
      the target only when it was acted on to be resubmitted. */
  lemma {:induction false} ParkedWithinCap(es: seq<Event>, id: OpId)
    requires id in Execute(Initial(), es).cells
    ensures ParksWithin(Execute(Initial(), es).cells[id])
    decreases |es|
  {
    if es != [] {
      var s, e := Execute(Initial(), es[..|es| - 1]), es[|es| - 1];
      if id in s.cells {
        ParkedWithinCap(es[..|es| - 1], id);
        StepParksWithin(s, e, id);
      } else {
        NewParksWithin(s, e, id);
      }
    }
  }

  // ---- Parking happens once ----

  /** The operation can no longer park: its first pass has left the parking phase or was never launched
      by this process. */
  predicate ParkingOver(c: Cell) {
    c.op.Some? ==> !c.op.value.task.Parking? && c.op.value.task != Starting(false)
  }

  lemma TaskNeverParksAgain(c: Cell, e: TaskEvent)
    requires c.job.ReachMessage? && c.op.Some? && ParkingOver(c)
    ensures var c' := ReachStep(c, c.op.value, e);
      c'.job == c.job && ParkingOver(c') && c'.broker.parked == c.broker.parked && c'.broker.acted == c.broker.acted
  {
  }

  predicate Frozen(c: Cell, c': Cell) {
    c'.job == c.job && ParkingOver(c') && c'.broker.parked == c.broker.parked && c'.broker.acted == c.broker.acted
  }

  lemma LocalNeverParksAgain(s: System, e: Event, id: OpId)
    requires id in s.cells && s.cells[id].job.ReachMessage? && ParkingOver(s.cells[id])
    requires Local(e) || e.Acquire?
    ensures id in Apply(s, e).cells && Frozen(s.cells[id], Apply(s, e).cells[id])
  {
    if e.Step? && s.cells[id].op.Some? { TaskNeverParksAgain(s.cells[id], e.task); }
  }

  lemma ControlNeverParksAgain(s: System, e: Event, id: OpId)
    requires id in s.cells && s.cells[id].job.ReachMessage? && ParkingOver(s.cells[id])
    requires !Local(e) && !e.Acquire?
    ensures id in Apply(s, e).cells && Frozen(s.cells[id], Apply(s, e).cells[id])
  {
  }

  /** A resume only ever restores: once the first pass is past parking, no later run of cancels, faults,
      crashes, resumes and dismissals parks another message or acts on the target again. */
  lemma {:induction false} ResumeOnlyRestores(es: seq<Event>, more: seq<Event>, id: OpId)
    requires id in Execute(Initial(), es).cells && Execute(Initial(), es).cells[id].job.ReachMessage?
    requires ParkingOver(Execute(Initial(), es).cells[id])
    ensures id in Execute(Initial(), es + more).cells
    ensures Frozen(Execute(Initial(), es).cells[id], Execute(Initial(), es + more).cells[id])
    decreases |more|
  {
    if more == [] {
      assert es + more == es;
    } else {
      var front, e := more[..|more| - 1], more[|more| - 1];
      assert (es + more)[..|es + more| - 1] == es + front;
      ResumeOnlyRestores(es, front, id);
      var s := Execute(Initial(), es + front);
      if Local(e) || e.Acquire? {
        LocalNeverParksAgain(s, e, id);
      } else {
        ControlNeverParksAgain(s, e, id);
      }
    }
  }

  // ---- What a completed restore leaves behind ----

  /** A completed operation leaves stamped exactly the messages its last restore pass never received,
      because an earlier receiver still held their locks. */
  lemma CompletedLeavesUnseen(es: seq<Event>, id: OpId)
    requires id in Execute(Initial(), es).cells && Execute(Initial(), es).cells[id].job.ReachMessage?
    requires Execute(Initial(), es).cells[id].op.Some? && Execute(Initial(), es).cells[id].op.value.state == Completed
    ensures Execute(Initial(), es).cells[id].broker.stamped == Execute(Initial(), es).cells[id].broker.unseen
  {
    RunKeeps(es);
    var s := Execute(Initial(), es);
    assert CellInv(s.cells[id], HeldRow(s, id), s.lostWrites);
  }

  /** Restore order, without ranks: messages other than the target ascend by original sequence, and the
      target comes after all of them or before all of them, as requested. */
  lemma RestoreOrderIff(job: Job, s: seq<int>)
    requires job.ReachMessage?
    ensures RestoreOrdered(job, s) <==> forall i, j :: 0 <= i < j < |s| ==>
      && (s[i] != job.target && s[j] != job.target ==> s[i] <= s[j])
      && (job.targetLast && s[i] == job.target ==> s[j] == job.target)
      && (!job.targetLast && s[j] == job.target ==> s[i] == job.target)
  {
  }

  lemma PassInOrder(c: Cell, held: Option<Entry>, lost: nat)
    requires CellInv(c, held, lost) && c.op.Some? && c.op.value.task.Restoring?
    ensures c.job.ReachMessage?
    ensures var pass, tail := c.op.value.task.pass, c.broker.tail;
      RestoreOrdered(c.job, pass) && |pass| <= |tail| && tail[|tail| - |pass|..] == pass
  {
    var t := c.op.value.task;
    var whole := t.pass + if t.copied then t.todo[1..] else t.todo;
    forall i, j | 0 <= i < j < |t.pass| ensures InRestoreOrder(c.job, t.pass[i], t.pass[j]) {
      assert whole[i] == t.pass[i] && whole[j] == t.pass[j];
    }
  }

  /** The copies a pass has sent stand at the end of the queue in restore order: prefix messages by
      original sequence, the resubmitted target on the requested side. */
  lemma CopiesKeepOrder(es: seq<Event>, id: OpId)
    requires var s := Execute(Initial(), es);
      id in s.cells && s.cells[id].op.Some? && s.cells[id].op.value.task.Restoring?
    ensures var c := Execute(Initial(), es).cells[id];
      c.job.ReachMessage? && |c.op.value.task.pass| <= |c.broker.tail| &&
      var copies := c.broker.tail[|c.broker.tail| - |c.op.value.task.pass|..];
      && copies == c.op.value.task.pass
      && forall i, j :: 0 <= i < j < |copies| ==>
           && (copies[i] != c.job.target && copies[j] != c.job.target ==> copies[i] <= copies[j])
           && (c.job.targetLast && copies[i] == c.job.target ==> copies[j] == c.job.target)
           && (!c.job.targetLast && copies[j] == c.job.target ==> copies[i] == c.job.target)
  {
    RunKeeps(es);
    var s := Execute(Initial(), es);
    PassInOrder(s.cells[id], HeldRow(s, id), s.lostWrites);
    RestoreOrderIff(s.cells[id].job, s.cells[id].op.value.task.pass);
  }

  // ---- When a restore pass is sure to leave nothing ----

  datatype PassEvent = Did(e: TaskEvent) | Expired(n: int)

  function PassStep(c: Cell, e: PassEvent): Cell {
    match e
    case Did(task) => TaskStep(c, task)
    case Expired(n) => ExpireStep(c, n)
  }

  /** What one restore pass does with a cell. */
  function Pass(c: Cell, es: seq<PassEvent>): Cell
    decreases |es|
  {
    if es == [] then c else Pass(PassStep(c, es[0]), es[1..])
  }

  predicate AtPassStart(c: Cell) {
    CellInv(c, None, 1) && c.job.ReachMessage? && c.op.Some? && c.op.value.task == Collecting([])
  }

  predicate LeavesNothing(c: Cell) {
    c.op.Some? && c.op.value.state == Completed ==> c.broker.stamped == {}
  }

  /** Every lock on a stamped message is this pass's own. */
  predicate OwnLocks(c: Cell) {
    && c.job.ReachMessage? && c.op.Some? && CellInv(c, None, 1)
    && var o := c.op.value;
       && (o.task.Collecting? ==> forall n :: n in c.broker.locked ==> n in o.task.got)
       && (o.task.Restoring? ==> c.broker.unseen == {})
       && (o.task.Idle? && o.state == Completed ==> c.broker.stamped == {})
       && (o.task.Collecting? || o.task.Restoring? || o.task.Idle?)
  }

  lemma OwnLocksStep(c: Cell, e: PassEvent)
    requires OwnLocks(c)
    ensures OwnLocks(PassStep(c, e))
  {
    match e
    case Did(task) =>
      TaskStepKeeps(c, None, 1, task);
      OwnLocksTask(c, task);
    case Expired(n) => ExpiryKeeps(c, None, 1, n);
  }

  lemma OwnLocksTask(c: Cell, e: TaskEvent)
    requires OwnLocks(c) && CellInv(ReachStep(c, c.op.value, e), None, 1)
    ensures OwnLocks(ReachStep(c, c.op.value, e))
  {
    var c' := ReachStep(c, c.op.value, e);
    if c.op.value.task.Collecting? && c'.op.value.task.Restoring? {
      forall n ensures n !in c'.broker.unseen {
      }
      assert c'.broker.unseen == {};
    }
  }

  lemma {:induction false} OwnLocksPass(c: Cell, es: seq<PassEvent>)
    requires OwnLocks(c)
    ensures LeavesNothing(Pass(c, es))
    decreases |es|
  {
    if es != [] {
      OwnLocksStep(c, es[0]);
      OwnLocksPass(PassStep(c, es[0]), es[1..]);
    }
  }

  // ---- Stray locks strand messages ----

  lemma {:induction false} PassConcat(c: Cell, a: seq<PassEvent>, b: seq<PassEvent>)
    ensures Pass(c, a + b) == Pass(Pass(c, a), b)
    decreases |a|
  {
    if a == [] {
      assert a + b == b;
    } else {
      assert (a + b)[1..] == a[1..] + b;
      PassConcat(PassStep(c, a[0]), a[1..], b);
    }
  }

  function Insert(job: Job, n: int, s: seq<int>): (r: seq<int>)
    requires job.ReachMessage?
  {
    if s == [] || InRestoreOrder(job, n, s[0]) then [n] + s else [s[0]] + Insert(job, n, s[1..])
  }

  /** Messages in restore order. */
  function Ordered(job: Job, s: seq<int>): seq<int>
    requires job.ReachMessage?
  {
    if s == [] then [] else Insert(job, s[0], Ordered(job, s[1..]))
  }

  lemma {:induction false} InsertBag(job: Job, n: int, s: seq<int>)
    requires job.ReachMessage?
    ensures multiset(Insert(job, n, s)) == multiset{n} + multiset(s)
    decreases |s|
  {
    if s != [] {
      InsertBag(job, n, s[1..]);
      assert s == [s[0]] + s[1..];
    }
  }

  lemma InsertMembers(job: Job, n: int, s: seq<int>)
    requires job.ReachMessage?
    ensures forall m :: m in Insert(job, n, s) ==> m == n || m in s
  {
    InsertBag(job, n, s);
    forall m | m in Insert(job, n, s) ensures m == n || m in s {
      assert m in multiset(Insert(job, n, s));
    }
  }

  lemma {:induction false} InsertOrdered(job: Job, n: int, s: seq<int>)
    requires job.ReachMessage? && RestoreOrdered(job, s)
    ensures RestoreOrdered(job, Insert(job, n, s))
    decreases |s|
  {
    if s != [] && !InRestoreOrder(job, n, s[0]) {
      InsertOrdered(job, n, s[1..]);
      InsertMembers(job, n, s[1..]);
      forall m | m in Insert(job, n, s[1..]) ensures InRestoreOrder(job, s[0], m) {
        assert m == n || m in s[1..];
      }
    }
  }

  lemma {:induction false} OrderedIsOrder(job: Job, s: seq<int>)
    requires job.ReachMessage?
    ensures RestoreOrdered(job, Ordered(job, s)) && multiset(Ordered(job, s)) == multiset(s)
    decreases |s|
  {
    if s != [] {
      OrderedIsOrder(job, s[1..]);
      InsertOrdered(job, s[0], Ordered(job, s[1..]));
      InsertBag(job, s[0], Ordered(job, s[1..]));
      assert s == [s[0]] + s[1..];
    }
  }

  predicate Distinct(s: seq<int>) {
    forall i, j :: 0 <= i < j < |s| ==> s[i] != s[j]
  }

  /** The pass receives every message it can see. */
  lemma {:induction false} ReceiveAll(c: Cell, o: Operation, got: seq<int>) returns (es: seq<PassEvent>, all: seq<int>)
    requires c.job.ReachMessage? && c.op == Some(o) && o.task == Collecting(got) && c.broker.locked <= c.broker.stamped
    requires Distinct(got) && forall n :: n in got ==> n in c.broker.locked
    ensures Pass(c, es) == c.(op := Some(o.(task := Collecting(all))), broker := c.broker.(locked := c.broker.stamped))
    ensures Distinct(all)
    ensures forall n :: n in all <==> n in got || n in c.broker.stamped - c.broker.locked
    decreases c.broker.stamped - c.broker.locked
  {
    if forall n :: n in c.broker.stamped ==> n in c.broker.locked {
      es, all := [], got;
      assert c.broker.stamped == c.broker.locked;
    } else {
      var n :| n in c.broker.stamped && n !in c.broker.locked;
      var c1 := PassStep(c, Did(Receive(n)));
      var rest;
      rest, all := ReceiveAll(c1, o.(task := Collecting(got + [n])), got + [n]);
      es := [Did(Receive(n))] + rest;
      assert es[1..] == rest;
    }
  }

  lemma HeadCopied(c: Cell, o: Operation, todo: seq<int>, pass: seq<int>)
    requires c.job.ReachMessage? && c.op == Some(o) && o.task == Restoring(todo, false, 0, pass) && todo != []
    ensures ReachStep(c, o, SendCopy) ==
      c.(op := Some(o.(task := Restoring(todo, true, 0, pass + [todo[0]]))),
        broker := c.broker.(tail := c.broker.tail + [todo[0]]))
  {
  }

  lemma HeadSettled(c: Cell, o: Operation, todo: seq<int>, pass: seq<int>)
    requires c.job.ReachMessage? && c.op == Some(o) && o.task == Restoring(todo, true, 0, pass) && todo != []
    requires todo[0] in c.broker.stamped
    ensures ReachStep(c, o, SettleCopy) ==
      c.(op := Some(o.(task := Restoring(todo[1..], false, 0, pass))),
         broker := c.broker.(stamped := c.broker.stamped - {todo[0]}, locked := c.broker.locked - {todo[0]}))
  {
  }

  /** The head of the list is resent and settled. */
  lemma SettleHead(c: Cell, o: Operation, todo: seq<int>, pass: seq<int>) returns (c': Cell, o': Operation)
    requires c.job.ReachMessage? && c.op == Some(o) && o.task == Restoring(todo, false, 0, pass) && todo != []
    requires todo[0] in c.broker.stamped
    ensures c' == PassStep(PassStep(c, Did(SendCopy)), Did(SettleCopy))
    ensures c'.job == c.job && c'.op == Some(o') && o'.task == Restoring(todo[1..], false, 0, pass + [todo[0]])
    ensures c'.broker.stamped == c.broker.stamped - {todo[0]}
  {
    var c1 := PassStep(c, Did(SendCopy));
    HeadCopied(c, o, todo, pass);
    HeadSettled(c1, c1.op.value, todo, pass + [todo[0]]);
    c' := PassStep(c1, Did(SettleCopy));
    o' := c'.op.value;
  }

  lemma HeadOfSet(todo: seq<int>)
    requires todo != []
    ensures (set n | n in todo) == {todo[0]} + (set n | n in todo[1..])
  {
    assert todo == [todo[0]] + todo[1..];
  }

  lemma PassTwo(c: Cell, a: PassEvent, b: PassEvent, rest: seq<PassEvent>)
    ensures Pass(c, [a, b] + rest) == Pass(PassStep(PassStep(c, a), b), rest)
  {
    var es := [a, b] + rest;
    assert es[1..] == [b] + rest && es[1..][1..] == rest;
  }

  /** Every message received is resent and settled. */
  lemma {:induction false} SettleAll(c: Cell, o: Operation, todo: seq<int>, pass: seq<int>) returns (es: seq<PassEvent>)
    requires c.job.ReachMessage? && c.op == Some(o) && o.task == Restoring(todo, false, 0, pass)
    requires Distinct(todo) && forall i :: 0 <= i < |todo| ==> todo[i] in c.broker.stamped
    ensures var c' := Pass(c, es);
      && c'.op.Some? && c'.op.value.state == Completed
      && c'.broker.stamped == c.broker.stamped - (set n | n in todo)
    decreases |todo|
  {
    if todo == [] {
      es := [Did(FinishRestore)];
      assert Pass(c, es) == PassStep(c, es[0]);
    } else {
      var c', o' := SettleHead(c, o, todo, pass);
      var rest := SettleAll(c', o', todo[1..], pass + [todo[0]]);
      es := [Did(SendCopy), Did(SettleCopy)] + rest;
      PassTwo(c, Did(SendCopy), Did(SettleCopy), rest);
      HeadOfSet(todo);
    }
  }

  /** With a stamped message locked by someone else, this pass can complete and leave it behind. */
  lemma StrayLockStrands(c: Cell) returns (es: seq<PassEvent>)
    requires AtPassStart(c) && exists n :: n in c.broker.locked
    ensures !LeavesNothing(Pass(c, es))
  {
    var o := c.op.value;
    var receives, got := ReceiveAll(c, o, []);
    var c1 := Pass(c, receives);
    var order := Ordered(c.job, got);
    OrderedIsOrder(c.job, got);
    SameElements(order, got);
    var settles := DrainAndSettle(c1, c1.op.value, got, order);
    es := receives + settles;
    PassConcat(c, receives, settles);
    var n :| n in c.broker.locked;
    assert n in Pass(c, es).broker.stamped;
  }

  /** Everything received is resent and settled; what was not received stays. */
  lemma DrainAndSettle(c: Cell, o: Operation, got: seq<int>, order: seq<int>) returns (es: seq<PassEvent>)
    requires c.job.ReachMessage? && c.op == Some(o) && o.task == Collecting(got) && c.broker.stamped <= c.broker.locked
    requires multiset(order) == multiset(got) && RestoreOrdered(c.job, order) && Distinct(order)
    requires forall n :: n in order ==> n in c.broker.stamped
    ensures var c' := Pass(c, es);
      && c'.op.Some? && c'.op.value.state == Completed
      && c'.broker.stamped == c.broker.stamped - (set n | n in order)
  {
    var c2 := PassStep(c, Did(Drained(order)));
    assert c2.op == Some(o.(task := Restoring(order, false, 0, []))) && c2.broker.stamped == c.broker.stamped;
    forall i | 0 <= i < |order| ensures order[i] in c.broker.stamped {
      assert order[i] in order;
    }
    var settles := SettleAll(c2, c2.op.value, order, []);
    es := [Did(Drained(order))] + settles;
    assert es[1..] == settles;
  }

  lemma SameElements(a: seq<int>, b: seq<int>)
    requires multiset(a) == multiset(b) && Distinct(b)
    ensures Distinct(a) && forall n :: n in a <==> n in b
  {
    forall n ensures n in a <==> n in b { assert n in multiset(a) <==> n in multiset(b); }
    forall n | n in b ensures multiset(b)[n] == 1 { CountDistinct(b, n); }
    forall i, j | 0 <= i < j < |a| ensures a[i] != a[j] {
      assert a[j] in b;
      if a[i] == a[j] {
        RepeatCounts(a, i, j);
        assert false;
      }
    }
  }

  lemma RepeatCounts(s: seq<int>, i: nat, j: nat)
    requires i < j < |s| && s[i] == s[j]
    ensures multiset(s)[s[j]] >= 2
  {
    assert s == s[..j] + [s[j]] + s[j + 1..];
    assert s[i] in s[..j];
  }

  lemma {:induction false} CountDistinct(s: seq<int>, n: int)
    requires Distinct(s) && n in s
    ensures multiset(s)[n] == 1
    decreases |s|
  {
    assert s == [s[0]] + s[1..];
    if s[0] == n {
      assert n !in s[1..];
    } else {
      CountDistinct(s[1..], n);
    }
  }

  /** A restore pass that starts now is sure to leave nothing stamped when it completes, whatever fails,
      expires or is cancelled on the way, exactly when no stamped message is locked. */
  lemma SureToLeaveNothing(c: Cell)
    requires AtPassStart(c)
    ensures (forall es :: LeavesNothing(Pass(c, es))) <==> c.broker.locked == {}
  {
    if forall n :: n !in c.broker.locked {
      assert c.broker.locked == {};
      forall es ensures LeavesNothing(Pass(c, es)) { OwnLocksPass(c, es); }
    } else {
      var es := StrayLockStrands(c);
      assert !LeavesNothing(Pass(c, es));
    }
  }

  /** So is the pass that begins right after the target was acted on. */
  lemma FirstPassIsSure(c: Cell)
    requires CellInv(c, None, 1) && c.job.ReachMessage? && c.op.Some? && c.op.value.task.Reached?
    ensures (forall es :: LeavesNothing(Pass(c, [Did(BeginRestore)] + es))) <==> c.broker.locked == {}
  {
    var c1 := TaskStep(c, BeginRestore);
    TaskStepKeeps(c, None, 1, BeginRestore);
    SureToLeaveNothing(c1);
    if c.broker.locked == {} {
      forall es ensures LeavesNothing(Pass(c, [Did(BeginRestore)] + es)) {
        BeginFirst(c, es);
        assert LeavesNothing(Pass(c1, es));
      }
    } else {
      var es :| !LeavesNothing(Pass(c1, es));
      BeginFirst(c, es);
      assert !LeavesNothing(Pass(c, [Did(BeginRestore)] + es));
    }
  }

  lemma BeginFirst(c: Cell, es: seq<PassEvent>)
    ensures Pass(c, [Did(BeginRestore)] + es) == Pass(TaskStep(c, BeginRestore), es)
  {
    assert ([Did(BeginRestore)] + es)[1..] == es;
  }
}
