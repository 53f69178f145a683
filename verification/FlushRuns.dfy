/** What a crash can make a replay repeat: every 25th confirmation asks for a save of the skip-set. */
module FlushRuns {
  import opened Wrappers
  import opened Operations
  import opened OperationInvariant
  import opened ReplayRuns
  import opened JournalRuns

  /** A confirmation that brings the skip-set to a multiple of 25 while no flush is in flight asks for one
      flush and marks it; any other confirmation asks for nothing. */
  lemma FlushAsked(c: Cell)
    requires c.op.Some? && c.job.ReplayTo? && InFlight(c).Some?
    ensures var o, o' := c.op.value, TaskStep(c, Confirm).op.value;
      && o'.processed == o.processed + {InFlight(c).value}
      && (if |o'.processed| % 25 == 0 && !o.flushing
          then o'.owed == o.owed + [Flush] && o'.flushing
          else o'.owed == o.owed && o'.flushing == o.flushing)
  {
  }

  /** Every way a runner ends, and the change from parking to restoring, asks for exactly one write of the
      runner; no other step of it does. */
  lemma EndingAsked(c: Cell, e: TaskEvent)
    requires c.op.Some?
    ensures var o, c' := c.op.value, TaskStep(c, e);
      && c'.op.Some?
      && var o' := c'.op.value;
         && ((!o.task.Idle? && o'.task.Idle?) || (o.task.Reached? && o'.task.Collecting?) ==>
               o'.owed == o.owed + [Runner])
         && (o'.owed == o.owed + [Runner] ==>
               (!o.task.Idle? && o'.task.Idle?) || (o.task.Reached? && o'.task.Collecting?))
  {
    if c.job.ReplayTo? { ReplayEndingAsked(c, e); } else { ReachEndingAsked(c, e); }
  }

  lemma ReplayEndingAsked(c: Cell, e: TaskEvent)
    requires c.op.Some? && c.job.ReplayTo?
    ensures var o, c' := c.op.value, TaskStep(c, e);
      && c'.op.Some? && !(o.task.Reached? && c'.op.value.task.Collecting?)
      && (!o.task.Idle? && c'.op.value.task.Idle? <==> c'.op.value.owed == o.owed + [Runner])
  {
    var o := c.op.value;
    assert o.owed != o.owed + [Runner] && o.owed + [Flush] != o.owed + [Runner] by {
      assert (o.owed + [Flush])[|o.owed|] != (o.owed + [Runner])[|o.owed|];
    }
  }

  lemma ReachEndingAsked(c: Cell, e: TaskEvent)
    requires c.op.Some? && c.job.ReachMessage?
    ensures var o, c' := c.op.value, TaskStep(c, e);
      && c'.op.Some?
      && ((!o.task.Idle? && c'.op.value.task.Idle?) || (o.task.Reached? && c'.op.value.task.Collecting?)
          <==> c'.op.value.owed == o.owed + [Runner])
  {
    assert c.op.value.owed != c.op.value.owed + [Runner];
  }

  // ---- Writes asked for and not landed ----

  function Times(owed: seq<Writer>, w: Writer): nat
    decreases |owed|
  {
    if owed == [] then 0 else Times(owed[..|owed| - 1], w) + Once(owed[|owed| - 1] == w)
  }

  function Waits(waiting: seq<Write>, w: Writer): nat
    decreases |waiting|
  {
    if waiting == [] then 0 else Waits(waiting[..|waiting| - 1], w) + Once(waiting[|waiting| - 1].writer == w)
  }

  /** How many writes of the kind the operation owes or has waiting for the persist gate. */
  function Outstanding(c: Cell, w: Writer): nat {
    if c.op.Some? then Times(c.op.value.owed, w) + Waits(c.op.value.waiting, w) else 0
  }

  /** How many were asked for and have not left the gate. */
  function Asked(s: System, id: OpId, w: Writer): nat
    requires id in s.cells
  {
    Outstanding(s.cells[id], w) + Once(s.held.Some? && s.held.value.id == id && s.held.value.writer == w)
  }

  function Mark(c: Cell): nat { Once(c.op.Some? && c.op.value.flushing) }

  /** One flush is asked for while the mark is set, and none otherwise. */
  predicate FlushMarked(s: System) {
    forall id :: id in s.cells ==> Asked(s, id, Flush) == Mark(s.cells[id])
  }

  /** At most one write of Start, Resume and Dismiss in the whole service, and the gate is taken for it. */
  predicate OneControl(s: System) {
    && (forall id :: id in s.cells ==> Asked(s, id, Control) <= Once(s.gateTaken))
    && (forall a, b :: a in s.cells && b in s.cells && Asked(s, a, Control) > 0 && Asked(s, b, Control) > 0 ==> a == b)
  }

  // ---- Counting ----

  lemma TimesMore(owed: seq<Writer>, x: Writer, w: Writer)
    ensures Times(owed + [x], w) == Times(owed, w) + Once(x == w)
  {
    assert (owed + [x])[..|owed|] == owed;
  }

  lemma WaitsMore(waiting: seq<Write>, x: Write, w: Writer)
    ensures Waits(waiting + [x], w) == Waits(waiting, w) + Once(x.writer == w)
  {
    assert (waiting + [x])[..|waiting|] == waiting;
  }

  lemma {:induction false} TimesLess(owed: seq<Writer>, i: nat, w: Writer)
    requires i < |owed|
    ensures Times(owed[..i] + owed[i + 1..], w) + Once(owed[i] == w) == Times(owed, w)
    decreases |owed|
  {
    var n := |owed| - 1;
    if i == n {
      assert owed[..i] + owed[i + 1..] == owed[..n];
    } else {
      TimesLess(owed[..n], i, w);
      assert owed[..i] + owed[i + 1..] == (owed[..n][..i] + owed[..n][i + 1..]) + [owed[n]];
      TimesMore(owed[..n][..i] + owed[..n][i + 1..], owed[n], w);
    }
  }

  lemma {:induction false} WaitsLess(waiting: seq<Write>, i: nat, w: Writer)
    requires i < |waiting|
    ensures Waits(waiting[..i] + waiting[i + 1..], w) + Once(waiting[i].writer == w) == Waits(waiting, w)
    decreases |waiting|
  {
    var n := |waiting| - 1;
    if i == n {
      assert waiting[..i] + waiting[i + 1..] == waiting[..n];
    } else {
      WaitsLess(waiting[..n], i, w);
      assert waiting[..i] + waiting[i + 1..] == (waiting[..n][..i] + waiting[..n][i + 1..]) + [waiting[n]];
      WaitsMore(waiting[..n][..i] + waiting[..n][i + 1..], waiting[n], w);
    }
  }

  // ---- What a step asks for ----

  lemma CaptureAsks(c: Cell, index: nat, w: Writer)
    ensures Outstanding(CaptureStep(c, index), w) == Outstanding(c, w) && Mark(CaptureStep(c, index)) == Mark(c)
  {
    if c.op.Some? && index < |c.op.value.owed| {
      MovesOne(c.op.value, CaptureStep(c, index).op.value, index, w);
    }
  }

  /** From the writes owed to those waiting. */
  lemma MovesOne(o: Operation, o': Operation, index: nat, w: Writer)
    requires index < |o.owed| && o'.owed == o.owed[..index] + o.owed[index + 1..]
    requires |o'.waiting| == |o.waiting| + 1 && o'.waiting[..|o.waiting|] == o.waiting
    requires o'.waiting[|o.waiting|].writer == o.owed[index]
    ensures Times(o'.owed, w) + Waits(o'.waiting, w) == Times(o.owed, w) + Waits(o.waiting, w)
  {
    TimesLess(o.owed, index, w);
  }

  lemma AcquireAsks(s: System, id: OpId, index: nat, other: OpId, w: Writer)
    requires other in s.cells
    ensures var s' := AcquireStep(s, id, index);
      && other in s'.cells && Asked(s', other, w) == Asked(s, other, w)
      && Mark(s'.cells[other]) == Mark(s.cells[other]) && s'.gateTaken == s.gateTaken
  {
    if id in s.cells && s.held.None? && s.cells[id].op.Some? && index < |s.cells[id].op.value.waiting| {
      WaitsLess(s.cells[id].op.value.waiting, index, w);
    }
  }

  /** A step of the background task asks for at most one write, a closing one or a flush that it marks. */
  predicate AsksOne(o: Operation, o': Operation) {
    && o'.waiting == o.waiting
    && (|| (o'.owed == o.owed && o'.flushing == o.flushing)
        || (o'.owed == o.owed + [Runner] && o'.flushing == o.flushing)
        || (o'.owed == o.owed + [Flush] && !o.flushing && o'.flushing))
  }

  lemma ReplayAsksOne(c: Cell, e: TaskEvent)
    requires c.op.Some? && c.job.ReplayTo?
    ensures var c' := ReplayStep(c, c.op.value, e); c'.op.Some? && AsksOne(c.op.value, c'.op.value)
  {
  }

  lemma ReachAsksOne(c: Cell, e: TaskEvent)
    requires c.op.Some? && c.job.ReachMessage?
    ensures var c' := ReachStep(c, c.op.value, e); c'.op.Some? && AsksOne(c.op.value, c'.op.value)
  {
  }

  lemma OneAsked(o: Operation, o': Operation)
    requires AsksOne(o, o')
    ensures Times(o'.owed, Control) == Times(o.owed, Control)
    ensures Times(o'.owed, Flush) + Once(o.flushing) == Times(o.owed, Flush) + Once(o'.flushing)
  {
    forall w ensures Times(o.owed + [Runner], w) == Times(o.owed, w) + Once(Runner == w) {
      TimesMore(o.owed, Runner, w);
    }
    forall w ensures Times(o.owed + [Flush], w) == Times(o.owed, w) + Once(Flush == w) {
      TimesMore(o.owed, Flush, w);
    }
  }

  /** The cell asks for what it asked for before, but for a flush that it marks. */
  predicate SameAsked(c: Cell, c': Cell) {
    && Outstanding(c', Control) == Outstanding(c, Control)
    && Outstanding(c', Flush) + Mark(c) == Outstanding(c, Flush) + Mark(c')
  }

  lemma TaskAsks(c: Cell, e: TaskEvent)
    ensures SameAsked(c, TaskStep(c, e))
  {
    if c.op.Some? {
      if c.job.ReplayTo? { ReplayAsksOne(c, e); } else { ReachAsksOne(c, e); }
      OneAsked(c.op.value, TaskStep(c, e).op.value);
    }
  }

  lemma LocalAsks(s: System, e: Event, id: OpId)
    requires id in s.cells && (Local(e) || e.Cancel?)
    ensures id in Apply(s, e).cells && SameAsked(s.cells[id], Apply(s, e).cells[id])
    ensures Apply(s, e).gateTaken == s.gateTaken && Apply(s, e).held == s.held
  {
    match e
    case Step(at, task) => TaskAsks(s.cells[id], task);
    case Capture(at, index) =>
      CaptureAsks(s.cells[id], index, Control);
      CaptureAsks(s.cells[id], index, Flush);
    case _ => NothingAsked(s, e, id);
  }

  lemma NothingAsked(s: System, e: Event, id: OpId)
    requires id in s.cells && (e.LockExpires? || e.Borrow? || e.Take? || e.Cancel?)
    ensures id in Apply(s, e).cells && SameAsked(s.cells[id], Apply(s, e).cells[id])
    ensures Apply(s, e).gateTaken == s.gateTaken && Apply(s, e).held == s.held
  {
  }

  /** A landing write is asked for no more; a flush takes its mark along. */
  lemma LandAsks(s: System, ok: bool, id: OpId, w: Writer)
    requires Inv(s) && s.held.Some? && id in s.cells
    ensures var s', own := LandStep(s, ok), s.held.value.id == id;
      && id in s'.cells
      && Asked(s', id, w) + Once(own && s.held.value.writer == w) == Asked(s, id, w)
      && Mark(s'.cells[id]) == (if own && s.held.value.writer == Flush then 0 else Mark(s.cells[id]))
      && s'.gateTaken == (s.gateTaken && s.held.value.writer != Control)
  {
    assert CellInv(s.cells[id], HeldRow(s, id), s.lostWrites);
    var c := s.cells[id];
    if s.held.value.id == id { ReleasedAsks(c.(cached := Some(s.held.value.entry)), s.held.value.writer, w); }
  }

  lemma ReleasedAsks(c: Cell, writer: Writer, w: Writer)
    requires c.op.Some?
    ensures var c' := Released(c, writer);
      Outstanding(c', w) == Outstanding(c, w) && Mark(c') == if writer == Flush then 0 else Mark(c)
  {
  }

  /** Start, Resume and Dismiss ask for one write of their own operation, under a gate that was free. */
  predicate ControlAsked(s: System, s': System, at: OpId) {
    || s' == s
    || (&& !s.gateTaken && s'.gateTaken && s'.held == s.held && at in s'.cells && s'.cells.Keys == s.cells.Keys + {at}
        && (forall id :: id in s.cells && id != at ==> s'.cells[id] == s.cells[id])
        && Outstanding(s'.cells[at], Control) == (if at in s.cells then Outstanding(s.cells[at], Control) else 0) + 1
        && Outstanding(s'.cells[at], Flush) == (if at in s.cells then Outstanding(s.cells[at], Flush) else 0)
        && Mark(s'.cells[at]) == (if at in s.cells then Mark(s.cells[at]) else 0))
  }

  lemma StartAsks(s: System, id: OpId, entity: Entity, job: Job)
    ensures ControlAsked(s, StartStep(s, id, entity, job), id)
  {
    TimesMore([], Control, Control);
    TimesMore([], Control, Flush);
    assert [] + [Control] == [Control];
  }

  lemma ResumeAsks(s: System, id: OpId, resolves: bool)
    ensures ControlAsked(s, ResumeStep(s, id, resolves), id)
  {
    if id in s.cells && s.cells[id].op.Some? {
      TimesMore(s.cells[id].op.value.owed, Control, Control);
      TimesMore(s.cells[id].op.value.owed, Control, Flush);
    }
  }

  lemma DismissAsks(s: System, id: OpId)
    ensures ControlAsked(s, DismissStep(s, id), id)
  {
    if id in s.cells && s.cells[id].op.Some? {
      TimesMore(s.cells[id].op.value.owed, Control, Control);
      TimesMore(s.cells[id].op.value.owed, Control, Flush);
    }
  }

  lemma ControlAsks(s: System, e: Event)
    requires e.Start? || e.Resume? || e.Dismiss?
    ensures ControlAsked(s, Apply(s, e), e.id)
  {
    match e
    case Start(id, entity, job) => StartAsks(s, id, entity, job);
    case Resume(id, resolves) => ResumeAsks(s, id, resolves);
    case Dismiss(id) => DismissAsks(s, id);
  }

  // ---- In every run ----

  lemma ControlKeepsMarks(s: System, s': System, at: OpId)
    requires Inv(s) && FlushMarked(s) && OneControl(s) && ControlAsked(s, s', at)
    ensures FlushMarked(s') && OneControl(s')
  {
    if s' != s {
      forall id | id in s'.cells
        ensures Asked(s', id, Flush) == Mark(s'.cells[id]) && Asked(s', id, Control) == Once(id == at)
      {
        if id in s.cells {
          assert Asked(s, id, Control) == 0 && Asked(s, id, Flush) == Mark(s.cells[id]);
        }
      }
    }
  }

  lemma LocalKeepsMarks(s: System, e: Event)
    requires FlushMarked(s) && OneControl(s) && (Local(e) || e.Cancel?)
    ensures FlushMarked(Apply(s, e)) && OneControl(Apply(s, e))
  {
    var s' := Apply(s, e);
    assert s'.cells.Keys == s.cells.Keys;
    forall id | id in s.cells
      ensures id in s'.cells && Asked(s', id, Control) == Asked(s, id, Control)
      ensures Asked(s', id, Flush) == Mark(s'.cells[id]) && s'.gateTaken == s.gateTaken
    {
      LocalAsks(s, e, id);
    }
  }

  lemma AcquireKeepsMarks(s: System, at: OpId, index: nat)
    requires FlushMarked(s) && OneControl(s)
    ensures FlushMarked(AcquireStep(s, at, index)) && OneControl(AcquireStep(s, at, index))
  {
    var s' := AcquireStep(s, at, index);
    assert s'.cells.Keys == s.cells.Keys;
    forall id | id in s.cells
      ensures Asked(s', id, Control) == Asked(s, id, Control)
      ensures Asked(s', id, Flush) == Mark(s'.cells[id]) && s'.gateTaken == s.gateTaken
    {
      AcquireAsks(s, at, index, id, Control);
      AcquireAsks(s, at, index, id, Flush);
    }
  }

  lemma LandKeepsMarks(s: System, ok: bool)
    requires Inv(s) && FlushMarked(s) && OneControl(s)
    ensures FlushMarked(LandStep(s, ok)) && OneControl(LandStep(s, ok))
  {
    if s.held.Some? {
      var s', h := LandStep(s, ok), s.held.value;
      assert s'.cells.Keys == s.cells.Keys;
      assert Asked(s, h.id, h.writer) > 0;
      forall id | id in s.cells
        ensures Asked(s', id, Control) <= Asked(s, id, Control) && Asked(s', id, Control) <= Once(s'.gateTaken)
        ensures Asked(s', id, Flush) == Mark(s'.cells[id])
      {
        LandAsks(s, ok, id, Control);
        LandAsks(s, ok, id, Flush);
      }
    }
  }

  lemma CrashKeepsMarks(s: System)
    ensures FlushMarked(CrashStep(s)) && OneControl(CrashStep(s))
  {
  }

  lemma MarksKept(s: System, e: Event)
    requires Inv(s) && FlushMarked(s) && OneControl(s)
    ensures FlushMarked(Apply(s, e)) && OneControl(Apply(s, e))
  {
    if Local(e) || e.Cancel? {
      LocalKeepsMarks(s, e);
    } else if e.Land? {
      LandKeepsMarks(s, e.ok);
    } else if e.Acquire? {
      AcquireKeepsMarks(s, e.id, e.index);
    } else if e.Crash? {
      CrashKeepsMarks(s);
    } else {
      ControlAsks(s, e);
      ControlKeepsMarks(s, Apply(s, e), e.id);
    }
  }

  /** At any moment of any run: a flush is asked for exactly while it is marked, never twice; and only one
      write of Start, Resume and Dismiss is on its way in the whole service. */
  lemma {:induction false} WritesAsked(es: seq<Event>)
    ensures FlushMarked(Execute(Initial(), es)) && OneControl(Execute(Initial(), es))
    decreases |es|
  {
    if es != [] {
      WritesAsked(es[..|es| - 1]);
      RunKeeps(es[..|es| - 1]);
      MarksKept(Execute(Initial(), es[..|es| - 1]), es[|es| - 1]);
    }
  }

  // ---- How much is not saved ----

  /** With so many confirmed: the saved ones reach the last multiple of 25 but one, or the last one when no
      flush is on its way; and those a flush in the gate carries reach the last one. */
  predicate Reaches(known: nat, saved: nat, flushes: nat, carried: Option<nat>) {
    var due := known - known % 25;
    && saved + 25 >= due && (flushes == 0 ==> saved >= due)
    && (carried.Some? ==> carried.value >= due)
  }

  function Carried(s: System, id: OpId): Option<nat> {
    if HeldRow(s, id).Some? && s.held.value.writer == Flush then Some(|HeldRow(s, id).value.processed|) else None
  }

  /** So it is while a replay transfers. */
  predicate SavedUp(s: System, id: OpId) {
    id in s.cells && s.cells[id].op.Some? && s.cells[id].op.value.task.Transferring? ==>
      Reaches(|Known(s.cells[id])|, |Skips(s.cells[id].disk)|, Asked(s, id, Flush), Carried(s, id))
  }

  /** The write that a start or a resume waits for carries the whole skip-set. */
  predicate StartsWhole(s: System, id: OpId) {
    id in s.cells && s.cells[id].op.Some? && s.cells[id].op.value.task.Starting?
    && HeldRow(s, id).Some? && s.held.value.writer == Control ==>
      HeldRow(s, id).value.processed == s.cells[id].op.value.processed
  }

  /** A confirmation that reaches a multiple of 25 finds every flush asked for before it landed. */
  predicate InTime(s: System, e: Event, id: OpId) {
    e == Step(id, Confirm) && id in s.cells && InFlight(s.cells[id]).Some?
    && |Known(s.cells[id]) + {InFlight(s.cells[id]).value}| % 25 == 0 ==>
      Asked(s, id, Flush) == 0
  }

  lemma {:induction false} SubsetSize<T>(a: set<T>, b: set<T>)
    requires a <= b
    ensures |a| <= |b| && |b - a| == |b| - |a|
  {
    assert b == a + (b - a);
  }

  /** One more confirmed: the last multiple stays, or it is the next one and a flush is asked for. */
  lemma NextReaches(known: nat, saved: nat, flushes: nat, carried: Option<nat>)
    requires Reaches(known, saved, flushes, carried)
    requires (known + 1) % 25 == 0 ==> flushes == 0 && carried == None
    ensures Reaches(known + 1, saved, flushes + Once((known + 1) % 25 == 0), carried)
  {
  }

  lemma ConfirmAsks(s: System, id: OpId)
    requires FlushMarked(s) && InTime(s, Step(id, Confirm), id)
    requires id in s.cells && s.cells[id].job.ReplayTo? && InFlight(s.cells[id]).Some?
    requires InFlight(s.cells[id]).value !in Known(s.cells[id])
    ensures var c, c' := s.cells[id], TaskStep(s.cells[id], Confirm);
      && |Known(c')| == |Known(c)| + 1
      && Outstanding(c', Flush) == Outstanding(c, Flush) + Once(|Known(c')| % 25 == 0)
      && (|Known(c')| % 25 == 0 ==> Asked(s, id, Flush) == 0)
  {
    var c := s.cells[id];
    assert Asked(s, id, Flush) == Mark(c);
    FlushAsked(c);
    TimesMore(c.op.value.owed, Flush, Flush);
    assert TaskStep(c, Confirm).op.value.waiting == c.op.value.waiting;
  }

  lemma InFlightUnknown(s: System, id: OpId)
    requires Inv(s) && id in s.cells && s.cells[id].job.ReplayTo? && InFlight(s.cells[id]).Some?
    ensures InFlight(s.cells[id]).value !in Known(s.cells[id])
  {
    assert CellInv(s.cells[id], HeldRow(s, id), s.lostWrites);
  }

  lemma ConfirmSavesUp(s: System, id: OpId)
    requires Inv(s) && FlushMarked(s) && SavedUp(s, id) && InTime(s, Step(id, Confirm), id)
    requires id in s.cells && s.cells[id].job.ReplayTo? && InFlight(s.cells[id]).Some?
    ensures SavedUp(Apply(s, Step(id, Confirm)), id)
  {
    InFlightUnknown(s, id);
    ConfirmAsks(s, id);
    ConfirmedReaches(s, id);
    NotCarried(s, id);
    var c := s.cells[id];
    NextReaches(|Known(c)|, |Skips(c.disk)|, Asked(s, id, Flush), Carried(s, id));
  }

  lemma NotCarried(s: System, id: OpId)
    requires id in s.cells
    ensures Asked(s, id, Flush) == 0 ==> Carried(s, id) == None
  {
  }

  lemma ConfirmedReaches(s: System, id: OpId)
    requires id in s.cells && InFlight(s.cells[id]).Some? && s.cells[id].job.ReplayTo?
    ensures var s', c, c' := Apply(s, Step(id, Confirm)), s.cells[id], TaskStep(s.cells[id], Confirm);
      && s'.cells[id] == c' && c'.disk == c.disk && Carried(s', id) == Carried(s, id)
      && Asked(s', id, Flush) + Outstanding(c, Flush) == Asked(s, id, Flush) + Outstanding(c', Flush)
  {
  }

  /** Everything of a cell that matters here. */
  predicate AlikeCell(c: Cell, c': Cell) {
    && c'.disk == c.disk && Known(c') == Known(c) && c'.op.Some? == c.op.Some?
    && Outstanding(c', Flush) == Outstanding(c, Flush)
    && (c.op.Some? ==>
          && (c'.op.value.task.Transferring? ==> c.op.value.task.Transferring?)
          && (c'.op.value.task.Starting? ==> c.op.value.task.Starting?))
  }

  predicate Alike(s: System, s': System, id: OpId) {
    id in s.cells && id in s'.cells && s'.held == s.held && AlikeCell(s.cells[id], s'.cells[id])
  }

  lemma AlikeSaves(s: System, s': System, id: OpId)
    requires SavedUp(s, id) && StartsWhole(s, id) && Alike(s, s', id)
    ensures SavedUp(s', id) && StartsWhole(s', id)
  {
    assert Asked(s', id, Flush) == Asked(s, id, Flush) && Carried(s', id) == Carried(s, id);
  }

  lemma OtherStepKnows(c: Cell, e: TaskEvent)
    requires c.op.Some? && c.job.ReplayTo? && e != Confirm
    ensures var c' := ReplayStep(c, c.op.value, e);
      && c'.op.Some? && c'.disk == c.disk && Known(c') == Known(c)
      && (c'.op.value.task.Transferring? ==> c.op.value.task.Transferring?)
      && (c'.op.value.task.Starting? ==> c.op.value.task.Starting?)
      && c'.op.value.waiting == c.op.value.waiting
      && (c'.op.value.owed == c.op.value.owed || c'.op.value.owed == c.op.value.owed + [Runner])
  {
  }

  lemma OtherStepAlike(c: Cell, e: TaskEvent)
    requires c.op.Some? && c.job.ReplayTo? && e != Confirm
    ensures AlikeCell(c, TaskStep(c, e))
  {
    OtherStepKnows(c, e);
    TimesMore(c.op.value.owed, Runner, Flush);
  }

  lemma OtherStepSavesUp(s: System, id: OpId, e: TaskEvent)
    requires SavedUp(s, id) && StartsWhole(s, id) && e != Confirm && id in s.cells
    requires s.cells[id].op.Some? && s.cells[id].job.ReplayTo?
    ensures SavedUp(Apply(s, Step(id, e)), id) && StartsWhole(Apply(s, Step(id, e)), id)
  {
    OtherStepAlike(s.cells[id], e);
    AlikeSaves(s, Apply(s, Step(id, e)), id);
  }

  lemma ConfirmStartsWhole(s: System, id: OpId)
    requires StartsWhole(s, id) && id in s.cells && s.cells[id].op.Some? && s.cells[id].job.ReplayTo?
    ensures StartsWhole(Apply(s, Step(id, Confirm)), id)
    ensures InFlight(s.cells[id]) == None ==> TaskStep(s.cells[id], Confirm) == s.cells[id]
  {
  }

  lemma OwnStepSaves(s: System, id: OpId, e: TaskEvent)
    requires Inv(s) && FlushMarked(s) && SavedUp(s, id) && StartsWhole(s, id) && InTime(s, Step(id, e), id)
    requires id in s.cells && s.cells[id].job.ReplayTo?
    ensures SavedUp(Apply(s, Step(id, e)), id) && StartsWhole(Apply(s, Step(id, e)), id)
  {
    var c := s.cells[id];
    if c.op.None? {
      assert TaskStep(c, e) == c;
    } else if e != Confirm {
      OtherStepSavesUp(s, id, e);
    } else {
      ConfirmStartsWhole(s, id);
      if InFlight(c).Some? {
        ConfirmSavesUp(s, id);
      } else {
        assert Apply(s, Step(id, Confirm)).cells[id] == c;
      }
    }
  }

  lemma CaptureSaves(s: System, id: OpId, index: nat)
    requires SavedUp(s, id) && StartsWhole(s, id) && id in s.cells
    ensures SavedUp(Apply(s, Capture(id, index)), id) && StartsWhole(Apply(s, Capture(id, index)), id)
  {
    CaptureAsks(s.cells[id], index, Flush);
  }

  lemma AcquireSaves(s: System, at: OpId, index: nat, id: OpId)
    requires SavedUp(s, id) && StartsWhole(s, id) && id in s.cells
    ensures SavedUp(AcquireStep(s, at, index), id) && StartsWhole(AcquireStep(s, at, index), id)
  {
    AcquireAsks(s, at, index, id, Flush);
  }

  lemma ResumeSaves(s: System, id: OpId, resolves: bool)
    requires OneControl(s) && SavedUp(s, id) && StartsWhole(s, id) && id in s.cells
    ensures SavedUp(ResumeStep(s, id, resolves), id) && StartsWhole(ResumeStep(s, id, resolves), id)
  {
    var s' := ResumeStep(s, id, resolves);
    if s' != s {
      assert Asked(s, id, Control) == 0;
      TimesMore(s.cells[id].op.value.owed, Control, Flush);
      if s'.cells[id].op.value.task.Transferring? { assert Asked(s', id, Flush) == Asked(s, id, Flush); }
    }
  }

  lemma DismissSaves(s: System, id: OpId)
    requires SavedUp(s, id) && StartsWhole(s, id) && id in s.cells
    ensures SavedUp(DismissStep(s, id), id) && StartsWhole(DismissStep(s, id), id)
  {
    if DismissStep(s, id) != s {
      TimesMore(s.cells[id].op.value.owed, Control, Flush);
      AlikeSaves(s, DismissStep(s, id), id);
    }
  }

  /** A successful save of this operation's row. */
  lemma OwnLandSaves(s: System, id: OpId)
    requires Inv(s) && FlushMarked(s) && SavedUp(s, id) && StartsWhole(s, id)
    requires id in s.cells && s.cells[id].job.ReplayTo? && s.held.Some? && s.held.value.id == id
    ensures SavedUp(LandStep(s, true), id) && StartsWhole(LandStep(s, true), id)
  {
    var c, h, c' := s.cells[id], s.held.value, LandStep(s, true).cells[id];
    OwnLanded(s, id);
    LandAsks(s, true, id, Flush);
    NotCarried(s, id);
    SubsetSize(Skips(c.disk), h.entry.processed);
    assert Carried(LandStep(s, true), id) == None;
    if c'.op.value.task.Transferring? && !c.op.value.task.Transferring? {
      assert h.entry.processed == Known(c);
    }
  }

  lemma OwnLanded(s: System, id: OpId)
    requires Inv(s) && id in s.cells && s.cells[id].job.ReplayTo? && s.held.Some? && s.held.value.id == id
    ensures var c, h, c' := s.cells[id], s.held.value, LandStep(s, true).cells[id];
      && c.op.Some? && c'.op.Some? && c'.disk == Some(h.entry) && Known(c') == Known(c)
      && Skips(c.disk) <= h.entry.processed
      && (c'.op.value.task == c.op.value.task || (h.writer == Control && c.op.value.task.Starting?))
  {
    assert CellInv(s.cells[id], HeldRow(s, id), s.lostWrites);
  }

  /** A successful save of another operation's row puts this one's cached row on disk. */
  lemma OtherLandSaves(s: System, id: OpId)
    requires Inv(s) && SavedUp(s, id) && StartsWhole(s, id)
    requires id in s.cells && s.held.Some? && s.held.value.id != id
    ensures SavedUp(LandStep(s, true), id) && StartsWhole(LandStep(s, true), id)
  {
    var c, s' := s.cells[id], LandStep(s, true);
    assert CellInv(c, HeldRow(s, id), s.lostWrites);
    LandAsks(s, true, id, Flush);
    assert s.held.value.id in s.cells && s'.cells[id] == Saved(c);
    SubsetSize(Skips(c.disk), Skips(c.cached));
  }

  /** Every step keeps it, as long as no save fails and every flush lands in time. */
  lemma StepSaves(s: System, e: Event, id: OpId)
    requires Inv(s) && FlushMarked(s) && OneControl(s) && SavedUp(s, id) && StartsWhole(s, id) && InTime(s, e, id)
    requires id in s.cells && s.cells[id].job.ReplayTo? && Apply(s, e).lostWrites == 0
    ensures SavedUp(Apply(s, e), id) && StartsWhole(Apply(s, e), id)
  {
    if e.Step? || e.Capture? || e.Acquire? || e.Land? {
      WorkSaves(s, e, id);
    } else if e.Resume? || e.Dismiss? {
      ReopeningSaves(s, e, id);
    } else if !e.Crash? {
      QuietAlike(s, e, id);
      AlikeSaves(s, Apply(s, e), id);
    }
  }

  lemma WorkSaves(s: System, e: Event, id: OpId)
    requires Inv(s) && FlushMarked(s) && SavedUp(s, id) && StartsWhole(s, id) && InTime(s, e, id)
    requires id in s.cells && s.cells[id].job.ReplayTo? && Apply(s, e).lostWrites == 0
    requires e.Step? || e.Capture? || e.Acquire? || e.Land?
    ensures SavedUp(Apply(s, e), id) && StartsWhole(Apply(s, e), id)
  {
    match e
    case Step(at, task) => if at == id { OwnStepSaves(s, id, task); } else { ElsewhereSaves(s, e, id); }
    case Capture(at, index) => if at == id { CaptureSaves(s, id, index); } else { ElsewhereSaves(s, e, id); }
    case Acquire(at, index) => AcquireSaves(s, at, index, id);
    case Land(ok) =>
      if s.held.Some? {
        if s.held.value.id == id { OwnLandSaves(s, id); } else { OtherLandSaves(s, id); }
      }
  }

  lemma ReopeningSaves(s: System, e: Event, id: OpId)
    requires OneControl(s) && SavedUp(s, id) && StartsWhole(s, id) && id in s.cells && (e.Resume? || e.Dismiss?)
    ensures SavedUp(Apply(s, e), id) && StartsWhole(Apply(s, e), id)
  {
    if e.id != id {
      ElsewhereSaves(s, e, id);
    } else if e.Resume? {
      ResumeSaves(s, id, e.targetResolves);
    } else {
      DismissSaves(s, id);
    }
  }

  lemma ElsewhereSaves(s: System, e: Event, id: OpId)
    requires SavedUp(s, id) && StartsWhole(s, id) && id in s.cells
    requires (e.Step? || e.Capture? || e.Resume? || e.Dismiss?) && e.id != id
    ensures SavedUp(Apply(s, e), id) && StartsWhole(Apply(s, e), id)
  {
    assert Alike(s, Apply(s, e), id);
    AlikeSaves(s, Apply(s, e), id);
  }

  lemma QuietAlike(s: System, e: Event, id: OpId)
    requires id in s.cells && (e.Start? || e.Cancel? || e.LockExpires? || e.Borrow? || e.Take?)
    ensures Apply(s, e) == s || Alike(s, Apply(s, e), id)
  {
  }

  lemma LostStays(s: System, e: Event)
    ensures Apply(s, e).lostWrites >= s.lostWrites
  {
  }

  lemma NewSaves(s: System, e: Event, id: OpId)
    requires Inv(s) && id !in s.cells && id in Apply(s, e).cells
    ensures SavedUp(Apply(s, e), id) && StartsWhole(Apply(s, e), id)
  {
    if !e.Start? { OnlyStartAdds(s, e); }
  }

  lemma {:induction false} RunSaves(es: seq<Event>, k: nat, id: OpId)
    requires k <= |es| && forall i :: 0 <= i < |es| ==> InTime(Execute(Initial(), es[..i]), es[i], id)
    requires var s := Execute(Initial(), es[..k]); s.lostWrites == 0 && id in s.cells && s.cells[id].job.ReplayTo?
    ensures SavedUp(Execute(Initial(), es[..k]), id) && StartsWhole(Execute(Initial(), es[..k]), id)
    decreases k
  {
    if k > 0 {
      var s, e := Execute(Initial(), es[..k - 1]), es[k - 1];
      assert es[..k][..k - 1] == es[..k - 1];
      RunKeeps(es[..k - 1]);
      WritesAsked(es[..k - 1]);
      LostStays(s, e);
      if id in s.cells {
        JobStays(s, e, id);
        RunSaves(es, k - 1, id);
        assert InTime(s, e, id);
        StepSaves(s, e, id);
      } else {
        NewSaves(s, e, id);
      }
    }
  }

  /** Over whole runs: if no save fails, and every confirmation that reaches a multiple of 25 finds the flush
      asked for before landed, a crash during a pass parts memory from the saved skip-set by at most the
      confirmations since the last multiple of 25, and by 25 more only while a flush is on its way. */
  lemma RedoBound(es: seq<Event>, id: OpId)
    requires forall i :: 0 <= i < |es| ==> InTime(Execute(Initial(), es[..i]), es[i], id)
    requires var s := Execute(Initial(), es);
      s.lostWrites == 0 && id in s.cells && s.cells[id].op.Some? && s.cells[id].op.value.task.Transferring?
    ensures var s := Execute(Initial(), es);
      var c, c' := s.cells[id], CrashStep(s).cells[id];
      && c'.op.Some? && c'.op.value.processed <= c.op.value.processed
      && var unsaved := |c.op.value.processed - c'.op.value.processed|;
         && (Asked(s, id, Flush) == 0 ==> unsaved <= |c.op.value.processed| % 25 < 25)
         && unsaved <= |c.op.value.processed| % 25 + 25 < 50
  {
    var s := Execute(Initial(), es);
    assert es[..|es|] == es;
    RunKeeps(es);
    var c := s.cells[id];
    assert CellInv(c, HeldRow(s, id), s.lostWrites);
    RunSaves(es, |es|, id);
    SubsetSize(Skips(c.disk), Known(c));
  }

  // ---- The bound is met ----

  function UpTo(n: nat): (r: set<int>)
    ensures forall i :: i in r <==> 0 <= i < n
  {
    if n == 0 then {} else UpTo(n - 1) + {n - 1}
  }

  /** A replay that has confirmed some of its sequences, the 25th last if so many. */
  function ConfirmedCell(all: set<int>, done: set<int>): Cell {
    var row := Some(Entry(SavedRunning, {}));
    Cell(0, ReplayTo(all, false, true), Some(Operation(Running, done, {}, false, |done| >= 25,
                                   Transferring(all - done, None, {}), if |done| >= 25 then [Flush] else [], [])),
         row, row, Untouched.(sent := multiset(done)))
  }

  function Confirming(n: nat): seq<Event> {
    if n == 0 then [] else Confirming(n - 1) + [Step(0, Send(n - 1)), Step(0, Confirm)]
  }

  lemma {:induction false} UpToSize(n: nat)
    ensures |UpTo(n)| == n
  {
    if n > 0 { UpToSize(n - 1); }
  }

  /** The same with one more sent and not yet confirmed. */
  function SentCell(all: set<int>, done: set<int>, n: int): Cell {
    var c := ConfirmedCell(all, done);
    c.(op := Some(c.op.value.(task := Transferring(all - (done + {n}), Some(n), {}))),
       broker := c.broker.(sent := multiset(done + {n})))
  }

  lemma SendsNext(all: set<int>, done: set<int>, n: int)
    requires n !in done && n in all
    ensures TaskStep(ConfirmedCell(all, done), Send(n)) == SentCell(all, done, n)
  {
    OneMoreDone(all, done, n);
  }

  lemma OneMoreDone(all: set<int>, done: set<int>, n: int)
    requires n !in done && n in all
    ensures n in all - done && all - done - {n} == all - (done + {n})
    ensures multiset(done)[n := multiset(done)[n] + 1] == multiset(done + {n})
  {
  }

  lemma ConfirmsNext(all: set<int>, done: set<int>, n: int)
    requires |done| < 25 && n !in done
    ensures TaskStep(SentCell(all, done, n), Confirm) == ConfirmedCell(all, done + {n})
  {
    assert |done + {n}| == |done| + 1;
    assert [] + [Flush] == [Flush];
  }

  lemma OneConfirmation(all: set<int>, done: set<int>, n: int)
    requires |done| < 25 && n !in done && n in all
    ensures Execute(Alone(ConfirmedCell(all, done), false), [Step(0, Send(n)), Step(0, Confirm)])
      == Alone(ConfirmedCell(all, done + {n}), false)
  {
    PairOfSteps(ConfirmedCell(all, done), Send(n), Confirm);
    SendsNext(all, done, n);
    ConfirmsNext(all, done, n);
  }

  lemma UpToNext(all: set<int>, n: nat)
    requires n > 0 && UpTo(n) <= all
    ensures UpTo(n - 1) <= all && n - 1 in all && n - 1 !in UpTo(n - 1) && UpTo(n) == UpTo(n - 1) + {n - 1}
    ensures |UpTo(n - 1)| == n - 1
  {
    UpToSize(n - 1);
  }

  /** The operation alone, with the first n confirmed. */
  function AfterConfirming(all: set<int>, n: nat): System { Alone(ConfirmedCell(all, UpTo(n)), false) }

  lemma {:induction false} ConfirmsMany(all: set<int>, n: nat)
    requires n <= 25 && UpTo(n) <= all
    ensures Execute(AfterConfirming(all, 0), Confirming(n)) == AfterConfirming(all, n)
  {
    if n > 0 {
      UpToNext(all, n);
      ConfirmsMany(all, n - 1);
      var two := [Step(0, Send(n - 1)), Step(0, Confirm)];
      ExecuteConcat(AfterConfirming(all, 0), Confirming(n - 1), two);
      OneConfirmation(all, UpTo(n - 1), n - 1);
      assert Confirming(n) == Confirming(n - 1) + two;
    }
  }

  lemma PairOfSteps(c: Cell, a: TaskEvent, b: TaskEvent)
    ensures Execute(Alone(c, false), [Step(0, a), Step(0, b)]) == Alone(TaskStep(TaskStep(c, a), b), false)
  {
    assert [Step(0, a), Step(0, b)] == [Step(0, a)] + [Step(0, b)];
    ExecuteConcat(Alone(c, false), [Step(0, a)], [Step(0, b)]);
    ExecuteOne(Alone(c, false), Step(0, a));
    StepAlone(c, a);
    ExecuteOne(Alone(TaskStep(c, a), false), Step(0, b));
    StepAlone(TaskStep(c, a), b);
  }

  lemma ReplayStarts(all: set<int>)
    ensures Execute(Initial(), [Start(0, 0, ReplayTo(all, false, true))] + Saving(0))
      == Alone(ConfirmedCell(all, {}), false)
  {
    ExecuteConcat(Initial(), [Start(0, 0, ReplayTo(all, false, true))], Saving(0));
    ExecuteOne(Initial(), Start(0, 0, ReplayTo(all, false, true)));
    var c := Cell(0, ReplayTo(all, false, true), Some(FreshOperation()), None, None, Untouched);
    assert Apply(Initial(), Start(0, 0, ReplayTo(all, false, true))) == Alone(c, true);
    SavingAlone(c, true);
    ReplaySaved(all, c);
  }

  lemma ReplaySaved(all: set<int>, c: Cell)
    requires c == Cell(0, ReplayTo(all, false, true), Some(FreshOperation()), None, None, Untouched)
    ensures SavedCell(c) == ConfirmedCell(all, {})
  {
  }

  lemma TwentyFiveConfirmed(all: set<int>)
    requires UpTo(25) <= all
    ensures Execute(Initial(), [Start(0, 0, ReplayTo(all, false, true))] + Saving(0) + Confirming(25))
      == Alone(ConfirmedCell(all, UpTo(25)), false)
  {
    ExecuteConcat(Initial(), [Start(0, 0, ReplayTo(all, false, true))] + Saving(0), Confirming(25));
    ReplayStarts(all);
    ConfirmsMany(all, 25);
  }

  /** "A crash repeats fewer than 25" is not so at every moment: right after the 25th confirmation, with the
      flush just asked for, none of the 25 is saved; here for any request that has the sequences 0 to 24. */
  lemma TwentyFiveUnsaved(all: set<int>, s: System)
    requires UpTo(25) <= all
    requires s == Execute(Initial(), [Start(0, 0, ReplayTo(all, false, true))] + Saving(0) + Confirming(25))
    ensures s.lostWrites == 0 && 0 in s.cells && s.cells[0].op.Some? && s.cells[0].op.value.owed == [Flush]
    ensures |s.cells[0].op.value.processed| == 25
    ensures CrashStep(s).cells[0].op.Some? && CrashStep(s).cells[0].op.value.processed == {}
  {
    TwentyFiveConfirmed(all);
    UpToSize(25);
    var row := Entry(SavedRunning, {});
    AloneCrashes(ConfirmedCell(all, UpTo(25)), row);
    assert row.processed == {};
  }

  lemma AloneCrashes(c: Cell, row: Entry)
    requires c.disk == Some(row)
    ensures var c' := CrashStep(Alone(c, false)).cells[0]; c'.op.Some? && c'.op.value.processed == row.processed
  {
    assert CrashStep(Alone(c, false)).cells[0] == Recovered(c);
  }
}
