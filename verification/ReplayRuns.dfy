/** Replay over whole runs: how often a sequence reaches the target, what the journal knows, and
    what a completed operation accounts for. */
module ReplayRuns {
  import opened Wrappers
  import opened Operations
  import opened OperationInvariant

  // ---- How often a sequence is sent ----

  function Known(c: Cell): set<int> {
    if c.op.Some? then c.op.value.processed else {}
  }

  /** The sequence sent but not yet settled. */
  function InFlight(c: Cell): Option<int> {
    if c.op.Some? && c.op.value.task.Transferring? then c.op.value.task.sending else None
  }

  function Once(yes: bool): nat { if yes then 1 else 0 }

  /** Sequence n has reached the target, and this step makes operation id forget it: the settle after
      the send faults, a cancel lands between them, or the process dies with n in flight or confirmed
      but not yet in the saved skip-set. */
  predicate Forgets(s: System, e: Event, id: OpId, n: int) {
    id in s.cells && s.cells[id].op.Some? &&
    var c := s.cells[id];
    match e
    case Step(at, SettleFault) => at == id && c.job.ReplayTo? && InFlight(c) == Some(n)
    case Step(at, ObserveCancel) => at == id && c.job.ReplayTo? && InFlight(c) == Some(n) && c.op.value.cancelRequested
    case Crash => InFlight(c) == Some(n) || (n in Known(c) && !(c.disk.Some? && n in c.disk.value.processed))
    case _ => false
  }

  /** In how many steps of the run operation id forgot a send of n. */
  function Forgotten(es: seq<Event>, id: OpId, n: int): nat
    decreases |es|
  {
    if es == [] then 0
    else
      var before := es[..|es| - 1];
      Forgotten(before, id, n) + Once(Forgets(Execute(Initial(), before), es[|es| - 1], id, n))
  }

  /** Sends remembered, in flight and forgotten add up to the copies the target holds. */
  predicate Accounted(c: Cell, n: int, forgotten: nat) {
    c.broker.sent[n] == Once(n in Known(c)) + Once(InFlight(c) == Some(n)) + forgotten
  }

  predicate SameSends(c: Cell, c': Cell) {
    c'.broker == c.broker && Known(c') == Known(c) && InFlight(c') == InFlight(c)
  }

  lemma ReleasedSendsNothing(c: Cell, h: Held, ok: bool)
    ensures var c' := Released(c.(cached := Some(h.entry)), h.writer);
      SameSends(c, if ok then Saved(c') else c')
  {
  }

  lemma LandSendsNothing(s: System, ok: bool, id: OpId)
    requires id in s.cells
    ensures id in LandStep(s, ok).cells && SameSends(s.cells[id], LandStep(s, ok).cells[id])
  {
    if s.held.Some? && s.held.value.id == id { ReleasedSendsNothing(s.cells[id], s.held.value, ok); }
  }

  lemma ControlSendsNothing(s: System, e: Event, id: OpId)
    requires Inv(s) && id in s.cells
    requires e.Start? || e.Cancel? || e.Dismiss?
    ensures id in Apply(s, e).cells && SameSends(s.cells[id], Apply(s, e).cells[id])
  {
    assert CellInv(s.cells[id], HeldRow(s, id), s.lostWrites);
  }

  lemma ResumeSendsNothing(s: System, at: OpId, resolves: bool, id: OpId)
    requires Inv(s) && id in s.cells
    ensures id in ResumeStep(s, at, resolves).cells && SameSends(s.cells[id], ResumeStep(s, at, resolves).cells[id])
  {
    assert CellInv(s.cells[id], HeldRow(s, id), s.lostWrites);
  }

  lemma JournalSendsNothing(s: System, e: Event, id: OpId)
    requires id in s.cells
    requires e.Capture? || e.Acquire?
    ensures id in Apply(s, e).cells && SameSends(s.cells[id], Apply(s, e).cells[id])
  {
  }

  /** Only the background task and a crash change what was sent or what is remembered of it; the broker
      changes otherwise only by its locks and by what other operations do to this one's messages. */
  lemma QuietStep(s: System, e: Event, id: OpId)
    requires Inv(s) && id in s.cells
    requires !e.Step? && !e.Crash? && !e.LockExpires? && !e.Borrow? && !e.Take?
    ensures id in Apply(s, e).cells && SameSends(s.cells[id], Apply(s, e).cells[id])
  {
    match e
    case Land(ok) => LandSendsNothing(s, ok, id);
    case Resume(at, resolves) => ResumeSendsNothing(s, at, resolves, id);
    case Capture(_, _) => JournalSendsNothing(s, e, id);
    case Acquire(_, _) => JournalSendsNothing(s, e, id);
    case _ => ControlSendsNothing(s, e, id);
  }

  lemma SharingSendsNothing(s: System, e: Event, id: OpId)
    requires id in s.cells && (e.Borrow? || e.Take?)
    ensures id in Apply(s, e).cells
    ensures var c, c' := s.cells[id], Apply(s, e).cells[id];
      c'.broker.sent == c.broker.sent && Known(c') == Known(c) && InFlight(c') == InFlight(c)
  {
  }

  lemma CrashAccounts(c: Cell, held: Option<Entry>, lost: nat, n: int, forgotten: nat)
    requires CellInv(c, held, lost) && Accounted(c, n, forgotten)
    ensures Accounted(Recovered(c), n,
      forgotten
        + Once(c.op.Some?
          && (InFlight(c) == Some(n) || (n in Known(c) && !(c.disk.Some? && n in c.disk.value.processed)))))
  {
  }

  lemma ReplayAccounts(c: Cell, held: Option<Entry>, lost: nat, e: TaskEvent, n: int, forgotten: nat)
    requires CellInv(c, held, lost) && Accounted(c, n, forgotten) && c.op.Some? && c.job.ReplayTo?
    ensures Accounted(ReplayStep(c, c.op.value, e), n,
      forgotten
        + Once(InFlight(c) == Some(n) && (e == SettleFault || (e == ObserveCancel && c.op.value.cancelRequested))))
  {
  }

  /** A reach-message operation neither sends nor remembers replay copies. */
  lemma ReachAccounts(c: Cell, held: Option<Entry>, lost: nat, n: int)
    requires CellInv(c, held, lost) && c.job.ReachMessage?
    ensures c.broker.sent == multiset{} && Known(c) == {} && InFlight(c) == None
  {
  }

  lemma TaskAccounts(c: Cell, held: Option<Entry>, lost: nat, e: TaskEvent, n: int, forgotten: nat)
    requires CellInv(c, held, lost) && Accounted(c, n, forgotten)
    ensures Accounted(TaskStep(c, e), n,
      forgotten + Once(c.op.Some? && c.job.ReplayTo? && InFlight(c) == Some(n)
                       && (e == SettleFault || (e == ObserveCancel && c.op.value.cancelRequested))))
  {
    if c.op.Some? {
      if c.job.ReplayTo? {
        ReplayAccounts(c, held, lost, e, n, forgotten);
      } else {
        TaskStepKeeps(c, held, lost, e);
        ReachAccounts(c, held, lost, n);
        assert TaskStep(c, e).job == c.job;
        ReachAccounts(TaskStep(c, e), held, lost, n);
      }
    }
  }

  /** For every operation, every run and every sequence: copies on the target = 1 if the operation
      remembers the sequence, + 1 if it is in flight, + the number of times it was forgotten. */
  lemma {:induction false} SentAccounting(es: seq<Event>, id: OpId, n: int)
    requires id in Execute(Initial(), es).cells
    ensures Accounted(Execute(Initial(), es).cells[id], n, Forgotten(es, id, n))
    decreases |es|
  {
    if es != [] {
      var before, e := es[..|es| - 1], es[|es| - 1];
      var s := Execute(Initial(), before);
      RunKeeps(before);
      if id in s.cells {
        SentAccounting(before, id, n);
        AccountedStep(s, e, id, n, Forgotten(before, id, n));
      } else {
        NoStepBefore(before, id, n);
        StartAccounts(s, e, id, n);
      }
    }
  }

  lemma StartAccounts(s: System, e: Event, id: OpId, n: int)
    requires id !in s.cells && id in Apply(s, e).cells
    ensures Accounted(Apply(s, e).cells[id], n, 0) && !Forgets(s, e, id, n)
  {
    if !e.Start? { OnlyStartAdds(s, e); }
  }

  lemma OnlyStartAdds(s: System, e: Event)
    requires !e.Start?
    ensures Apply(s, e).cells.Keys == s.cells.Keys
  {
  }

  lemma AccountedTask(s: System, e: Event, id: OpId, n: int, forgotten: nat)
    requires Inv(s) && id in s.cells && Accounted(s.cells[id], n, forgotten) && e.Step?
    ensures id in Apply(s, e).cells && Accounted(Apply(s, e).cells[id], n, forgotten + Once(Forgets(s, e, id, n)))
  {
    if e.id == id {
      TaskAccounts(s.cells[id], HeldRow(s, id), s.lostWrites, e.task, n, forgotten);
      assert Apply(s, e).cells[id] == TaskStep(s.cells[id], e.task);
    } else {
      assert Apply(s, e).cells[id] == s.cells[id];
    }
  }

  lemma AccountedQuiet(s: System, e: Event, id: OpId, n: int, forgotten: nat)
    requires Inv(s) && id in s.cells && Accounted(s.cells[id], n, forgotten) && !e.Step? && !e.Crash?
    ensures id in Apply(s, e).cells && Accounted(Apply(s, e).cells[id], n, forgotten + Once(Forgets(s, e, id, n)))
  {
    if e.Borrow? || e.Take? {
      SharingSendsNothing(s, e, id);
    } else if !e.LockExpires? {
      QuietStep(s, e, id);
    }
  }

  lemma AccountedStep(s: System, e: Event, id: OpId, n: int, forgotten: nat)
    requires Inv(s) && id in s.cells && Accounted(s.cells[id], n, forgotten)
    ensures id in Apply(s, e).cells && Accounted(Apply(s, e).cells[id], n, forgotten + Once(Forgets(s, e, id, n)))
  {
    if e.Step? {
      AccountedTask(s, e, id, n, forgotten);
    } else if e.Crash? {
      CrashAccounts(s.cells[id], HeldRow(s, id), s.lostWrites, n, forgotten);
    } else {
      AccountedQuiet(s, e, id, n, forgotten);
    }
  }

  lemma CellsStay(s: System, e: Event)
    ensures s.cells.Keys <= Apply(s, e).cells.Keys
  {
  }

  /** An operation that does not exist yet has forgotten nothing. */
  lemma {:induction false} NoStepBefore(es: seq<Event>, id: OpId, n: int)
    requires id !in Execute(Initial(), es).cells
    ensures Forgotten(es, id, n) == 0
    decreases |es|
  {
    if es != [] {
      CellsStay(Execute(Initial(), es[..|es| - 1]), es[|es| - 1]);
      NoStepBefore(es[..|es| - 1], id, n);
    }
  }

  /** The duplicate bound. */
  lemma DuplicateBound(es: seq<Event>, id: OpId, n: int)
    requires id in Execute(Initial(), es).cells
    ensures Execute(Initial(), es).cells[id].broker.sent[n] <= 1 + Forgotten(es, id, n)
  {
    SentAccounting(es, id, n);
    RunKeeps(es);
    var s := Execute(Initial(), es);
    assert CellInv(s.cells[id], HeldRow(s, id), s.lostWrites);
  }

  // ---- A duplicate without any crash ----

  /** The write just asked for is captured, enters the persist gate and lands. */
  function Saving(id: OpId): seq<Event> { [Capture(id, 0), Acquire(id, 0), Land(true)] }

  /** A system with one operation and nothing in the persist gate. */
  function Alone(c: Cell, gateTaken: bool): System { System(map[0 := c], gateTaken, None, 0) }

  /** The cell after the one write it owes has landed. */
  function SavedCell(c: Cell): Cell
    requires c.op.Some? && |c.op.value.owed| == 1
  {
    var o := c.op.value;
    Saved(Released(c.(op := Some(o.(owed := [])), cached := Some(Entry(StatusOf(o.state), o.processed))), o.owed[0]))
  }

  /** The system with one cell replaced, after a save in which every other row was saved already. */
  function AfterSaving(s: System, id: OpId): System
    requires id in s.cells && s.cells[id].op.Some? && |s.cells[id].op.value.owed| == 1
  {
    s.(cells := s.cells[id := SavedCell(s.cells[id])],
       gateTaken := s.gateTaken && s.cells[id].op.value.owed[0] != Control)
  }

  predicate OthersSaved(s: System, id: OpId) {
    forall other :: other in s.cells && other != id ==> s.cells[other].cached == s.cells[other].disk
  }

  lemma CaptureFirst(c: Cell)
    requires c.op.Some? && |c.op.value.owed| == 1 && c.op.value.waiting == []
    ensures var w := Write(c.op.value.owed[0], StatusOf(c.op.value.state));
      CaptureStep(c, 0) == c.(op := Some(c.op.value.(owed := [], waiting := [w])))
  {
    var o := c.op.value;
    var w := Write(o.owed[0], StatusOf(o.state));
    assert o.owed[..0] + o.owed[1..] == [] && o.waiting + [w] == [w];
  }

  lemma AcquireFirst(s: System, id: OpId, w: Write)
    requires id in s.cells && s.held.None? && s.cells[id].op.Some? && s.cells[id].op.value.waiting == [w]
    ensures var o := s.cells[id].op.value;
      AcquireStep(s, id, 0) == Update(s, id, s.cells[id].(op := Some(o.(waiting := []))))
        .(held := Some(Held(id, w.writer, Entry(w.status, o.processed))))
  {
    assert [w][..0] + [w][1..] == [];
  }

  lemma LandLast(s: System, id: OpId, writer: Writer, row: Entry)
    requires id in s.cells && s.held == Some(Held(id, writer, row)) && OthersSaved(s, id)
    ensures LandStep(s, true) ==
      Update(s, id, Saved(Released(s.cells[id].(cached := Some(row)), writer)))
        .(held := None, gateTaken := s.gateTaken && writer != Control)
  {
    var s' := LandStep(s, true);
    var c := Saved(Released(s.cells[id].(cached := Some(row)), writer));
    forall other | other in s.cells ensures s'.cells[other] == s.cells[id := c][other] {
      if other != id { assert s.cells[other].(disk := s.cells[other].cached) == s.cells[other]; }
    }
    assert s'.cells == s.cells[id := c];
  }

  /** One save, from the moment it is owed, with nothing else going on. */
  lemma SavingAt(s: System, id: OpId)
    requires id in s.cells && s.held.None? && OthersSaved(s, id)
    requires s.cells[id].op.Some? && |s.cells[id].op.value.owed| == 1 && s.cells[id].op.value.waiting == []
    ensures Execute(s, Saving(id)) == AfterSaving(s, id)
  {
    var c := s.cells[id];
    var o := c.op.value;
    var row := Entry(StatusOf(o.state), o.processed);
    assert Saving(id) == [Capture(id, 0), Acquire(id, 0)] + [Land(true)];
    ExecuteConcat(s, [Capture(id, 0), Acquire(id, 0)], [Land(true)]);
    EnterAt(s, id);
    var s2 := Update(s, id, c.(op := Some(o.(owed := [])))).(held := Some(Held(id, o.owed[0], row)));
    ExecuteOne(s2, Land(true));
    LandLast(s2, id, o.owed[0], row);
    assert s2.cells[id := SavedCell(c)] == s.cells[id := SavedCell(c)];
  }

  lemma EnterAt(s: System, id: OpId)
    requires id in s.cells && s.held.None?
    requires s.cells[id].op.Some? && |s.cells[id].op.value.owed| == 1 && s.cells[id].op.value.waiting == []
    ensures var c, o := s.cells[id], s.cells[id].op.value;
      Execute(s, [Capture(id, 0), Acquire(id, 0)]) == Update(s, id, c.(op := Some(o.(owed := []))))
        .(held := Some(Held(id, o.owed[0], Entry(StatusOf(o.state), o.processed))))
  {
    var c, o := s.cells[id], s.cells[id].op.value;
    var w := Write(o.owed[0], StatusOf(o.state));
    var s1 := Update(s, id, c.(op := Some(o.(owed := [], waiting := [w]))));
    assert [Capture(id, 0), Acquire(id, 0)] == [Capture(id, 0)] + [Acquire(id, 0)];
    ExecuteConcat(s, [Capture(id, 0)], [Acquire(id, 0)]);
    ExecuteOne(s, Capture(id, 0));
    CaptureFirst(c);
    ExecuteOne(s1, Acquire(id, 0));
    AcquireFirst(s1, id, w);
    var c2 := c.(op := Some(o.(owed := [])));
    assert s1.cells[id].(op := Some(s1.cells[id].op.value.(waiting := []))) == c2;
    assert s1.cells[id := c2] == s.cells[id := c2];
  }

  lemma SavingAlone(c: Cell, gateTaken: bool)
    requires c.op.Some? && |c.op.value.owed| == 1 && c.op.value.waiting == []
    ensures Execute(Alone(c, gateTaken), Saving(0)) == Alone(SavedCell(c), gateTaken && c.op.value.owed[0] != Control)
  {
    SavingAt(Alone(c, gateTaken), 0);
    assert map[0 := c][0 := SavedCell(c)] == map[0 := SavedCell(c)];
  }

  lemma StepAlone(c: Cell, e: TaskEvent)
    ensures Apply(Alone(c, false), Step(0, e)) == Alone(TaskStep(c, e), false)
  {
    var c' := TaskStep(c, e);
    assert map[0 := c][0 := c'] == map[0 := c'];
  }

  const Seven := ReplayTo({7}, false, true)

  /** Sequence 7 is sent, its settle faults, the pass ends Failed, and the user resumes. */
  const FaultyPass: seq<Event> :=
    [Start(0, 0, Seven)] + Saving(0) + [Step(0, Send(7)), Step(0, SettleFault), Step(0, Finish)] + Saving(0)

  const SecondPass: seq<Event> := [Resume(0, true)] + Saving(0) + [Step(0, Send(7))]

  function TransferCell(task: Task, owed: seq<Writer>, state: State, row: Option<Entry>, sent: multiset<int>): Cell {
    Cell(0, Seven, Some(Operation(state, {}, {}, false, false, task, owed, [])), row, row,
         Untouched.(sent := sent))
  }

  const NoCopy: multiset<int> := multiset{}

  lemma FaultyPassFails()
    ensures Execute(Initial(), FaultyPass)
      == Alone(TransferCell(Idle, [], Failed, Some(Entry(SavedFailed, {})), NoCopy[7 := 1]), false)
  {
    var start, middle := [Start(0, 0, Seven)], [Step(0, Send(7)), Step(0, SettleFault), Step(0, Finish)];
    ExecuteConcat(Initial(), start + Saving(0) + middle, Saving(0));
    ExecuteConcat(Initial(), start + Saving(0), middle);
    ExecuteConcat(Initial(), start, Saving(0));
    TransferStarts();
    var c := TransferCell(Transferring({7}, None, {}), [], Running, Some(Entry(SavedRunning, {})), NoCopy);
    SettleFails(c);
    SavingAlone(TransferCell(Idle, [Runner], Failed, c.disk, NoCopy[7 := 1]), false);
  }

  lemma TransferStarts()
    ensures Execute(Execute(Initial(), [Start(0, 0, Seven)]), Saving(0)) ==
      Alone(TransferCell(Transferring({7}, None, {}), [], Running, Some(Entry(SavedRunning, {})), NoCopy), false)
  {
    ExecuteOne(Initial(), Start(0, 0, Seven));
    var c := TransferCell(Starting(false), [Control], Running, None, NoCopy);
    assert Apply(Initial(), Start(0, 0, Seven)) == Alone(c, true);
    SavingAlone(c, true);
    assert {7} - {} == {7};
  }

  lemma SettleFails(c: Cell)
    requires c == TransferCell(Transferring({7}, None, {}), [], Running, Some(Entry(SavedRunning, {})), NoCopy)
    ensures Execute(Alone(c, false), [Step(0, Send(7)), Step(0, SettleFault), Step(0, Finish)]) ==
      Alone(TransferCell(Idle, [Runner], Failed, c.disk, NoCopy[7 := 1]), false)
  {
    var s, sent := Alone(c, false), NoCopy[7 := 1];
    var es := [Step(0, Send(7)), Step(0, SettleFault), Step(0, Finish)];
    assert es == [es[0]] + ([es[1]] + [es[2]]);
    ExecuteConcat(s, [es[0]], [es[1]] + [es[2]]);
    ExecuteOne(s, es[0]);
    StepAlone(c, Send(7));
    var c1 := TransferCell(Transferring({}, Some(7), {}), [], Running, c.disk, sent);
    assert TaskStep(c, Send(7)) == c1 by { assert {7} - {7} == {}; }
    ExecuteConcat(Alone(c1, false), [es[1]], [es[2]]);
    ExecuteOne(Alone(c1, false), es[1]);
    StepAlone(c1, SettleFault);
    var c2 := TransferCell(Transferring({}, None, {7}), [], Running, c.disk, sent);
    assert TaskStep(c1, SettleFault) == c2 by { assert {} + {7} == {7}; }
    ExecuteOne(Alone(c2, false), es[2]);
    StepAlone(c2, Finish);
    FinishesFailed(c2);
  }

  lemma FinishesFailed(c: Cell)
    requires c.op.Some? && c.op.value.owed == [] && c.job.ReplayTo? && c.op.value.task == Transferring({}, None, {7})
    ensures TaskStep(c, Finish) ==
      c.(op := Some(c.op.value.(missing := {}, state := Failed, task := Idle, owed := [Runner])))
  {
    assert [] + [Runner] == [Runner];
  }

  lemma ResumedPassSends(c: Cell)
    requires c == TransferCell(Idle, [], Failed, Some(Entry(SavedFailed, {})), NoCopy[7 := 1])
    ensures Execute(Alone(c, false), SecondPass) ==
      Alone(TransferCell(Transferring({}, Some(7), {}), [], Running, Some(Entry(SavedRunning, {})),
        NoCopy[7 := 1][7 := 2]), false)
  {
    var s, last := Alone(c, false), [Step(0, Send(7))];
    ExecuteConcat(s, [Resume(0, true)] + Saving(0), last);
    ExecuteConcat(s, [Resume(0, true)], Saving(0));
    ExecuteOne(s, Resume(0, true));
    var c1 := TransferCell(Starting(true), [Control], Running, c.disk, c.broker.sent);
    assert [] + [Control] == [Control];
    assert Apply(s, Resume(0, true)) == Alone(c1, true);
    SavingAlone(c1, true);
    var c2 := TransferCell(Transferring({7}, None, {}), [], Running, Some(Entry(SavedRunning, {})), c.broker.sent);
    assert SavedCell(c1) == c2 by { assert {7} - {} == {7}; }
    ExecuteOne(Alone(c2, false), Step(0, Send(7)));
    assert TaskStep(c2, Send(7))
      == TransferCell(Transferring({}, Some(7), {}), [], Running, c2.disk, NoCopy[7 := 1][7 := 2]) by {
      assert {7} - {7} == {};
    }
  }

  /** "Nothing is sent twice unless the process crashes" is false of the code: this run has no crash and
      no cancel, every journal save succeeds, and sequence 7 reaches the target twice. */
  lemma CrashFreeDuplicate()
    ensures Crash !in FaultyPass + SecondPass
    ensures var s := Execute(Initial(), FaultyPass + SecondPass);
      s.lostWrites == 0 && 0 in s.cells && s.cells[0].broker.sent[7] == 2
  {
    ExecuteConcat(Initial(), FaultyPass, SecondPass);
    FaultyPassFails();
    ResumedPassSends(TransferCell(Idle, [], Failed, Some(Entry(SavedFailed, {})), NoCopy[7 := 1]));
  }

  // ---- The exact condition ----

  /** The step does not part the operation from anything it has sent: no settle fails and no cancel is
      observed while a send is in flight, and nothing is in flight or unsaved when the process dies. */
  predicate Keeps(s: System, e: Event, id: OpId) {
    id in s.cells && s.cells[id].op.Some? ==>
      var c := s.cells[id];
      match e
      case Step(at, SettleFault) => at != id || InFlight(c) == None
      case Step(at, ObserveCancel) => at != id || InFlight(c) == None || !c.op.value.cancelRequested
      case Crash => InFlight(c) == None && forall n :: n in Known(c) ==> c.disk.Some? && n in c.disk.value.processed
      case _ => true
  }

  predicate KeepsConfirmations(es: seq<Event>, id: OpId) {
    forall i :: 0 <= i < |es| ==> Keeps(Execute(Initial(), es[..i]), es[i], id)
  }

  lemma KeepsForgetsNot(s: System, e: Event, id: OpId, n: int)
    requires Keeps(s, e, id)
    ensures !Forgets(s, e, id, n)
  {
  }

  lemma LosesOne(s: System, e: Event, id: OpId) returns (n: int)
    requires Inv(s) && !Keeps(s, e, id)
    ensures Forgets(s, e, id, n)
  {
    var c := s.cells[id];
    assert CellInv(c, HeldRow(s, id), s.lostWrites);
    if InFlight(c).Some? {
      n := InFlight(c).value;
    } else {
      n :| n in Known(c) && !(c.disk.Some? && n in c.disk.value.processed);
    }
  }

  lemma KeepsPrefix(es: seq<Event>, id: OpId)
    requires es != []
    ensures KeepsConfirmations(es, id) <==>
      KeepsConfirmations(es[..|es| - 1], id) && Keeps(Execute(Initial(), es[..|es| - 1]), es[|es| - 1], id)
  {
    var front := es[..|es| - 1];
    forall i | 0 <= i < |front| ensures front[..i] == es[..i] && front[i] == es[i] {
    }
    if KeepsConfirmations(es, id) {
      forall i | 0 <= i < |front| ensures Keeps(Execute(Initial(), front[..i]), front[i], id) {
        assert Keeps(Execute(Initial(), es[..i]), es[i], id);
      }
      assert Keeps(Execute(Initial(), es[..|front|]), es[|front|], id);
    }
  }

  lemma {:induction false} NothingForgotten(es: seq<Event>, id: OpId, n: int)
    requires KeepsConfirmations(es, id)
    ensures Forgotten(es, id, n) == 0
    decreases |es|
  {
    if es != [] {
      KeepsPrefix(es, id);
      NothingForgotten(es[..|es| - 1], id, n);
      KeepsForgetsNot(Execute(Initial(), es[..|es| - 1]), es[|es| - 1], id, n);
    }
  }

  lemma {:induction false} SomethingForgotten(es: seq<Event>, id: OpId) returns (n: int)
    requires !KeepsConfirmations(es, id)
    ensures Forgotten(es, id, n) > 0
    decreases |es|
  {
    var front := es[..|es| - 1];
    KeepsPrefix(es, id);
    if KeepsConfirmations(front, id) {
      RunKeeps(front);
      n := LosesOne(Execute(Initial(), front), es[|es| - 1], id);
    } else {
      n := SomethingForgotten(front, id);
    }
  }

  /** A run forgets no send of the operation if and only if each of its steps keeps them. */
  lemma NothingForgottenIff(es: seq<Event>, id: OpId)
    ensures (forall n :: Forgotten(es, id, n) == 0) <==> KeepsConfirmations(es, id)
  {
    if KeepsConfirmations(es, id) {
      forall n ensures Forgotten(es, id, n) == 0 { NothingForgotten(es, id, n); }
    } else {
      var n := SomethingForgotten(es, id);
      assert Forgotten(es, id, n) != 0;
    }
  }

  /** Then nothing is sent twice, through any failures, resumes, cancels between messages, restarts after a
      save, and lost writes. */
  lemma NoDuplicate(es: seq<Event>, id: OpId, n: int)
    requires KeepsConfirmations(es, id) && id in Execute(Initial(), es).cells
    ensures Execute(Initial(), es).cells[id].broker.sent[n] <= 1
  {
    NothingForgotten(es, id, n);
    DuplicateBound(es, id, n);
  }

  /** n reaches the target again exactly when an earlier send of it was forgotten: a copy is about to be
      sent, and the target already holds as many as this operation has forgotten. */
  lemma ResendsWhatItForgot(es: seq<Event>, id: OpId, n: int)
    requires var s := Execute(Initial(), es);
      id in s.cells && TaskStep(s.cells[id], Send(n)) != s.cells[id] && s.cells[id].job.ReplayTo?
    ensures var b := Execute(Initial(), es).cells[id].broker;
      b.sent[n] == Forgotten(es, id, n)
      && TaskStep(Execute(Initial(), es).cells[id], Send(n)).broker.sent[n] == Forgotten(es, id, n) + 1
  {
    SentAccounting(es, id, n);
    RunKeeps(es);
    var s := Execute(Initial(), es);
    assert CellInv(s.cells[id], HeldRow(s, id), s.lostWrites);
  }
}
