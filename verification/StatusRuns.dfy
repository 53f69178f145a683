/** The status a journal row ends up with. The state is read before a write enters the persist gate,
    so the row keeps the status of whichever write lands last, not of the latest state. */
module StatusRuns {
  import opened Wrappers
  import opened Operations
  import opened ReplayRuns

  /** Every write this operation asked for has captured its status and waits for the persist gate. */
  predicate AllCaptured(s: System, id: OpId) {
    id in s.cells && s.cells[id].op.Some? && s.cells[id].op.value.owed == [] && s.held.None?
  }

  function Waiting(s: System, id: OpId): seq<Write>
    requires AllCaptured(s, id)
  {
    s.cells[id].op.value.waiting
  }

  function Without<T>(s: seq<T>, k: nat): seq<T>
    requires k < |s|
  {
    s[..k] + s[k + 1..]
  }

  /** An order in which n waiting writes can enter the gate: each time, an index into those left. */
  predicate LandingOrder(order: seq<nat>, n: nat) {
    |order| == n && forall i :: 0 <= i < n ==> order[i] < n - i
  }

  function LastToLand(waiting: seq<Write>, order: seq<nat>): Write
    requires waiting != [] && LandingOrder(order, |waiting|)
    decreases |waiting|
  {
    if |waiting| == 1 then waiting[0] else LastToLand(Without(waiting, order[0]), order[1..])
  }

  function Landings(id: OpId, order: seq<nat>): seq<Event> {
    if order == [] then [] else [Acquire(id, order[0]), Land(true)] + Landings(id, order[1..])
  }

  lemma AcquireThenLand(s: System, id: OpId, k: nat)
    requires AllCaptured(s, id) && k < |Waiting(s, id)|
    ensures var s' := LandStep(AcquireStep(s, id, k), true);
      && AllCaptured(s', id)
      && Waiting(s', id) == Without(Waiting(s, id), k)
      && s'.cells[id].disk == Some(Entry(Waiting(s, id)[k].status, s.cells[id].op.value.processed))
      && s'.cells[id].op.value.state == s.cells[id].op.value.state
  {
    var held := AcquireStep(s, id, k);
    assert held.held.value.id == id && held.cells[id].op.value.owed == [];
    var c := Released(held.cells[id].(cached := Some(held.held.value.entry)), held.held.value.writer);
    assert LandStep(held, true).cells[id] == Saved(c);
  }

  lemma OneLanding(s: System, id: OpId, k: nat)
    requires AllCaptured(s, id) && k < |Waiting(s, id)|
    ensures var s' := Execute(s, [Acquire(id, k), Land(true)]);
      && AllCaptured(s', id)
      && Waiting(s', id) == Without(Waiting(s, id), k)
      && s'.cells[id].disk == Some(Entry(Waiting(s, id)[k].status, s.cells[id].op.value.processed))
      && s'.cells[id].op.value.state == s.cells[id].op.value.state
  {
    var es := [Acquire(id, k), Land(true)];
    assert es == [es[0]] + [es[1]];
    ExecuteConcat(s, [es[0]], [es[1]]);
    ExecuteOne(s, es[0]);
    ExecuteOne(Apply(s, es[0]), es[1]);
    AcquireThenLand(s, id, k);
  }

  /** With every save succeeding, the row's status is the one the last write to land captured. */
  lemma {:induction false} LastWriteWins(s: System, id: OpId, order: seq<nat>)
    requires AllCaptured(s, id) && Waiting(s, id) != [] && LandingOrder(order, |Waiting(s, id)|)
    ensures var s' := Execute(s, Landings(id, order));
      && id in s'.cells && s'.cells[id].op.Some? && s'.cells[id].disk.Some?
      && s'.cells[id].disk.value.status == LastToLand(Waiting(s, id), order).status
      && s'.cells[id].op.value.state == s.cells[id].op.value.state
      && s'.cells[id].op.value.waiting == []
    decreases |order|
  {
    var first := [Acquire(id, order[0]), Land(true)];
    OneLanding(s, id, order[0]);
    ExecuteConcat(s, first, Landings(id, order[1..]));
    var s1 := Execute(s, first);
    if |order| == 1 {
      assert Landings(id, order[1..]) == [];
    } else {
      LastWriteWins(s1, id, order[1..]);
    }
  }

  /** Any waiting write can be the last one in. */
  lemma {:induction false} AnyWriteCanBeLast(waiting: seq<Write>, k: nat) returns (order: seq<nat>)
    requires k < |waiting|
    ensures LandingOrder(order, |waiting|) && LastToLand(waiting, order) == waiting[k]
    decreases |waiting|
  {
    if |waiting| == 1 {
      order := [0];
    } else {
      var first: nat := if k == 0 then 1 else 0;
      var rest := AnyWriteCanBeLast(Without(waiting, first), if k == 0 then 0 else k - 1);
      order := [first] + rest;
      assert order[1..] == rest;
    }
  }

  predicate Truthful(s: System, id: OpId) {
    id in s.cells && s.cells[id].op.Some? && s.cells[id].disk.Some?
    && s.cells[id].disk.value.status == StatusOf(s.cells[id].op.value.state)
  }

  /** The row ends up with the status of the final state in every landing order exactly when no waiting
      write captured an earlier one. */
  lemma StatusSettles(s: System, id: OpId)
    requires AllCaptured(s, id) && Waiting(s, id) != []
    ensures (forall order | LandingOrder(order, |Waiting(s, id)|) :: Truthful(Execute(s, Landings(id, order)), id))
      <==> (forall i :: 0 <= i < |Waiting(s, id)| ==> Waiting(s, id)[i].status == StatusOf(s.cells[id].op.value.state))
  {
    var waiting, current := Waiting(s, id), StatusOf(s.cells[id].op.value.state);
    if forall i :: 0 <= i < |waiting| ==> waiting[i].status == current {
      forall order | LandingOrder(order, |waiting|) ensures Truthful(Execute(s, Landings(id, order)), id) {
        LastWriteWins(s, id, order);
        LastIsOneOf(waiting, order);
      }
    } else {
      var k :| 0 <= k < |waiting| && waiting[k].status != current;
      var order := AnyWriteCanBeLast(waiting, k);
      LastWriteWins(s, id, order);
      assert !Truthful(Execute(s, Landings(id, order)), id);
    }
  }

  lemma {:induction false} LastIsOneOf(waiting: seq<Write>, order: seq<nat>)
    requires waiting != [] && LandingOrder(order, |waiting|)
    ensures LastToLand(waiting, order) in waiting
    decreases |waiting|
  {
    if |waiting| > 1 { LastIsOneOf(Without(waiting, order[0]), order[1..]); }
  }

  // ---- Dismiss is not final across a restart ----

  /** The runner fails and captures "failed"; the user dismisses; "dismissed" lands first. */
  const DismissOvertaken: seq<Event> :=
    [Start(0, 0, Seven)] + Saving(0) + [Step(0, Throw), Capture(0, 0), Dismiss(0), Capture(0, 0)]

  function SevenCell(state: State, owed: seq<Writer>, waiting: seq<Write>): Cell {
    var row := Some(Entry(SavedRunning, {}));
    Cell(0, Seven, Some(Operation(state, {}, {}, false, false, Idle, owed, waiting)), row, row, Untouched)
  }

  lemma TwoSteps(s: System, a: Event, b: Event)
    ensures Execute(s, [a, b]) == Apply(Apply(s, a), b)
  {
    assert [a, b] == [a] + [b];
    ExecuteConcat(s, [a], [b]);
    ExecuteOne(s, a);
    ExecuteOne(Apply(s, a), b);
  }

  lemma FailedCaptured(c: Cell)
    requires c == TransferCell(Transferring({7}, None, {}), [], Running, Some(Entry(SavedRunning, {})), NoCopy)
    ensures Execute(Alone(c, false), [Step(0, Throw), Capture(0, 0)]) ==
      Alone(SevenCell(Failed, [], [Write(Runner, SavedFailed)]), false)
  {
    TwoSteps(Alone(c, false), Step(0, Throw), Capture(0, 0));
    var failed := SevenCell(Failed, [Runner], []);
    assert TaskStep(c, Throw) == failed by { assert [] + [Runner] == [Runner]; }
    assert CaptureStep(failed, 0) == SevenCell(Failed, [], [Write(Runner, SavedFailed)]) by {
      assert [Runner][..0] + [Runner][1..] == [] && [] + [Write(Runner, SavedFailed)] == [Write(Runner, SavedFailed)];
    }
  }

  lemma DismissedCaptured(c: Cell)
    requires c == SevenCell(Failed, [], [Write(Runner, SavedFailed)])
    ensures Execute(Alone(c, false), [Dismiss(0), Capture(0, 0)]) ==
      Alone(SevenCell(Dismissed, [], [Write(Runner, SavedFailed), Write(Control, SavedDismissed)]), true)
  {
    TwoSteps(Alone(c, false), Dismiss(0), Capture(0, 0));
    var dismissed := SevenCell(Dismissed, [Control], c.op.value.waiting);
    assert DismissStep(Alone(c, false), 0) == Alone(dismissed, true) by { assert [] + [Control] == [Control]; }
    assert CaptureStep(dismissed, 0)
      == SevenCell(Dismissed, [], [Write(Runner, SavedFailed), Write(Control, SavedDismissed)]) by {
      assert [Control][..0] + [Control][1..] == [];
      assert c.op.value.waiting + [Write(Control, SavedDismissed)]
        == [Write(Runner, SavedFailed), Write(Control, SavedDismissed)];
    }
  }

  lemma OvertakenSteps()
    ensures Execute(Initial(), DismissOvertaken) ==
      Alone(SevenCell(Dismissed, [], [Write(Runner, SavedFailed), Write(Control, SavedDismissed)]), true)
  {
    var start := [Start(0, 0, Seven)] + Saving(0);
    assert DismissOvertaken == start + ([Step(0, Throw), Capture(0, 0)] + [Dismiss(0), Capture(0, 0)]);
    ExecuteConcat(Initial(), start, [Step(0, Throw), Capture(0, 0)] + [Dismiss(0), Capture(0, 0)]);
    ExecuteConcat(Initial(), [Start(0, 0, Seven)], Saving(0));
    TransferStarts();
    var c := TransferCell(Transferring({7}, None, {}), [], Running, Some(Entry(SavedRunning, {})), NoCopy);
    ExecuteConcat(Alone(c, false), [Step(0, Throw), Capture(0, 0)], [Dismiss(0), Capture(0, 0)]);
    FailedCaptured(c);
    DismissedCaptured(SevenCell(Failed, [], [Write(Runner, SavedFailed)]));
  }

  /** Every save succeeds, the operation is dismissed, and after a restart it is resumable again. */
  lemma DismissedComesBack()
    ensures var s := Execute(Initial(), DismissOvertaken + Landings(0, [1, 0]));
      && 0 in s.cells && s.lostWrites == 0
      && s.cells[0].op.Some? && s.cells[0].op.value.state == Dismissed
      && s.cells[0].op.value.waiting == [] && s.cells[0].op.value.owed == []
      && CrashStep(s).cells[0].op.Some? && Resumable(CrashStep(s).cells[0].op.value.state)
  {
    ExecuteConcat(Initial(), DismissOvertaken, Landings(0, [1, 0]));
    OvertakenSteps();
    var s := Execute(Initial(), DismissOvertaken);
    var order: seq<nat> := [1, 0];
    assert LandingOrder(order, 2);
    assert Without(Waiting(s, 0), 1) == [Write(Runner, SavedFailed)];
    LastWriteWins(s, 0, order);
    LandingsLoseNothing(s, 0, order);
  }

  lemma {:induction false} LandingsLoseNothing(s: System, id: OpId, order: seq<nat>)
    requires AllCaptured(s, id) && LandingOrder(order, |Waiting(s, id)|)
    ensures AllCaptured(Execute(s, Landings(id, order)), id)
    ensures Execute(s, Landings(id, order)).lostWrites == s.lostWrites
    decreases |order|
  {
    if order == [] {
    } else {
      var first := [Acquire(id, order[0]), Land(true)];
      OneLanding(s, id, order[0]);
      OneLandingLosesNothing(s, id, order[0]);
      ExecuteConcat(s, first, Landings(id, order[1..]));
      LandingsLoseNothing(Execute(s, first), id, order[1..]);
    }
  }

  lemma OneLandingLosesNothing(s: System, id: OpId, k: nat)
    ensures Execute(s, [Acquire(id, k), Land(true)]).lostWrites == s.lostWrites
  {
    TwoSteps(s, Acquire(id, k), Land(true));
    assert AcquireStep(s, id, k).lostWrites == s.lostWrites;
  }

  /** A restart gives each surviving operation the state its row names; with a truthful row that is its
      own state, with a running one turned into interrupted. */
  lemma RestartState(s: System, id: OpId)
    requires id in s.cells && s.cells[id].op.Some?
    ensures CrashStep(s).cells[id].op.Some? <==> s.cells[id].disk.Some?
    ensures s.cells[id].disk.Some? ==>
      var state, next := s.cells[id].op.value.state, CrashStep(s).cells[id].op.value.state;
      Truthful(s, id) <==> next == if state == Running then Interrupted else state
  {
  }
}
