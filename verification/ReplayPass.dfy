/** One replay pass, as a function of what the broker's receives bring: which messages it sends, which it
    counts as failed, where it stops, and how it ends. */
module ReplayPass {
  import opened Wrappers
  import opened Operations

  /** What one source message does when a pass receives it: its send and settle go through, its send is
      refused, or its settle is. */
  datatype Outcome = Accepted | SendRefused | SettleRefused

  /** What a receive batch holds: a message, the point where a cancel is observed, a cancel that arrives
      between the send and the settle of a message, or a broker fault outside any one message. */
  datatype Signal = Delivered(n: int, outcome: Outcome) | CancelSeen | CancelledInCall(n: int) | Fault

  /** The signal ends the pass. A point where no cancel was requested passes by. */
  predicate Stops(x: Signal, cancel: bool) {
    x.Fault? || (!x.Delivered? && cancel)
  }

  predicate Stopped(s: seq<Signal>, cancel: bool) {
    s != [] && Stops(s[|s| - 1], cancel)
  }

  predicate Uninterrupted(s: seq<Signal>, cancel: bool) {
    forall i :: 0 <= i < |s| ==> !Stops(s[i], cancel)
  }

  /** All before a stop is uninterrupted. */
  function Before(s: seq<Signal>, cancel: bool): seq<Signal> {
    if Stopped(s, cancel) then s[..|s| - 1] else s
  }

  // ---- The script a pass hears ----

  /** A batch up to and including the signal that ends the pass. */
  function Cut(s: seq<Signal>, cancel: bool): seq<Signal>
    decreases |s|
  {
    if s == [] then [] else if Stops(s[0], cancel) then [s[0]] else [s[0]] + Cut(s[1..], cancel)
  }

  /** The wanted sequences that no message so far had. */
  function WantedAfter(wanted: set<int>, s: seq<Signal>): set<int>
    decreases |s|
  {
    if s == [] then wanted
    else
      var left, x := WantedAfter(wanted, s[..|s| - 1]), s[|s| - 1];
      if x.Delivered? then left - {x.n} else left
  }

  /** Everything a pass hears: batch after batch until nothing is wanted, a receive brings nothing, or a
      signal ends it. */
  function Heard(wanted: set<int>, cancel: bool, batches: seq<seq<Signal>>): seq<Signal>
    decreases |batches|
  {
    if wanted == {} || batches == [] || batches[0] == [] then []
    else
      var batch := Cut(batches[0], cancel);
      if Stopped(batch, cancel) then batch else batch + Heard(WantedAfter(wanted, batch), cancel, batches[1..])
  }

  // ---- What it does ----

  /** The steps one signal causes. An unwanted message is released. */
  function SignalEvents(wanted: set<int>, cancel: bool, x: Signal): seq<TaskEvent> {
    match x
    case Delivered(n, outcome) =>
      if n !in wanted then []
      else (match outcome
            case Accepted => [Send(n), Confirm]
            case SendRefused => [Reject(n)]
            case SettleRefused => [Send(n), SettleFault])
    case Fault => [Throw]
    case CancelSeen => if cancel then [ObserveCancel] else []
    case CancelledInCall(n) => if !cancel then [] else if n in wanted then [Send(n), ObserveCancel] else [ObserveCancel]
  }

  function Events(wanted: set<int>, cancel: bool, s: seq<Signal>): seq<TaskEvent>
    decreases |s|
  {
    if s == [] then []
    else
      var front := s[..|s| - 1];
      Events(wanted, cancel, front) + SignalEvents(WantedAfter(wanted, front), cancel, s[|s| - 1])
  }

  /** A whole pass. */
  function PassEvents(wanted: set<int>, cancel: bool, batches: seq<seq<Signal>>): seq<TaskEvent> {
    var heard := Heard(wanted, cancel, batches);
    Events(wanted, cancel, heard) + if Stopped(heard, cancel) then [] else [Finish]
  }

  function WantedIn(c: Cell): set<int> {
    if c.op.Some? && c.op.value.task.Transferring? then c.op.value.task.wanted else {}
  }

  function CancelIn(c: Cell): bool { c.op.Some? && c.op.value.cancelRequested }

  /** What one signal, and then a whole list of them, makes of an operation. */
  function HearOne(c: Cell, x: Signal): Cell {
    TaskRun(c, SignalEvents(WantedIn(c), CancelIn(c), x))
  }

  function Hear(c: Cell, s: seq<Signal>): Cell
    decreases |s|
  {
    if s == [] then c else HearOne(Hear(c, s[..|s| - 1]), s[|s| - 1])
  }

  /** What a whole pass makes of an operation. */
  function PassCell(c: Cell, batches: seq<seq<Signal>>): Cell {
    var heard := Heard(WantedIn(c), CancelIn(c), batches);
    if Stopped(heard, CancelIn(c)) then Hear(c, heard) else TaskStep(Hear(c, heard), Finish)
  }

  /** The sequences confirmed, in order. */
  function Confirms(wanted: set<int>, s: seq<Signal>): seq<int>
    decreases |s|
  {
    if s == [] then []
    else
      var front, x := s[..|s| - 1], s[|s| - 1];
      var hit := x.Delivered? && x.outcome == Accepted && x.n in WantedAfter(wanted, front);
      Confirms(wanted, front) + if hit then [x.n] else []
  }

  /** The sequences counted as failed, in order. */
  function Fails(wanted: set<int>, s: seq<Signal>): seq<int>
    decreases |s|
  {
    if s == [] then []
    else
      var front, x := s[..|s| - 1], s[|s| - 1];
      var hit := x.Delivered? && x.outcome != Accepted && x.n in WantedAfter(wanted, front);
      Fails(wanted, front) + if hit then [x.n] else []
  }

  // ---- Said without the loop ----

  /** What happened to the first message with the sequence, if one was heard. */
  function First(s: seq<Signal>, n: int): Option<Outcome>
    decreases |s|
  {
    if s == [] then None
    else
      var front, x := First(s[..|s| - 1], n), s[|s| - 1];
      if front.Some? then front else if x.Delivered? && x.n == n then Some(x.outcome) else None
  }

  predicate Distinct(s: seq<int>) {
    forall i, j :: 0 <= i < j < |s| ==> s[i] != s[j]
  }

  /** The first message with a wanted sequence decides: confirmed, failed, or still wanted. */
  lemma {:induction false} FirstDecides(wanted: set<int>, s: seq<Signal>, n: int)
    ensures n in WantedAfter(wanted, s) <==> n in wanted && First(s, n) == None
    ensures n in Confirms(wanted, s) <==> n in wanted && First(s, n) == Some(Accepted)
    ensures n in Fails(wanted, s) <==>
      n in wanted && (First(s, n) == Some(SendRefused) || First(s, n) == Some(SettleRefused))
    decreases |s|
  {
    if s != [] { FirstDecides(wanted, s[..|s| - 1], n); }
  }

  lemma {:induction false} EachOnce(wanted: set<int>, s: seq<Signal>)
    ensures Distinct(Confirms(wanted, s)) && Distinct(Fails(wanted, s))
    decreases |s|
  {
    if s != [] {
      var front, x := s[..|s| - 1], s[|s| - 1];
      EachOnce(wanted, front);
      if x.Delivered? { FirstDecides(wanted, front, x.n); }
    }
  }

  // ---- The cell after what was heard ----

  lemma {:induction false} TaskRunConcat(c: Cell, a: seq<TaskEvent>, b: seq<TaskEvent>)
    ensures TaskRun(c, a + b) == TaskRun(TaskRun(c, a), b)
    decreases |b|
  {
    if b == [] {
      assert a + b == a;
    } else {
      assert (a + b)[..|a + b| - 1] == a + b[..|b| - 1];
      TaskRunConcat(c, a, b[..|b| - 1]);
    }
  }

  lemma TaskRunOne(c: Cell, e: TaskEvent)
    ensures TaskRun(c, [e]) == TaskStep(c, e)
  {
    assert [e][..0] == [];
  }

  lemma TaskRunTwo(c: Cell, a: TaskEvent, b: TaskEvent)
    ensures TaskRun(c, [a, b]) == TaskStep(TaskStep(c, a), b)
  {
    assert [a, b][..1] == [a];
    TaskRunOne(c, a);
  }

  predicate AtWork(c: Cell, wanted: set<int>, cancel: bool) {
    c.op.Some? && c.job.ReplayTo? && c.op.value.cancelRequested == cancel
    && c.op.value.task.Transferring? && c.op.value.task.wanted == wanted && c.op.value.task.sending == None
  }

  function SetOf(s: seq<int>): set<int> { set n | n in s }

  /** The same record but for the skip-set, the flush bookkeeping and where the transfer stands. */
  predicate Carries(c: Cell, c': Cell) {
    c.op.Some? && c'.op.Some? && c'.job == c.job && c'.entity == c.entity && c'.cached == c.cached && c'.disk == c.disk
    && c'.op.value.missing == c.op.value.missing && c'.op.value.cancelRequested == c.op.value.cancelRequested
  }

  /** Between two signals: what is left to want, what failed, and what was confirmed. */
  predicate Progress(c: Cell, wanted: set<int>, cancel: bool, s: seq<Signal>, c': Cell) {
    && AtWork(c, wanted, cancel) && AtWork(c', WantedAfter(wanted, s), cancel) && Carries(c, c')
    && c'.op.value.state == c.op.value.state
    && c'.op.value.task.failed == c.op.value.task.failed + SetOf(Fails(wanted, s))
    && c'.op.value.processed == c.op.value.processed + SetOf(Confirms(wanted, s))
  }

  lemma DeliveryEffect(c: Cell, wanted: set<int>, cancel: bool, n: int, outcome: Outcome)
    requires AtWork(c, wanted, cancel) && n in wanted
    ensures var c' := HearOne(c, Delivered(n, outcome));
      && AtWork(c', wanted - {n}, cancel) && Carries(c, c') && c'.op.value.state == c.op.value.state
      && c'.op.value.task.failed
         == (if outcome == Accepted then c.op.value.task.failed else c.op.value.task.failed + {n})
      && c'.op.value.processed == (if outcome == Accepted then c.op.value.processed + {n} else c.op.value.processed)
      && c'.broker.sent == if outcome == SendRefused then c.broker.sent else c.broker.sent[n := c.broker.sent[n] + 1]
  {
    match outcome
    case Accepted => TaskRunTwo(c, Send(n), Confirm);
    case SendRefused => TaskRunOne(c, Reject(n));
    case SettleRefused => TaskRunTwo(c, Send(n), SettleFault);
  }

  lemma HearNext(c: Cell, s: seq<Signal>, x: Signal)
    ensures Hear(c, s + [x]) == HearOne(Hear(c, s), x)
  {
    assert (s + [x])[..|s|] == s;
  }

  /** The sequence one signal confirms, or fails. */
  function Confirmed1(wanted: set<int>, x: Signal): seq<int> {
    if x.Delivered? && x.n in wanted && x.outcome == Accepted then [x.n] else []
  }

  function Failed1(wanted: set<int>, x: Signal): seq<int> {
    if x.Delivered? && x.n in wanted && x.outcome != Accepted then [x.n] else []
  }

  lemma ListsGrow(wanted: set<int>, s: seq<Signal>, x: Signal)
    ensures Confirms(wanted, s + [x]) == Confirms(wanted, s) + Confirmed1(WantedAfter(wanted, s), x)
    ensures Fails(wanted, s + [x]) == Fails(wanted, s) + Failed1(WantedAfter(wanted, s), x)
  {
    assert (s + [x])[..|s|] == s;
  }

  lemma SetGrows(s: seq<int>, n: int)
    ensures SetOf(s + [n]) == SetOf(s) + {n} && SetOf(s + []) == SetOf(s)
  {
    assert s + [] == s;
  }

  lemma ProgressStep(c: Cell, wanted: set<int>, cancel: bool, s: seq<Signal>, m: Cell, x: Signal)
    requires Progress(c, wanted, cancel, s, m) && !Stops(x, cancel)
    ensures Progress(c, wanted, cancel, s + [x], HearOne(m, x))
  {
    var left := WantedAfter(wanted, s);
    assert (s + [x])[..|s|] == s;
    ListsGrow(wanted, s, x);
    if x.Delivered? && x.n in left {
      DeliveryEffect(m, left, cancel, x.n, x.outcome);
      SetGrows(Confirms(wanted, s), x.n);
      SetGrows(Fails(wanted, s), x.n);
    } else {
      assert SignalEvents(left, cancel, x) == [];
      assert TaskRun(m, []) == m;
      SetGrows(Confirms(wanted, s), 0);
      SetGrows(Fails(wanted, s), 0);
    }
  }

  lemma {:induction false} Proceeds(c: Cell, wanted: set<int>, cancel: bool, s: seq<Signal>)
    requires AtWork(c, wanted, cancel) && Uninterrupted(s, cancel)
    ensures Progress(c, wanted, cancel, s, Hear(c, s))
    decreases |s|
  {
    if s == [] {
    } else {
      var front, x := s[..|s| - 1], s[|s| - 1];
      assert s == front + [x];
      Proceeds(c, wanted, cancel, front);
      HearNext(c, front, x);
      ProgressStep(c, wanted, cancel, front, Hear(c, front), x);
    }
  }

  /** How many copies of n what was heard sent: one for a first message accepted or refused only at its
      settle, one for a send cut off by a cancel. */
  function Copies(wanted: set<int>, cancel: bool, s: seq<Signal>, n: int): nat {
    if n !in wanted then 0
    else if First(s, n) == Some(Accepted) || First(s, n) == Some(SettleRefused) then 1
    else if First(s, n) == None && Stopped(s, cancel) && s[|s| - 1] == CancelledInCall(n) then 1
    else 0
  }

  lemma {:induction false} SendsCopies(c: Cell, wanted: set<int>, cancel: bool, s: seq<Signal>, n: int)
    requires AtWork(c, wanted, cancel) && Uninterrupted(s, cancel)
    ensures Hear(c, s).broker.sent[n] == c.broker.sent[n] + Copies(wanted, cancel, s, n)
    decreases |s|
  {
    if s != [] {
      var front, x := s[..|s| - 1], s[|s| - 1];
      assert s == front + [x];
      SendsCopies(c, wanted, cancel, front, n);
      Proceeds(c, wanted, cancel, front);
      HearNext(c, front, x);
      FirstDecides(wanted, front, n);
      CopiesStep(Hear(c, front), WantedAfter(wanted, front), cancel, x, n);
    }
  }

  lemma CopiesStep(m: Cell, left: set<int>, cancel: bool, x: Signal, n: int)
    requires AtWork(m, left, cancel) && !Stops(x, cancel)
    ensures HearOne(m, x).broker.sent[n] == m.broker.sent[n] +
      if x.Delivered? && x.n == n && n in left && x.outcome != SendRefused then 1 else 0
  {
    if x.Delivered? && x.n in left {
      DeliveryEffect(m, left, cancel, x.n, x.outcome);
    } else {
      assert SignalEvents(left, cancel, x) == [] && TaskRun(m, []) == m;
    }
  }

  // ---- With the lists the pass keeps ----

  /** An operation in a pass, the sequences the pass has confirmed and the number it counts as failed. */
  datatype Pass = Pass(cell: Cell, confirmed: seq<int>, failedCount: nat)

  function ListenOne(p: Pass, x: Signal): Pass {
    var hit := x.Delivered? && x.n in WantedIn(p.cell);
    Pass(HearOne(p.cell, x),
         p.confirmed + (if hit && x.outcome == Accepted then [x.n] else []),
         p.failedCount + if hit && x.outcome != Accepted then 1 else 0)
  }

  function Listen(p: Pass, s: seq<Signal>): Pass
    decreases |s|
  {
    if s == [] then p else ListenOne(Listen(p, s[..|s| - 1]), s[|s| - 1])
  }

  lemma {:induction false} ListenConcat(p: Pass, a: seq<Signal>, b: seq<Signal>)
    ensures Listen(p, a + b) == Listen(Listen(p, a), b)
    decreases |b|
  {
    if b == [] {
      assert a + b == a;
    } else {
      assert (a + b)[..|a + b| - 1] == a + b[..|b| - 1];
      ListenConcat(p, a, b[..|b| - 1]);
    }
  }

  lemma {:induction false} ListensToCell(p: Pass, s: seq<Signal>)
    ensures Listen(p, s).cell == Hear(p.cell, s)
    decreases |s|
  {
    if s != [] { ListensToCell(p, s[..|s| - 1]); }
  }

  lemma ListensAtWork(p: Pass, wanted: set<int>, cancel: bool, s: seq<Signal>)
    requires AtWork(p.cell, wanted, cancel) && Uninterrupted(s, cancel)
    ensures AtWork(Listen(p, s).cell, WantedAfter(wanted, s), cancel)
  {
    ListensToCell(p, s);
    Proceeds(p.cell, wanted, cancel, s);
  }

  lemma ListenNext(p: Pass, cancel: bool, s: seq<Signal>, x: Signal)
    requires AtWork(p.cell, WantedIn(p.cell), cancel) && Uninterrupted(s, cancel)
    ensures Listen(p, s + [x]) == ListenOne(Listen(p, s), x)
    ensures AtWork(Listen(p, s).cell, WantedIn(Listen(p, s).cell), cancel)
    ensures !Stops(x, cancel) ==> Uninterrupted(s + [x], cancel)
  {
    assert (s + [x])[..|s|] == s;
    ListensAtWork(p, WantedIn(p.cell), cancel, s);
  }

  lemma Associates<T>(a: seq<T>, b: seq<T>, c: seq<T>)
    ensures a + (b + c) == (a + b) + c
  {
  }

  /** The lists are those of the signals. */
  lemma {:induction false} Listens(c: Cell, wanted: set<int>, cancel: bool, s: seq<Signal>, confirmed: seq<int>,
      failedCount: nat)
    requires AtWork(c, wanted, cancel) && Uninterrupted(Before(s, cancel), cancel)
    ensures var p := Listen(Pass(c, confirmed, failedCount), s);
      p.confirmed == confirmed + Confirms(wanted, s) && p.failedCount == failedCount + |Fails(wanted, s)|
    decreases |s|
  {
    if s == [] {
      assert confirmed + [] == confirmed;
    } else {
      var front, x := s[..|s| - 1], s[|s| - 1];
      assert s == front + [x];
      FrontUninterrupted(s, cancel);
      Listens(c, wanted, cancel, front, confirmed, failedCount);
      ListensAtWork(Pass(c, confirmed, failedCount), wanted, cancel, front);
      ListsGrow(wanted, front, x);
      ListenLists(Listen(Pass(c, confirmed, failedCount), front), x);
      Associates(confirmed, Confirms(wanted, front), Confirmed1(WantedAfter(wanted, front), x));
    }
  }

  lemma FrontUninterrupted(s: seq<Signal>, cancel: bool)
    requires s != [] && Uninterrupted(Before(s, cancel), cancel)
    ensures Uninterrupted(s[..|s| - 1], cancel) && Before(s[..|s| - 1], cancel) == s[..|s| - 1]
  {
  }

  lemma ListenLists(p: Pass, x: Signal)
    ensures ListenOne(p, x).confirmed == p.confirmed + Confirmed1(WantedIn(p.cell), x)
    ensures ListenOne(p, x).failedCount == p.failedCount + |Failed1(WantedIn(p.cell), x)|
  {
  }

  // ---- How it ends ----

  lemma StopEffect(m: Cell, left: set<int>, cancel: bool, x: Signal)
    requires AtWork(m, left, cancel) && Stops(x, cancel)
    ensures var c' := HearOne(m, x);
      && c'.op.Some? && c'.op.value.task.Idle? && Carries(m, c') && c'.op.value.processed == m.op.value.processed
      && c'.op.value.state == (if x.Fault? then Failed else Cancelled)
      && forall n :: c'.broker.sent[n] == m.broker.sent[n] + if x == CancelledInCall(n) && n in left then 1 else 0
  {
    match x
    case Fault => TaskRunOne(m, Throw);
    case CancelSeen => TaskRunOne(m, ObserveCancel);
    case CancelledInCall(n) =>
      if n in left { TaskRunTwo(m, Send(n), ObserveCancel); } else { TaskRunOne(m, ObserveCancel); }
  }

  lemma FinishEffect(m: Cell, left: set<int>, cancel: bool)
    requires AtWork(m, left, cancel)
    ensures var c', o := TaskStep(m, Finish), m.op.value;
      && c'.op.Some? && c'.op.value.task.Idle? && c'.broker == m.broker && c'.job == m.job
      && c'.op.value.processed == o.processed && c'.op.value.missing == left
      && c'.op.value.state == if o.task.failed == {} then Completed else Failed
  {
  }

  lemma {:induction false} CutsHere(s: seq<Signal>, cancel: bool, m: nat)
    requires m < |s| && Uninterrupted(s[..m], cancel) && Stops(s[m], cancel)
    ensures Cut(s, cancel) == s[..m] + [s[m]] && Stopped(Cut(s, cancel), cancel)
    decreases m
  {
    if m > 0 {
      assert s[..m][0] == s[0] && s[1..][..m - 1] == s[..m][1..];
      CutsHere(s[1..], cancel, m - 1);
      assert s[..m] == [s[0]] + s[1..][..m - 1];
    }
  }

  lemma {:induction false} CutsNowhere(s: seq<Signal>, cancel: bool)
    requires Uninterrupted(s[..|s|], cancel)
    ensures Cut(s, cancel) == s[..|s|] && !Stopped(s[..|s|], cancel)
    decreases |s|
  {
    assert s[..|s|] == s;
    if s != [] {
      assert s == [s[0]] + s[1..] && s[1..][..|s| - 1] == s[1..];
      CutsNowhere(s[1..], cancel);
    }
  }

  lemma BeforeConcat(a: seq<Signal>, b: seq<Signal>, cancel: bool)
    requires Uninterrupted(a, cancel)
    ensures Stopped(a + b, cancel) <==> Stopped(b, cancel)
    ensures Before(a + b, cancel) == a + Before(b, cancel)
  {
    if b == [] {
      assert a + b == a;
    } else {
      assert (a + b)[|a + b| - 1] == b[|b| - 1];
    }
  }

  lemma UninterruptedConcat(a: seq<Signal>, b: seq<Signal>, cancel: bool)
    requires Uninterrupted(a, cancel) && Uninterrupted(b, cancel)
    ensures Uninterrupted(a + b, cancel)
  {
  }

  lemma {:induction false} CutShape(s: seq<Signal>, cancel: bool)
    ensures Uninterrupted(Before(Cut(s, cancel), cancel), cancel)
    ensures !Stopped(Cut(s, cancel), cancel) ==> Cut(s, cancel) == s
    decreases |s|
  {
    if s != [] && !Stops(s[0], cancel) {
      CutShape(s[1..], cancel);
      BeforeConcat([s[0]], Cut(s[1..], cancel), cancel);
      UninterruptedConcat([s[0]], Before(Cut(s[1..], cancel), cancel), cancel);
      assert s == [s[0]] + s[1..];
    }
  }

  lemma {:induction false} HeardShape(wanted: set<int>, cancel: bool, batches: seq<seq<Signal>>)
    ensures Uninterrupted(Before(Heard(wanted, cancel, batches), cancel), cancel)
    decreases |batches|
  {
    if !(wanted == {} || batches == [] || batches[0] == []) {
      var batch := Cut(batches[0], cancel);
      CutShape(batches[0], cancel);
      if !Stopped(batch, cancel) {
        var rest := Heard(WantedAfter(wanted, batch), cancel, batches[1..]);
        HeardShape(WantedAfter(wanted, batch), cancel, batches[1..]);
        BeforeConcat(batch, rest, cancel);
        UninterruptedConcat(batch, Before(rest, cancel), cancel);
      }
    }
  }

  lemma {:induction false} WantedConcat(wanted: set<int>, a: seq<Signal>, b: seq<Signal>)
    ensures WantedAfter(wanted, a + b) == WantedAfter(WantedAfter(wanted, a), b)
    decreases |b|
  {
    if b == [] {
      assert a + b == a;
    } else {
      assert (a + b)[..|a + b| - 1] == a + b[..|b| - 1];
      WantedConcat(wanted, a, b[..|b| - 1]);
    }
  }

  /** Receives go on exactly as long as no signal ended the pass, something is wanted and no receive brought
      nothing. */
  lemma {:induction false} HeardGoesOn(wanted: set<int>, cancel: bool, a: seq<seq<Signal>>, b: seq<seq<Signal>>)
    ensures var heard := Heard(wanted, cancel, a); var left := WantedAfter(wanted, heard);
      Heard(wanted, cancel, a + b)
      == if Stopped(heard, cancel) || left == {} || [] in a then heard else heard + Heard(left, cancel, b)
    decreases |a|
  {
    if a == [] {
      assert a + b == b && [] + Heard(wanted, cancel, b) == Heard(wanted, cancel, b);
    } else if wanted != {} && a[0] != [] {
      var batch := Cut(a[0], cancel);
      CutShape(a[0], cancel);
      if !Stopped(batch, cancel) {
        var left := WantedAfter(wanted, batch);
        var rest := Heard(left, cancel, a[1..]);
        assert (a + b)[1..] == a[1..] + b;
        HeardGoesOn(left, cancel, a[1..], b);
        WantedConcat(wanted, batch, rest);
        BeforeConcat(batch, rest, cancel);
        Associates(batch, rest, Heard(WantedAfter(left, rest), cancel, b));
      }
    }
  }

  lemma {:induction false} CutIsFront(s: seq<Signal>, cancel: bool)
    ensures |Cut(s, cancel)| <= |s| && Cut(s, cancel) == s[..|Cut(s, cancel)|]
    decreases |s|
  {
    if s != [] && !Stops(s[0], cancel) {
      CutIsFront(s[1..], cancel);
      var k := |Cut(s[1..], cancel)|;
      assert s[..k + 1] == [s[0]] + s[1..][..k];
    }
  }

  /** With something wanted, all of a receive's batch is heard, or the front of it up to the first signal
      that ends the pass. */
  lemma BatchHeard(wanted: set<int>, cancel: bool, batch: seq<Signal>)
    requires wanted != {}
    ensures var heard := Heard(wanted, cancel, [batch]);
      && |heard| <= |batch| && heard == batch[..|heard|] && (heard == batch || Stopped(heard, cancel))
      && forall i :: 0 <= i < |heard| - 1 ==> !heard[i].Fault? && (cancel ==> heard[i].Delivered?)
  {
    HeardShape(wanted, cancel, [batch]);
    CutShape(batch, cancel);
    CutIsFront(batch, cancel);
    assert Heard(WantedAfter(wanted, Cut(batch, cancel)), cancel, [batch][1..]) == [];
    assert forall i :: 0 <= i < |Heard(wanted, cancel, [batch])| - 1 ==>
      Heard(wanted, cancel, [batch])[i] == Before(Heard(wanted, cancel, [batch]), cancel)[i];
  }

  predicate Refused(s: seq<Signal>, n: int) {
    First(s, n) == Some(SendRefused) || First(s, n) == Some(SettleRefused)
  }

  /** Wanted sequences whose first message was accepted, that had none, and whose first message was refused. */
  function AcceptedOf(wanted: set<int>, s: seq<Signal>): set<int> {
    set n | n in wanted && First(s, n) == Some(Accepted)
  }

  function UnheardOf(wanted: set<int>, s: seq<Signal>): set<int> { set n | n in wanted && First(s, n) == None }

  function RefusedOf(wanted: set<int>, s: seq<Signal>): set<int> { set n | n in wanted && Refused(s, n) }

  /** The signal that stops a pass decides no sequence. */
  lemma ByFirst(wanted: set<int>, cancel: bool, heard: seq<Signal>)
    ensures var front := Before(heard, cancel);
      && SetOf(Confirms(wanted, front)) == AcceptedOf(wanted, heard)
      && SetOf(Fails(wanted, front)) == RefusedOf(wanted, heard)
      && WantedAfter(wanted, front) == UnheardOf(wanted, heard)
  {
    var front := Before(heard, cancel);
    forall n ensures n in SetOf(Confirms(wanted, front)) <==> n in AcceptedOf(wanted, heard) {
      FirstDecides(wanted, front, n);
    }
    forall n ensures n in SetOf(Fails(wanted, front)) <==> n in RefusedOf(wanted, heard) {
      FirstDecides(wanted, front, n);
    }
    forall n ensures n in WantedAfter(wanted, front) <==> n in UnheardOf(wanted, heard) {
      FirstDecides(wanted, front, n);
    }
  }

  /** A whole pass, from what it hears. Each wanted sequence is decided by the first message that has it:
      accepted ones join the skip-set, refused ones fail the pass, the others stay unsent. The pass is
      Completed if and only if no fault and no cancel ended it and none was refused; when nothing ended it
      early the missing set becomes the wanted sequences no message had. */
  lemma PassMeans(c: Cell, wanted: set<int>, cancel: bool, batches: seq<seq<Signal>>)
    requires AtWork(c, wanted, cancel) && c.op.value.task.failed == {}
    ensures var heard, c' := Heard(wanted, cancel, batches), PassCell(c, batches);
      && c'.op.Some? && c'.op.value.task.Idle? && c'.job == c.job
      && c'.op.value.processed == c.op.value.processed + AcceptedOf(wanted, heard)
      && (c'.op.value.state == Completed <==> !Stopped(heard, cancel) && RefusedOf(wanted, heard) == {})
      && (c'.op.value.state == Cancelled <==> Stopped(heard, cancel) && !heard[|heard| - 1].Fault?)
      && (c'.op.value.state == Completed || c'.op.value.state == Cancelled || c'.op.value.state == Failed)
      && c'.op.value.missing == (if Stopped(heard, cancel) then c.op.value.missing else UnheardOf(wanted, heard))
  {
    var heard := Heard(wanted, cancel, batches);
    HeardShape(wanted, cancel, batches);
    Proceeds(c, wanted, cancel, Before(heard, cancel));
    PassEnds(c, wanted, cancel, batches);
    ByFirst(wanted, cancel, heard);
  }

  /** The target gets exactly one copy of each wanted sequence whose first message was accepted or refused
      only at its settle, or whose send was cut off from its settle by a cancel; and no other. */
  lemma PassSends(c: Cell, wanted: set<int>, cancel: bool, batches: seq<seq<Signal>>, n: int)
    requires AtWork(c, wanted, cancel)
    ensures PassCell(c, batches).broker.sent[n]
      == c.broker.sent[n] + Copies(wanted, cancel, Heard(wanted, cancel, batches), n)
  {
    var heard := Heard(wanted, cancel, batches);
    var front := Before(heard, cancel);
    HeardShape(wanted, cancel, batches);
    Proceeds(c, wanted, cancel, front);
    PassEnds(c, wanted, cancel, batches);
    SendsCopies(c, wanted, cancel, front, n);
    FirstDecides(wanted, front, n);
  }

  /** The last step of a pass, from where the uninterrupted part left it. */
  lemma PassEnds(c: Cell, wanted: set<int>, cancel: bool, batches: seq<seq<Signal>>)
    requires AtWork(c, wanted, cancel) && Uninterrupted(Before(Heard(wanted, cancel, batches), cancel), cancel)
    requires Progress(c, wanted, cancel, Before(Heard(wanted, cancel, batches), cancel),
      Hear(c, Before(Heard(wanted, cancel, batches), cancel)))
    ensures var heard, front := Heard(wanted, cancel, batches), Before(Heard(wanted, cancel, batches), cancel);
      var m, c' := Hear(c, front), PassCell(c, batches);
      && c'.op.Some? && c'.op.value.task.Idle? && c'.job == c.job && c'.op.value.processed == m.op.value.processed
      && c'.op.value.state == (if !Stopped(heard, cancel)
                               then if m.op.value.task.failed == {} then Completed else Failed
                               else if heard[|heard| - 1].Fault? then Failed else Cancelled)
      && c'.op.value.missing == (if Stopped(heard, cancel) then c.op.value.missing else WantedAfter(wanted, front))
      && forall n :: c'.broker.sent[n] == m.broker.sent[n]
           + if Stopped(heard, cancel) && heard[|heard| - 1] == CancelledInCall(n)
                && n in WantedAfter(wanted, front) then 1 else 0
  {
    var heard := Heard(wanted, cancel, batches);
    var front := Before(heard, cancel);
    if Stopped(heard, cancel) {
      var x := heard[|heard| - 1];
      assert heard == front + [x];
      HearNext(c, front, x);
      StopEffect(Hear(c, front), WantedAfter(wanted, front), cancel, x);
    } else {
      FinishEffect(Hear(c, front), WantedAfter(wanted, front), cancel);
    }
  }

  // ---- As a trace of steps ----

  lemma {:induction false} HearIsTrace(c: Cell, wanted: set<int>, cancel: bool, s: seq<Signal>)
    requires AtWork(c, wanted, cancel) && Uninterrupted(s, cancel)
    ensures Hear(c, s) == TaskRun(c, Events(wanted, cancel, s))
    decreases |s|
  {
    if s != [] {
      var front, x := s[..|s| - 1], s[|s| - 1];
      HearIsTrace(c, wanted, cancel, front);
      Proceeds(c, wanted, cancel, front);
      TaskRunConcat(c, Events(wanted, cancel, front), SignalEvents(WantedAfter(wanted, front), cancel, x));
    }
  }

  /** A pass takes exactly the steps of PassEvents. */
  lemma PassIsTrace(c: Cell, wanted: set<int>, cancel: bool, batches: seq<seq<Signal>>)
    requires AtWork(c, wanted, cancel)
    ensures PassCell(c, batches) == TaskRun(c, PassEvents(wanted, cancel, batches))
  {
    var heard := Heard(wanted, cancel, batches);
    var front := Before(heard, cancel);
    HeardShape(wanted, cancel, batches);
    HearIsTrace(c, wanted, cancel, front);
    Proceeds(c, wanted, cancel, front);
    if Stopped(heard, cancel) {
      var x := heard[|heard| - 1];
      TaskRunConcat(c, Events(wanted, cancel, front), SignalEvents(WantedAfter(wanted, front), cancel, x));
      assert Events(wanted, cancel, heard) + [] == Events(wanted, cancel, heard);
    } else {
      TaskRunConcat(c, Events(wanted, cancel, heard), [Finish]);
      TaskRunOne(TaskRun(c, Events(wanted, cancel, heard)), Finish);
    }
  }
}
