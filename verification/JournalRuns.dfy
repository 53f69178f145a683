/** What the crash journal holds over whole runs: the skip-set on disk, and the status beside it. */
module JournalRuns {
  import opened Wrappers
  import opened Operations
  import opened OperationInvariant

  function Skips(row: Option<Entry>): set<int> {
    if row.Some? then row.value.processed else {}
  }

  /** At any moment of any run the skip-set on disk is within the one in memory, and nothing outside
      the request is ever in either. */
  lemma DiskWithinMemory(es: seq<Event>, id: OpId)
    requires id in Execute(Initial(), es).cells
    ensures var c := Execute(Initial(), es).cells[id];
      c.op.Some? ==> Skips(c.disk) <= c.op.value.processed <= Requested(c.job)
  {
    RunKeeps(es);
    var s := Execute(Initial(), es);
    assert CellInv(s.cells[id], HeldRow(s, id), s.lostWrites);
  }

  lemma LandedDisk(s: System, ok: bool, id: OpId)
    requires Inv(s) && id in s.cells
    ensures id in LandStep(s, ok).cells && Skips(s.cells[id].disk) <= Skips(LandStep(s, ok).cells[id].disk)
    ensures s.cells[id].disk.Some? ==> LandStep(s, ok).cells[id].disk.Some?
  {
    assert CellInv(s.cells[id], HeldRow(s, id), s.lostWrites);
  }

  lemma DiskGrowsInStep(s: System, e: Event, id: OpId)
    requires Inv(s) && id in s.cells
    ensures id in Apply(s, e).cells && Skips(s.cells[id].disk) <= Skips(Apply(s, e).cells[id].disk)
    ensures s.cells[id].disk.Some? ==> Apply(s, e).cells[id].disk.Some?
  {
    if e.Land? {
      LandedDisk(s, e.ok, id);
    } else if !e.Crash? {
      StepRecord(s, e, id);
    }
  }

  /** The journaled skip-set only grows: through restarts, failed saves, and overlapping writes. */
  lemma {:induction false} DiskGrows(es: seq<Event>, more: seq<Event>, id: OpId)
    requires id in Execute(Initial(), es).cells
    ensures id in Execute(Initial(), es + more).cells
    ensures Skips(Execute(Initial(), es).cells[id].disk) <= Skips(Execute(Initial(), es + more).cells[id].disk)
    decreases |more|
  {
    if more == [] {
      assert es + more == es;
    } else {
      var front := more[..|more| - 1];
      assert (es + more)[..|es + more| - 1] == es + front;
      DiskGrows(es, front, id);
      RunKeeps(es + front);
      DiskGrowsInStep(Execute(Initial(), es + front), more[|more| - 1], id);
    }
  }

  /** A failed save leaves its row in the cache, and the next successful save, of whichever operation, puts
      it on disk with every other cached row. */
  lemma NextSaveHeals(s: System, id: OpId, h: Held)
    requires s.held.Some? && s.held.value.id in s.cells && h.id in s.cells && id in s.cells
    ensures var s1 := LandStep(s, false);
      && s1.cells[s.held.value.id].cached == Some(s.held.value.entry) && s1.cells[id].disk == s.cells[id].disk
      && var s2 := LandStep(s1.(held := Some(h)), true);
         && id in s2.cells && s2.cells[id].disk == (if id == h.id then Some(h.entry) else s1.cells[id].cached)
  {
  }

  // ---- After the closing write ----

  predicate Over(c: Cell) {
    c.op.Some? && c.op.value.task.Idle?
  }

  /** The row on disk, or the one about to be saved, has the whole skip-set of a finished task. */
  predicate OnDisk(s: System, id: OpId) {
    id in s.cells && Over(s.cells[id]) && s.cells[id].disk.Some?
    && s.cells[id].disk.value.processed == s.cells[id].op.value.processed
  }

  predicate Closing(s: System, id: OpId) {
    id in s.cells && Over(s.cells[id]) && HeldRow(s, id).Some?
    && HeldRow(s, id).value.processed == s.cells[id].op.value.processed
  }

  /** Any write that enters the persist gate after the runner is over carries the whole skip-set,
      whatever status it captured before. */
  lemma ClosingWriteIsWhole(s: System, id: OpId, index: nat)
    requires Inv(s) && id in s.cells && Over(s.cells[id]) && s.held.None?
    requires index < |s.cells[id].op.value.waiting|
    ensures Closing(AcquireStep(s, id, index), id)
  {
  }

  lemma ClosingLands(s: System, id: OpId)
    requires Inv(s) && Closing(s, id)
    ensures OnDisk(LandStep(s, true), id)
  {
    assert CellInv(s.cells[id], HeldRow(s, id), s.lostWrites);
  }

  predicate ReopensOrDies(e: Event, id: OpId) {
    e == Crash || (e.Resume? && e.id == id)
  }

  /** A finished task takes no step, so its skip-set is final. */
  predicate SameOutcome(c: Cell, c': Cell) {
    Over(c) ==> Over(c') && c'.op.value.processed == c.op.value.processed
  }

  lemma IdleTaskStep(c: Cell, e: TaskEvent)
    ensures SameOutcome(c, TaskStep(c, e))
  {
  }

  lemma IdleLocal(s: System, e: Event, id: OpId)
    requires id in s.cells && (Local(e) || e.Acquire?)
    ensures id in Apply(s, e).cells && SameOutcome(s.cells[id], Apply(s, e).cells[id])
  {
    if e.Step? { IdleTaskStep(s.cells[id], e.task); }
  }

  lemma IdleControl(s: System, e: Event, id: OpId)
    requires id in s.cells && !ReopensOrDies(e, id)
    requires e.Start? || e.Cancel? || e.Resume? || e.Dismiss? || e.Land?
    ensures id in Apply(s, e).cells && SameOutcome(s.cells[id], Apply(s, e).cells[id])
  {
  }

  /** Once the closing write has landed, no later step but a resume puts disk and memory apart: every
      other write, however late it captured its status, saves the same skip-set. */
  lemma DiskStaysWhole(s: System, e: Event, id: OpId)
    requires Inv(s) && OnDisk(s, id) && !ReopensOrDies(e, id)
    ensures OnDisk(Apply(s, e), id)
  {
    if Local(e) || e.Acquire? { IdleLocal(s, e, id); } else { IdleControl(s, e, id); }
    DiskGrowsInStep(s, e, id);
    ApplyKeeps(s, e);
    assert CellInv(Apply(s, e).cells[id], HeldRow(Apply(s, e), id), Apply(s, e).lostWrites);
  }

  /** A crash after the closing write costs the skip-set nothing. */
  lemma CrashKeepsWholeSkipSet(s: System, id: OpId)
    requires Inv(s) && OnDisk(s, id)
    ensures OnDisk(CrashStep(s), id)
    ensures CrashStep(s).cells[id].op.value.processed == s.cells[id].op.value.processed
  {
  }

  /** The same over any later run without a restart or a resume of this operation. */
  lemma {:induction false} DiskStaysWholeForever(es: seq<Event>, more: seq<Event>, id: OpId)
    requires OnDisk(Execute(Initial(), es), id)
    requires forall i :: 0 <= i < |more| ==> !ReopensOrDies(more[i], id)
    ensures OnDisk(Execute(Initial(), es + more), id)
    decreases |more|
  {
    if more == [] {
      assert es + more == es;
    } else {
      var front := more[..|more| - 1];
      assert (es + more)[..|es + more| - 1] == es + front;
      DiskStaysWholeForever(es, front, id);
      DiskStaysWholeNext(es + front, more[|more| - 1], id);
    }
  }

  lemma DiskStaysWholeNext(es: seq<Event>, e: Event, id: OpId)
    requires OnDisk(Execute(Initial(), es), id) && !ReopensOrDies(e, id)
    ensures OnDisk(Apply(Execute(Initial(), es), e), id)
  {
    RunKeeps(es);
    DiskStaysWhole(Execute(Initial(), es), e, id);
  }
}
