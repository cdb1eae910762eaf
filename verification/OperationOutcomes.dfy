/**
 How an operation's turn with its worker ends: from what its executor, its receipt, its target check and its
 saves answer, and from whether it was canceled, to the status it is left with.
 */
module OperationOutcomes {
  import opened Wrappers
  import opened OperationQueue
  import opened OperationSafety
  import opened OperationStarts
  import opened OperationCancel
  import opened OperationOrder

  /** The worker of `t` is at `point` with `id`, which is not over. */
  predicate With(m: Manager, t: Target, id: Id, point: Point) {
    m.up && t in m.runners && m.runners[t].hold == Held(id, point) && id in m.mem && !m.mem[id].status.Terminal()
  }

  /** `id` now reads so in memory, and on disk if the save shows; its worker is free and nothing else has changed. */
  ghost predicate EndsAs(m: Manager, m': Manager, t: Target, id: Id, status: Status, recon: Recon, save: Save)
    requires t in m.runners && id in m.mem
  {
    var op := m.mem[id].(status := status, recon := recon);
    && m'.mem == m.mem[id := op]
    && (save.Shows() ==> id in m'.disk && m'.disk[id] == op)
    && m'.runners == m.runners[t := m.runners[t].(hold := Hold.Nothing)]
    && m'.executed == m.executed && m'.index == m.index && m'.signals == m.signals
  }

  lemma Finishes(m: Manager, c: Config, t: Target, id: Id, status: Status, recon: Option<Recon>, save: Save)
    requires With(m, t, id, Ending(status, recon))
    ensures Enabled(m, c, Finish(t, save))
    ensures EndsAs(m, Do(m, c, Finish(t, save)), t, id, status, if recon.Some? then recon.value else m.mem[id].recon, save)
  {}

  /** Ending from here is ending from before, if only the worker's point has moved on. */
  lemma EndsFromBefore(m: Manager, m1: Manager, m': Manager, t: Target, id: Id, status: Status, recon: Recon, save: Save)
    requires t in m.runners && id in m.mem && t in m1.runners && id in m1.mem && EndsAs(m1, m', t, id, status, recon, save)
    requires m1 == m.(runners := m1.runners, mem := m1.mem, disk := m1.disk)
    requires m1.mem == m.mem[id := m1.mem[id]] && m1.mem[id] == m.mem[id].(status := m1.mem[id].status)
    requires m1.runners == m.runners[t := m1.runners[t]] && m1.runners[t].queue == m.runners[t].queue
    ensures EndsAs(m, m', t, id, status, recon, save)
  {
    var op := m.mem[id].(status := status, recon := recon);
    assert m.mem[id := m1.mem[id]][id := op] == m.mem[id := op];
    assert m1.runners[t := m1.runners[t].(hold := Hold.Nothing)] == m.runners[t := m.runners[t].(hold := Hold.Nothing)];
  }

  /** Left to itself, an operation ends as its executor said. */
  lemma EndsAsExecuted(m: Manager, c: Config, t: Target, id: Id, ok: bool, save: Save)
    requires With(m, t, id, Executing) && id !in m.signals
    ensures var steps := [Return(t, ok), Judge(t), Finish(t, save)];
      Runs(m, c, steps) && EndsAs(m, After(m, c, steps), t, id, if ok then Succeeded else Failed, m.mem[id].recon, save)
  {
    var status := if ok then Succeeded else Failed;
    var m1 := Do(m, c, Return(t, ok));
    var m2 := Do(m1, c, Judge(t));
    assert With(m2, t, id, Ending(status, None));
    hide Do, Enabled, Runs, After;
    Finishes(m2, c, t, id, status, None, save);
    Three(m, c, Return(t, ok), Judge(t), Finish(t, save));
    hide EndsAs;
    EndsFromBefore(m, m2, Do(m2, c, Finish(t, save)), t, id, status, m.mem[id].recon, save);
  }

  /** What a receipt says of a command stopped on its way: it stands, it does not, or nobody knows. */
  function ReceiptStatus(receipt: Option<bool>): Status {
    match receipt
    case Some(true) => AlreadyCommitted
    case _ => Canceled
  }

  function ReceiptRecon(receipt: Option<bool>): Recon {
    match receipt
    case Some(true) => Applied
    case Some(false) => NotApplied
    case None => NeedsManualCheck
  }

  /** Canceled while it ran, an operation ends as its receipt says, whatever its executor returned. */
  lemma EndsAsReceiptSays(m: Manager, c: Config, t: Target, id: Id, ok: bool, stop: Save, receipt: Option<bool>, save: Save)
    requires With(m, t, id, Executing) && id in m.signals && !m.mem[id].status.Stopping?
    ensures var steps := [Return(t, ok), Judge(t)] + [BeginStop(t, stop), Resolve(t, receipt), Finish(t, save)];
      Runs(m, c, steps) && EndsAs(m, After(m, c, steps), t, id, ReceiptStatus(receipt), ReceiptRecon(receipt), save)
  {
    ReachesHalt(m, c, t, id, ok);
    var m2 := Do(Do(m, c, Return(t, ok)), c, Judge(t));
    StopsAsReceiptSays(m2, c, t, id, stop, receipt, save);
    hide Do, Enabled, Runs, After;
    Two(m, c, Return(t, ok), Judge(t));
    Joins(m, c, [Return(t, ok), Judge(t)], [BeginStop(t, stop), Resolve(t, receipt), Finish(t, save)]);
    hide EndsAs;
    EndsFromBefore(m, m2, After(m2, c, [BeginStop(t, stop), Resolve(t, receipt), Finish(t, save)]), t, id,
                   ReceiptStatus(receipt), ReceiptRecon(receipt), save);
  }

  lemma ReachesHalt(m: Manager, c: Config, t: Target, id: Id, ok: bool)
    requires With(m, t, id, Executing) && id in m.signals
    ensures Enabled(m, c, Return(t, ok)) && Enabled(Do(m, c, Return(t, ok)), c, Judge(t))
    ensures var m2 := Do(Do(m, c, Return(t, ok)), c, Judge(t));
      && With(m2, t, id, Halting) && m2 == m.(runners := m2.runners)
      && m2.runners == m.runners[t := m2.runners[t]] && m2.runners[t].queue == m.runners[t].queue
      && m.mem[id := m.mem[id]] == m.mem
  {}

  lemma StopsAsReceiptSays(m: Manager, c: Config, t: Target, id: Id, stop: Save, receipt: Option<bool>, save: Save)
    requires With(m, t, id, Halting) && !m.mem[id].status.Stopping?
    ensures var steps := [BeginStop(t, stop), Resolve(t, receipt), Finish(t, save)];
      Runs(m, c, steps) && EndsAs(m, After(m, c, steps), t, id, ReceiptStatus(receipt), ReceiptRecon(receipt), save)
  {
    StopResolves(m, c, t, id, stop, receipt);
    var m2 := Do(Do(m, c, BeginStop(t, stop)), c, Resolve(t, receipt));
    hide Do, Enabled, Runs, After;
    Finishes(m2, c, t, id, ReceiptStatus(receipt), Some(ReceiptRecon(receipt)), save);
    Three(m, c, BeginStop(t, stop), Resolve(t, receipt), Finish(t, save));
    hide EndsAs;
    EndsFromBefore(m, m2, Do(m2, c, Finish(t, save)), t, id, ReceiptStatus(receipt), ReceiptRecon(receipt), save);
  }

  lemma StopResolves(m: Manager, c: Config, t: Target, id: Id, stop: Save, receipt: Option<bool>)
    requires With(m, t, id, Halting) && !m.mem[id].status.Stopping?
    ensures Enabled(m, c, BeginStop(t, stop)) && Enabled(Do(m, c, BeginStop(t, stop)), c, Resolve(t, receipt))
    ensures var m1 := Do(m, c, BeginStop(t, stop));
      && m1.mem[id].status.Stopping? && (stop.Shows() ==> id in m1.disk && m1.disk[id] == m1.mem[id])
    ensures var m2 := Do(Do(m, c, BeginStop(t, stop)), c, Resolve(t, receipt));
      && With(m2, t, id, Ending(ReceiptStatus(receipt), Some(ReceiptRecon(receipt))))
      && m2 == m.(runners := m2.runners, mem := m2.mem, disk := m2.disk)
      && m2.mem == m.mem[id := m2.mem[id]] && m2.mem[id] == m.mem[id].(status := Stopping)
      && m2.runners == m.runners[t := m2.runners[t]] && m2.runners[t].queue == m.runners[t].queue
  {
    var m1 := Do(m, c, BeginStop(t, stop));
    assert m1.runners == m.runners[t := Runner(m.runners[t].queue, Held(id, Resolving))];
    assert m1.mem == m.mem[id := m.mem[id].(status := Stopping)];
  }

  /** A move that settles how the operation will end, and changes nothing else of it. */
  ghost predicate Decides(m: Manager, m1: Manager, t: Target, id: Id, status: Status)
    requires t in m.runners && id in m.mem
  {
    && With(m1, t, id, Ending(status, None))
    && m1 == m.(runners := m1.runners, mem := m1.mem, disk := m1.disk)
    && m1.mem == m.mem[id := m1.mem[id]] && m1.mem[id] == m.mem[id].(status := m1.mem[id].status)
    && m1.runners == m.runners[t := m1.runners[t]] && m1.runners[t].queue == m.runners[t].queue
  }

  lemma DecidedThenEnds(m: Manager, c: Config, step: Step, t: Target, id: Id, status: Status, save: Save)
    requires t in m.runners && id in m.mem && Enabled(m, c, step) && Decides(m, Do(m, c, step), t, id, status)
    ensures Runs(m, c, [step, Finish(t, save)])
    ensures EndsAs(m, After(m, c, [step, Finish(t, save)]), t, id, status, m.mem[id].recon, save)
  {
    var m1 := Do(m, c, step);
    hide Do, Enabled, Runs, After;
    Finishes(m1, c, t, id, status, None, save);
    Two(m, c, step, Finish(t, save));
    hide EndsAs;
    EndsFromBefore(m, m1, Do(m1, c, Finish(t, save)), t, id, status, m.mem[id].recon, save);
  }

  /** Signaled while it waited, an operation ends canceled without having run. */
  lemma EndsCanceledInQueue(m: Manager, c: Config, t: Target, id: Id, save: Save)
    requires (With(m, t, id, Popped) || With(m, t, id, WaitingForSlot)) && id in m.signals
    ensures Runs(m, c, [Mind(t), Finish(t, save)])
    ensures EndsAs(m, After(m, c, [Mind(t), Finish(t, save)]), t, id, Canceled, m.mem[id].recon, save)
  {
    assert m.mem[id := m.mem[id]] == m.mem;
    assert Decides(m, Do(m, c, Mind(t)), t, id, Canceled);
    hide Do, Runs, After, Decides, EndsAs;
    DecidedThenEnds(m, c, Mind(t), t, id, Canceled, save);
  }

  /** Its target has become another: it fails without having run. */
  lemma EndsFailedAtOtherTarget(m: Manager, c: Config, t: Target, id: Id, save: Save)
    requires With(m, t, id, Slotted)
    ensures Runs(m, c, [CheckTarget(t, false), Finish(t, save)])
    ensures EndsAs(m, After(m, c, [CheckTarget(t, false), Finish(t, save)]), t, id, Failed, m.mem[id].recon, save)
  {
    assert m.mem[id := m.mem[id]] == m.mem;
    assert Decides(m, Do(m, c, CheckTarget(t, false)), t, id, Failed);
    hide Do, Runs, After, Decides, EndsAs;
    DecidedThenEnds(m, c, CheckTarget(t, false), t, id, Failed, save);
  }

  /** A cancellation written before it started ends it canceled; a refused save of its start ends it failed. */
  lemma EndsUnstarted(m: Manager, c: Config, t: Target, id: Id, start: Save, save: Save)
    requires With(m, t, id, Checked) && (m.mem[id].status.CancelRequested? || (m.mem[id].status.Queued? && !start.landed))
    ensures Runs(m, c, [Run(t, start), Finish(t, save)])
    ensures EndsAs(m, After(m, c, [Run(t, start), Finish(t, save)]), t, id,
                   if m.mem[id].status.CancelRequested? then Canceled else Failed, m.mem[id].recon, save)
  {
    var status := if m.mem[id].status.CancelRequested? then Canceled else Failed;
    assert m.mem[id := m.mem[id]] == m.mem;
    assert Decides(m, Do(m, c, Run(t, start)), t, id, status);
    hide Do, Runs, After, Decides, EndsAs;
    DecidedThenEnds(m, c, Run(t, start), t, id, status, save);
  }

  /** Otherwise it is saved as running, and only then is the executor called, for it alone. */
  lemma StartsOnceSaved(m: Manager, c: Config, t: Target, id: Id, start: Save)
    requires With(m, t, id, Checked) && m.mem[id].status.Queued? && start.landed
    ensures Enabled(m, c, Run(t, start)) && Enabled(Do(m, c, Run(t, start)), c, Invoke(t))
    ensures var m1 := Do(m, c, Run(t, start));
      m1.mem[id] == m.mem[id].(status := Running) && id in m1.disk && m1.disk[id] == m1.mem[id] && m1.executed == m.executed
    ensures var m2 := Do(Do(m, c, Run(t, start)), c, Invoke(t));
      With(m2, t, id, Executing) && m2.executed == m.executed + [id] && m2.mem[id].status.Running?
      && m2.starts == m.starts + [Start(t, m.mem[id].admissionSeq)]
  {
    var m1 := Do(m, c, Run(t, start));
    assert With(m1, t, id, Starting);
    hide SetRunning;
  }

  /** A crash keeps what is on disk and nothing else of the process; the next one takes over the disk alone. */
  lemma CrashKeepsOnlyTheDisk(m: Manager, c: Config)
    ensures var m' := Do(m, c, Crash);
      && m'.disk == m.disk && m'.executed == m.executed && m'.used == m.used
      && !m'.up && !m'.closed && m'.mem == map[] && m'.index == map[] && m'.runners == map[] && m'.signals == {}
      && m'.granted == {} && m'.admissions == []
  {}
}
