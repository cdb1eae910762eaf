/**
 Statuses only go forward and retries stay honest; and what all the queue's promises come to over whole
 runs, with any number of crashes and restarts.
 */
module OperationOrder {
  import opened Wrappers
  import opened OperationQueue
  import opened OperationSafety
  import opened OperationStarts
  import opened OperationCancel

  // ---------------------------------------------------------------- statuses only go forward

  /** While the process is up: no status goes back, a final one stays, and what may be retried stays so. */
  ghost predicate Advances(m: Manager, m': Manager) {
    && (forall id <- m.mem | id !in m'.mem :: m.mem[id].status.Terminal())
    && (forall id <- m.mem | id in m'.mem ::
          && m.mem[id].status.Rank() <= m'.mem[id].status.Rank()
          && (m.mem[id].status.Terminal() ==> m'.mem[id].status == m.mem[id].status)
          && (Retryable(m.mem[id]) ==> Retryable(m'.mem[id])))
  }

  predicate WhileUp(step: Step) { !step.Crash? && !step.RecoverFails? && !step.Recover? }

  lemma WorkerAdvances(m: Manager, c: Config, step: Step)
    requires Enabled(m, c, step) && OfWorker(step) && Busy(m, step.t)
    ensures Advances(m, Do(m, c, step)) && Do(m, c, step).granted == m.granted
  {
    hide Retryable;
    var id := m.runners[step.t].hold.id;
    assert !m.mem[id].status.Terminal();
    assert !Retryable(m.mem[id]) by { NotYetRetryable(m.mem[id]); }
    if step.Mind? || step.GetSlot? || step.CheckTarget? || step.Run? || step.Invoke? {
      EarlyAdvances(m, c, step);
    } else {
      LateAdvances(m, c, step);
    }
  }

  lemma NotYetRetryable(op: Operation)
    requires !op.status.Terminal()
    ensures !Retryable(op)
  {}

  lemma EarlyAdvances(m: Manager, c: Config, step: Step)
    requires Enabled(m, c, step) && (step.Mind? || step.GetSlot? || step.CheckTarget? || step.Run? || step.Invoke?)
    requires Busy(m, step.t)
    ensures Advances(m, Do(m, c, step)) && Do(m, c, step).granted == m.granted
  {
    if step.Run? {
      hide Advances, Busy;
      RunAdvances(m, step.t, step.save);
    } else {
      hide SetRunning, Retryable, Busy;
    }
  }

  lemma RunAdvances(m: Manager, t: Target, save: Save)
    requires Busy(m, t) && m.runners[t].hold.at.Checked?
    ensures Advances(m, SetRunning(m, t, save)) && SetRunning(m, t, save).granted == m.granted
  {}

  lemma StoppingAdvances(m: Manager, t: Target, save: Save)
    requires Busy(m, t) && m.runners[t].hold.at.Halting?
    ensures Advances(m, BegunStopping(m, t, save)) && BegunStopping(m, t, save).granted == m.granted
  {
    NotYetRetryable(m.mem[m.runners[t].hold.id]);
    hide Retryable;
  }

  lemma FinishAdvances(m: Manager, t: Target, save: Save)
    requires Busy(m, t) && m.runners[t].hold.at.Ending?
    ensures Advances(m, Finished(m, t, save)) && Finished(m, t, save).granted == m.granted
  {}

  lemma LateAdvances(m: Manager, c: Config, step: Step)
    requires Enabled(m, c, step) && (step.Return? || step.Judge? || step.BeginStop? || step.Resolve? || step.Finish?)
    requires Busy(m, step.t)
    ensures Advances(m, Do(m, c, step)) && Do(m, c, step).granted == m.granted
  {
    if step.BeginStop? {
      hide Advances, Busy;
      StoppingAdvances(m, step.t, step.save);
    } else if step.Finish? {
      hide Advances, Busy;
      FinishAdvances(m, step.t, step.save);
    } else {
      hide Retryable, BegunStopping, Finished, Busy;
    }
  }

  lemma {:induction false} ForgottenOnlyRemoves(m: Manager, removed: seq<Id>)
    ensures var f := Forgotten(m, removed);
      && (forall id <- f.mem :: id in m.mem && f.mem[id] == m.mem[id])
      && (forall id <- m.mem | id !in f.mem :: m.mem[id].status.Terminal())
  {
    if removed != [] {
      ForgottenOnlyRemoves(m, removed[..|removed| - 1]);
    }
  }

  lemma CancelAdvances(m: Manager, id: Id, save: Save)
    ensures Advances(m, CancelWritten(m, id, save)) && CancelWritten(m, id, save).granted == m.granted
  {}

  lemma ReconcileAdvances(m: Manager, id: Id, receipt: Option<bool>, save: Save)
    ensures Advances(m, Reconciled(m, id, receipt, save)) && Reconciled(m, id, receipt, save).granted == m.granted
  {}

  lemma RecordsAdvance(m: Manager, c: Config, step: Step)
    requires Enabled(m, c, step) && OfRecords(step)
    ensures Advances(m, Do(m, c, step))
    ensures Do(m, c, step).granted == m.granted || (step.AllowRetry? && Do(m, c, step).granted == m.granted + {step.id})
  {
    if step.Cancel? {
      hide Advances;
      CancelAdvances(m, step.id, step.save);
    } else if step.Reconcile? {
      hide Advances;
      ReconcileAdvances(m, step.id, step.receipt, step.save);
    } else {
      hide Retryable, CancelWritten, Reconciled;
      if step.Forget? {
        ForgottenOnlyRemoves(m, step.removed);
        ForgottenStarts(m, step.removed);
      } else if step.Peek? {
        LookedLeaves(m, c, step.key, step.now);
      }
      hide Forgotten, Looked, WithinWindow;
    }
  }

  lemma PublishedLeaves(m: Manager, id: Id, op: Operation)
    ensures var m' := Published(m, id, op);
      m' == Recorded(m, id, op).(runners := m'.runners)
  {
    hide Recorded;
  }

  lemma PublishedAdvances(m: Manager, id: Id, op: Operation)
    requires id !in m.mem
    ensures Advances(m, Published(m, id, op)) && Published(m, id, op).granted == m.granted
  {
    hide Retryable;
    PublishedLeaves(m, id, op);
    hide Published;
  }

  lemma AdmitAdvances(m: Manager, c: Config, step: Step)
    requires Enabled(m, c, step) && step.Admit? && IdsOk(m)
    ensures Advances(m, Do(m, c, step)) && Do(m, c, step).granted == m.granted
  {
    var Admit(id, t, key, request, retryOf, now, later, journal, save) := step;
    var op := NewOperation(m, t, key, request, retryOf, later);
    hide Retryable, Admits, Refused, Published, Recorded;
    LookedLeaves(m, c, key, now);
    hide Looked;
    if Admits(m, c, t, key, request, now, journal, save) {
      PublishedAdvances(Looked(m, c, key, now), id, op);
    } else {
      RefusedLeaves(m, c, id, op, key, request, now, journal, save);
    }
  }

  lemma StatusesAdvance(m: Manager, c: Config, step: Step)
    requires Inv(m) && Enabled(m, c, step) && WhileUp(step)
    ensures Advances(m, Do(m, c, step))
    ensures Do(m, c, step).granted == m.granted || (step.AllowRetry? && Do(m, c, step).granted == m.granted + {step.id})
  {
    if OfWorker(step) {
      assert Busy(m, step.t) by { hide IdsOk, Owned, QueueOk, HoldOk; }
      hide Do, Inv, Busy, Advances;
      WorkerAdvances(m, c, step);
    } else if OfRecords(step) {
      hide Do, Inv, Advances;
      RecordsAdvance(m, c, step);
    } else if step.Admit? {
      hide Do, Advances, Owned, RunnersOk;
      AdmitAdvances(m, c, step);
    } else {
      hide Inv;
      TakeAdvances(m, c, step);
    }
  }

  lemma TakeAdvances(m: Manager, c: Config, step: Step)
    requires Enabled(m, c, step) && step.Take?
    ensures Advances(m, Do(m, c, step)) && Do(m, c, step).granted == m.granted
  {
    assert Do(m, c, step).mem == m.mem && Do(m, c, step).granted == m.granted;
    hide Do, Enabled;
  }

  /** A retry that was allowed is of an operation that may be retried, still. */
  ghost predicate GrantsOk(m: Manager) { forall id <- m.granted :: id in m.used && (id in m.mem ==> Retryable(m.mem[id])) }

  lemma GrantsKept(m: Manager, c: Config, step: Step)
    requires Inv(m) && GrantsOk(m) && (m.up || m.granted == {}) && Enabled(m, c, step)
    ensures GrantsOk(Do(m, c, step)) && (Do(m, c, step).up || Do(m, c, step).granted == {})
  {
    InvKept(m, c, step);
    var m' := Do(m, c, step);
    if WhileUp(step) {
      StatusesAdvance(m, c, step);
      UsedGrows(m, c, step);
      assert step.AllowRetry? ==> step.id in m.mem && Retryable(m.mem[step.id]);
      assert IdsOk(m) by { hide RunnersOk, Owned; }
      hide Do, Inv, Enabled, GrantsOk, Advances;
      GrantsStay(m, m', if step.AllowRetry? then {step.id} else {});
    } else {
      hide Inv;
      NoGrantsOverRestart(m, c, step);
    }
  }

  lemma NoGrantsOverRestart(m: Manager, c: Config, step: Step)
    requires Enabled(m, c, step) && !WhileUp(step) && (m.up || m.granted == {})
    ensures Do(m, c, step).granted == {}
  {
    hide Indexes, SeqCovers, RecoveredAll;
  }

  lemma GrantsStay(m: Manager, m': Manager, more: set<Id>)
    requires GrantsOk(m) && IdsOk(m) && Advances(m, m') && (m'.granted == m.granted || m'.granted == m.granted + more)
    requires forall id <- more :: id in m.mem && Retryable(m.mem[id])
    requires m.used <= m'.used && forall id <- m'.mem | id !in m.mem :: id !in m.used
    ensures GrantsOk(m')
  {
    hide Retryable;
  }

  lemma UsedGrows(m: Manager, c: Config, step: Step)
    requires Inv(m) && Enabled(m, c, step) && WhileUp(step)
    ensures m.used <= Do(m, c, step).used && Do(m, c, step).up == m.up
    ensures forall id <- Do(m, c, step).mem | id !in m.mem :: id !in m.used
  {
    hide Inv;
    if OfWorker(step) {
      hide Do;
      WorkerMoves(m, c, step);
    } else if OfRecords(step) {
      hide Do;
      RecordsStep(m, c, step);
    } else if step.Admit? {
      hide Admits, WithinBudgets, Find;
      LookedLeaves(m, c, step.key, step.now);
      hide Looked;
    }
  }

  // ---------------------------------------------------------------- whole runs

  ghost predicate Safe(m: Manager) {
    Inv(m) && StartsOk(m) && CancelInv(m) && GrantsOk(m) && (m.up || m.granted == {})
  }

  lemma SafeKept(m: Manager, c: Config, step: Step)
    requires Safe(m) && Enabled(m, c, step)
    ensures Safe(Do(m, c, step))
  {
    hide Inv, StartsOk, CancelInv, GrantsOk, Do, Enabled;
    InvKept(m, c, step);
    StartsKept(m, c, step);
    CancelKept(m, c, step);
    GrantsKept(m, c, step);
  }

  ghost predicate Runs(m: Manager, c: Config, steps: seq<Step>)
    decreases |steps|
  {
    steps == [] || (Enabled(m, c, steps[0]) && Runs(Do(m, c, steps[0]), c, steps[1..]))
  }

  ghost function After(m: Manager, c: Config, steps: seq<Step>): Manager
    requires Runs(m, c, steps)
    decreases |steps|
  {
    if steps == [] then m else After(Do(m, c, steps[0]), c, steps[1..])
  }

  lemma NoFurther(m: Manager, c: Config)
    ensures Runs(m, c, []) && After(m, c, []) == m
  {}

  lemma Leads(m: Manager, c: Config, step: Step, rest: seq<Step>)
    requires Enabled(m, c, step) && Runs(Do(m, c, step), c, rest)
    ensures Runs(m, c, [step] + rest) && After(m, c, [step] + rest) == After(Do(m, c, step), c, rest)
  {
    hide Do, Enabled;
    assert ([step] + rest)[1..] == rest;
  }

  lemma Two(m: Manager, c: Config, a: Step, b: Step)
    requires Enabled(m, c, a) && Enabled(Do(m, c, a), c, b)
    ensures Runs(m, c, [a, b]) && After(m, c, [a, b]) == Do(Do(m, c, a), c, b)
  {
    hide Do, Enabled;
    NoFurther(Do(Do(m, c, a), c, b), c);
    Leads(Do(m, c, a), c, b, []);
    Leads(m, c, a, [b]);
    assert [b] + [] == [b] && [a] + [b] == [a, b];
  }

  lemma Three(m: Manager, c: Config, a: Step, b: Step, d: Step)
    requires Enabled(m, c, a) && Enabled(Do(m, c, a), c, b) && Enabled(Do(Do(m, c, a), c, b), c, d)
    ensures Runs(m, c, [a, b, d]) && After(m, c, [a, b, d]) == Do(Do(Do(m, c, a), c, b), c, d)
  {
    hide Do, Enabled;
    Two(Do(m, c, a), c, b, d);
    Leads(m, c, a, [b, d]);
    assert [a] + [b, d] == [a, b, d];
  }

  lemma {:induction false} Joins(m: Manager, c: Config, a: seq<Step>, b: seq<Step>)
    requires Runs(m, c, a) && Runs(After(m, c, a), c, b)
    ensures Runs(m, c, a + b) && After(m, c, a + b) == After(After(m, c, a), c, b)
    decreases |a|
  {
    hide Do, Enabled;
    if a == [] {
      assert a + b == b;
    } else {
      Joins(Do(m, c, a[0]), c, a[1..], b);
      assert (a + b)[1..] == a[1..] + b;
    }
  }

  lemma {:induction false} SafeThroughout(m: Manager, c: Config, steps: seq<Step>)
    requires Safe(m) && Runs(m, c, steps)
    ensures Safe(After(m, c, steps))
    decreases |steps|
  {
    if steps != [] {
      SafeKept(m, c, steps[0]);
      hide Safe, Do, Enabled;
      SafeThroughout(Do(m, c, steps[0]), c, steps[1..]);
    }
  }

  /** A first start, on an empty disk or on records another build left behind. */
  ghost predicate FirstStart(m: Manager) {
    && !m.up && m.mem == map[] && m.index == map[] && m.runners == map[] && m.signals == {}
    && m.used == m.disk.Keys && m.executed == [] && m.starts == [] && m.granted == {} && m.canceledEarly == {}
    && m.admissions == []
  }

  /**
   At most once: over any run, with any number of crashes and restarts, refused saves that show on disk
   included, the executor is called at most once for an operation id, and never for one whose
   cancellation was acknowledged while it was still queued. Each target's operations start in the order
   they were admitted.
   */
  lemma AtMostOnce(m: Manager, c: Config, steps: seq<Step>)
    requires FirstStart(m) && Runs(m, c, steps)
    ensures var end := After(m, c, steps);
      && (forall i, j | 0 <= i < j < |end.executed| :: end.executed[i] != end.executed[j])
      && (forall i | 0 <= i < |end.executed| :: end.executed[i] !in end.canceledEarly)
      && (forall i, j | 0 <= i < j < |end.starts| && end.starts[i].target == end.starts[j].target ::
            end.starts[i].admissionSeq < end.starts[j].admissionSeq)
  {
    assert Safe(m);
    SafeThroughout(m, c, steps);
    var end := After(m, c, steps);
    hide QueueOk, HoldOk, StartsBefore, After, Runs, FirstStart, Owned, RunnersOk, Unrun;
    forall i | 0 <= i < |end.executed| ensures end.executed[i] !in end.canceledEarly {
      if end.executed[i] in end.canceledEarly {
        assert CanceledOk(end, end.executed[i]);
        UnrunIs(end, end.executed[i]);
      }
    }
  }

  lemma UnrunIs(m: Manager, id: Id)
    requires Unrun(m, id)
    ensures id !in m.executed
  {}

  /** An unfinished operation has one place: a slot of its own target's queue, or its target's worker. */
  ghost predicate HasOnePlace(m: Manager, id: Id)
    requires id in m.mem
  {
    var t := m.mem[id].target;
    && t in m.runners && Has(m.runners[t], id)
    && (forall u <- m.runners | u != t :: !Has(m.runners[u], id))
    && (m.Holding(t, id) ==> id !in m.runners[t].queue)
    && (forall i, j | 0 <= i < j < |m.runners[t].queue| :: m.runners[t].queue[i] != m.runners[t].queue[j])
  }

  lemma InvGivesPlace(m: Manager, id: Id)
    requires Inv(m) && id in m.mem && !m.mem[id].status.Terminal()
    ensures HasOnePlace(m, id)
  {
    var t := m.mem[id].target;
    assert QueueOk(m, t) && HoldOk(m, t);
    forall u <- m.runners | u != t ensures !Has(m.runners[u], id) {
      assert QueueOk(m, u) && HoldOk(m, u);
    }
  }

  /**
   Ownership and drain: after any run each unfinished operation is in exactly one queue slot or with
   exactly one worker. So when every worker has gone, every operation has ended.
   */
  lemma OwnedUntilDone(m: Manager, c: Config, steps: seq<Step>)
    requires FirstStart(m) && Runs(m, c, steps)
    ensures var end := After(m, c, steps);
      && (forall id <- end.mem | !end.mem[id].status.Terminal() :: HasOnePlace(end, id))
      && (end.runners == map[] ==> forall id <- end.mem :: end.mem[id].status.Terminal())
  {
    assert Safe(m);
    SafeThroughout(m, c, steps);
    var end := After(m, c, steps);
    assert Inv(end);
    hide Inv, After, Runs, FirstStart, StartsOk, CancelInv, GrantsOk;
    forall id <- end.mem | !end.mem[id].status.Terminal() ensures HasOnePlace(end, id) {
      InvGivesPlace(end, id);
    }
  }

  /** Closed admission stays closed to new work: no operation appears and no worker does. */
  lemma ClosedAdmitsNothing(m: Manager, c: Config, step: Step)
    requires Inv(m) && Enabled(m, c, step) && WhileUp(step) && m.closed
    ensures var m' := Do(m, c, step); m'.closed && m'.mem.Keys <= m.mem.Keys && m'.runners.Keys <= m.runners.Keys
  {
    if OfWorker(step) {
      WorkerMoves(m, c, step);
      ClosedStays(m, c, step);
      hide Do, Inv;
    } else if OfRecords(step) {
      RecordsStep(m, c, step);
      ClosedStays(m, c, step);
      hide Do, Inv;
    } else {
      hide Inv;
    }
  }

  lemma ClosedStays(m: Manager, c: Config, step: Step)
    requires Enabled(m, c, step) && WhileUp(step) && m.closed
    ensures Do(m, c, step).closed
  {
    if step.Forget? { ForgottenClosed(m, step.removed); }
    hide Forgotten, WithinWindow, Admits;
  }

  lemma {:induction false} ForgottenClosed(m: Manager, removed: seq<Id>)
    ensures Forgotten(m, removed).closed == m.closed
  {
    if removed != [] { ForgottenClosed(m, removed[..|removed| - 1]); }
  }

  /**
   Recovery runs nothing: after any run and a recovery no job exists, every record is final, and an
   unfinished one is canceled if its cancellation was on disk and otherwise interrupted, its outcome
   unknown. What was canceled while queued reads so.
   */
  lemma RecoveryRunsNothing(first: Manager, c: Config, steps: seq<Step>, step: Step)
    requires FirstStart(first) && Runs(first, c, steps) && Enabled(After(first, c, steps), c, step) && step.Recover?
    ensures var m := After(first, c, steps);
      var m' := Do(m, c, step);
      && m'.runners == map[] && m'.executed == m.executed && m'.mem.Keys == m.disk.Keys
      && (forall id <- m'.mem :: m'.mem[id].status.Terminal() && m'.disk[id] == m'.mem[id])
      && (forall id <- m.disk | !m.disk[id].status.Terminal() ::
            if m.disk[id].status.CancelRequested? then m'.mem[id].status.Canceled?
            else m'.mem[id].status.Interrupted? && m'.mem[id].recon == if step.reader then Reconciling else NeedsManualCheck)
      && (forall id | id in m.canceledEarly && id in m'.mem :: m'.mem[id].status.Canceled? || m'.mem[id].status.Failed?)
  {
    assert Safe(first);
    SafeThroughout(first, c, steps);
    var m := After(first, c, steps);
    SafeKept(m, c, step);
    hide After, Runs, FirstStart;
    RecoversTo(m, c, step);
    hide RecoveredAll;
    RecoveredAreFinal(m.disk, m.disk.Keys, step.reader);
    CanceledReadSo(Do(m, c, step));
    hide Safe, Do, Enabled;
  }

  lemma RecoversTo(m: Manager, c: Config, step: Step)
    requires Enabled(m, c, step) && step.Recover? && Safe(m)
    ensures var m', all := Do(m, c, step), RecoveredAll(m.disk, m.disk.Keys, step.reader);
      && m'.runners == map[] && m'.executed == m.executed && m'.mem == all && m'.disk == all && m'.canceledEarly == m.canceledEarly
  {
    hide StartsOk, GrantsOk, CancelInv, IdsOk, Owned, RunnersOk, Indexes, SeqCovers, RecoveredAll;
  }

  lemma CanceledReadSo(m: Manager)
    requires Safe(m) && forall id <- m.mem :: m.mem[id].status.Terminal()
    ensures forall id | id in m.canceledEarly && id in m.mem :: m.mem[id].status.Canceled? || m.mem[id].status.Failed?
  {
    hide StartsOk, GrantsOk, Inv, Unrun;
    forall id | id in m.canceledEarly && id in m.mem ensures m.mem[id].status.Canceled? || m.mem[id].status.Failed? {
      assert CanceledOk(m, id);
    }
  }

  lemma RecoveredAreFinal(disk: map<Id, Operation>, ids: set<Id>, reader: bool)
    requires ids == disk.Keys
    ensures var all := RecoveredAll(disk, ids, reader);
      && all.Keys == disk.Keys && (forall id <- all :: all[id].status.Terminal())
      && (forall id <- disk | !disk[id].status.Terminal() ::
            if disk[id].status.CancelRequested? then all[id].status.Canceled?
            else all[id].status.Interrupted? && all[id].recon == if reader then Reconciling else NeedsManualCheck)
  {}

  /**
   After any run, a retry is admitted under a new id, with the request and target of the operation it
   repeats and no key; and while that operation is known it has failed, was canceled, or was interrupted
   and is no longer in question, and never has succeeded or been committed.
   */
  lemma RetriesAreHonest(first: Manager, c: Config, steps: seq<Step>, step: Step)
    requires FirstStart(first) && Runs(first, c, steps) && Enabled(After(first, c, steps), c, step)
    requires step.Admit? && step.retryOf.Some?
    ensures var m := After(first, c, steps);
      && step.id !in m.used && step.id != step.retryOf.value
      && (step.retryOf.value in m.mem ==>
            var op := m.mem[step.retryOf.value];
            && op.request.supported && !op.request.secrets
            && (op.status.Failed? || op.status.Canceled? || (op.status.Interrupted? && !op.recon.Reconciling?))
            && (step.id in Do(m, c, step).mem ==>
                  var again := Do(m, c, step).mem[step.id];
                  again.request == op.request && again.target == op.target && again.key.name == "" && again.retryOf == step.retryOf))
  {
    assert Safe(first);
    SafeThroughout(first, c, steps);
    var m := After(first, c, steps);
    hide After, Runs, FirstStart;
    assert IdsOk(m) && GrantsOk(m) by { hide StartsOk, CancelInv, Owned, RunnersOk; }
    hide Safe;
    AdmittedAsGiven(m, c, step);
  }

  lemma AdmittedAsGiven(m: Manager, c: Config, step: Step)
    requires IdsOk(m) && Enabled(m, c, step) && step.Admit?
    ensures step.id in Do(m, c, step).mem ==>
      var op := Do(m, c, step).mem[step.id];
      op.request == step.request && op.target == step.t && op.key == step.key && op.retryOf == step.retryOf
  {
    var Admit(id, t, key, request, retryOf, now, later, journal, save) := step;
    var op := NewOperation(m, t, key, request, retryOf, later);
    LookedLeaves(m, c, key, now);
    RefusedLeaves(m, c, id, op, key, request, now, journal, save);
    PublishedLeaves(Looked(m, c, key, now), id, op);
    hide Admits, Refused, Published, Looked;
  }
}
