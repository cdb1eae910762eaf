/**
 A cancellation acknowledged while its operation is still queued is final: the operation has not run, is
 never about to, and whatever of it is on disk says so.
 */
module OperationCancel {
  import opened Wrappers
  import opened OperationQueue
  import opened OperationSafety
  import opened OperationStarts

  /** Where a worker may be with an operation that must not run. */
  predicate Harmless(h: Hold) {
    h.Held? ==> (h.at.Early() && !h.at.Starting?) || (h.at.Ending? && (h.at.status.Canceled? || h.at.status.Failed?))
  }

  predicate CalledOff(status: Status) { status.CancelRequested? || status.Canceled? || status.Failed? }

  ghost predicate Unrun(m: Manager, id: Id) { id !in m.executed && forall t | m.Holding(t, id) :: Harmless(m.runners[t].hold) }

  /** It has not run, will not, and whatever of it is on disk says so too. */
  ghost predicate CanceledOk(m: Manager, id: Id) {
    && id in m.used && Unrun(m, id)
    && (id in m.mem ==> CalledOff(m.mem[id].status))
    && (id in m.disk ==> CalledOff(m.disk[id].status))
  }

  ghost predicate CancelInv(m: Manager) {
    && (forall id <- m.canceledEarly :: CanceledOk(m, id))
    && (forall id <- m.mem | m.mem[id].status.Queued? :: Unrun(m, id))
  }

  /** What a worker's step does to the operation it holds, if that is queued or called off. */
  ghost predicate Respects(m: Manager, m': Manager, t: Target)
    requires t in m.runners && m.runners[t].hold.Held? && t in m'.runners
  {
    var id := m.runners[t].hold.id;
    id in m.mem && id in m'.mem &&
    (&& (m'.mem[id].status.Queued? ==> m.mem[id].status.Queued?)
     && (Harmless(m.runners[t].hold) && (m.mem[id].status.CancelRequested? || m'.mem[id].status.Queued?) ==> Harmless(m'.runners[t].hold))
     && (Harmless(m.runners[t].hold) && m.mem[id].status.CancelRequested? ==>
          && CalledOff(m'.mem[id].status)
          && (id in m'.disk ==> (id in m.disk && m'.disk[id] == m.disk[id]) || CalledOff(m'.disk[id].status))))
  }

  lemma EarlyRespects(m: Manager, c: Config, step: Step)
    requires Enabled(m, c, step) && (step.Mind? || step.GetSlot? || step.CheckTarget? || step.Run? || step.Invoke?)
    requires step.t in m.runners && HoldOk(m, step.t)
    ensures Carried(m, Do(m, c, step), step.t) && step.t in Do(m, c, step).runners && Respects(m, Do(m, c, step), step.t)
  {
    EarlyMoves(m, c, step);
    hide Moves;
    if step.Run? {
      hide Minded, TargetChecked, Invoked;
    } else {
      hide OperationQueue.SetRunning;
    }
  }

  lemma LateRespects(m: Manager, c: Config, step: Step)
    requires Enabled(m, c, step) && (step.Return? || step.Judge? || step.BeginStop? || step.Resolve? || step.Finish?)
    requires step.t in m.runners && HoldOk(m, step.t)
    ensures Carried(m, Do(m, c, step), step.t) && step.t in Do(m, c, step).runners && Respects(m, Do(m, c, step), step.t)
  {
    LateMoves(m, c, step);
    hide Moves, Carried;
    assert Job(m, step.t, m.runners[step.t].hold.id);
    if step.Finish? {
      hide Respects;
      FinishRespects(m, step.t, step.save);
    } else if step.BeginStop? {
      hide Respects;
      StopRespects(m, step.t, step.save);
    } else {
      hide Finished, BegunStopping;
    }
  }

  lemma FinishRespects(m: Manager, t: Target, save: Save)
    requires t in m.runners && HoldOk(m, t) && m.runners[t].hold.Held? && m.runners[t].hold.at.Ending?
    ensures Respects(m, Finished(m, t, save), t)
  {}

  lemma StopRespects(m: Manager, t: Target, save: Save)
    requires t in m.runners && HoldOk(m, t) && m.runners[t].hold.Held? && m.runners[t].hold.at.Halting?
    ensures Respects(m, BegunStopping(m, t, save), t)
  {}

  lemma CarriedUnrun(m: Manager, m': Manager, t: Target, id: Id)
    requires Carried(m, m', t) && Unrun(m, id) && t in m'.runners && (m.Holding(t, id) ==> Harmless(m'.runners[t].hold))
    ensures Unrun(m', id)
  {
    hide HoldOk;
    forall u | m'.Holding(u, id) ensures Harmless(m'.runners[u].hold) {
      if u != t {
        assert m.Holding(u, id);
      } else {
        assert m.Holding(t, id);
      }
    }
  }

  lemma CarriedKeepsCancel(m: Manager, m': Manager, t: Target)
    requires Busy(m, t) && CancelInv(m) && Carried(m, m', t) && t in m'.runners && Respects(m, m', t)
    ensures CancelInv(m')
  {
    var held := m.runners[t].hold.id;
    assert m.Holding(t, held);
    forall id <- m'.canceledEarly ensures CanceledOk(m', id) {
      assert CanceledOk(m, id);
      CarriedUnrun(m, m', t, id);
    }
    forall id <- m'.mem | m'.mem[id].status.Queued? ensures Unrun(m', id) {
      assert m.mem[id].status.Queued?;
      CarriedUnrun(m, m', t, id);
    }
  }

  /** Records change: a queued operation may be called off for good, and unfinished ones be called off. */
  ghost predicate RecordsRespect(m: Manager, m': Manager) {
    && RecordsMove(m, m')
    && (forall id <- m'.canceledEarly | id !in m.canceledEarly ::
          id in m.mem && m.mem[id].status.Queued? && id in m'.mem && m'.mem[id].status.CancelRequested?
          && id in m'.disk && m'.disk[id].status.CancelRequested?)
    && (forall id <- m'.disk :: (id in m.disk && m'.disk[id] == m.disk[id]) || CalledOff(m'.disk[id].status)
          || (id in m.mem && m.mem[id].status.Interrupted?))
  }

  lemma RecordsKeepCancel(m: Manager, m': Manager)
    requires IdsOk(m) && CancelInv(m) && RecordsRespect(m, m')
    ensures CancelInv(m')
  {
    assert forall id | Unrun(m, id) :: Unrun(m', id);
    forall id <- m'.canceledEarly ensures CanceledOk(m', id) {
      if id in m.canceledEarly {
        assert CanceledOk(m, id);
      } else {
        assert Unrun(m, id);
      }
    }
  }

  lemma CancelRespects(m: Manager, id: Id, save: Save)
    ensures RecordsRespect(m, CancelWritten(m, id, save))
  {}

  lemma ReconcileRespects(m: Manager, id: Id, receipt: Option<bool>, save: Save)
    ensures RecordsRespect(m, Reconciled(m, id, receipt, save))
  {
    ReconcileMoves(m, id, receipt, save);
    hide RecordsMove;
  }

  lemma ForgetRespects(m: Manager, c: Config, removed: seq<Id>, now: Time)
    ensures RecordsRespect(m, Pruned(Forgotten(m, removed), c, now).(clock := now))
  {
    ForgetMoves(m, c, removed, now);
    ForgottenStarts(m, removed);
    ForgottenMoves(m, removed);
    hide RecordsMove, Forgotten;
  }

  lemma PeekRespects(m: Manager, c: Config, key: Key, now: Time)
    ensures RecordsRespect(m, Looked(m, c, key, now).(clock := now))
  {
    LookedMoves(m, c, key, now);
    LookedLeaves(m, c, key, now);
    hide RecordsMove, Looked;
  }

  lemma RecordsStepRespects(m: Manager, c: Config, step: Step)
    requires Enabled(m, c, step) && OfRecords(step)
    ensures RecordsRespect(m, Do(m, c, step))
  {
    match step
    case Cancel(id, save) => hide RecordsRespect; CancelRespects(m, id, save);
    case Reconcile(id, receipt, save) => hide RecordsRespect; ReconcileRespects(m, id, receipt, save);
    case Forget(removed, now) => hide RecordsRespect; ForgetRespects(m, c, removed, now);
    case Peek(key, now) => hide RecordsRespect; PeekRespects(m, c, key, now);
    case _ => hide RecordsRespect; PlainRespects(m, c, step);
  }

  lemma PlainRespects(m: Manager, c: Config, step: Step)
    requires Enabled(m, c, step) && (step.AllowRetry? || step.Close? || step.Signal? || step.Sweep?)
    ensures RecordsRespect(m, Do(m, c, step))
  {
    RecordsStep(m, c, step);
    hide RecordsMove;
  }

  lemma TakeKeepsCancel(m: Manager, t: Target)
    requires Inv(m) && CancelInv(m) && t in m.runners && m.runners[t].hold.Nothing?
    ensures CancelInv(Taken(m, t))
  {
    var m' := Taken(m, t);
    assert m'.mem == m.mem && m'.disk == m.disk && m'.executed == m.executed && m'.canceledEarly == m.canceledEarly && m'.used == m.used;
    forall id | Unrun(m, id) ensures Unrun(m', id) {
      forall u | m'.Holding(u, id) ensures Harmless(m'.runners[u].hold) {
        if u != t {
          assert m.Holding(u, id);
        }
      }
    }
    hide Inv, Taken, Unrun;
    forall id <- m'.canceledEarly ensures CanceledOk(m', id) {
      assert CanceledOk(m, id);
    }
  }

  lemma PublishedKeepsCancel(m: Manager, id: Id, op: Operation)
    requires Inv(m) && CancelInv(m) && id !in m.used
    ensures CancelInv(Published(m, id, op))
  {
    var m' := Published(m, id, op);
    forall t, x | m'.Holding(t, x) ensures m.Holding(t, x) && m'.runners[t].hold == m.runners[t].hold && x in m.mem {
      assert HoldOk(m, t);
    }
    hide Inv, Fits;
    assert id !in m.executed by { assert IdsOk(m) by { assert Inv(m); } }
  }

  lemma RefusedKeepsCancel(m: Manager, c: Config, id: Id, op: Operation, key: Key, request: Request, now: Time, journal: bool, save: Save)
    requires CancelInv(m) && id !in m.used
    ensures CancelInv(Refused(m, c, id, op, key, request, now, journal, save))
  {
    hide CancelInv;
    RefusedLeaves(m, c, id, op, key, request, now, journal, save);
    hide Refused;
    SameKeepsCancel(m, Refused(m, c, id, op, key, request, now, journal, save), id);
  }

  lemma SameKeepsCancel(m: Manager, m': Manager, newId: Id)
    requires CancelInv(m) && newId !in m.used
    requires m'.mem == m.mem && m'.runners == m.runners && m'.executed == m.executed && m'.canceledEarly == m.canceledEarly
    requires m.used <= m'.used && forall x <- m'.disk | x != newId :: x in m.disk && m'.disk[x] == m.disk[x]
    ensures CancelInv(m')
  {
    forall id | Unrun(m, id) ensures Unrun(m', id) {
      assert forall t | m'.Holding(t, id) :: m.Holding(t, id);
    }
    hide Unrun;
    forall id <- m'.canceledEarly ensures CanceledOk(m', id) {
      assert CanceledOk(m, id);
    }
  }

  lemma AdmitKeepsCancel(m: Manager, c: Config, step: Step)
    requires Inv(m) && CancelInv(m) && Enabled(m, c, step) && step.Admit?
    ensures CancelInv(Do(m, c, step))
  {
    var Admit(id, t, key, request, retryOf, now, later, journal, save) := step;
    hide Inv, CancelInv, Admits, Published, Refused;
    var op := NewOperation(m, t, key, request, retryOf, later);
    RefusedKeepsCancel(m, c, id, op, key, request, now, journal, save);
    LookedKeeps(m, c, key, now);
    SameKeepsCancel(m, Looked(m, c, key, now), id);
    PublishedKeepsCancel(Looked(m, c, key, now), id, op);
  }

  lemma RestartKeepsCancel(m: Manager, c: Config, step: Step)
    requires Inv(m) && CancelInv(m) && Enabled(m, c, step) && (step.Crash? || step.RecoverFails? || step.Recover?)
    ensures CancelInv(Do(m, c, step))
  {
    var m' := Do(m, c, step);
    assert m'.runners == map[];
    hide QueueOk, HoldOk, Indexes, SeqCovers;
    forall id <- m'.canceledEarly ensures CanceledOk(m', id) {
      assert CanceledOk(m, id);
    }
  }

  lemma CancelKept(m: Manager, c: Config, step: Step)
    requires Inv(m) && CancelInv(m) && Enabled(m, c, step)
    ensures CancelInv(Do(m, c, step))
  {
    if OfWorker(step) {
      assert Busy(m, step.t) by { hide IdsOk, Owned, QueueOk, HoldOk, CancelInv; }
      hide Inv, CancelInv, Carried, HoldOk, Respects;
      assert Carried(m, Do(m, c, step), step.t) && step.t in Do(m, c, step).runners && Respects(m, Do(m, c, step), step.t) by {
        WorkerRespects(m, c, step);
      }
      hide Do;
      CarriedKeepsCancel(m, Do(m, c, step), step.t);
    } else if OfRecords(step) {
      RecordsStepRespects(m, c, step);
      hide CancelInv, RecordsRespect, Do, RunnersOk, Owned;
      RecordsKeepCancel(m, Do(m, c, step));
    } else if step.Take? {
      hide Inv, CancelInv;
      TakeKeepsCancel(m, step.t);
    } else if step.Admit? {
      hide Inv, CancelInv, Do;
      AdmitKeepsCancel(m, c, step);
    } else {
      hide Inv, CancelInv, Do;
      RestartKeepsCancel(m, c, step);
    }
  }

  lemma WorkerRespects(m: Manager, c: Config, step: Step)
    requires Enabled(m, c, step) && OfWorker(step) && Busy(m, step.t)
    ensures Carried(m, Do(m, c, step), step.t) && step.t in Do(m, c, step).runners && Respects(m, Do(m, c, step), step.t)
  {
    hide Do, Enabled, Respects, Moves, HoldOk;
    if step.Mind? || step.GetSlot? || step.CheckTarget? || step.Run? || step.Invoke? {
      EarlyRespects(m, c, step);
    } else {
      LateRespects(m, c, step);
    }
  }
}
