/**
 Each target's operations start in the order they were admitted.
 */
module OperationStarts {
  import opened OperationQueue
  import opened OperationSafety

  /** What of `t` has started was admitted before all that has not. */
  ghost predicate StartsBefore(m: Manager, t: Target)
    requires t in m.runners
  {
    var r := m.runners[t];
    forall k | 0 <= k < |m.starts| && m.starts[k].target == t ::
      && (forall i | 0 <= i < |r.queue| :: r.queue[i] in m.mem && m.starts[k].admissionSeq < m.mem[r.queue[i]].admissionSeq)
      && (r.hold.Held? && r.hold.at.Early() ==> r.hold.id in m.mem && m.starts[k].admissionSeq < m.mem[r.hold.id].admissionSeq)
  }

  ghost predicate InOrder(starts: seq<Start>) {
    forall i, j | 0 <= i < j < |starts| && starts[i].target == starts[j].target :: starts[i].admissionSeq < starts[j].admissionSeq
  }

  ghost predicate StartsOk(m: Manager) {
    && (forall k | 0 <= k < |m.starts| :: m.starts[k].admissionSeq <= m.lastSeq)
    && InOrder(m.starts) && (!m.up ==> m.starts == [])
    && (forall t <- m.runners :: StartsBefore(m, t))
  }

  lemma MovesKeepStartsBefore(m: Manager, m': Manager, t: Target, u: Target)
    requires Carried(m, m', t) && HoldOk(m, t) && u in m.runners && StartsBefore(m, u) && QueueOk(m, u) && HoldOk(m, u)
    ensures StartsBefore(m', u)
  {
    hide Fits, QueueOk;
    var r, r' := m.runners[u], m'.runners[u];
    assert u != t ==> r' == r;
    forall k | 0 <= k < |m'.starts| && m'.starts[k].target == u
      ensures forall i | 0 <= i < |r'.queue| :: r'.queue[i] in m'.mem && m'.starts[k].admissionSeq < m'.mem[r'.queue[i]].admissionSeq
      ensures r'.hold.Held? && r'.hold.at.Early() ==> r'.hold.id in m'.mem && m'.starts[k].admissionSeq < m'.mem[r'.hold.id].admissionSeq
    {
      if k < |m.starts| {
        assert m'.starts[k] == m.starts[k];
      }
    }
  }

  lemma MovesKeepAllBefore(m: Manager, m': Manager, t: Target)
    requires RunnersOk(m) && Carried(m, m', t) && forall u <- m.runners :: StartsBefore(m, u)
    ensures m'.up == m.up && forall u <- m'.runners :: StartsBefore(m', u)
  {
    assert HoldOk(m, t);
    assert m'.runners.Keys == m.runners.Keys;
    hide HoldOk, QueueOk, Moves;
    forall u <- m'.runners ensures StartsBefore(m', u) {
      assert HoldOk(m, u) && QueueOk(m, u);
      hide Carried, StartsBefore;
      MovesKeepStartsBefore(m, m', t, u);
    }
  }

  lemma MovesKeepStarts(m: Manager, m': Manager, t: Target)
    requires Inv(m) && StartsOk(m) && Carried(m, m', t) && m.up
    ensures StartsOk(m')
  {
    hide StartsBefore, InOrder, HoldOk, IdsOk, Owned, RunnersOk, Moves;
    MovesKeepAllBefore(m, m', t);
    MovesKeepInOrder(m, m', t);
    MovesKeepBound(m, m', t);
  }

  lemma MovesKeepBound(m: Manager, m': Manager, t: Target)
    requires IdsOk(m) && Carried(m, m', t) && forall k | 0 <= k < |m.starts| :: m.starts[k].admissionSeq <= m.lastSeq
    ensures forall k | 0 <= k < |m'.starts| :: m'.starts[k].admissionSeq <= m'.lastSeq
  {
    hide HoldOk;
  }

  lemma MovesKeepInOrder(m: Manager, m': Manager, t: Target)
    requires Carried(m, m', t) && StartsBefore(m, t) && InOrder(m.starts)
    ensures InOrder(m'.starts)
  {
    hide HoldOk;
  }

  lemma RecordsMoveStarts(m: Manager, m': Manager)
    requires Inv(m) && StartsOk(m) && RecordsMove(m, m') && m'.starts == m.starts
    ensures StartsOk(m')
  {
    forall u <- m'.runners ensures StartsBefore(m', u) {
      assert StartsBefore(m, u) && HoldOk(m, u) && QueueOk(m, u);
      hide IdsOk, Owned, RunnersOk, InOrder;
    }
    hide StartsBefore;
  }

  lemma {:induction false} ForgottenStarts(m: Manager, removed: seq<Id>)
    ensures Forgotten(m, removed).starts == m.starts && Forgotten(m, removed).canceledEarly == m.canceledEarly
    ensures Forgotten(m, removed).granted == m.granted
  {
    if removed != [] {
      ForgottenStarts(m, removed[..|removed| - 1]);
    }
  }

  lemma TakeStarts(m: Manager, t: Target)
    requires StartsOk(m) && t in m.runners && m.runners[t].hold.Nothing?
    ensures StartsOk(Taken(m, t))
  {
    var m' := Taken(m, t);
    forall u <- m'.runners ensures StartsBefore(m', u) {
      assert StartsBefore(m, u);
      assert u != t ==> m'.runners[u] == m.runners[u];
    }
    hide StartsBefore, InOrder;
  }

  lemma PublishStarts(m: Manager, id: Id, op: Operation)
    requires Inv(m) && StartsOk(m) && id !in m.used && op.admissionSeq == m.lastSeq + 1
    ensures StartsOk(Published(m, id, op))
  {
    var m' := Published(m, id, op);
    forall u <- m'.runners ensures StartsBefore(m', u) {
      if u in m.runners {
        assert StartsBefore(m, u) && QueueOk(m, u) && HoldOk(m, u);
      }
      hide Owned, RunnersOk, InOrder, Fits;
    }
    hide StartsBefore, Inv;
  }

  lemma SameStarts(m: Manager, m': Manager)
    requires StartsOk(m) && m'.starts == m.starts && m'.mem == m.mem && m'.runners == m.runners
    requires m'.up == m.up && m.lastSeq <= m'.lastSeq
    ensures StartsOk(m')
  {
    forall u <- m'.runners ensures StartsBefore(m', u) {
      assert StartsBefore(m, u);
    }
    hide StartsBefore, InOrder;
  }

  lemma RefusedStarts(m: Manager, c: Config, id: Id, op: Operation, key: Key, request: Request, now: Time, journal: bool, save: Save)
    requires StartsOk(m)
    ensures StartsOk(Refused(m, c, id, op, key, request, now, journal, save))
  {
    RefusedLeaves(m, c, id, op, key, request, now, journal, save);
    RefusedNumbers(m, c, id, op, key, request, now, journal, save);
    hide StartsOk, Refused;
    SameStarts(m, Refused(m, c, id, op, key, request, now, journal, save));
  }

  lemma RefusedNumbers(m: Manager, c: Config, id: Id, op: Operation, key: Key, request: Request, now: Time, journal: bool, save: Save)
    ensures m.lastSeq <= Refused(m, c, id, op, key, request, now, journal, save).lastSeq
  {
    LookedLeaves(m, c, key, now);
    hide WithinBudgets, Find, Looked;
  }

  lemma AdmitStarts(m: Manager, c: Config, step: Step)
    requires Inv(m) && StartsOk(m) && Enabled(m, c, step) && step.Admit?
    ensures StartsOk(Do(m, c, step))
  {
    var Admit(id, t, key, request, retryOf, now, later, journal, save) := step;
    hide Inv, StartsOk, Admits, Published, Refused;
    var op := NewOperation(m, t, key, request, retryOf, later);
    RefusedStarts(m, c, id, op, key, request, now, journal, save);
    LookedKeeps(m, c, key, now);
    SameStarts(m, Looked(m, c, key, now));
    PublishStarts(Looked(m, c, key, now), id, op);
  }

  lemma StartsKept(m: Manager, c: Config, step: Step)
    requires Inv(m) && StartsOk(m) && Enabled(m, c, step)
    ensures StartsOk(Do(m, c, step))
  {
    hide Inv, StartsOk;
    if OfWorker(step) {
      WorkerMoves(m, c, step);
      hide Do, Carried;
      MovesKeepStarts(m, Do(m, c, step), step.t);
    } else if OfRecords(step) {
      RecordsStep(m, c, step);
      RecordsLeaveStarts(m, c, step);
      hide RecordsMove, Do, Enabled;
      RecordsMoveStarts(m, Do(m, c, step));
    } else if step.Take? {
      TakeStarts(m, step.t);
    } else if step.Admit? {
      AdmitStarts(m, c, step);
    } else {
      RestartStarts(m, c, step);
    }
  }

  lemma RecordsLeaveStarts(m: Manager, c: Config, step: Step)
    requires Enabled(m, c, step) && OfRecords(step)
    ensures Do(m, c, step).starts == m.starts
  {
    if step.Forget? { ForgottenStarts(m, step.removed); }
    hide Forgotten, WithinWindow;
  }

  lemma RestartStarts(m: Manager, c: Config, step: Step)
    requires Inv(m) && StartsOk(m) && Enabled(m, c, step) && (step.Crash? || step.RecoverFails? || step.Recover?)
    ensures StartsOk(Do(m, c, step))
  {}
}
