/**
 What every step of the operation queue keeps: each unfinished operation is in one queue slot or with one
 worker, workers start a target's operations in admission order, and the executor is called at most once
 for an operation over any number of crashes, and never for one canceled before it ran.
 */
module OperationSafety {
  import opened Wrappers
  import opened OperationQueue

  /** An operation of this target. */
  predicate Job(m: Manager, t: Target, id: Id) { id in m.mem && m.mem[id].target == t }

  /** What the status can be while the worker is at a point. */
  predicate Fits(status: Status, at: Point) {
    match at
    case Ending(s, _) => !status.Terminal() && s.Terminal()
    case Resolving => status.Stopping?
    case _ =>
      if at.Early() && !at.Starting? then status.Queued? || status.CancelRequested?
      else status.Running? || status.CancelRequested?
  }

  ghost predicate QueueOk(m: Manager, t: Target)
    requires t in m.runners
  {
    var q := m.runners[t].queue;
    && (forall i | 0 <= i < |q| :: Job(m, t, q[i]) && Fits(m.mem[q[i]].status, Popped) && q[i] !in m.executed)
    && (forall i, j | 0 <= i < j < |q| :: m.mem[q[i]].admissionSeq < m.mem[q[j]].admissionSeq)
  }

  ghost predicate HoldOk(m: Manager, t: Target)
    requires t in m.runners
  {
    var r := m.runners[t];
    r.hold.Held? ==>
      && Job(m, t, r.hold.id) && Fits(m.mem[r.hold.id].status, r.hold.at)
      && (r.hold.at.Early() ==> r.hold.id !in m.executed)
      && forall i | 0 <= i < |r.queue| :: r.queue[i] in m.mem && m.mem[r.hold.id].admissionSeq < m.mem[r.queue[i]].admissionSeq
  }

  predicate Has(r: Runner, id: Id) { (r.hold.Held? && r.hold.id == id) || id in r.queue }

  /** Each unfinished operation is with its target's worker or in its queue. */
  ghost predicate Owned(m: Manager) {
    forall id <- m.mem | !m.mem[id].status.Terminal() :: m.mem[id].target in m.runners && Has(m.runners[m.mem[id].target], id)
  }

  ghost predicate RunnersOk(m: Manager) { forall t <- m.runners :: QueueOk(m, t) && HoldOk(m, t) }

  ghost predicate IdsOk(m: Manager) {
    && (forall id <- m.mem :: id in m.used && m.mem[id].admissionSeq <= m.lastSeq)
    && (forall id <- m.disk :: id in m.used)
    && (forall i | 0 <= i < |m.executed| :: m.executed[i] in m.used)
    && (forall i, j | 0 <= i < j < |m.executed| :: m.executed[i] != m.executed[j])
  }

  ghost predicate Inv(m: Manager) {
    && IdsOk(m) && RunnersOk(m) && Owned(m)
    && (!m.up ==> m.mem == map[] && m.runners == map[])
  }

  /** Everything but how it is going. */
  predicate SameWork(a: Operation, b: Operation) { b == a.(status := b.status, recon := b.recon) }

  // ---------------------------------------------------------------- steps of one worker

  /**
   The worker of `t` moves to another hold and its operation to another status; nothing else changes
   but the disk, and perhaps one call of the executor.
   */
  ghost predicate Moves(m: Manager, m': Manager, t: Target, id: Id) {
    && m.Holding(t, id) && m'.up == m.up && m'.used == m.used && m'.lastSeq == m.lastSeq
    && m'.runners.Keys == m.runners.Keys && (forall u <- m.runners | u != t :: m'.runners[u] == m.runners[u])
    && m'.runners[t].queue == m.runners[t].queue
    && m'.mem.Keys == m.mem.Keys && (forall x <- m.mem | x != id :: m'.mem[x] == m.mem[x])
    && (id in m.mem ==> SameWork(m.mem[id], m'.mem[id]))
    && m'.index == m.index && m'.admissions == m.admissions && m'.touched == m.touched && m'.clock == m.clock
    && (forall x <- m'.disk | x != id :: x in m.disk && m'.disk[x] == m.disk[x])
    && m'.canceledEarly == m.canceledEarly && m'.granted == m.granted
    && (if m.runners[t].hold.at.Starting? then
          && m'.executed == m.executed + [id] && id !in m.executed
          && id in m.mem && m'.starts == m.starts + [Start(t, m.mem[id].admissionSeq)]
          && m'.runners[t].hold == Held(id, Executing)
        else
          && m'.executed == m.executed && m'.starts == m.starts
          && (m'.runners[t].hold.Held? ==> m'.runners[t].hold.id == id)
          && (m'.runners[t].hold.Held? && m'.runners[t].hold.at.Early() ==> m.runners[t].hold.at.Early()))
  }

  lemma MovesKeepIds(m: Manager, m': Manager, t: Target, id: Id)
    requires IdsOk(m) && RunnersOk(m) && Moves(m, m', t, id)
    ensures IdsOk(m')
  {
    assert HoldOk(m, t);
    hide QueueOk, Fits;
  }

  lemma MovesKeepQueue(m: Manager, m': Manager, t: Target, id: Id, u: Target)
    requires u in m.runners && t in m.runners && QueueOk(m, u) && HoldOk(m, t) && Moves(m, m', t, id)
    ensures QueueOk(m', u)
  {
    var q := m.runners[u].queue;
    assert forall i | 0 <= i < |q| :: q[i] != id;
    hide HoldOk, Fits;
    assert forall i | 0 <= i < |q| :: m'.mem[q[i]] == m.mem[q[i]];
  }

  lemma MovesKeepHold(m: Manager, m': Manager, t: Target, id: Id, u: Target)
    requires RunnersOk(m) && Moves(m, m', t, id) && u in m.runners && u != t
    ensures HoldOk(m', u)
  {
    assert HoldOk(m, u) && QueueOk(m, u) && HoldOk(m, t);
    hide RunnersOk, Fits;
  }

  lemma MovesKeepOwned(m: Manager, m': Manager, t: Target, id: Id)
    requires Owned(m) && Moves(m, m', t, id) && id in m'.mem
    requires m'.mem[id].status.Terminal() || m'.Holding(t, id)
    requires m'.mem[id].target == t
    ensures Owned(m')
  {
    forall x <- m'.mem | !m'.mem[x].status.Terminal()
      ensures m'.mem[x].target in m'.runners && Has(m'.runners[m'.mem[x].target], x)
    {
      if x != id {
        assert m'.mem[x] == m.mem[x];
        assert m.mem[x].target in m.runners;
      }
    }
  }

  lemma MovesKeep(m: Manager, m': Manager, t: Target, id: Id)
    requires Inv(m) && Moves(m, m', t, id) && HoldOk(m', t)
    requires id in m'.mem && (m'.mem[id].status.Terminal() || m'.Holding(t, id))
    ensures Inv(m')
  {
    assert HoldOk(m, t);
    MovesKeepIds(m, m', t, id);
    MovesKeepOwned(m, m', t, id);
    hide IdsOk, Owned, Fits;
    forall u <- m'.runners ensures QueueOk(m', u) && HoldOk(m', u) {
      assert QueueOk(m, u);
      MovesKeepQueue(m, m', t, id, u);
      if u != t {
        MovesKeepHold(m, m', t, id, u);
      }
    }
    hide QueueOk, HoldOk;
  }

  /** The steps of a worker between taking a job and letting it go. */
  predicate OfWorker(step: Step) {
    || step.Mind? || step.GetSlot? || step.CheckTarget? || step.Run? || step.Invoke?
    || step.Return? || step.Judge? || step.BeginStop? || step.Resolve? || step.Finish?
  }

  /** The worker of `t` has carried its job a step further. */
  ghost predicate Carried(m: Manager, m': Manager, t: Target) {
    && t in m.runners && m.runners[t].hold.Held?
    && var id := m.runners[t].hold.id;
    && Moves(m, m', t, id) && HoldOk(m', t)
    && id in m'.mem && (m'.mem[id].status.Terminal() || m'.Holding(t, id))
  }

  /** What a step of the worker needs to know. */
  ghost predicate Busy(m: Manager, t: Target) { t in m.runners && m.runners[t].hold.Held? && HoldOk(m, t) }

  lemma MindCarries(m: Manager, t: Target)
    requires Busy(m, t) && (m.runners[t].hold.at.Popped? || m.runners[t].hold.at.WaitingForSlot?)
    ensures Carried(m, Minded(m, t), t)
  {}

  lemma SlotCarries(m: Manager, t: Target)
    requires Busy(m, t) && m.runners[t].hold.at.WaitingForSlot?
    ensures Carried(m, m.At(t, Held(m.runners[t].hold.id, Slotted)), t)
  {}

  lemma TargetCheckCarries(m: Manager, t: Target, same: bool)
    requires Busy(m, t) && m.runners[t].hold.at.Slotted?
    ensures Carried(m, TargetChecked(m, t, same), t)
  {}

  lemma RunCarries(m: Manager, t: Target, save: Save)
    requires Busy(m, t) && m.runners[t].hold.at.Checked?
    ensures Carried(m, SetRunning(m, t, save), t)
  {
    var id := m.runners[t].hold.id;
    if m.mem[id].status.CancelRequested? {
      assert SetRunning(m, t, save) == m.At(t, Held(id, Ending(Canceled, None)));
      hide SetRunning;
    } else {
      hide Carried, Moves;
      RunQueuedCarries(m, t, save);
    }
  }

  /** The operation held is rewritten, in memory and perhaps on disk, and the worker moves on. */
  function Rewritten(m: Manager, t: Target, op: Operation, save: Save, hold: Hold): Manager
    requires t in m.runners && m.runners[t].hold.Held?
  {
    var id := m.runners[t].hold.id;
    m.(mem := m.mem[id := op], disk := if save.Shows() then m.disk[id := op] else m.disk,
       runners := m.runners[t := m.runners[t].(hold := hold)])
  }

  lemma RewrittenMoves(m: Manager, t: Target, op: Operation, save: Save, hold: Hold)
    requires Busy(m, t) && !m.runners[t].hold.at.Starting?
    requires SameWork(m.mem[m.runners[t].hold.id], op)
    requires hold.Held? ==> hold.id == m.runners[t].hold.id && (hold.at.Early() ==> m.runners[t].hold.at.Early())
    ensures Moves(m, Rewritten(m, t, op, save, hold), t, m.runners[t].hold.id)
  {
    hide Fits;
  }

  lemma RunQueuedCarries(m: Manager, t: Target, save: Save)
    requires Busy(m, t) && m.runners[t].hold.at.Checked? && m.mem[m.runners[t].hold.id].status.Queued?
    ensures Carried(m, SetRunning(m, t, save), t)
  {
    var id := m.runners[t].hold.id;
    var op := m.mem[id].(status := Running);
    var hold := Held(id, if save.landed then Starting else Ending(Failed, None));
    assert SetRunning(m, t, save) == Rewritten(m, t, op, save, hold);
    hide SetRunning;
    RewrittenMoves(m, t, op, save, hold);
    hide Moves;
  }

  lemma InvokeCarries(m: Manager, t: Target)
    requires Busy(m, t) && m.runners[t].hold.at.Starting?
    ensures Carried(m, Invoked(m, t), t)
  {}

  lemma ReturnCarries(m: Manager, t: Target, ok: bool)
    requires Busy(m, t) && m.runners[t].hold.at.Executing?
    ensures Carried(m, m.At(t, Held(m.runners[t].hold.id, Returned(ok))), t)
  {}

  lemma JudgeCarries(m: Manager, t: Target)
    requires Busy(m, t) && m.runners[t].hold.at.Returned?
    ensures Carried(m, Judged(m, t), t)
  {}

  lemma StoppingCarries(m: Manager, t: Target, save: Save)
    requires Busy(m, t) && m.runners[t].hold.at.Halting?
    ensures Carried(m, BegunStopping(m, t, save), t)
  {
    var id := m.runners[t].hold.id;
    var op := m.mem[id].(status := Stopping);
    assert BegunStopping(m, t, save) == Rewritten(m, t, op, save, Held(id, Resolving));
    hide BegunStopping;
    RewrittenMoves(m, t, op, save, Held(id, Resolving));
    hide Moves;
  }

  lemma ResolveCarries(m: Manager, t: Target, receipt: Option<bool>)
    requires Busy(m, t) && m.runners[t].hold.at.Resolving?
    ensures Carried(m, Resolved(m, t, receipt), t)
  {}

  lemma FinishCarries(m: Manager, t: Target, save: Save)
    requires Busy(m, t) && m.runners[t].hold.at.Ending?
    ensures Carried(m, Finished(m, t, save), t)
  {}

  lemma WorkerMoves(m: Manager, c: Config, step: Step)
    requires Inv(m) && Enabled(m, c, step) && OfWorker(step)
    ensures Carried(m, Do(m, c, step), step.t)
  {
    assert Busy(m, step.t) by { hide QueueOk, HoldOk, IdsOk, Owned; }
    hide Inv, Busy, Carried;
    if step.Mind? || step.GetSlot? || step.CheckTarget? || step.Run? || step.Invoke? {
      EarlyMoves(m, c, step);
    } else {
      LateMoves(m, c, step);
    }
  }

  lemma EarlyMoves(m: Manager, c: Config, step: Step)
    requires Enabled(m, c, step) && (step.Mind? || step.GetSlot? || step.CheckTarget? || step.Run? || step.Invoke?) && Busy(m, step.t)
    ensures Carried(m, Do(m, c, step), step.t)
  {
    hide Busy, Carried;
    match step
    case Mind(t) => MindCarries(m, t);
    case GetSlot(t) => SlotCarries(m, t);
    case CheckTarget(t, same) => TargetCheckCarries(m, t, same);
    case Run(t, save) => RunCarries(m, t, save);
    case Invoke(t) => InvokeCarries(m, t);
  }

  lemma LateMoves(m: Manager, c: Config, step: Step)
    requires Enabled(m, c, step) && (step.Return? || step.Judge? || step.BeginStop? || step.Resolve? || step.Finish?) && Busy(m, step.t)
    ensures Carried(m, Do(m, c, step), step.t)
  {
    hide Busy, Carried;
    match step
    case Return(t, ok) => ReturnCarries(m, t, ok);
    case Judge(t) => JudgeCarries(m, t);
    case BeginStop(t, save) => StoppingCarries(m, t, save);
    case Resolve(t, receipt) => ResolveCarries(m, t, receipt);
    case Finish(t, save) => FinishCarries(m, t, save);
  }

  /** Records change without the workers: a status only to cancel_requested, and only finished ones go. */
  ghost predicate RecordsMove(m: Manager, m': Manager) {
    && m'.up == m.up && m'.used == m.used && m'.lastSeq == m.lastSeq && m'.runners == m.runners && m'.executed == m.executed
    && (forall x <- m'.mem :: x in m.mem && SameWork(m.mem[x], m'.mem[x]))
    && (forall x <- m'.mem :: m'.mem[x].status == m.mem[x].status || (Cancelable(m, x) && m'.mem[x].status.CancelRequested?))
    && (forall x <- m.mem | x !in m'.mem :: m.mem[x].status.Terminal())
    && (forall x <- m'.disk :: x in m.disk || x in m.mem)
  }

  lemma RecordsMoveQueue(m: Manager, m': Manager, t: Target)
    requires RecordsMove(m, m') && t in m.runners && QueueOk(m, t)
    ensures QueueOk(m', t)
  {}

  lemma RecordsMoveHold(m: Manager, m': Manager, t: Target)
    requires RecordsMove(m, m') && t in m.runners && HoldOk(m, t) && QueueOk(m, t)
    ensures HoldOk(m', t)
  {
    var q := m.runners[t].queue;
    assert forall i | 0 <= i < |q| :: q[i] in m'.mem;
  }

  lemma RecordsMoveKeep(m: Manager, m': Manager)
    requires Inv(m) && RecordsMove(m, m')
    ensures Inv(m')
  {
    forall t <- m'.runners ensures QueueOk(m', t) && HoldOk(m', t) {
      assert QueueOk(m, t) && HoldOk(m, t);
      RecordsMoveQueue(m, m', t);
      RecordsMoveHold(m, m', t);
    }
    hide QueueOk, HoldOk;
  }

  lemma {:induction false} ForgottenMoves(m: Manager, removed: seq<Id>)
    ensures RecordsMove(m, Forgotten(m, removed)) && Forgotten(m, removed).disk == m.disk
  {
    if removed != [] {
      ForgottenMoves(m, removed[..|removed| - 1]);
    }
  }

  predicate OfRecords(step: Step) {
    || step.Peek? || step.AllowRetry? || step.Close? || step.Cancel? || step.Signal? || step.Reconcile? || step.Sweep? || step.Forget?
  }

  lemma CancelMoves(m: Manager, id: Id, save: Save)
    ensures RecordsMove(m, CancelWritten(m, id, save))
  {}

  lemma ReconcileMoves(m: Manager, id: Id, receipt: Option<bool>, save: Save)
    ensures RecordsMove(m, Reconciled(m, id, receipt, save))
  {}

  lemma LookedMoves(m: Manager, c: Config, key: Key, now: Time)
    ensures RecordsMove(m, Looked(m, c, key, now).(clock := now))
  {}

  lemma ForgetMoves(m: Manager, c: Config, removed: seq<Id>, now: Time)
    ensures RecordsMove(m, Pruned(Forgotten(m, removed), c, now).(clock := now))
  {
    ForgottenMoves(m, removed);
    hide Forgotten;
  }

  lemma PlainMoves(m: Manager, c: Config, step: Step)
    requires Enabled(m, c, step) && (step.AllowRetry? || step.Close? || step.Signal? || step.Sweep?)
    ensures RecordsMove(m, Do(m, c, step))
  {}

  lemma RecordsStep(m: Manager, c: Config, step: Step)
    requires Enabled(m, c, step) && OfRecords(step)
    ensures RecordsMove(m, Do(m, c, step))
  {
    match step
    case Forget(removed, now) => ForgetMoves(m, c, removed, now); hide RecordsMove;
    case Cancel(id, save) => hide RecordsMove; CancelMoves(m, id, save);
    case Reconcile(id, receipt, save) => hide RecordsMove; ReconcileMoves(m, id, receipt, save);
    case Peek(key, now) => hide RecordsMove; LookedMoves(m, c, key, now);
    case _ => hide RecordsMove; PlainMoves(m, c, step);
  }

  lemma TakenRunner(m: Manager, t: Target)
    requires t in m.runners && QueueOk(m, t) && HoldOk(m, t) && m.runners[t].hold.Nothing? && m.runners[t].queue != []
    ensures t in Taken(m, t).runners && QueueOk(Taken(m, t), t) && HoldOk(Taken(m, t), t)
  {
    var m' := Taken(m, t);
    var q := m.runners[t].queue;
    assert m'.mem == m.mem && m'.executed == m.executed;
    assert m'.runners[t] == Runner(q[1..], Held(q[0], Popped));
    hide Taken, Fits;
  }

  lemma TakenOwned(m: Manager, t: Target)
    requires Owned(m) && t in m.runners && m.runners[t].hold.Nothing?
    ensures Owned(Taken(m, t))
  {
    var m' := Taken(m, t);
    var q := m.runners[t].queue;
    forall x <- m'.mem | !m'.mem[x].status.Terminal()
      ensures m'.mem[x].target in m'.runners && Has(m'.runners[m'.mem[x].target], x)
    {
      assert m.mem[x].target in m.runners;
      if m.mem[x].target == t && x in q && x != q[0] {
        var i :| 0 <= i < |q| && q[i] == x;
        assert q[1..][i - 1] == x;
      }
    }
  }

  lemma SameRunner(m: Manager, m': Manager, u: Target)
    requires u in m.runners && u in m'.runners && m'.runners[u] == m.runners[u] && m'.mem == m.mem && m'.executed == m.executed
    requires QueueOk(m, u) && HoldOk(m, u)
    ensures QueueOk(m', u) && HoldOk(m', u)
  {
    hide Fits;
  }

  lemma TakeKeeps(m: Manager, t: Target)
    requires Inv(m) && m.up && t in m.runners && m.runners[t].hold.Nothing?
    ensures Inv(Taken(m, t))
  {
    TakenOwned(m, t);
    hide Owned, QueueOk, HoldOk;
    var m' := Taken(m, t);
    forall u <- m'.runners ensures QueueOk(m', u) && HoldOk(m', u) {
      assert QueueOk(m, u) && HoldOk(m, u);
      if u == t {
        TakenRunner(m, t);
      } else {
        SameRunner(m, m', u);
      }
    }
  }

  lemma PublishedKeeps(m: Manager, id: Id, op: Operation)
    requires Inv(m) && m.up && id !in m.used && op.status.Queued? && op.admissionSeq == m.lastSeq + 1
    ensures Inv(Published(m, id, op))
  {
    var m' := Published(m, id, op);
    assert IdsOk(m') by { hide QueueOk, HoldOk, Owned; }
    forall t <- m'.runners ensures QueueOk(m', t) && HoldOk(m', t) {
      EnqueuedRunner(m, m', id, op, t);
    }
    hide QueueOk, HoldOk, IdsOk;
    forall x <- m'.mem | !m'.mem[x].status.Terminal()
      ensures m'.mem[x].target in m'.runners && Has(m'.runners[m'.mem[x].target], x)
    {
      if x != id {
        assert m.mem[x].target in m.runners;
      }
    }
  }

  lemma EnqueuedRunner(m: Manager, m': Manager, id: Id, op: Operation, t: Target)
    requires IdsOk(m) && RunnersOk(m) && id !in m.used && op.status.Queued? && op.admissionSeq == m.lastSeq + 1
    requires m'.mem == m.mem[id := op] && m'.executed == m.executed && t in m'.runners
    requires m'.runners == Enqueued(m, id, op.target).runners
    ensures QueueOk(m', t) && HoldOk(m', t)
  {
    assert t in m.runners ==> QueueOk(m, t) && HoldOk(m, t);
    hide RunnersOk, Fits;
    assert id !in m.executed;
  }

  ghost predicate Untouched(m: Manager, m': Manager, id: Id) {
    && m'.up == m.up && m'.mem == m.mem && m'.runners == m.runners && m'.executed == m.executed
    && m.used <= m'.used && m.lastSeq <= m'.lastSeq
    && (forall x <- m'.disk :: x in m.disk || x in m'.used)
  }

  lemma UntouchedKeeps(m: Manager, m': Manager, id: Id)
    requires Inv(m) && Untouched(m, m', id)
    ensures Inv(m')
  {
    forall t <- m'.runners ensures QueueOk(m', t) && HoldOk(m', t) {
      assert QueueOk(m, t) && HoldOk(m, t);
      hide RunnersOk, Fits;
    }
    hide QueueOk, HoldOk;
  }

  lemma LookedLeaves(m: Manager, c: Config, key: Key, now: Time)
    ensures var l := Looked(m, c, key, now); l == m.(index := l.index)
  {
    hide WithinWindow;
  }

  lemma RefusedLeaves(m: Manager, c: Config, id: Id, op: Operation, key: Key, request: Request, now: Time, journal: bool, save: Save)
    ensures var m' := Refused(m, c, id, op, key, request, now, journal, save);
      && m' == m.(index := m'.index, lastSeq := m'.lastSeq, used := m'.used, clock := m'.clock, disk := m'.disk)
      && m.used <= m'.used && (m'.disk == m.disk || m'.disk == m.disk[id := op])
      && (m'.index == m.index || m'.index == Looked(m, c, key, now).index)
  {
    LookedLeaves(m, c, key, now);
    hide WithinBudgets, Find, Looked;
  }

  lemma RefusedUntouched(m: Manager, c: Config, id: Id, op: Operation, key: Key, request: Request, now: Time, journal: bool, save: Save)
    ensures Untouched(m, Refused(m, c, id, op, key, request, now, journal, save), id)
  {
    LookedLeaves(m, c, key, now);
    hide Find, WithinBudgets, Looked;
  }

  lemma LookedKeeps(m: Manager, c: Config, key: Key, now: Time)
    requires Inv(m)
    ensures Inv(Looked(m, c, key, now))
  {
    assert Untouched(m, Looked(m, c, key, now), "");
    hide Inv, Looked;
    UntouchedKeeps(m, Looked(m, c, key, now), "");
  }

  lemma AdmitKeeps(m: Manager, c: Config, step: Step)
    requires Inv(m) && Enabled(m, c, step) && step.Admit?
    ensures Inv(Do(m, c, step))
  {
    var Admit(id, t, key, request, retryOf, now, later, journal, save) := step;
    hide Inv, Admits, Published, Refused;
    var op := NewOperation(m, t, key, request, retryOf, later);
    if Admits(m, c, t, key, request, now, journal, save) {
      LookedKeeps(m, c, key, now);
      PublishedKeeps(Looked(m, c, key, now), id, op);
    } else {
      RefusedUntouched(m, c, id, op, key, request, now, journal, save);
      hide Untouched;
      UntouchedKeeps(m, Do(m, c, step), id);
    }
  }

  lemma RestartKeeps(m: Manager, c: Config, step: Step)
    requires Inv(m) && Enabled(m, c, step) && (step.Crash? || step.RecoverFails? || step.Recover?)
    ensures Inv(Do(m, c, step))
  {
    hide QueueOk, HoldOk;
    var m' := Do(m, c, step);
    assert m'.runners == map[];
    if step.Recover? {
      forall id <- m'.mem ensures m'.mem[id].status.Terminal() && m'.mem[id].admissionSeq <= m'.lastSeq {}
    }
  }

  lemma InvKept(m: Manager, c: Config, step: Step)
    requires Inv(m) && Enabled(m, c, step)
    ensures Inv(Do(m, c, step))
  {
    if OfWorker(step) {
      WorkerMoves(m, c, step);
      hide Inv, Do, Enabled;
      MovesKeep(m, Do(m, c, step), step.t, m.runners[step.t].hold.id);
    } else if OfRecords(step) {
      RecordsStep(m, c, step);
      hide Inv, Do, Enabled;
      RecordsMoveKeep(m, Do(m, c, step));
    } else if step.Take? {
      TakeKeeps(m, step.t);
    } else if step.Admit? {
      AdmitKeeps(m, c, step);
    } else {
      RestartKeeps(m, c, step);
    }
  }
}
