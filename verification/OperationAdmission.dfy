/**
 Admission to the operation queue: live work stays within its budgets, and an idempotency key is good
 for one operation per window, answered the same way all through it.
 */
module OperationAdmission {
  import opened Wrappers
  import opened OperationQueue
  import opened OperationSafety
  import opened OperationStarts
  import opened OperationCancel
  import opened OperationOrder

  // ---------------------------------------------------------------- budgets

  ghost predicate Budgeted(mem: map<Id, Operation>, c: Config) {
    && (c.perTarget > 0 ==> forall t :: |LiveAt(mem, t)| <= c.perTarget)
    && (c.live > 0 ==> |Live(mem)| <= c.live)
    && (c.perPrincipal > 0 ==> forall p | p != "" :: |LiveOf(mem, p)| <= c.perPrincipal)
  }

  /** Nothing comes alive: every unfinished operation was there unfinished, for the same target and principal. */
  ghost predicate NothingNew(mem: map<Id, Operation>, mem': map<Id, Operation>) {
    forall id <- mem' | !mem'[id].status.Terminal() :: id in mem && SameWork(mem[id], mem'[id]) && !mem[id].status.Terminal()
  }

  lemma {:induction false} SubsetSize(a: set<Id>, b: set<Id>)
    requires a <= b
    ensures |a| <= |b|
  {
    if a != {} {
      var x :| x in a;
      SubsetSize(a - {x}, b - {x});
    }
  }

  lemma NothingNewKeepsBudgets(mem: map<Id, Operation>, mem': map<Id, Operation>, c: Config)
    requires Budgeted(mem, c) && NothingNew(mem, mem')
    ensures Budgeted(mem', c)
  {
    forall t ensures |LiveAt(mem', t)| <= |LiveAt(mem, t)| {
      SubsetSize(LiveAt(mem', t), LiveAt(mem, t));
    }
    SubsetSize(Live(mem'), Live(mem));
    forall p ensures |LiveOf(mem', p)| <= |LiveOf(mem, p)| {
      SubsetSize(LiveOf(mem', p), LiveOf(mem, p));
    }
  }

  lemma OneMoreAt(mem: map<Id, Operation>, id: Id, op: Operation, t: Target)
    requires id !in mem && !op.status.Terminal()
    ensures |LiveAt(mem[id := op], t)| == |LiveAt(mem, t)| + if t == op.target then 1 else 0
  {
    assert LiveAt(mem[id := op], t) == if t == op.target then LiveAt(mem, t) + {id} else LiveAt(mem, t);
  }

  lemma OneMore(mem: map<Id, Operation>, id: Id, op: Operation)
    requires id !in mem && !op.status.Terminal()
    ensures |Live(mem[id := op])| == |Live(mem)| + 1
  {
    assert Live(mem[id := op]) == Live(mem) + {id};
  }

  lemma OneMoreOf(mem: map<Id, Operation>, id: Id, op: Operation, p: string)
    requires id !in mem && !op.status.Terminal()
    ensures |LiveOf(mem[id := op], p)| == |LiveOf(mem, p)| + if p == op.key.principal then 1 else 0
  {
    assert LiveOf(mem[id := op], p) == if p == op.key.principal then LiveOf(mem, p) + {id} else LiveOf(mem, p);
  }

  lemma OneMoreKeepsBudgets(m: Manager, c: Config, id: Id, op: Operation)
    requires Budgeted(m.mem, c) && id !in m.mem && !op.status.Terminal()
    requires WithinBudgets(m, c, op.target, op.key.principal)
    ensures Budgeted(m.mem[id := op], c)
  {
    hide LiveAt, Live, LiveOf;
    var mem' := m.mem[id := op];
    forall t ensures c.perTarget > 0 ==> |LiveAt(mem', t)| <= c.perTarget {
      OneMoreAt(m.mem, id, op, t);
    }
    OneMore(m.mem, id, op);
    forall p ensures c.perPrincipal > 0 && p != "" ==> |LiveOf(mem', p)| <= c.perPrincipal {
      OneMoreOf(m.mem, id, op, p);
    }
  }

  lemma WorkerAddsNothing(m: Manager, m': Manager, t: Target)
    requires Carried(m, m', t) && Busy(m, t)
    ensures NothingNew(m.mem, m'.mem)
  {}

  lemma NothingNewUnlessAdmitted(m: Manager, c: Config, step: Step)
    requires Inv(m) && Enabled(m, c, step) && !step.Admit? && !step.Recover?
    ensures NothingNew(m.mem, Do(m, c, step).mem)
  {
    if OfWorker(step) {
      WorkerMoves(m, c, step);
      assert Busy(m, step.t) by { hide IdsOk, Owned, QueueOk, HoldOk; }
      hide Do, Enabled, Inv, Carried, Busy;
      WorkerAddsNothing(m, Do(m, c, step), step.t);
    } else if OfRecords(step) {
      RecordsStep(m, c, step);
      hide Do, Enabled, Inv;
    } else {
      hide Inv;
    }
  }

  lemma BudgetsKept(m: Manager, c: Config, step: Step)
    requires Inv(m) && Budgeted(m.mem, c) && Enabled(m, c, step)
    ensures Budgeted(Do(m, c, step).mem, c)
  {
    hide Budgeted;
    if step.Admit? {
      AdmitKeepsBudgets(m, c, step);
    } else if step.Recover? {
      hide Inv, Indexes, SeqCovers;
      assert forall id <- Do(m, c, step).mem :: Do(m, c, step).mem[id].status.Terminal();
      NothingNewKeepsBudgets(m.mem, Do(m, c, step).mem, c);
    } else {
      NothingNewUnlessAdmitted(m, c, step);
      hide NothingNew, Do;
      NothingNewKeepsBudgets(m.mem, Do(m, c, step).mem, c);
    }
  }

  lemma AdmitKeepsBudgets(m: Manager, c: Config, step: Step)
    requires IdsOk(m) && Budgeted(m.mem, c) && Enabled(m, c, step) && step.Admit?
    ensures Budgeted(Do(m, c, step).mem, c)
  {
    var Admit(id, t, key, request, retryOf, now, later, journal, save) := step;
    hide Budgeted, WithinBudgets, Find;
    var op := NewOperation(m, t, key, request, retryOf, later);
    LookedLeaves(m, c, key, now);
    hide Looked;
    if Admits(m, c, t, key, request, now, journal, save) {
      OneMoreKeepsBudgets(m, c, id, op);
    }
  }

  // ---------------------------------------------------------------- idempotency

  /** What one keyed admission of this process still stands for, unless retention has touched its key. */
  ghost predicate Stands(m: Manager, c: Config, a: Admission) {
    && a.key.name != "" && a.at <= m.clock
    && (a.key !in m.touched ==>
          && a.id in m.mem && m.mem[a.id].key == a.key && m.mem[a.id].createdAt == a.at && m.mem[a.id].request.hash == a.hash
          && (WithinWindow(c, a.at, m.clock) ==> a.key in m.index && m.index[a.key] == a.id))
  }

  ghost predicate Spaced(m: Manager, c: Config) {
    forall i, j | 0 <= i < j < |m.admissions| && m.admissions[i].key == m.admissions[j].key && m.admissions[i].key !in m.touched ::
      !WithinWindow(c, m.admissions[i].at, m.admissions[j].at)
  }

  /** An entry names an operation admitted under its key, or one that is gone. */
  ghost predicate IndexOk(m: Manager) {
    forall k <- m.index :: m.index[k] in m.used && (m.index[k] in m.mem ==> m.mem[m.index[k]].key == k)
  }

  ghost predicate KeysOk(m: Manager, c: Config) {
    IndexOk(m) && (forall i | 0 <= i < |m.admissions| :: Stands(m, c, m.admissions[i])) && Spaced(m, c) && (!m.up ==> m.admissions == [])
  }

  /** Memory and index change only as far as admissions under untouched keys allow. */
  ghost predicate KeepsKeys(m: Manager, m': Manager, c: Config) {
    && m'.admissions == m.admissions && m'.up == m.up && m.touched <= m'.touched && m.clock <= m'.clock && m.used <= m'.used
    && (forall id <- m'.mem :: id in m.mem && SameWork(m.mem[id], m'.mem[id]))
    && (forall k <- m'.index :: k in m.index && m'.index[k] == m.index[k])
    && (forall id <- m.mem | m.mem[id].key !in m'.touched :: id in m'.mem && SameWork(m.mem[id], m'.mem[id]))
    && (forall k <- m.index | k !in m'.touched ::
          (k in m'.index && m'.index[k] == m.index[k])
          || m.index[k] !in m.mem || !WithinWindow(c, m.mem[m.index[k]].createdAt, m'.clock))
  }

  lemma KeepsKeysKeepsOk(m: Manager, m': Manager, c: Config)
    requires KeysOk(m, c) && KeepsKeys(m, m', c)
    ensures KeysOk(m', c)
  {
    forall i | 0 <= i < |m'.admissions| ensures Stands(m', c, m'.admissions[i]) {
      assert Stands(m, c, m.admissions[i]);
    }
    hide Stands;
  }

  lemma LookedKeepsKeys(m: Manager, c: Config, key: Key, now: Time)
    requires m.clock <= now
    ensures KeepsKeys(m, Looked(m, c, key, now).(clock := now), c)
  {}

  lemma {:induction false} ForgottenKeepsKeys(m: Manager, c: Config, removed: seq<Id>)
    ensures KeepsKeys(m, Forgotten(m, removed), c)
    ensures Forgotten(m, removed).clock == m.clock
  {
    if removed != [] {
      ForgottenKeepsKeys(m, c, removed[..|removed| - 1]);
    }
  }

  lemma PrunedKeepsKeys(m: Manager, c: Config, removed: seq<Id>, now: Time)
    requires m.clock <= now && IndexOk(m)
    ensures KeepsKeys(m, Pruned(Forgotten(m, removed), c, now).(clock := now), c)
  {
    ForgottenKeepsKeys(m, c, removed);
    ForgottenOnlyRemoves(m, removed);
    hide Forgotten;
  }

  lemma CancelKeepsKeys(m: Manager, c: Config, id: Id, save: Save)
    ensures KeepsKeys(m, CancelWritten(m, id, save), c)
  {}

  lemma ReconcileKeepsKeys(m: Manager, c: Config, id: Id, receipt: Option<bool>, save: Save)
    ensures KeepsKeys(m, Reconciled(m, id, receipt, save), c)
  {}

  lemma RecordsKeepKeys(m: Manager, c: Config, step: Step)
    requires Enabled(m, c, step) && OfRecords(step) && IndexOk(m)
    ensures KeepsKeys(m, Do(m, c, step), c)
  {
    hide KeepsKeys;
    if step.Peek? {
      LookedKeepsKeys(m, c, step.key, step.now);
    } else if step.Forget? {
      PrunedKeepsKeys(m, c, step.removed, step.now);
    } else if step.Cancel? {
      CancelKeepsKeys(m, c, step.id, step.save);
    } else if step.Reconcile? {
      ReconcileKeepsKeys(m, c, step.id, step.receipt, step.save);
    } else {
      hide IndexOk;
      UnchangedKeepsKeys(m, Do(m, c, step), c);
    }
  }

  lemma UnchangedKeepsKeys(m: Manager, m': Manager, c: Config)
    requires m'.admissions == m.admissions && m'.up == m.up && m'.touched == m.touched && m'.clock == m.clock && m'.used == m.used
    requires m'.mem == m.mem && m'.index == m.index
    ensures KeepsKeys(m, m', c)
  {
    hide WithinWindow;
  }

  lemma WorkerKeepsKeys(m: Manager, m': Manager, c: Config, t: Target)
    requires Carried(m, m', t)
    ensures KeepsKeys(m, m', c)
  {
    hide HoldOk, WithinWindow;
  }

  lemma OtherStepsKeepKeys(m: Manager, c: Config, step: Step)
    requires Inv(m) && Enabled(m, c, step) && (OfWorker(step) || step.Take? || step.RecoverFails?)
    ensures KeepsKeys(m, Do(m, c, step), c)
  {
    if OfWorker(step) {
      WorkerMoves(m, c, step);
      hide Do, Enabled, Inv, Carried, KeepsKeys;
      WorkerKeepsKeys(m, Do(m, c, step), c, step.t);
    } else {
      hide Inv, WithinWindow;
    }
  }

  /** A key that looks fresh has no admission within the window. */
  lemma FreshKeyIsSpaced(m: Manager, c: Config, key: Key, request: Request, now: Time, a: Admission)
    requires Stands(m, c, a) && a.key == key && key !in m.touched && m.clock <= now
    ensures WithinWindow(c, a.at, now) ==> Find(m, c, key, request, now) == if a.hash == request.hash then Replay(a.id) else Conflict
  {}

  lemma PublishedKeepsKeys(m: Manager, c: Config, id: Id, op: Operation)
    requires IdsOk(m) && KeysOk(m, c) && id !in m.used && m.up && m.clock <= op.createdAt && id !in m.mem
    requires op.key.name != "" ==> forall i | 0 <= i < |m.admissions| && m.admissions[i].key == op.key && op.key !in m.touched ::
      !WithinWindow(c, m.admissions[i].at, op.createdAt)
    ensures KeysOk(Published(m, id, op), c)
  {
    var m' := Published(m, id, op);
    assert m'.mem == m.mem[id := op] && m'.touched == m.touched && m'.clock == op.createdAt && m'.up;
    var a := Admission(op.key, id, op.createdAt, op.request.hash);
    assert m'.admissions == if op.key.name != "" then m.admissions + [a] else m.admissions;
    assert m'.index == if op.key.name != "" then m.index[op.key := id] else m.index;
    hide Published, IdsOk;
    forall i | 0 <= i < |m'.admissions| ensures Stands(m', c, m'.admissions[i]) {
      if i < |m.admissions| {
        assert Stands(m, c, m.admissions[i]);
      }
    }
    hide Stands;
  }

  lemma AdmitKeepsKeys(m: Manager, c: Config, step: Step)
    requires IdsOk(m) && KeysOk(m, c) && Enabled(m, c, step) && step.Admit?
    ensures KeysOk(Do(m, c, step), c)
  {
    var Admit(id, t, key, request, retryOf, now, later, journal, save) := step;
    var op := NewOperation(m, t, key, request, retryOf, later);
    if Admits(m, c, t, key, request, now, journal, save) {
      var l := Looked(m, c, key, now);
      LookedKeepsKeys(m, c, key, now);
      LookedLeaves(m, c, key, now);
      forall i | 0 <= i < |m.admissions| && m.admissions[i].key == key && key !in m.touched
        ensures !WithinWindow(c, m.admissions[i].at, later)
      {
        assert Stands(m, c, m.admissions[i]);
        FreshKeyIsSpaced(m, c, key, request, now, m.admissions[i]);
      }
      hide WithinBudgets, Find, Looked, Stands;
      KeepsKeysKeepsOk(m, l.(clock := now), c);
      assert Published(l.(clock := now), id, op) == Published(l, id, op);
      PublishedKeepsKeys(l.(clock := now), c, id, op);
    } else {
      RefusedKeepsKeys(m, c, id, op, key, request, now, journal, save);
      hide KeepsKeys, Refused, Admits;
      KeepsKeysKeepsOk(m, Do(m, c, step), c);
    }
  }

  lemma RefusedKeepsKeys(m: Manager, c: Config, id: Id, op: Operation, key: Key, request: Request, now: Time, journal: bool, save: Save)
    requires m.clock <= now <= op.createdAt
    ensures KeepsKeys(m, Refused(m, c, id, op, key, request, now, journal, save), c)
  {
    LookedKeepsKeys(m, c, key, now);
    LookedLeaves(m, c, key, now);
    hide WithinBudgets, Find, Looked;
  }

  lemma KeysKept(m: Manager, c: Config, step: Step)
    requires Inv(m) && KeysOk(m, c) && Enabled(m, c, step)
    ensures KeysOk(Do(m, c, step), c)
  {
    if OfRecords(step) {
      assert IndexOk(m);
      RecordsKeepKeys(m, c, step);
      hide Do, KeepsKeys, KeysOk;
      KeepsKeysKeepsOk(m, Do(m, c, step), c);
    } else if OfWorker(step) || step.Take? || step.RecoverFails? {
      OtherStepsKeepKeys(m, c, step);
      hide Do, KeepsKeys, KeysOk;
      KeepsKeysKeepsOk(m, Do(m, c, step), c);
    } else if step.Admit? {
      hide Do, KeysOk, RunnersOk, Owned;
      AdmitKeepsKeys(m, c, step);
    } else {
      hide Inv, Indexes;
    }
  }

  // ---------------------------------------------------------------- whole runs

  ghost predicate Good(m: Manager, c: Config) { Safe(m) && Budgeted(m.mem, c) && KeysOk(m, c) }

  lemma GoodKept(m: Manager, c: Config, step: Step)
    requires Good(m, c) && Enabled(m, c, step)
    ensures Good(Do(m, c, step), c)
  {
    SafeKept(m, c, step);
    assert Inv(m) by { hide Inv, StartsOk, CancelInv, GrantsOk; }
    hide Safe, Inv, Budgeted, KeysOk, Do, Enabled;
    BudgetsKept(m, c, step);
    KeysKept(m, c, step);
  }

  lemma {:induction false} GoodThroughout(m: Manager, c: Config, steps: seq<Step>)
    requires Good(m, c) && Runs(m, c, steps)
    ensures Good(After(m, c, steps), c)
    decreases |steps|
  {
    if steps != [] {
      GoodKept(m, c, steps[0]);
      hide Good, Do, Enabled;
      GoodThroughout(Do(m, c, steps[0]), c, steps[1..]);
    }
  }

  lemma FreshIsGood(m: Manager, c: Config)
    requires FirstStart(m)
    ensures Good(m, c)
  {
    assert forall t :: LiveAt(m.mem, t) == {};
    assert Live(m.mem) == {};
    assert forall p :: LiveOf(m.mem, p) == {};
  }

  /** The live counts never pass their budgets, whatever is enqueued, replayed, retried or recovered. */
  lemma WithinBudgetsAlways(m: Manager, c: Config, steps: seq<Step>)
    requires FirstStart(m) && Runs(m, c, steps)
    ensures var mem := After(m, c, steps).mem;
      && (c.perTarget > 0 ==> forall t :: |LiveAt(mem, t)| <= c.perTarget)
      && (c.live > 0 ==> |Live(mem)| <= c.live)
      && (c.perPrincipal > 0 ==> forall p | p != "" :: |LiveOf(mem, p)| <= c.perPrincipal)
  {
    FreshIsGood(m, c);
    GoodThroughout(m, c, steps);
    hide Safe, KeysOk, LiveAt, Live, LiveOf;
  }

  /**
   One operation per key and window: two operations admitted under one key in one process are more than
   a window apart, and until then the key answers with the first one's id, or with a conflict for
   another request. This holds until retention removes an operation that carries the key.
   */
  lemma OneOperationPerWindow(m: Manager, c: Config, steps: seq<Step>)
    requires FirstStart(m) && Runs(m, c, steps)
    ensures var end := After(m, c, steps);
      && (forall i, j | 0 <= i < j < |end.admissions| && end.admissions[i].key == end.admissions[j].key
            && end.admissions[i].key !in end.touched ::
            c.window > 0 && end.admissions[j].at - end.admissions[i].at > c.window)
      && (forall i, request, now | 0 <= i < |end.admissions| && end.admissions[i].key !in end.touched
            && end.clock <= now && WithinWindow(c, end.admissions[i].at, now) ::
            Find(end, c, end.admissions[i].key, request, now)
              == if end.admissions[i].hash == request.hash then Replay(end.admissions[i].id) else Conflict)
  {
    FreshIsGood(m, c);
    GoodThroughout(m, c, steps);
    var end := After(m, c, steps);
    hide Safe, Budgeted, Runs, After, FirstStart, Find, IndexOk;
    forall i, request, now | 0 <= i < |end.admissions| && end.admissions[i].key !in end.touched
      && end.clock <= now && WithinWindow(c, end.admissions[i].at, now)
      ensures Find(end, c, end.admissions[i].key, request, now)
              == if end.admissions[i].hash == request.hash then Replay(end.admissions[i].id) else Conflict
    {
      FreshKeyIsSpaced(end, c, end.admissions[i].key, request, now, end.admissions[i]);
    }
    hide Stands;
  }

  /** Keys are separate: an enqueue under one key changes the answer for no other, so no principal's keys affect another's. */
  lemma KeysAreSeparate(m: Manager, c: Config, step: Step, other: Key, request: Request, now: Time)
    requires IdsOk(m) && IndexOk(m) && Enabled(m, c, step) && step.Admit? && other != step.key
    ensures Find(Do(m, c, step), c, other, request, now) == Find(m, c, other, request, now)
  {
    var Admit(id, t, key, asked, retryOf, at, later, journal, save) := step;
    var op := NewOperation(m, t, key, asked, retryOf, later);
    var l, m' := Looked(m, c, key, at), Do(m, c, step);
    LookedLeaves(m, c, key, at);
    assert other in l.index <==> other in m.index;
    assert other in m.index ==> l.index[other] == m.index[other] && m.index[other] != id;
    if Admits(m, c, t, key, asked, at, journal, save) {
      PublishedLeaves(l, id, op);
      hide Published, Refused;
    } else {
      RefusedLeaves(m, c, id, op, key, asked, at, journal, save);
      hide Published, Refused;
    }
    hide Looked, Admits, WithinWindow;
  }
}
