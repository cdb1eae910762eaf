/**
 What the manager's own transactions decide and write: when an enqueue admits and what it records, what a key
 answers, what a cancellation, a reconciliation and a retention pass leave.
 */
module OperationEffects {
  import opened Wrappers
  import opened OperationQueue
  import opened OperationSafety
  import opened OperationOrder

  /** The operation a key stands for at this time, if any. */
  function KnownBy(m: Manager, c: Config, key: Key, now: Time): Option<Id> {
    if key.name != "" && key in m.index && m.index[key] in m.mem
       && (c.window <= 0 || m.mem[m.index[key]].createdAt + c.window >= now)
    then Some(m.index[key]) else None
  }

  /** A key answers with its operation for the same request, with a conflict for another, and is dropped once stale. */
  lemma KeyAnswers(m: Manager, c: Config, key: Key, request: Request, now: Time)
    ensures var known := KnownBy(m, c, key, now);
      && Find(m, c, key, request, now)
           == (if known.None? then Fresh else if m.mem[known.value].request.hash == request.hash then Replay(known.value) else Conflict)
      && Looked(m, c, key, now) == m.(index := if known.Some? || key.name == "" then m.index else m.index - {key})
  {
    assert key !in m.index ==> m.index - {key} == m.index;
  }

  /** The unfinished operations that satisfy a test. */
  ghost function Unfinished(m: Manager, p: Operation -> bool): set<Id> {
    set x | x in m.mem && p(m.mem[x]) && !m.mem[x].status.Terminal()
  }

  /** All three bounds leave room for one more. */
  ghost predicate Room(m: Manager, c: Config, t: Target, principal: string) {
    && (c.perTarget > 0 ==> |Unfinished(m, (op: Operation) => op.target == t)| < c.perTarget)
    && (c.live > 0 ==> |Unfinished(m, (op: Operation) => true)| < c.live)
    && (c.perPrincipal > 0 && principal != "" ==> |Unfinished(m, (op: Operation) => op.key.principal == principal)| < c.perPrincipal)
  }

  lemma RoomIsBudget(m: Manager, c: Config, t: Target, principal: string)
    ensures Room(m, c, t, principal) <==> WithinBudgets(m, c, t, principal)
  {
    assert LiveAt(m.mem, t) == Unfinished(m, (op: Operation) => op.target == t);
    assert Live(m.mem) == Unfinished(m, (op: Operation) => true);
    assert LiveOf(m.mem, principal) == Unfinished(m, (op: Operation) => op.key.principal == principal);
  }

  /** The queue of a target, with or without a worker. */
  function QueueOf(m: Manager, t: Target): seq<Id> { if t in m.runners then m.runners[t].queue else [] }

  /**
   An enqueue admits exactly when admission is open, its key stands for nothing, all bounds leave room, and
   journal and record were written; then the operation is queued last at its target, on disk, and its key's.
   Otherwise no operation, queue or entry appears.
   */
  lemma AdmitsExactlyWhen(m: Manager, c: Config, step: Step)
    requires IdsOk(m) && Enabled(m, c, step) && step.Admit?
    ensures var m', id, key := Do(m, c, step), step.id, step.key;
      && (id in m'.mem <==> !m.closed && KnownBy(m, c, key, step.now).None? && Room(m, c, step.t, key.principal) && step.journal && step.save.landed)
      && (if id in m'.mem then
            var op := m'.mem[id];
            && op == Operation(step.t, Queued, m.lastSeq + 1, key, step.request, step.later, NoRecon, step.retryOf)
            && m'.mem == m.mem[id := op] && m'.disk == m.disk[id := op] && m'.lastSeq == op.admissionSeq
            && m'.runners.Keys == m.runners.Keys + {step.t}
            && (forall u <- m.runners | u != step.t :: m'.runners[u] == m.runners[u])
            && QueueOf(m', step.t) == QueueOf(m, step.t) + [id]
            && m'.runners[step.t].hold == (if step.t in m.runners then m.runners[step.t].hold else Hold.Nothing)
            && (key.name != "" ==> key in m'.index && m'.index[key] == id)
          else m'.mem == m.mem && m'.runners == m.runners && forall k <- m'.index :: k in m.index && m'.index[k] == m.index[k])
  {
    var Admit(id, t, key, request, retryOf, now, later, journal, save) := step;
    var op := NewOperation(m, t, key, request, retryOf, later);
    KeyAnswers(m, c, key, request, now);
    RoomIsBudget(m, c, t, key.principal);
    assert id !in m.mem;
    hide Room, WithinBudgets, Find, KnownBy;
    if Admits(m, c, t, key, request, now, journal, save) {
      hide Looked, Refused;
      PublishedWrites(Looked(m, c, key, now), id, op);
    } else {
      RefusedLeaves(m, c, id, op, key, request, now, journal, save);
      hide Published, Refused;
    }
  }

  lemma PublishedWrites(m: Manager, id: Id, op: Operation)
    ensures var m', t := Published(m, id, op), op.target;
      && m'.mem == m.mem[id := op] && m'.disk == m.disk[id := op] && m'.lastSeq == op.admissionSeq
      && m'.runners.Keys == m.runners.Keys + {t} && (forall u <- m.runners | u != t :: m'.runners[u] == m.runners[u])
      && QueueOf(m', t) == QueueOf(m, t) + [id]
      && m'.runners[t].hold == (if t in m.runners then m.runners[t].hold else Hold.Nothing)
      && (op.key.name != "" ==> op.key in m'.index && m'.index[op.key] == id)
  {
    PublishedLeaves(m, id, op);
    assert [] + [id] == [id];
  }

  /** A cancellation stands exactly when its operation could still be canceled and the intent is on disk. */
  lemma CancelWrites(m: Manager, c: Config, id: Id, save: Save)
    requires m.up
    ensures var m' := Do(m, c, Cancel(id, save));
      var taken := id in m.mem && save.landed && (m.mem[id].status.Queued? || m.mem[id].status.Running? || m.mem[id].status.CancelRequested?);
      if taken then
        var op := m.mem[id].(status := CancelRequested);
        && m'.mem == m.mem[id := op] && m'.disk == m.disk[id := op]
        && m'.canceledEarly == m.canceledEarly + (if m.mem[id].status.Queued? then {id} else {})
        && m' == m.(mem := m'.mem, disk := m'.disk, canceledEarly := m'.canceledEarly)
      else m' == m.(disk := m'.disk) && forall x | x != id :: (x in m'.disk <==> x in m.disk) && (x in m.disk ==> m'.disk[x] == m.disk[x])
  {
    assert m.canceledEarly + {} == m.canceledEarly;
  }

  /** What was interrupted and in question is settled by its receipt, once the answer is on disk. */
  lemma ReconcileWrites(m: Manager, c: Config, id: Id, receipt: Option<bool>, save: Save)
    requires m.up
    ensures var m' := Do(m, c, Reconcile(id, receipt, save));
      if id in m.mem && m.mem[id].status.Interrupted? && m.mem[id].recon.Reconciling? && save.landed then
        var op := m.mem[id].(recon := match receipt case Some(true) => Applied case Some(false) => NotApplied case None => NeedsManualCheck);
        m'.mem == m.mem[id := op] && m'.disk == m.disk[id := op] && m' == m.(mem := m'.mem, disk := m'.disk)
      else m' == m.(disk := m'.disk)
  {}

  /** What retention may take: a finished operation the sweep removed from disk. */
  predicate Taken(m: Manager, removed: seq<Id>, id: Id) { id in m.mem && id in removed && m.mem[id].status.Terminal() }

  /** What a retention pass keeps of memory and of the keys. */
  ghost predicate Retains(m: Manager, m': Manager, removed: seq<Id>) {
    && (forall id :: id in m'.mem <==> id in m.mem && !Taken(m, removed, id))
    && (forall id <- m'.mem :: m'.mem[id] == m.mem[id])
    && (forall k :: k in m'.index <==> k in m.index && forall id | Taken(m, removed, id) :: m.mem[id].key != k || k.name == "")
    && (forall k <- m'.index :: m'.index[k] == m.index[k])
    && m' == m.(mem := m'.mem, index := m'.index, touched := m'.touched)
  }

  lemma {:induction false} ForgottenRetains(m: Manager, removed: seq<Id>)
    ensures Retains(m, Forgotten(m, removed), removed)
  {
    if removed != [] {
      var n := |removed| - 1;
      ForgottenRetains(m, removed[..n]);
      var f := Forgotten(m, removed[..n]);
      assert Forgotten(m, removed) == if removed[n] in f.mem && f.mem[removed[n]].status.Terminal() then Removed(f, removed[n]) else f;
      hide Forgotten;
      OneMoreTaken(m, f, removed[..n], removed[n]);
      assert removed == removed[..n] + [removed[n]];
    }
  }

  lemma OneMoreTaken(m: Manager, f: Manager, removed: seq<Id>, id: Id)
    requires Retains(m, f, removed)
    ensures Retains(m, if id in f.mem && f.mem[id].status.Terminal() then Removed(f, id) else f, removed + [id])
  {
    assert forall x :: x in removed + [id] <==> x in removed || x == id;
    var takes := id in f.mem && f.mem[id].status.Terminal();
    assert forall x :: Taken(m, removed + [id], x) <==> Taken(m, removed, x) || (x == id && takes);
    hide Taken;
    if takes {
      RetainsLess(m, f, removed, removed + [id], id);
    } else {
      RetainsSame(m, f, removed, removed + [id]);
    }
  }

  lemma RetainsSame(m: Manager, f: Manager, removed: seq<Id>, more: seq<Id>)
    requires Retains(m, f, removed) && forall x :: Taken(m, more, x) <==> Taken(m, removed, x)
    ensures Retains(m, f, more)
  {
    hide Taken;
  }

  lemma RetainsLess(m: Manager, f: Manager, removed: seq<Id>, more: seq<Id>, id: Id)
    requires Retains(m, f, removed) && id in f.mem && forall x :: Taken(m, more, x) <==> Taken(m, removed, x) || x == id
    requires forall x | Taken(m, more, x) :: x in m.mem
    ensures Retains(m, Removed(f, id), more)
  {
    var f', key := Removed(f, id), f.mem[id].key;
    assert Taken(m, more, id) && m.mem[id].key == key;
    hide Taken;
    assert forall k :: k in f'.index <==> k in f.index && (k != key || key.name == "");
  }

  /**
   A retention pass forgets exactly the finished operations swept from disk; a key's entry stays exactly
   if none of those carried it and it names an operation that stays and is still within its window.
   */
  lemma RetentionForgets(m: Manager, c: Config, removed: seq<Id>, now: Time)
    requires m.up && m.clock <= now
    ensures var m' := Do(m, c, Forget(removed, now));
      && (forall id :: id in m'.mem <==> id in m.mem && !Taken(m, removed, id))
      && (forall id <- m'.mem :: m'.mem[id] == m.mem[id])
      && (forall k :: k in m'.index <==>
            && k in m.index && (forall id | Taken(m, removed, id) :: m.mem[id].key != k || k.name == "")
            && m.index[k] in m'.mem && (c.window <= 0 || now - m.mem[m.index[k]].createdAt <= c.window))
      && (forall k <- m'.index :: m'.index[k] == m.index[k])
      && m'.disk == m.disk && m'.runners == m.runners && m'.executed == m.executed
  {
    ForgottenRetains(m, removed);
    hide Forgotten, Taken;
  }
}
