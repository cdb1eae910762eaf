/**
 The operation manager as it runs: its maps and queues updated in place, one method for each critical
 section, the outcome of every record save an argument. Each method is a step of the operation queue.
 */
module OperationManager {
  import opened Wrappers
  import opened OperationQueue
  import opened OperationSafety

  datatype Refusal = ShuttingDown | AdmissionBudget | NotPersisted

  class Coordinator {
    const config: Config
    var up: bool
    var operations: map<Id, Operation>
    var disk: map<Id, Operation>
    var idempotency: map<Key, Id>
    var targets: map<Target, Runner>
    var signaled: set<Id>
    var admissionClosed: bool
    var admissionSeq: nat
    var clock: Time
    ghost var used: set<Id>
    ghost var executed: seq<Id>
    ghost var starts: seq<Start>
    ghost var admissions: seq<Admission>
    ghost var touched: set<Key>
    ghost var granted: set<Id>
    ghost var canceledEarly: set<Id>

    ghost function View(): Manager
      reads this
    {
      Manager(up, operations, disk, idempotency, targets, signaled, admissionClosed, admissionSeq, clock,
              used, executed, starts, admissions, touched, granted, canceledEarly)
    }

    method Save(id: Id, op: Operation, save: OperationQueue.Save)
      modifies this`disk
      ensures View() == old(View()).Stored(id, op, save)
    {
      if save.Shows() {
        disk := disk[id := op];
      }
    }

    // -------------------------------------------------------------- admission

    method LookupReplay(key: Key, request: Request, now: Time) returns (found: Lookup)
      modifies this`idempotency
      ensures found == Find(old(View()), config, key, request, now)
      ensures View() == if found.Fresh? then Looked(old(View()), config, key, now) else old(View())
    {
      if key.name == "" || key !in idempotency {
        return Fresh;
      }
      var id := idempotency[key];
      if id !in operations || !WithinWindow(config, operations[id].createdAt, now) {
        idempotency := idempotency - {key};
        return Fresh;
      }
      if operations[id].request.hash != request.hash {
        return Conflict;
      }
      return Replay(id);
    }

    /** Counts the unfinished operations, of one target or one principal if given. */
    method CountLive(target: Option<Target>, principal: Option<string>) returns (n: nat)
      ensures n == |LiveWhere(operations, target, principal)|
    {
      n := 0;
      var todo := operations.Keys;
      ghost var seen: set<Id> := {};
      while todo != {}
        invariant todo <= operations.Keys
        invariant seen == set id | id in LiveWhere(operations, target, principal) && id !in todo
        invariant n == |seen|
      {
        var id :| id in todo;
        todo := todo - {id};
        if Counts(operations[id], target, principal) {
          seen := seen + {id};
          n := n + 1;
        }
      }
      assert seen == LiveWhere(operations, target, principal);
    }

    method HasBudget(t: Target, principal: string) returns (ok: bool)
      ensures ok == WithinBudgets(View(), config, t, principal)
    {
      assert LiveAt(operations, t) == LiveWhere(operations, Some(t), None);
      assert Live(operations) == LiveWhere(operations, None, None);
      assert LiveOf(operations, principal) == LiveWhere(operations, None, Some(principal));
      if config.perTarget > 0 {
        var depth := CountLive(Some(t), None);
        if depth >= config.perTarget {
          return false;
        }
      }
      if config.live > 0 {
        var live := CountLive(None, None);
        if live >= config.live {
          return false;
        }
      }
      if config.perPrincipal > 0 && principal != "" {
        var live := CountLive(None, Some(principal));
        if live >= config.perPrincipal {
          return false;
        }
      }
      return true;
    }

    /**
     The admission transaction, after the command was built: the key is looked up again, then the
     budgets, then the journal and the record are written, and only then is anything published.
     */
    method Enqueue(id: Id, t: Target, key: Key, request: Request, retryOf: Option<Id>, now: Time, later: Time,
                   journal: bool, save: OperationQueue.Save) returns (answer: Result<Lookup, Refusal>)
      modifies this
      ensures View() == Admitted(old(View()), config, id, t, key, request, retryOf, now, later, journal, save)
      ensures answer == Ok(Fresh) <==> Admits(old(View()), config, t, key, request, now, journal, save)
      ensures answer ==
        if old(admissionClosed) then Err(ShuttingDown)
        else if !Find(old(View()), config, key, request, now).Fresh? then Ok(Find(old(View()), config, key, request, now))
        else if !WithinBudgets(old(View()), config, t, key.principal) then Err(AdmissionBudget)
        else if !journal || !save.landed then Err(NotPersisted)
        else Ok(Fresh)
    {
      ghost var was := View();
      ghost var op' := NewOperation(was, t, key, request, retryOf, later);
      hide Admits, Refused, Published, LiveAt, Live, LiveOf;
      if admissionClosed {
        ClosedRefuses(was, config, id, op', key, request, now, journal, save);
        return Err(ShuttingDown);
      }
      var found := LookupReplay(key, request, now);
      LookedLeaves(was, config, key, now);
      hide Looked, Find;
      if !found.Fresh? {
        clock := now;
        KnownKeyRefuses(was, config, id, op', key, request, now, journal, save);
        return Ok(found);
      }
      var ok := HasBudget(t, key.principal);
      NewKeyDecides(was, config, id, op', key, request, now, journal, save);
      hide WithinBudgets;
      if !ok {
        clock := now;
        return Err(AdmissionBudget);
      }
      var op := Operation(t, Queued, admissionSeq + 1, key, request, later, NoRecon, retryOf);
      if !journal || !save.landed {
        Abandon(id, op, journal, save);
        return Err(NotPersisted);
      }
      Publish(id, op);
      answer := Ok(Fresh);
    }

    /** The record did not commit; it may show on disk all the same. */
    method Abandon(id: Id, op: Operation, journal: bool, save: OperationQueue.Save)
      modifies this
      ensures View() == Spent(old(View()), id, op, journal, save)
    {
      admissionSeq := admissionSeq + 1;
      used := used + {id};
      clock := op.createdAt;
      if journal {
        Save(id, op, save);
      }
    }

    method Publish(id: Id, op: Operation)
      modifies this
      ensures View() == Published(old(View()), id, op)
    {
      Record(id, op);
      hide Recorded, Enqueued;
      AdmitToTarget(id, op.target);
    }

    method Record(id: Id, op: Operation)
      modifies this
      ensures View() == Recorded(old(View()), id, op)
    {
      ghost var was := View();
      RecordKey(id, op);
      admissionSeq := op.admissionSeq;
      used := used + {id};
      clock := op.createdAt;
      disk := disk[id := op];
      operations := operations[id := op];
      assert View() == was.(lastSeq := admissionSeq, used := used, clock := clock, disk := disk, mem := operations,
                            index := idempotency, admissions := admissions);
    }

    method RecordKey(id: Id, op: Operation)
      modifies this`idempotency, this`admissions
      ensures idempotency == if op.key.name != "" then old(idempotency)[op.key := id] else old(idempotency)
      ensures admissions == if op.key.name != "" then old(admissions) + [Admission(op.key, id, op.createdAt, op.request.hash)] else old(admissions)
    {
      if op.key.name != "" {
        idempotency := idempotency[op.key := id];
        admissions := admissions + [Admission(op.key, id, op.createdAt, op.request.hash)];
      }
    }

    method AdmitToTarget(id: Id, t: Target)
      modifies this`targets
      ensures View() == Enqueued(old(View()), id, t)
    {
      var runner := if t in targets then targets[t] else Runner([], Nothing);
      assert [] + [id] == [id];
      targets := targets[t := runner.(queue := runner.queue + [id])];
    }

    // -------------------------------------------------------------- the worker

    /** Takes the next job in admission order, or leaves when there is none. */
    method TakeNext(t: Target) returns (job: Option<Id>)
      requires t in targets
      modifies this`targets
      ensures View() == Taken(old(View()), t)
      ensures job == if old(targets[t].queue) == [] then None else Some(old(targets[t].queue)[0])
    {
      var runner := targets[t];
      if runner.queue == [] {
        targets := targets - {t};
        return None;
      }
      job := Some(runner.queue[0]);
      targets := targets[t := Runner(runner.queue[1..], Held(runner.queue[0], Popped))];
    }

    method MoveTo(t: Target, hold: Hold)
      requires t in targets
      modifies this`targets
      ensures View() == old(View()).At(t, hold)
    {
      targets := targets[t := targets[t].(hold := hold)];
    }

    /** Refuses to start an operation whose cancellation was written while it waited. */
    method SetRunning(t: Target, save: OperationQueue.Save)
      requires t in targets && targets[t].hold.Held?
      modifies this
      ensures View() == OperationQueue.SetRunning(old(View()), t, save)
    {
      var id := targets[t].hold.id;
      if id !in operations {
        MoveTo(t, Held(id, Starting));
        return;
      }
      if operations[id].status.CancelRequested? {
        MoveTo(t, Held(id, Ending(Canceled, None)));
        return;
      }
      if !operations[id].status.Queued? {
        MoveTo(t, Held(id, Starting));
        return;
      }
      operations := operations[id := operations[id].(status := Running)];
      Save(id, operations[id], save);
      MoveTo(t, Held(id, if save.landed then Starting else Ending(Failed, None)));
    }

    /** Persists that the outcome of a canceled command is being determined. */
    method BeginStopping(t: Target, save: OperationQueue.Save) returns (begun: bool)
      requires t in targets && targets[t].hold.Held?
      modifies this
      ensures View() == BegunStopping(old(View()), t, save)
      ensures begun == Cancelable(old(View()), old(targets[t].hold.id))
    {
      var id := targets[t].hold.id;
      if id !in operations || operations[id].status.Terminal() || operations[id].status.Stopping? {
        MoveTo(t, Nothing);
        return false;
      }
      var next := operations[id].(status := Stopping);
      Save(id, next, save);
      operations := operations[id := next];
      MoveTo(t, Held(id, Resolving));
      begun := true;
    }

    /** The outcome is decided; a refused save may not change it. */
    method FinishReconciled(t: Target, save: OperationQueue.Save)
      requires t in targets && targets[t].hold.Held? && targets[t].hold.at.Ending?
      modifies this
      ensures View() == Finished(old(View()), t, save)
    {
      var id, at := targets[t].hold.id, targets[t].hold.at;
      if id in operations && !operations[id].status.Terminal() {
        var op := operations[id].(status := at.status);
        if at.recon.Some? {
          op := op.(recon := at.recon.value);
        }
        operations := operations[id := op];
        Save(id, op, save);
      }
      MoveTo(t, Nothing);
    }

    // -------------------------------------------------------------- requests

    /** The intent is on disk before it is acknowledged. */
    method Cancel(id: Id, save: OperationQueue.Save) returns (ok: bool)
      modifies this
      ensures View() == CancelWritten(old(View()), id, save)
      ensures ok == (Cancelable(old(View()), id) && save.landed)
    {
      if id !in operations || operations[id].status.Terminal() || operations[id].status.Stopping? {
        return false;
      }
      var next := operations[id].(status := CancelRequested);
      Save(id, next, save);
      if !save.landed {
        return false;
      }
      if operations[id].status.Queued? {
        canceledEarly := canceledEarly + {id};
      }
      operations := operations[id := next];
      ok := true;
    }

    /** What a retry repeats, or why it may not. */
    method MayRetry(id: Id) returns (ok: bool)
      modifies this`granted
      ensures ok <==> id in operations && var op := operations[id];
        && op.request.supported && !op.request.secrets
        && (op.status.Failed? || op.status.Canceled? || (op.status.Interrupted? && !op.recon.Reconciling?))
      ensures View() == if ok then old(View()).(granted := old(granted) + {id}) else old(View())
    {
      if id !in operations {
        return false;
      }
      var op := operations[id];
      if !op.status.Terminal() || op.status.Succeeded? || op.status.AlreadyCommitted? || op.request.secrets || !op.request.supported {
        return false;
      }
      if op.status.Interrupted? && op.recon.Reconciling? {
        return false;
      }
      granted := granted + {id};
      ok := true;
    }

    /** Applies a receipt's answer to an operation still in question; a refused save leaves it so. */
    method ReconcileOne(id: Id, receipt: Option<bool>, save: OperationQueue.Save)
      modifies this
      ensures View() == Reconciled(old(View()), id, receipt, save)
    {
      if id !in operations || !operations[id].status.Interrupted? || !operations[id].recon.Reconciling? {
        return;
      }
      var next := operations[id].(recon := if receipt.None? then NeedsManualCheck else if receipt.value then Applied else NotApplied);
      Save(id, next, save);
      if save.landed {
        operations := operations[id := next];
      }
    }

    /** Forgets the finished operations the sweep removed from disk, and prunes the keys. */
    method Retire(removed: seq<Id>, now: Time)
      modifies this
      ensures View() == Pruned(Forgotten(old(View()), removed), config, now).(clock := now)
    {
      hide Removed, Pruned;
      for i := 0 to |removed|
        invariant View() == Forgotten(old(View()), removed[..i])
      {
        assert removed[..i + 1][..i] == removed[..i];
        var id := removed[i];
        if id in operations && operations[id].status.Terminal() {
          Drop(id);
        }
      }
      assert removed[..|removed|] == removed;
      Prune(now);
      clock := now;
    }

    method Drop(id: Id)
      requires id in operations
      modifies this`operations, this`idempotency, this`touched
      ensures View() == Removed(old(View()), id)
    {
      var key := operations[id].key;
      operations := operations - {id};
      if key.name != "" {
        idempotency := idempotency - {key};
      }
      touched := touched + {key};
    }

    method Prune(now: Time)
      modifies this`idempotency
      ensures View() == Pruned(old(View()), config, now)
    {
      ghost var before := idempotency;
      var todo := idempotency.Keys;
      while todo != {}
        invariant todo <= before.Keys && idempotency.Keys <= before.Keys
        invariant forall k <- idempotency :: idempotency[k] == before[k]
        invariant forall k <- before ::
          (k in idempotency <==> k in todo || (before[k] in operations && WithinWindow(config, operations[before[k]].createdAt, now)))
        modifies this`idempotency
      {
        var k :| k in todo;
        todo := todo - {k};
        if idempotency[k] !in operations || !WithinWindow(config, operations[idempotency[k]].createdAt, now) {
          idempotency := idempotency - {k};
        }
      }
      assert idempotency == Pruned(old(View()), config, now).index;
    }

    /** What becomes of one record, and whether its receipt is still to be read. */
    static method Settle(found: Operation, reader: bool) returns (op: Operation, waits: bool)
      ensures op == Recovered(found, reader) && waits == (reader && Pending(op))
      ensures op != found <==> !found.status.Terminal()
    {
      op, waits := found, false;
      if op.status.Queued? || op.status.Running? || op.status.Stopping? {
        op := op.(status := Interrupted, recon := if reader then Reconciling else NeedsManualCheck);
        waits := reader;
      } else if op.status.CancelRequested? {
        op := op.(status := Canceled);
      } else if op.status.Interrupted? {
        waits := reader && op.recon.Reconciling?;
      }
    }

    /**
     Reconciles the records found on disk with a fresh process: nothing is run again. A refused save
     ends the start, with some records reconciled on disk and the rest as they were.
     */
    method Recover(reader: bool, saves: Id -> OperationQueue.Save) returns (ok: bool, pending: set<Id>, ghost done: set<Id>)
      requires operations == disk
      modifies this`operations, this`disk
      ensures disk == RecoveredAll(old(disk), done, reader)
      ensures ok <==> forall id <- old(disk) | !old(disk)[id].status.Terminal() :: saves(id).landed
      ensures ok ==> done == old(disk).Keys && operations == disk
      ensures pending == if ok && reader then set id | id in operations && Pending(operations[id]) else {}
    {
      ghost var before := disk;
      ok, pending, done := true, {}, {};
      var todo := operations.Keys;
      assert disk == RecoveredAll(before, {}, reader);
      while todo != {}
        invariant done + todo == before.Keys && done !! todo
        invariant operations == disk == RecoveredAll(before, done, reader)
        invariant forall id <- done | !before[id].status.Terminal() :: saves(id).landed
        invariant pending == if reader then set id | id in done && Pending(operations[id]) else {}
      {
        var id :| id in todo;
        todo := todo - {id};
        assert operations[id] == before[id];
        assert RecoveredAll(before, done + {id}, reader) == RecoveredAll(before, done, reader)[id := Recovered(before[id], reader)];
        var op, waits := Settle(operations[id], reader);
        hide Recovered;
        if op != operations[id] {
          operations := operations[id := op];
          if saves(id).Shows() {
            disk := disk[id := op];
            done := done + {id};
          }
          if !saves(id).landed {
            return false, {}, done;
          }
        } else {
          done := done + {id};
        }
        if waits {
          pending := pending + {id};
        }
      }
    }
  }

  predicate Counts(op: Operation, target: Option<Target>, principal: Option<string>) {
    !op.status.Terminal() && (target.Some? ==> op.target == target.value) && (principal.Some? ==> op.key.principal == principal.value)
  }

  ghost function LiveWhere(mem: map<Id, Operation>, target: Option<Target>, principal: Option<string>): set<Id> {
    set id | id in mem && Counts(mem[id], target, principal)
  }

  function Spent(m: Manager, id: Id, op: Operation, journal: bool, save: OperationQueue.Save): Manager {
    m.(lastSeq := m.lastSeq + 1, used := m.used + {id}, clock := op.createdAt,
       disk := if journal && save.Shows() then m.disk[id := op] else m.disk)
  }

  lemma ClosedRefuses(m: Manager, c: Config, id: Id, op: Operation, key: Key, request: Request, now: Time, journal: bool, save: OperationQueue.Save)
    requires m.closed
    ensures !Admits(m, c, op.target, key, request, now, journal, save)
    ensures Refused(m, c, id, op, key, request, now, journal, save) == m
  {}

  lemma KnownKeyRefuses(m: Manager, c: Config, id: Id, op: Operation, key: Key, request: Request, now: Time, journal: bool, save: OperationQueue.Save)
    requires !m.closed && !Find(m, c, key, request, now).Fresh?
    ensures !Admits(m, c, op.target, key, request, now, journal, save)
    ensures Refused(m, c, id, op, key, request, now, journal, save) == m.(clock := now)
  {}

  lemma NewKeyDecides(m: Manager, c: Config, id: Id, op: Operation, key: Key, request: Request, now: Time, journal: bool, save: OperationQueue.Save)
    requires !m.closed && Find(m, c, key, request, now).Fresh?
    ensures var l := Looked(m, c, key, now);
      && (Admits(m, c, op.target, key, request, now, journal, save) <==> WithinBudgets(l, c, op.target, key.principal) && journal && save.landed)
      && Refused(m, c, id, op, key, request, now, journal, save)
         == if WithinBudgets(l, c, op.target, key.principal) then Spent(l, id, op, journal, save) else l.(clock := now)
  {
    LookedLeaves(m, c, key, now);
    hide Looked, Find;
  }
}
