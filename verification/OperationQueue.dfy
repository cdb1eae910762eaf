/**
 The durable operation queue as a transition system: records in memory and on disk, a FIFO queue and at
 most one worker per target, idempotency keys, cancellation racing execution, retention, and a crash at
 any moment followed by recovery. Each step is one critical section of the manager or one action of a
 worker between two of them, so their interleavings are the program's.
 */
module OperationQueue {
  import opened Wrappers

  type Id = string
  type Target = string
  type Time = int

  datatype Status = Queued | Running | CancelRequested | Stopping | Succeeded | Failed | Canceled | AlreadyCommitted | Interrupted {
    predicate Terminal() { Succeeded? || Failed? || Canceled? || AlreadyCommitted? || Interrupted? }

    /** How far along: a status never goes back. */
    function Rank(): nat {
      match this
      case Queued => 0
      case Running => 1
      case CancelRequested => 2
      case Stopping => 3
      case _ => 4
    }
  }

  datatype Recon = NoRecon | Reconciling | Applied | NotApplied | NeedsManualCheck

  /** An idempotency key lives in the namespace of the principal that used it. */
  datatype Key = Key(principal: string, name: string)

  datatype Request = Request(hash: string, secrets: bool, supported: bool)

  datatype Operation = Operation(
    target: Target, status: Status, admissionSeq: nat, key: Key, request: Request,
    createdAt: Time, recon: Recon, retryOf: Option<Id>)

  datatype Point =
    | Popped | WaitingForSlot | Slotted | Checked | Starting
    | Executing | Returned(ok: bool) | Halting | Resolving
    | Ending(status: Status, recon: Option<Recon>)
  {
    /** Before the executor is called. */
    predicate Early() { Popped? || WaitingForSlot? || Slotted? || Checked? || Starting? }
  }

  datatype Hold = Nothing | Held(id: Id, at: Point)

  /** A target's worker and the jobs it has still to take. */
  datatype Runner = Runner(queue: seq<Id>, hold: Hold)

  /** A bound of 0 is no bound; a window of 0 or less never ends. */
  datatype Config = Config(perTarget: nat, live: nat, perPrincipal: nat, window: Time)

  /** A record save: it may be refused and yet be visible on disk. */
  datatype Save = Save(landed: bool, visible: bool) {
    predicate Shows() { landed || visible }
  }

  datatype Start = Start(target: Target, admissionSeq: nat)

  datatype Admission = Admission(key: Key, id: Id, at: Time, hash: string)

  /**
   `mem`, `index`, `runners`, `signals`, `closed` and `seq` are the process; `disk` outlives it. The rest
   is history: every id ever used, the executor's invocations, and the cancellations acknowledged of
   operations still queued; and of this process the starts, the keyed admissions, the keys retention
   has touched, and the retries granted.
   */
  datatype Manager = Manager(
    up: bool, mem: map<Id, Operation>, disk: map<Id, Operation>, index: map<Key, Id>,
    runners: map<Target, Runner>, signals: set<Id>, closed: bool, lastSeq: nat, clock: Time,
    used: set<Id>, executed: seq<Id>, starts: seq<Start>,
    admissions: seq<Admission>, touched: set<Key>, granted: set<Id>, canceledEarly: set<Id>)
  {
    function Stored(id: Id, op: Operation, save: Save): Manager {
      if save.Shows() then this.(disk := disk[id := op]) else this
    }

    function At(t: Target, hold: Hold): Manager
      requires t in runners
    {
      this.(runners := runners[t := runners[t].(hold := hold)])
    }

    /** The worker of `t` holds `id` at a point. */
    predicate Holding(t: Target, id: Id) { t in runners && runners[t].hold.Held? && runners[t].hold.id == id }
  }

  // ---------------------------------------------------------------- admission

  predicate WithinWindow(c: Config, createdAt: Time, now: Time) { c.window <= 0 || now - createdAt <= c.window }

  datatype Lookup = Fresh | Replay(id: Id) | Conflict

  function Find(m: Manager, c: Config, key: Key, request: Request, now: Time): Lookup {
    if key.name == "" || key !in m.index || m.index[key] !in m.mem then Fresh
    else
      var id := m.index[key];
      if !WithinWindow(c, m.mem[id].createdAt, now) then Fresh
      else if m.mem[id].request.hash != request.hash then Conflict
      else Replay(id)
  }

  /** A lookup drops an entry whose operation is gone or expired. */
  function Looked(m: Manager, c: Config, key: Key, now: Time): Manager {
    if key.name != "" && key in m.index && (m.index[key] !in m.mem || !WithinWindow(c, m.mem[m.index[key]].createdAt, now))
    then m.(index := m.index - {key})
    else m
  }

  ghost function LiveAt(mem: map<Id, Operation>, t: Target): set<Id> {
    set id | id in mem && mem[id].target == t && !mem[id].status.Terminal()
  }

  ghost function Live(mem: map<Id, Operation>): set<Id> { set id | id in mem && !mem[id].status.Terminal() }

  ghost function LiveOf(mem: map<Id, Operation>, principal: string): set<Id> {
    set id | id in mem && mem[id].key.principal == principal && !mem[id].status.Terminal()
  }

  ghost predicate WithinBudgets(m: Manager, c: Config, t: Target, principal: string) {
    && (c.perTarget > 0 ==> |LiveAt(m.mem, t)| < c.perTarget)
    && (c.live > 0 ==> |Live(m.mem)| < c.live)
    && (c.perPrincipal > 0 && principal != "" ==> |LiveOf(m.mem, principal)| < c.perPrincipal)
  }

  function Enqueued(m: Manager, id: Id, t: Target): Manager {
    m.(runners := m.runners[t := if t in m.runners then m.runners[t].(queue := m.runners[t].queue + [id]) else Runner([id], Nothing)])
  }

  /** The queued record is the commit point: nothing is published before it has landed. */
  ghost predicate Admits(m: Manager, c: Config, t: Target, key: Key, request: Request, now: Time, journal: bool, save: Save) {
    !m.closed && Find(m, c, key, request, now).Fresh? && WithinBudgets(m, c, t, key.principal) && journal && save.landed
  }

  function NewOperation(m: Manager, t: Target, key: Key, request: Request, retryOf: Option<Id>, later: Time): Operation {
    Operation(t, Queued, m.lastSeq + 1, key, request, later, NoRecon, retryOf)
  }

  function Recorded(m: Manager, id: Id, op: Operation): Manager {
    m.(lastSeq := op.admissionSeq, used := m.used + {id}, clock := op.createdAt,
       mem := m.mem[id := op], disk := m.disk[id := op],
       index := if op.key.name != "" then m.index[op.key := id] else m.index,
       admissions := if op.key.name != "" then m.admissions + [Admission(op.key, id, op.createdAt, op.request.hash)] else m.admissions)
  }

  function Published(m: Manager, id: Id, op: Operation): Manager {
    Enqueued(Recorded(m, id, op), id, op.target)
  }

  /** An enqueue that admits nothing: refused, answered by a replay, or its journal or record not written. */
  ghost function Refused(m: Manager, c: Config, id: Id, op: Operation, key: Key, request: Request, now: Time, journal: bool, save: Save): Manager {
    if m.closed then m
    else if !Find(m, c, key, request, now).Fresh? then m.(clock := now)
    else
      var l := Looked(m, c, key, now);
      if !WithinBudgets(m, c, op.target, key.principal) then l.(clock := now)
      else
        l.(lastSeq := l.lastSeq + 1, used := l.used + {id}, clock := op.createdAt,
           disk := if journal && save.Shows() then l.disk[id := op] else l.disk)
  }

  /** What an enqueue comes to after its command is built: `now` is read for the lookup, `later` for the record. */
  ghost function Admitted(m: Manager, c: Config, id: Id, t: Target, key: Key, request: Request, retryOf: Option<Id>,
                          now: Time, later: Time, journal: bool, save: Save): Manager
  {
    var op := NewOperation(m, t, key, request, retryOf, later);
    if Admits(m, c, t, key, request, now, journal, save) then Published(Looked(m, c, key, now), id, op)
    else Refused(m, c, id, op, key, request, now, journal, save)
  }

  /** Neither done nor standing already, nor possibly standing: its outcome must be known first. */
  predicate Retryable(op: Operation) {
    && op.status.Terminal() && !op.status.Succeeded? && !op.status.AlreadyCommitted?
    && !op.request.secrets && op.request.supported
    && !(op.status.Interrupted? && op.recon.Reconciling?)
  }

  // ---------------------------------------------------------------- the worker

  function Taken(m: Manager, t: Target): Manager
    requires t in m.runners
  {
    var r := m.runners[t];
    if r.queue == [] then m.(runners := m.runners - {t})
    else m.(runners := m.runners[t := Runner(r.queue[1..], Held(r.queue[0], Popped))])
  }

  /** Popped: a cancellation that landed in the queue resolves here. Waiting: the signal ends the wait. */
  function Minded(m: Manager, t: Target): Manager
    requires t in m.runners && m.runners[t].hold.Held?
  {
    var id := m.runners[t].hold.id;
    m.At(t, Held(id, if id in m.signals then Ending(Canceled, None) else WaitingForSlot))
  }

  function TargetChecked(m: Manager, t: Target, same: bool): Manager
    requires t in m.runners && m.runners[t].hold.Held?
  {
    var id := m.runners[t].hold.id;
    if id !in m.mem then m.At(t, Nothing)
    else m.At(t, Held(id, if same then Checked else Ending(Failed, None)))
  }

  /** The status becomes running unless a cancellation was written first; then the save decides. */
  function SetRunning(m: Manager, t: Target, save: Save): Manager
    requires t in m.runners && m.runners[t].hold.Held?
  {
    var id := m.runners[t].hold.id;
    if id !in m.mem then m.At(t, Held(id, Starting))
    else if m.mem[id].status.CancelRequested? then m.At(t, Held(id, Ending(Canceled, None)))
    else if !m.mem[id].status.Queued? then m.At(t, Held(id, Starting))
    else
      var op := m.mem[id].(status := Running);
      m.(mem := m.mem[id := op]).Stored(id, op, save)
       .At(t, Held(id, if save.landed then Starting else Ending(Failed, None)))
  }

  function Invoked(m: Manager, t: Target): Manager
    requires t in m.runners && m.runners[t].hold.Held?
  {
    var id := m.runners[t].hold.id;
    m.(executed := m.executed + [id],
       starts := if id in m.mem then m.starts + [Start(t, m.mem[id].admissionSeq)] else m.starts).At(t, Held(id, Executing))
  }

  function Judged(m: Manager, t: Target): Manager
    requires t in m.runners && m.runners[t].hold.Held? && m.runners[t].hold.at.Returned?
  {
    var id, ok := m.runners[t].hold.id, m.runners[t].hold.at.ok;
    m.At(t, Held(id, if id in m.signals then Halting else Ending(if ok then Succeeded else Failed, None)))
  }

  function BegunStopping(m: Manager, t: Target, save: Save): Manager
    requires t in m.runners && m.runners[t].hold.Held?
  {
    var id := m.runners[t].hold.id;
    if id !in m.mem || m.mem[id].status.Terminal() || m.mem[id].status.Stopping? then m.At(t, Nothing)
    else
      var op := m.mem[id].(status := Stopping);
      m.(mem := m.mem[id := op]).Stored(id, op, save).At(t, Held(id, Resolving))
  }

  /** The receipt's answer; none when it could not be read. */
  function Resolved(m: Manager, t: Target, receipt: Option<bool>): Manager
    requires t in m.runners && m.runners[t].hold.Held?
  {
    var id := m.runners[t].hold.id;
    m.At(t, Held(id,
      if receipt.None? then Ending(Canceled, Some(NeedsManualCheck))
      else if receipt.value then Ending(AlreadyCommitted, Some(Applied))
      else Ending(Canceled, Some(NotApplied))))
  }

  /** The terminal status is decided in memory whatever becomes of its save. */
  function Finished(m: Manager, t: Target, save: Save): Manager
    requires t in m.runners && m.runners[t].hold.Held? && m.runners[t].hold.at.Ending?
  {
    var id, at := m.runners[t].hold.id, m.runners[t].hold.at;
    if id !in m.mem || m.mem[id].status.Terminal() then m.At(t, Nothing)
    else
      var op := m.mem[id].(status := at.status, recon := if at.recon.Some? then at.recon.value else m.mem[id].recon);
      m.(mem := m.mem[id := op]).Stored(id, op, save).At(t, Nothing)
  }

  // ---------------------------------------------------------------- cancellation, reconciliation, retention

  predicate Cancelable(m: Manager, id: Id) { id in m.mem && !m.mem[id].status.Terminal() && !m.mem[id].status.Stopping? }

  function CancelWritten(m: Manager, id: Id, save: Save): Manager {
    if !Cancelable(m, id) then m
    else
      var op := m.mem[id].(status := CancelRequested);
      if !save.landed then m.Stored(id, op, save)
      else m.(mem := m.mem[id := op], disk := m.disk[id := op],
              canceledEarly := if m.mem[id].status.Queued? then m.canceledEarly + {id} else m.canceledEarly)
  }

  predicate Pending(op: Operation) { op.status.Interrupted? && op.recon.Reconciling? }

  function Reconciled(m: Manager, id: Id, receipt: Option<bool>, save: Save): Manager {
    if id !in m.mem || !Pending(m.mem[id]) then m
    else
      var op := m.mem[id].(recon := if receipt.None? then NeedsManualCheck else if receipt.value then Applied else NotApplied);
      if !save.landed then m.Stored(id, op, save)
      else m.(mem := m.mem[id := op], disk := m.disk[id := op])
  }

  function Removed(m: Manager, id: Id): Manager
    requires id in m.mem
  {
    var key := m.mem[id].key;
    m.(mem := m.mem - {id}, index := if key.name != "" then m.index - {key} else m.index, touched := m.touched + {key})
  }

  /** Of what the sweep removed from disk, the terminal operations leave memory, with the entry of their key. */
  function Forgotten(m: Manager, removed: seq<Id>): Manager {
    if removed == [] then m
    else
      var n := |removed| - 1;
      var f := Forgotten(m, removed[..n]);
      if removed[n] in f.mem && f.mem[removed[n]].status.Terminal() then Removed(f, removed[n]) else f
  }

  function Pruned(m: Manager, c: Config, now: Time): Manager {
    m.(index := map k | k in m.index && m.index[k] in m.mem && WithinWindow(c, m.mem[m.index[k]].createdAt, now) :: m.index[k])
  }

  // ---------------------------------------------------------------- crash and recovery

  /** Nothing unfinished is run again: what became of it is unknown, or it had been canceled. */
  function Recovered(op: Operation, reader: bool): Operation {
    match op.status
    case CancelRequested => op.(status := Canceled)
    case Queued => op.(status := Interrupted, recon := if reader then Reconciling else NeedsManualCheck)
    case Running => op.(status := Interrupted, recon := if reader then Reconciling else NeedsManualCheck)
    case Stopping => op.(status := Interrupted, recon := if reader then Reconciling else NeedsManualCheck)
    case _ => op
  }

  function Crashed(m: Manager): Manager {
    m.(up := false, mem := map[], index := map[], runners := map[], signals := {}, closed := false,
       starts := [], admissions := [], touched := {}, granted := {})
  }

  function RecoveredAll(disk: map<Id, Operation>, ids: set<Id>, reader: bool): map<Id, Operation> {
    map id | id in disk :: if id in ids then Recovered(disk[id], reader) else disk[id]
  }

  /** The index is rebuilt from records within the window; of several with one key, any is kept. */
  ghost predicate Indexes(index: map<Key, Id>, mem: map<Id, Operation>, c: Config, now: Time) {
    forall k <- index :: k.name != "" && index[k] in mem && mem[index[k]].key == k && WithinWindow(c, mem[index[k]].createdAt, now)
  }

  ghost predicate SeqCovers(n: nat, disk: map<Id, Operation>) { forall id <- disk :: disk[id].admissionSeq <= n }

  // ---------------------------------------------------------------- steps

  datatype Step =
    | Peek(key: Key, now: Time)
    | Admit(id: Id, t: Target, key: Key, request: Request, retryOf: Option<Id>, now: Time, later: Time, journal: bool, save: Save)
    | AllowRetry(id: Id)
    | Close
    | Take(t: Target)
    | Mind(t: Target)
    | GetSlot(t: Target)
    | CheckTarget(t: Target, same: bool)
    | Run(t: Target, save: Save)
    | Invoke(t: Target)
    | Return(t: Target, ok: bool)
    | Judge(t: Target)
    | BeginStop(t: Target, save: Save)
    | Resolve(t: Target, receipt: Option<bool>)
    | Finish(t: Target, save: Save)
    | Cancel(id: Id, save: Save)
    | Signal(id: Id)
    | Reconcile(id: Id, receipt: Option<bool>, save: Save)
    | Sweep(ids: set<Id>)
    | Forget(removed: seq<Id>, now: Time)
    | Crash
    | RecoverFails(ids: set<Id>, reader: bool)
    | Recover(reader: bool, index: map<Key, Id>, lastSeq: nat, now: Time)

  /** The worker of `t` holds a job. */
  predicate Working(m: Manager, t: Target) { m.up && t in m.runners && m.runners[t].hold.Held? }

  /** A retry was allowed, has no key, and repeats the operation's request at its target. */
  predicate Repeats(m: Manager, id: Id, t: Target, key: Key, request: Request) {
    id in m.granted && key.name == "" && (id in m.mem ==> t == m.mem[id].target && request == m.mem[id].request)
  }

  /** New ids are fresh, the clock does not go back, and a retry was allowed before it is admitted. */
  ghost predicate Enabled(m: Manager, c: Config, step: Step) {
    match step
    case Peek(_, now) => m.up && m.clock <= now
    case Admit(id, t, key, request, retryOf, now, later, _, _) =>
      && m.up && id !in m.used && m.clock <= now <= later
      && (retryOf.Some? ==> Repeats(m, retryOf.value, t, key, request))
    case AllowRetry(id) => m.up && id in m.mem && Retryable(m.mem[id])
    case Close => m.up
    case Take(t) => m.up && t in m.runners && m.runners[t].hold.Nothing?
    case Mind(t) =>
      && Working(m, t)
      && (m.runners[t].hold.at.Popped? || (m.runners[t].hold.at.WaitingForSlot? && m.runners[t].hold.id in m.signals))
    case GetSlot(t) => Working(m, t) && m.runners[t].hold.at.WaitingForSlot?
    case CheckTarget(t, _) => Working(m, t) && m.runners[t].hold.at.Slotted?
    case Run(t, _) => Working(m, t) && m.runners[t].hold.at.Checked?
    case Invoke(t) => Working(m, t) && m.runners[t].hold.at.Starting?
    case Return(t, _) => Working(m, t) && m.runners[t].hold.at.Executing?
    case Judge(t) => Working(m, t) && m.runners[t].hold.at.Returned?
    case BeginStop(t, _) => Working(m, t) && m.runners[t].hold.at.Halting?
    case Resolve(t, _) => Working(m, t) && m.runners[t].hold.at.Resolving?
    case Finish(t, _) => Working(m, t) && m.runners[t].hold.at.Ending?
    case Cancel(_, _) => m.up
    case Signal(_) => m.up
    case Reconcile(_, _, _) => m.up
    case Sweep(ids) => forall id <- ids :: id in m.disk && m.disk[id].status.Terminal()
    case Forget(removed, now) => m.up && m.clock <= now
    case Crash => true
    case RecoverFails(_, _) => !m.up
    case Recover(reader, index, n, now) =>
      && !m.up && m.clock <= now && SeqCovers(n, m.disk)
      && Indexes(index, RecoveredAll(m.disk, m.disk.Keys, reader), c, now)
  }

  ghost function Do(m: Manager, c: Config, step: Step): Manager
    requires Enabled(m, c, step)
  {
    match step
    case Peek(key, now) => Looked(m, c, key, now).(clock := now)
    case Admit(id, t, key, request, retryOf, now, later, journal, save) =>
      Admitted(m, c, id, t, key, request, retryOf, now, later, journal, save)
    case AllowRetry(id) => m.(granted := m.granted + {id})
    case Close => m.(closed := true)
    case Take(t) => Taken(m, t)
    case Mind(t) => Minded(m, t)
    case GetSlot(t) => m.At(t, Held(m.runners[t].hold.id, Slotted))
    case CheckTarget(t, same) => TargetChecked(m, t, same)
    case Run(t, save) => SetRunning(m, t, save)
    case Invoke(t) => Invoked(m, t)
    case Return(t, ok) => m.At(t, Held(m.runners[t].hold.id, Returned(ok)))
    case Judge(t) => Judged(m, t)
    case BeginStop(t, save) => BegunStopping(m, t, save)
    case Resolve(t, receipt) => Resolved(m, t, receipt)
    case Finish(t, save) => Finished(m, t, save)
    case Cancel(id, save) => CancelWritten(m, id, save)
    case Signal(id) => m.(signals := m.signals + {id})
    case Reconcile(id, receipt, save) => Reconciled(m, id, receipt, save)
    case Sweep(ids) => m.(disk := m.disk - ids)
    case Forget(removed, now) => Pruned(Forgotten(m, removed), c, now).(clock := now)
    case Crash => Crashed(m)
    case RecoverFails(ids, reader) => m.(disk := RecoveredAll(m.disk, ids, reader))
    case Recover(reader, index, n, now) =>
      var all := RecoveredAll(m.disk, m.disk.Keys, reader);
      m.(up := true, mem := all, disk := all, index := index, lastSeq := n, clock := now)
  }
}
