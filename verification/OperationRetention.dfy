/**
 Where one operation per key and window ends: retention drops a key's entry without looking at which
 operation it names. When that costs a newer operation its answer, and a run in which it does.
 */
module OperationRetention {
  import opened Wrappers
  import opened OperationQueue
  import opened OperationSafety
  import opened OperationStarts
  import opened OperationCancel
  import opened OperationOrder
  import opened OperationAdmission

  /** A plain enqueue at one moment, its record landing at once. */
  function Enqueue(id: Id, t: Target, key: Key, request: Request, at: Time): Step {
    Admit(id, t, key, request, None, at, at, true, Save(true, true))
  }

  ghost predicate Room(m: Manager, c: Config, id: Id, t: Target, key: Key, at: Time) {
    m.up && !m.closed && id !in m.used && m.clock <= at && WithinBudgets(m, c, t, key.principal)
  }

  lemma FreshIsAdmitted(m: Manager, c: Config, id: Id, t: Target, key: Key, request: Request, at: Time)
    requires Room(m, c, id, t, key, at) && Find(m, c, key, request, at).Fresh?
    ensures Enabled(m, c, Enqueue(id, t, key, request, at))
    ensures Do(m, c, Enqueue(id, t, key, request, at))
         == Published(Looked(m, c, key, at), id, NewOperation(m, t, key, request, None, at))
  {
    hide WithinBudgets, Find, Looked, Published;
  }

  // ---------------------------------------------------------------- exactly when

  /** The key's index entry names a newer operation than `id`, still within its window. */
  ghost predicate NamesNewer(m: Manager, c: Config, id: Id, at: Time)
    requires id in m.mem
  {
    var key := m.mem[id].key;
    && key in m.index && m.index[key] in m.mem
    && m.mem[id].admissionSeq < m.mem[m.index[key]].admissionSeq
    && WithinWindow(c, m.mem[m.index[key]].createdAt, at)
  }

  /**
   `newer` was admitted under the key of `id` after it and answers for the key; once retention has
   forgotten `id`, an enqueue is admitted next to it within its window.
   */
  ghost predicate Doubled(m: Manager, c: Config, id: Id, newer: Id, newId: Id, end: Manager, at: Time)
    requires id in m.mem
  {
    var key := m.mem[id].key;
    && newer in m.mem && m.mem[newer].key == key && m.mem[id].admissionSeq < m.mem[newer].admissionSeq
    && Find(m, c, key, m.mem[newer].request, at) == Replay(newer)
    && newer in end.mem && end.mem[newer] == m.mem[newer]
    && newId in end.mem && newId != newer && end.mem[newId].key == key
    && WithinWindow(c, end.mem[newer].createdAt, end.mem[newId].createdAt)
  }

  lemma ForgottenOne(m: Manager, id: Id)
    requires id in m.mem && m.mem[id].status.Terminal()
    ensures Forgotten(m, [id]) == Removed(m, id)
  {
    assert [id][..0] == [];
    assert Forgotten(m, [id][..0]) == m;
  }

  lemma RemovedLeavesRoom(m: Manager, c: Config, id: Id, t: Target, principal: string)
    requires id in m.mem && m.mem[id].status.Terminal() && WithinBudgets(m, c, t, principal)
    ensures WithinBudgets(Removed(m, id), c, t, principal)
  {
    assert LiveAt(Removed(m, id).mem, t) == LiveAt(m.mem, t);
    assert Live(Removed(m, id).mem) == Live(m.mem);
    assert LiveOf(Removed(m, id).mem, principal) == LiveOf(m.mem, principal);
  }

  /** After its key's entry is gone, the key looks fresh and everything else in memory stands. */
  lemma ForgetOne(m: Manager, c: Config, id: Id, now: Time)
    requires m.up && m.clock <= now && id in m.mem && m.mem[id].status.Terminal() && m.mem[id].key.name != ""
    ensures Enabled(m, c, Forget([id], now))
    ensures var m1 := Do(m, c, Forget([id], now));
      && m1 == Removed(m, id).(index := m1.index, clock := now) && m.mem[id].key !in m1.index
  {
    ForgottenOne(m, id);
    hide WithinWindow;
  }

  /** Retention of `id`, then an enqueue under its key. */
  lemma ForgetThenEnqueue(m: Manager, c: Config, id: Id, newId: Id, t: Target, request: Request, now: Time, at: Time)
    requires m.up && id in m.mem && m.mem[id].status.Terminal() && m.mem[id].key.name != ""
    requires m.clock <= now <= at && Room(m, c, newId, t, m.mem[id].key, at)
    ensures var steps := [Forget([id], now), Enqueue(newId, t, m.mem[id].key, request, at)];
      Runs(m, c, steps) && After(m, c, steps).mem == (m.mem - {id})[newId := NewOperation(m, t, m.mem[id].key, request, None, at)]
  {
    var key := m.mem[id].key;
    var forget, enqueue := Forget([id], now), Enqueue(newId, t, key, request, at);
    ForgetOne(m, c, id, now);
    var m1 := Do(m, c, forget);
    RemovedLeavesRoom(m, c, id, t, key.principal);
    assert WithinBudgets(m1, c, t, key.principal);
    assert Find(m1, c, key, request, at).Fresh?;
    FreshIsAdmitted(m1, c, newId, t, key, request, at);
    LookedLeaves(m1, c, key, at);
    assert Do(m1, c, enqueue).mem == m1.mem[newId := NewOperation(m1, t, key, request, None, at)];
    hide Do, Enabled, WithinBudgets, Find, Looked, Forgotten, Removed;
    NoFurther(Do(m1, c, enqueue), c);
    Leads(m1, c, enqueue, []);
    Leads(m, c, forget, [enqueue]);
    assert [enqueue] + [] == [enqueue] && [forget] + [enqueue] == [forget, enqueue];
  }

  /**
   After any run: forgetting a finished operation makes the next enqueue under its key a second one
   within the window of another, newer operation, which had been answering for the key, exactly when
   the key's entry names such an operation.
   */
  lemma RetentionLosesNewerExactlyWhen(first: Manager, c: Config, steps: seq<Step>, id: Id, newId: Id, t: Target, request: Request, now: Time, at: Time)
    requires FirstStart(first) && Runs(first, c, steps)
    requires var m := After(first, c, steps);
      && id in m.mem && m.mem[id].status.Terminal() && m.mem[id].key.name != ""
      && m.clock <= now <= at && Room(m, c, newId, t, m.mem[id].key, at)
    ensures var m := After(first, c, steps);
      var further := [Forget([id], now), Enqueue(newId, t, m.mem[id].key, request, at)];
      && Runs(m, c, further)
      && ((exists newer :: Doubled(m, c, id, newer, newId, After(m, c, further), at)) <==> NamesNewer(m, c, id, at))
  {
    FreshIsGood(first, c);
    GoodThroughout(first, c, steps);
    var m := After(first, c, steps);
    assert IdsOk(m) && IndexOk(m) by { hide After, Runs, Budgeted, StartsOk, CancelInv, GrantsOk, RunnersOk, Owned, Stands, Spaced; }
    hide Runs, After, FirstStart, Good;
    ForgetThenEnqueue(m, c, id, newId, t, request, now, at);
    LosesExactlyWhen(m, c, id, newId, t, request, now, at);
  }

  lemma LosesExactlyWhen(m: Manager, c: Config, id: Id, newId: Id, t: Target, request: Request, now: Time, at: Time)
    requires IdsOk(m) && IndexOk(m) && m.up && id in m.mem && m.mem[id].status.Terminal() && m.mem[id].key.name != ""
    requires m.clock <= now <= at && Room(m, c, newId, t, m.mem[id].key, at)
    requires Runs(m, c, [Forget([id], now), Enqueue(newId, t, m.mem[id].key, request, at)])
    ensures var end := After(m, c, [Forget([id], now), Enqueue(newId, t, m.mem[id].key, request, at)]);
      (exists newer :: Doubled(m, c, id, newer, newId, end, at)) <==> NamesNewer(m, c, id, at)
  {
    var key := m.mem[id].key;
    ForgetThenEnqueue(m, c, id, newId, t, request, now, at);
    var end := After(m, c, [Forget([id], now), Enqueue(newId, t, key, request, at)]);
    hide Runs, After, WithinBudgets;
    if NamesNewer(m, c, id, at) {
      var newer := m.index[key];
      assert newer != id && newer != newId;
      assert Doubled(m, c, id, newer, newId, end, at);
    }
    forall newer | Doubled(m, c, id, newer, newId, end, at) ensures NamesNewer(m, c, id, at) {
      assert m.index[key] == newer;
    }
  }

  // ---------------------------------------------------------------- a run in which it happens

  const Window10: Config := Config(0, 0, 0, 10)
  const Ok: Save := Save(true, true)

  /** Down, with nothing on disk. */
  const Off: Manager := Manager(false, map[], map[], map[], map[], {}, false, 0, 0, {}, [], [], [], {}, {}, {})

  function Opening(t: Target, key: Key, request: Request): seq<Step> {
    [Recover(false, map[], 0, 0), Enqueue("1", t, key, request, 0)]
  }

  const Canceling: seq<Step> := [Cancel("1", Ok), Signal("1")]

  function Ending(t: Target): seq<Step> { [Take(t), Mind(t), Finish(t, Ok)] }

  /** The first operation's window has passed when the second is admitted; the second's has not when the third is. */
  function Again(t: Target, key: Key, request: Request): seq<Step> { [Enqueue("2", t, key, request, 20), Sweep({"1"})] }

  function Thrice(t: Target, key: Key, request: Request): seq<Step> { [Forget(["1"], 21), Enqueue("3", t, key, request, 22)] }

  function Whole(t: Target, key: Key, request: Request): seq<Step> {
    Opening(t, key, request) + Canceling + Ending(t) + Again(t, key, request) + Thrice(t, key, request)
  }

  function Made(t: Target, key: Key, request: Request, status: Status, n: nat, at: Time): Operation {
    Operation(t, status, n, key, request, at, NoRecon, None)
  }

  function Admissions(key: Key, request: Request): seq<Admission> {
    [Admission(key, "1", 0, request.hash), Admission(key, "2", 20, request.hash), Admission(key, "3", 22, request.hash)]
  }

  /** The first operation is in memory and on disk. */
  predicate HasFirst(m: Manager, t: Target, key: Key, request: Request, status: Status) {
    && m.up && !m.closed && m.used == {"1"} && m.clock == 0 && m.lastSeq == 1
    && "1" in m.mem && m.mem["1"] == Made(t, key, request, status, 1, 0) && "1" in m.disk && m.disk["1"] == m.mem["1"]
    && m.index == map[key := "1"] && m.admissions == Admissions(key, request)[..1]
  }

  predicate HasWorker(m: Manager, t: Target, runner: Runner) { t in m.runners && m.runners[t] == runner }

  predicate HasSecond(m: Manager, t: Target, key: Key, request: Request) {
    && m.up && !m.closed && m.used == {"1", "2"} && m.clock == 20 && m.lastSeq == 2
    && "1" in m.mem && m.mem["1"] == Made(t, key, request, Canceled, 1, 0)
    && "2" in m.mem && m.mem["2"] == Made(t, key, request, Queued, 2, 20)
    && m.admissions == Admissions(key, request)[..2]
  }

  lemma Opens(t: Target, key: Key, request: Request)
    requires key.name != ""
    ensures Runs(Off, Window10, Opening(t, key, request))
    ensures var m := After(Off, Window10, Opening(t, key, request));
      HasFirst(m, t, key, request, Queued) && HasWorker(m, t, Runner(["1"], Hold.Nothing))
  {
    var r, e := Recover(false, map[], 0, 0), Enqueue("1", t, key, request, 0);
    var m := Do(Off, Window10, r);
    assert m == Off.(up := true);
    FreshIsAdmitted(m, Window10, "1", t, key, request, 0);
    hide Do, Enabled, WithinBudgets, Enqueue, Runs, After;
    assert Looked(m, Window10, key, 0) == m;
    Two(Off, Window10, r, e);
  }

  lemma Cancels(m: Manager, t: Target, key: Key, request: Request)
    requires HasFirst(m, t, key, request, Queued) && HasWorker(m, t, Runner(["1"], Hold.Nothing))
    ensures Runs(m, Window10, Canceling)
    ensures var m' := After(m, Window10, Canceling);
      HasFirst(m', t, key, request, CancelRequested) && HasWorker(m', t, Runner(["1"], Hold.Nothing)) && "1" in m'.signals
  {
    var a, b := Canceling[0], Canceling[1];
    assert HasFirst(Do(m, Window10, a), t, key, request, CancelRequested);
    hide Runs, After;
    Two(m, Window10, a, b);
  }

  /** Waiting at a point, alone with its worker. */
  predicate HeldAt(m: Manager, t: Target, point: Point) { HasWorker(m, t, Runner([], Held("1", point))) }

  lemma TakesAndMinds(m: Manager, t: Target)
    requires m.up && HasWorker(m, t, Runner(["1"], Hold.Nothing)) && "1" in m.signals
    ensures Enabled(m, Window10, Take(t))
    ensures Enabled(Do(m, Window10, Take(t)), Window10, Mind(t))
    ensures var m' := Do(Do(m, Window10, Take(t)), Window10, Mind(t));
      HeldAt(m', t, Point.Ending(Canceled, None)) && m' == m.(runners := m'.runners)
  {
    var m1 := Do(m, Window10, Take(t));
    assert m1 == m.(runners := m1.runners) && HeldAt(m1, t, Popped);
  }

  lemma EndsCanceled(m: Manager, t: Target, key: Key, request: Request)
    requires HasFirst(m, t, key, request, CancelRequested) && HeldAt(m, t, Point.Ending(Canceled, None))
    ensures Enabled(m, Window10, Finish(t, Ok)) && HasFirst(Do(m, Window10, Finish(t, Ok)), t, key, request, Canceled)
  {}

  lemma Ends(m: Manager, t: Target, key: Key, request: Request)
    requires HasFirst(m, t, key, request, CancelRequested) && HasWorker(m, t, Runner(["1"], Hold.Nothing)) && "1" in m.signals
    ensures Runs(m, Window10, Ending(t)) && HasFirst(After(m, Window10, Ending(t)), t, key, request, Canceled)
  {
    TakesAndMinds(m, t);
    hide Do, Enabled, Runs, After;
    var m1 := Do(m, Window10, Take(t));
    var m2 := Do(m1, Window10, Mind(t));
    EndsCanceled(m2, t, key, request);
    hide HasFirst;
    Two(m1, Window10, Mind(t), Finish(t, Ok));
    Leads(m, Window10, Take(t), [Mind(t), Finish(t, Ok)]);
    assert [Take(t)] + [Mind(t), Finish(t, Ok)] == Ending(t);
  }

  lemma AdmitsAgain(m: Manager, t: Target, key: Key, request: Request)
    requires HasFirst(m, t, key, request, Canceled) && key.name != ""
    ensures Runs(m, Window10, Again(t, key, request)) && HasSecond(After(m, Window10, Again(t, key, request)), t, key, request)
  {
    var e := Enqueue("2", t, key, request, 20);
    assert Find(m, Window10, key, request, 20).Fresh?;
    FreshIsAdmitted(m, Window10, "2", t, key, request, 20);
    LookedLeaves(m, Window10, key, 20);
    var m1 := Do(m, Window10, e);
    hide Enqueue, Looked, Find, WithinBudgets, Runs, After;
    assert m1.disk["1"] == m.disk["1"];
    assert HasSecond(m1, t, key, request);
    Two(m, Window10, e, Sweep({"1"}));
  }

  lemma AdmitsWithinWindow(m: Manager, t: Target, key: Key, request: Request)
    requires HasSecond(m, t, key, request) && key.name != ""
    ensures Runs(m, Window10, Thrice(t, key, request))
    ensures var end := After(m, Window10, Thrice(t, key, request));
      && end.admissions == Admissions(key, request)
      && "2" in end.mem && !end.mem["2"].status.Terminal() && "3" in end.mem && !end.mem["3"].status.Terminal()
  {
    var c, f, e := Window10, Forget(["1"], 21), Enqueue("3", t, key, request, 22);
    ForgetOne(m, c, "1", 21);
    var m1 := Do(m, c, f);
    hide Runs, After, Forgotten, Pruned;
    assert Find(m1, c, key, request, 22).Fresh?;
    FreshIsAdmitted(m1, c, "3", t, key, request, 22);
    LookedLeaves(m1, c, key, 22);
    hide Do, Enabled, Looked, Find, WithinBudgets;
    Two(m, c, f, e);
  }

  /**
   From an empty disk: two unfinished operations for one request under one key, admitted 2 apart where
   the window is 10, because an expired operation with that key was forgotten between them.
   */
  lemma TwiceInOneWindow(t: Target, key: Key, request: Request)
    requires key.name != ""
    ensures FirstStart(Off) && Runs(Off, Window10, Whole(t, key, request))
    ensures var end := After(Off, Window10, Whole(t, key, request));
      && end.admissions == Admissions(key, request)
      && "2" in end.mem && !end.mem["2"].status.Terminal() && "3" in end.mem && !end.mem["3"].status.Terminal()
  {
    var a, b, c, d, e := Opening(t, key, request), Canceling, Ending(t), Again(t, key, request), Thrice(t, key, request);
    assert FirstStart(Off);
    assert Whole(t, key, request) == a + b + c + d + e;
    hide *;
    Opens(t, key, request);
    Cancels(After(Off, Window10, a), t, key, request);
    Joins(Off, Window10, a, b);
    Ends(After(Off, Window10, a + b), t, key, request);
    Joins(Off, Window10, a + b, c);
    AdmitsAgain(After(Off, Window10, a + b + c), t, key, request);
    Joins(Off, Window10, a + b + c, d);
    AdmitsWithinWindow(After(Off, Window10, a + b + c + d), t, key, request);
    Joins(Off, Window10, a + b + c + d, e);
  }
}
