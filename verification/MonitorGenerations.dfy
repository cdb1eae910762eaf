/**
 Monitor schedulers and the generations that keep their late results out. A check or a ping takes time;
 meanwhile its monitor can be reloaded, disabled, removed or added again, and any of these moves the
 monitor's generation. What is committed is compared with the generation under the runner's lock.
 */
module MonitorGenerations {
  import opened Wrappers

  type Id = string
  type Token = string
  type Time = int

  datatype Monitor = Monitor(id: Id, push: bool, token: Token, revision: nat)

  datatype Outcome = Outcome(up: bool, at: Time)

  /** A monitor as it was registered, under the generation it was given. */
  datatype Entry = Entry(m: Monitor, generation: nat)

  /** What a start reads from the store before it takes the lock: newest check and newest passing one. */
  datatype Baseline = Baseline(newest: Option<Outcome>, lastUp: Option<Time>)

  datatype Observation = Observation(entry: Entry, outcome: Outcome)

  /**
   `tracked` are the rules the incident tracker holds anything for. The rest is history: the schedulers
   ever started and the pings that found a token, any of which may still be running; what is registered
   now; the monitors registered since they were last removed; and the observations, in order.
   */
  datatype Runner = Runner(
    stopped: bool, generations: map<Id, nat>, tokens: map<Token, Entry>,
    lastStat: map<Id, bool>, lastResult: map<Id, Outcome>, lastPing: map<Id, Time>, tracked: set<Id>,
    running: set<Entry>, registered: map<Id, Monitor>, known: set<Id>, observed: seq<Observation>)
  {
    function Generation(id: Id): nat { if id in generations then generations[id] else 0 }
  }

  const New := Runner(false, map[], map[], map[], map[], map[], {}, {}, map[], {}, [])

  // ---------------------------------------------------------------- steps

  datatype Step =
    | Stop
    | Teardown(id: Id)
    | Disable(id: Id)
    | Remove(id: Id)
    | Start(m: Monitor, read: Baseline, now: Time)
    | Commit(e: Entry, outcome: Outcome)
    | FindToken(token: Token)
    | StampPing(e: Entry, now: Time)

  function TornDown(r: Runner, id: Id): Runner {
    r.(generations := r.generations[id := r.Generation(id) + 1],
       tokens := map t | t in r.tokens && r.tokens[t].m.id != id :: r.tokens[t],
       registered := r.registered - {id})
  }

  /** What was read counts if nothing newer is known. */
  function NewestResult(results: map<Id, Outcome>, id: Id, newest: Option<Outcome>): map<Id, Outcome> {
    if newest.Some? && (id !in results || newest.value.at > results[id].at) then results[id := newest.value] else results
  }

  /** The first deadline counts from the newest passing check, or from now if none is known. */
  function FirstDeadline(pings: map<Id, Time>, id: Id, lastUp: Option<Time>, now: Time): map<Id, Time> {
    if lastUp.Some? && (id !in pings || pings[id] < lastUp.value) then pings[id := lastUp.value]
    else if id !in pings then pings[id := now]
    else pings
  }

  function Started(r: Runner, m: Monitor, read: Baseline, now: Time): Runner {
    if r.stopped then r
    else
      var t := TornDown(r, m.id);
      var e := Entry(m, t.Generation(m.id));
      t.(lastStat := if read.newest.Some? then t.lastStat[m.id := read.newest.value.up] else t.lastStat,
         lastResult := NewestResult(t.lastResult, m.id, read.newest),
         tracked := t.tracked + {m.id},
         lastPing := if m.push then FirstDeadline(t.lastPing, m.id, read.lastUp, now) else t.lastPing,
         tokens := if m.push && m.token != "" then t.tokens[m.token := e] else t.tokens,
         running := t.running + {e}, registered := t.registered[m.id := m], known := t.known + {m.id})
  }

  /** The last critical section of a check: nothing is written unless the generation is still the scheduler's. */
  function Committed(r: Runner, e: Entry, outcome: Outcome): Runner {
    if r.Generation(e.m.id) != e.generation then r
    else
      r.(lastStat := r.lastStat[e.m.id := outcome.up], lastResult := r.lastResult[e.m.id := outcome],
         tracked := r.tracked + {e.m.id}, observed := r.observed + [Observation(e, outcome)])
  }

  function PingStamped(r: Runner, e: Entry, now: Time): Runner {
    if r.Generation(e.m.id) == e.generation then r.(lastPing := r.lastPing[e.m.id := now]) else r
  }

  function Removed(r: Runner, id: Id): Runner {
    TornDown(r, id).(lastStat := r.lastStat - {id}, lastPing := r.lastPing - {id}, lastResult := r.lastResult - {id},
                     tracked := r.tracked - {id}, known := r.known - {id})
  }

  /** A commit or a stamp is some scheduler's, or some ping's, however late. */
  predicate Enabled(r: Runner, step: Step) {
    match step
    case Commit(e, _) => e in r.running
    case StampPing(e, _) => e in r.running
    case _ => true
  }

  function Do(r: Runner, step: Step): Runner {
    match step
    case Stop => r.(stopped := true)
    case Teardown(id) => TornDown(r, id)
    case Disable(id) => TornDown(r, id).(tracked := r.tracked - {id})
    case Remove(id) => Removed(r, id)
    case Start(m, read, now) => Started(r, m, read, now)
    case Commit(e, outcome) => Committed(r, e, outcome)
    case FindToken(token) => if token in r.tokens then r.(running := r.running + {r.tokens[token]}) else r
    case StampPing(e, now) => PingStamped(r, e, now)
  }

  // ---------------------------------------------------------------- what every step keeps

  /** Of the current generation there is one entry, and it is what is registered. */
  ghost predicate Current(r: Runner, e: Entry) {
    && e.generation <= r.Generation(e.m.id)
    && (e.generation == r.Generation(e.m.id) ==> e.m.id in r.registered && r.registered[e.m.id] == e.m)
  }

  /** Entries are of generations given out, and a token finds an entry of the current one. */
  ghost predicate EntriesOk(r: Runner) {
    && (forall e <- r.running :: Current(r, e) && e.generation > 0)
    && (forall t <- r.tokens ::
          Current(r, r.tokens[t]) && r.tokens[t].generation == r.Generation(r.tokens[t].m.id) && r.tokens[t].generation > 0)
  }

  /** Anything held is held of a monitor registered since it was last removed. */
  ghost predicate NothingLeft(r: Runner) {
    && r.registered.Keys <= r.known
    && r.lastStat.Keys <= r.known && r.lastResult.Keys <= r.known && r.lastPing.Keys <= r.known && r.tracked <= r.known
  }

  /** A monitor's observations come in the order of its generations, each of one configuration. */
  ghost predicate ObservedInOrder(r: Runner) {
    && (forall i | 0 <= i < |r.observed| :: Current(r, r.observed[i].entry))
    && (forall i, j | 0 <= i < j < |r.observed| && r.observed[i].entry.m.id == r.observed[j].entry.m.id ::
          r.observed[i].entry.generation < r.observed[j].entry.generation || r.observed[i].entry == r.observed[j].entry)
  }

  ghost predicate Inv(r: Runner) { EntriesOk(r) && NothingLeft(r) && ObservedInOrder(r) }

  lemma TornDownKeeps(r: Runner, id: Id)
    requires Inv(r)
    ensures Inv(TornDown(r, id))
    ensures forall t <- TornDown(r, id).tokens :: TornDown(r, id).tokens[t].m.id != id
  {
    forall e | Current(r, e) ensures Current(TornDown(r, id), e) {}
    hide Current;
  }

  /** A generation just begun is nobody's yet. */
  lemma RegisteredKeeps(t: Runner, m: Monitor, read: Baseline, now: Time, e: Entry)
    requires Inv(t) && e == Entry(m, t.Generation(m.id)) && e.generation > 0 && m.id !in t.registered
    requires forall k <- t.tokens :: t.tokens[k].m.id != m.id
    ensures Inv(t.(lastStat := if read.newest.Some? then t.lastStat[m.id := read.newest.value.up] else t.lastStat,
         lastResult := NewestResult(t.lastResult, m.id, read.newest),
         tracked := t.tracked + {m.id},
         lastPing := if m.push then FirstDeadline(t.lastPing, m.id, read.lastUp, now) else t.lastPing,
         tokens := if m.push && m.token != "" then t.tokens[m.token := e] else t.tokens,
         running := t.running + {e}, registered := t.registered[m.id := m], known := t.known + {m.id}))
  {
    forall x | Current(t, x) ensures Current(t.(registered := t.registered[m.id := m]), x) {}
    assert Current(t.(registered := t.registered[m.id := m]), e);
  }

  lemma StartKeeps(r: Runner, m: Monitor, read: Baseline, now: Time)
    requires Inv(r)
    ensures Inv(Started(r, m, read, now))
  {
    TornDownKeeps(r, m.id);
    var t := TornDown(r, m.id);
    assert m.id !in t.registered && t.Generation(m.id) > 0;
    hide Inv, TornDown;
    if !r.stopped {
      RegisteredKeeps(t, m, read, now, Entry(m, t.Generation(m.id)));
    }
  }

  lemma CommitKeeps(r: Runner, e: Entry, outcome: Outcome)
    requires Inv(r) && e in r.running
    ensures Inv(Committed(r, e, outcome))
  {
    assert Current(r, e);
    forall x | Current(r, x) ensures Current(Committed(r, e, outcome), x) {}
    assert forall i | 0 <= i < |r.observed| && r.observed[i].entry.m.id == e.m.id ::
      Current(r, r.observed[i].entry);
  }

  /** Generations, registrations and observations stay, entries are added only of tokens found. */
  ghost predicate SameGenerations(r: Runner, q: Runner) {
    q.generations == r.generations && q.registered == r.registered && q.observed == r.observed && q.known == r.known
  }

  lemma SameCurrent(r: Runner, q: Runner)
    requires SameGenerations(r, q)
    ensures forall e :: Current(q, e) <==> Current(r, e)
    ensures ObservedInOrder(r) ==> ObservedInOrder(q)
    ensures EntriesOk(r) && q.tokens == r.tokens && q.running == r.running ==> EntriesOk(q)
  {
    assert forall id :: q.Generation(id) == r.Generation(id);
    forall e ensures Current(q, e) <==> Current(r, e) {}
    hide Current;
  }

  lemma FindKeeps(r: Runner, token: Token)
    requires Inv(r)
    ensures Inv(Do(r, FindToken(token)))
  {
    var q := Do(r, FindToken(token));
    SameCurrent(r, q);
    hide Current;
  }

  lemma StampKeeps(r: Runner, e: Entry, now: Time)
    requires Inv(r) && e in r.running
    ensures Inv(PingStamped(r, e, now))
  {
    assert Current(r, e);
    SameCurrent(r, PingStamped(r, e, now));
    hide EntriesOk, ObservedInOrder;
  }

  lemma ForgetsTracked(t: Runner, id: Id)
    requires Inv(t)
    ensures Inv(t.(tracked := t.tracked - {id})) && Inv(t.(stopped := true))
  {
    SameCurrent(t, t.(tracked := t.tracked - {id}));
    SameCurrent(t, t.(stopped := true));
    hide EntriesOk, ObservedInOrder, Current;
  }

  lemma InvKept(r: Runner, step: Step)
    requires Inv(r) && Enabled(r, step)
    ensures Inv(Do(r, step))
  {
    hide Inv;
    match step
    case Stop => ForgetsTracked(r, "");
    case Start(m, read, now) => StartKeeps(r, m, read, now);
    case Commit(e, outcome) => CommitKeeps(r, e, outcome);
    case Teardown(id) => TornDownKeeps(r, id);
    case Disable(id) => TornDownKeeps(r, id); ForgetsTracked(TornDown(r, id), id);
    case Remove(id) => TornDownKeeps(r, id); RemovedKeeps(TornDown(r, id), id);
    case FindToken(token) => FindKeeps(r, token);
    case StampPing(e, now) => StampKeeps(r, e, now);
  }

  lemma RemovedKeeps(t: Runner, id: Id)
    requires Inv(t) && id !in t.registered
    ensures Inv(t.(lastStat := t.lastStat - {id}, lastPing := t.lastPing - {id}, lastResult := t.lastResult - {id},
                   tracked := t.tracked - {id}, known := t.known - {id}))
  {
    var q := t.(lastStat := t.lastStat - {id}, lastPing := t.lastPing - {id}, lastResult := t.lastResult - {id},
                tracked := t.tracked - {id}, known := t.known - {id});
    forall x | Current(t, x) ensures Current(q, x) {}
    hide Current;
  }
}
