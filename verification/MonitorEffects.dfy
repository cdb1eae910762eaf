/**
 What each critical section of the monitor runner writes, and how long it stands: a committed result is the
 monitor's status until the next one, a start or a removal; a start never puts an older result over a newer
 one, or moves a deadline back.
 */
module MonitorEffects {
  import opened Wrappers
  import opened MonitorGenerations
  import opened MonitorSafety

  /** Everything held of other monitors is as it was. */
  ghost predicate OthersAsWere(r: Runner, r': Runner, id: Id) {
    && (forall x | x != id :: (x in r'.lastStat <==> x in r.lastStat) && (x in r'.lastResult <==> x in r.lastResult))
    && (forall x | x != id :: (x in r'.lastPing <==> x in r.lastPing) && (x in r'.tracked <==> x in r.tracked))
    && (forall x | x != id :: r'.Generation(x) == r.Generation(x))
    && (forall x <- r.lastStat | x != id :: r'.lastStat[x] == r.lastStat[x])
    && (forall x <- r.lastResult | x != id :: r'.lastResult[x] == r.lastResult[x])
    && (forall x <- r.lastPing | x != id :: r'.lastPing[x] == r.lastPing[x])
  }

  /** A result is published whole exactly if its generation is the monitor's still, and fed to the tracker. */
  lemma CommitPublishes(r: Runner, e: Entry, outcome: Outcome)
    ensures var r', id := Do(r, Commit(e, outcome)), e.m.id;
      if r.Generation(id) == e.generation then
        && OthersAsWere(r, r', id) && r'.Generation(id) == r.Generation(id)
        && id in r'.lastStat && r'.lastStat[id] == outcome.up && id in r'.lastResult && r'.lastResult[id] == outcome
        && id in r'.tracked && r'.observed == r.observed + [Observation(e, outcome)]
        && r'.lastPing == r.lastPing && r'.tokens == r.tokens && r'.registered == r.registered
      else r' == r
  {}

  /** A ping moves the deadline exactly if its generation is the monitor's still. */
  lemma StampMovesDeadline(r: Runner, e: Entry, now: Time)
    ensures var r', id := Do(r, StampPing(e, now)), e.m.id;
      if r.Generation(id) == e.generation
      then OthersAsWere(r, r', id) && id in r'.lastPing && r'.lastPing[id] == now && r' == r.(lastPing := r'.lastPing)
      else r' == r
  {}

  /** A start begins the next generation, registers the monitor under it, and takes its token over. */
  lemma StartRegisters(r: Runner, m: Monitor, read: Baseline, now: Time)
    requires !r.stopped
    ensures var r', id := Do(r, Start(m, read, now)), m.id;
      && OthersAsWere(r, r', id) && r'.Generation(id) == r.Generation(id) + 1
      && Entry(m, r'.Generation(id)) in r'.running && id in r'.registered && r'.registered[id] == m && id in r'.tracked
      && (forall t :: t in r'.tokens <==> (m.push && t != "" && t == m.token) || (t in r.tokens && r.tokens[t].m.id != id))
      && (m.push && m.token != "" ==> r'.tokens[m.token] == Entry(m, r'.Generation(id)))
  {
    hide NewestResult, FirstDeadline;
    ResultsElsewhere(r.lastResult, m.id, read.newest);
    DeadlinesElsewhere(r.lastPing, m.id, read.lastUp, now);
  }

  lemma ResultsElsewhere(results: map<Id, Outcome>, id: Id, newest: Option<Outcome>)
    ensures forall x | x != id :: (x in NewestResult(results, id, newest) <==> x in results)
                               && (x in results ==> NewestResult(results, id, newest)[x] == results[x])
  {}

  lemma DeadlinesElsewhere(pings: map<Id, Time>, id: Id, lastUp: Option<Time>, now: Time)
    ensures forall x | x != id :: (x in FirstDeadline(pings, id, lastUp, now) <==> x in pings)
                               && (x in pings ==> FirstDeadline(pings, id, lastUp, now)[x] == pings[x])
  {}

  /** Its status is the newest check read; of the result known and the one read, the newer is kept. */
  lemma StartKeepsNewest(r: Runner, m: Monitor, read: Baseline, now: Time)
    requires !r.stopped
    ensures var r', id := Do(r, Start(m, read, now)), m.id;
      if read.newest.None? then r'.lastStat == r.lastStat && r'.lastResult == r.lastResult
      else
        var newest := read.newest.value;
        && r'.lastStat == r.lastStat[id := newest.up] && id in r'.lastResult
        && (if id !in r.lastResult || r.lastResult[id].at < newest.at then r'.lastResult[id] == newest
            else r'.lastResult[id] == r.lastResult[id])
  {
    hide FirstDeadline;
  }

  /** A push monitor's deadline counts from its newest passing check or ping, or from now if there is none. */
  lemma StartSetsDeadline(r: Runner, m: Monitor, read: Baseline, now: Time)
    requires !r.stopped
    ensures var r', id := Do(r, Start(m, read, now)), m.id;
      && (!m.push ==> r'.lastPing == r.lastPing)
      && (m.push && id in r'.lastPing ==>
            var from := r'.lastPing[id];
            && (id in r.lastPing ==> from >= r.lastPing[id]) && (read.lastUp.Some? ==> from >= read.lastUp.value)
            && (Some(from) == read.lastUp || (id in r.lastPing && from == r.lastPing[id])
                || (id !in r.lastPing && read.lastUp.None? && from == now)))
      && (m.push ==> id in r'.lastPing)
  {
    hide NewestResult;
  }

  /** A stop, a disabling or a removal takes the monitor's own tokens and registration, and begins a generation. */
  lemma TeardownTakesItsOwn(r: Runner, step: Step, id: Id)
    requires step == Teardown(id) || step == Disable(id) || step == Remove(id)
    ensures var r' := Do(r, step);
      && OthersAsWere(r, r', id) && r'.Generation(id) == r.Generation(id) + 1
      && (forall t :: t in r'.tokens <==> t in r.tokens && r.tokens[t].m.id != id) && (forall t <- r'.tokens :: r'.tokens[t] == r.tokens[t])
      && r'.registered == r.registered - {id} && r'.running == r.running && r'.observed == r.observed
      && (id in r'.tracked <==> step.Teardown? && id in r.tracked)
      && (if step.Remove? then id !in r'.lastStat && id !in r'.lastResult && id !in r'.lastPing
          else r'.lastStat == r.lastStat && r'.lastResult == r.lastResult && r'.lastPing == r.lastPing)
  {}

  /** Once stopped, nothing starts. */
  lemma StoppedStartsNothing(r: Runner, m: Monitor, read: Baseline, now: Time)
    requires r.stopped
    ensures Do(r, Start(m, read, now)) == r
  {}

  /** Something else is said of the monitor, or it is started or removed. */
  predicate Speaks(step: Step, id: Id) {
    (step.Commit? && step.e.m.id == id) || (step.Start? && step.m.id == id) || (step.Remove? && step.id == id)
  }

  /** Its status and result stand whatever else happens, until something speaks of the monitor again. */
  lemma {:induction false} StatusStands(r: Runner, steps: seq<Step>, id: Id)
    requires Runs(r, steps) && forall i | 0 <= i < |steps| :: !Speaks(steps[i], id)
    ensures var end := After(r, steps);
      && (id in end.lastStat <==> id in r.lastStat) && (id in r.lastStat ==> end.lastStat[id] == r.lastStat[id])
      && (id in end.lastResult <==> id in r.lastResult) && (id in r.lastResult ==> end.lastResult[id] == r.lastResult[id])
    decreases |steps|
  {
    if steps != [] {
      SaysNothing(r, steps[0], id);
      hide Do, Enabled;
      StatusStands(Do(r, steps[0]), steps[1..], id);
    }
  }

  lemma SaysNothing(r: Runner, step: Step, id: Id)
    requires !Speaks(step, id)
    ensures var r' := Do(r, step);
      && (id in r'.lastStat <==> id in r.lastStat) && (id in r.lastStat ==> r'.lastStat[id] == r.lastStat[id])
      && (id in r'.lastResult <==> id in r.lastResult) && (id in r.lastResult ==> r'.lastResult[id] == r.lastResult[id])
  {}

  /** So the status of a monitor is what its last current check said, over any run until the next word of it. */
  lemma LastResultStands(r: Runner, e: Entry, outcome: Outcome, steps: seq<Step>)
    requires r.Generation(e.m.id) == e.generation && Runs(Do(r, Commit(e, outcome)), steps)
    requires forall i | 0 <= i < |steps| :: !Speaks(steps[i], e.m.id)
    ensures var end := After(Do(r, Commit(e, outcome)), steps);
      && e.m.id in end.lastStat && end.lastStat[e.m.id] == outcome.up
      && e.m.id in end.lastResult && end.lastResult[e.m.id] == outcome
  {
    CommitPublishes(r, e, outcome);
    hide Do;
    StatusStands(Do(r, Commit(e, outcome)), steps, e.m.id);
  }
}
