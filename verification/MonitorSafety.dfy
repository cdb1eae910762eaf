/**
 No stale monitor result, over whole runs of starts, reloads, removals, checks and pings.
 */
module MonitorSafety {
  import opened MonitorGenerations

  ghost predicate Runs(r: Runner, steps: seq<Step>)
    decreases |steps|
  {
    steps == [] || (Enabled(r, steps[0]) && Runs(Do(r, steps[0]), steps[1..]))
  }

  function After(r: Runner, steps: seq<Step>): Runner
    requires Runs(r, steps)
    decreases |steps|
  {
    if steps == [] then r else After(Do(r, steps[0]), steps[1..])
  }

  lemma {:induction false} InvThroughout(r: Runner, steps: seq<Step>)
    requires Inv(r) && Runs(r, steps)
    ensures Inv(After(r, steps))
    decreases |steps|
  {
    if steps != [] {
      InvKept(r, steps[0]);
      hide Inv, Do, Enabled;
      InvThroughout(Do(r, steps[0]), steps[1..]);
    }
  }

  /** After any run, what is written is written for the monitor as it is registered now, under its current generation. */
  lemma CommitsAreCurrent(steps: seq<Step>, step: Step)
    requires Runs(New, steps) && Enabled(After(New, steps), step) && (step.Commit? || step.StampPing?)
    ensures var r := After(New, steps);
      Do(r, step) != r ==>
        step.e.m.id in r.registered && r.registered[step.e.m.id] == step.e.m && step.e.generation == r.Generation(step.e.m.id)
  {
    InvThroughout(New, steps);
    var r := After(New, steps);
    assert EntriesOk(r);
    assert Current(r, step.e);
  }

  /** Generations only move up, and every start, stop, disabling and removal begins one that was never used. */
  lemma GenerationsMoveUp(r: Runner, step: Step, id: Id)
    requires Inv(r) && Enabled(r, step)
    ensures r.Generation(id) <= Do(r, step).Generation(id)
    ensures (step == Remove(id) || step == Teardown(id) || step == Disable(id) || (step.Start? && step.m.id == id && !r.stopped)) ==>
      r.Generation(id) < Do(r, step).Generation(id) && forall e <- r.running | e.m.id == id :: e.generation < Do(r, step).Generation(id)
  {
    forall e <- r.running | e.m.id == id ensures e.generation <= r.Generation(id) {
      assert Current(r, e);
    }
    hide Inv;
  }

  predicate Registers(step: Step, id: Id) { step.Start? && step.m.id == id }

  ghost predicate Gone(r: Runner, id: Id) {
    && id !in r.lastStat && id !in r.lastResult && id !in r.lastPing && id !in r.tracked && id !in r.registered
    && forall t <- r.tokens :: r.tokens[t].m.id != id
  }

  lemma {:induction false} UnknownStaysGone(r: Runner, steps: seq<Step>, id: Id)
    requires Inv(r) && Runs(r, steps) && id !in r.known
    requires forall i | 0 <= i < |steps| :: !Registers(steps[i], id)
    ensures Gone(After(r, steps), id)
    decreases |steps|
  {
    if steps != [] {
      InvKept(r, steps[0]);
      NotKnown(r, steps[0], id);
      hide Inv, Do, Enabled;
      UnknownStaysGone(Do(r, steps[0]), steps[1..], id);
    } else {
      forall t <- r.tokens ensures r.tokens[t].m.id != id {
        assert Current(r, r.tokens[t]);
      }
    }
  }

  /** While nothing starts it again, a removed monitor leaves nothing behind and no late result brings it back. */
  lemma RemovedStaysGone(r: Runner, id: Id, steps: seq<Step>)
    requires Inv(r) && Runs(Do(r, Remove(id)), steps)
    requires forall i | 0 <= i < |steps| :: !Registers(steps[i], id)
    ensures Gone(After(Do(r, Remove(id)), steps), id)
  {
    InvKept(r, Remove(id));
    hide Inv, Gone;
    UnknownStaysGone(Do(r, Remove(id)), steps, id);
  }

  lemma NotKnown(r: Runner, step: Step, id: Id)
    requires id !in r.known && !Registers(step, id)
    ensures id !in Do(r, step).known
  {}

  /**
   No stale result, over every run of starts, reloads, removals, checks and pings however late: a
   monitor's observations come generation after generation, each generation's all under the one
   configuration it was registered with.
   */
  lemma NoStaleObservation(steps: seq<Step>)
    requires Runs(New, steps)
    ensures var seen := After(New, steps).observed;
      forall i, j | 0 <= i < j < |seen| && seen[i].entry.m.id == seen[j].entry.m.id ::
        seen[i].entry.generation < seen[j].entry.generation || seen[i].entry == seen[j].entry
  {
    InvThroughout(New, steps);
  }
}
