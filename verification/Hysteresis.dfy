/**
 What debouncing means. An independent reading of a rule's whole observation sequence says when its
 incident is open; the tracker's running counters are proved to agree with it after every
 observation.
 */
module Hysteresis {
  import opened IncidentBook

  /** One observation, and whether the rule was held or silenced at that moment. */
  datatype Obs = Obs(ok: bool, held: bool)

  /** How many observations up to position `n` agree with `v`, counting back from there. */
  function Streak(past: seq<Obs>, v: bool, n: nat): nat
    requires n <= |past|
  {
    if n == 0 || past[n - 1].ok != v then 0 else 1 + Streak(past, v, n - 1)
  }

  /** Some failing streak reached `failAfter` while not held, and no passing streak reached `recoverAfter` since. */
  ghost predicate OpenAfter(past: seq<Obs>, failAfter: int, recoverAfter: int) {
    exists i :: OpenedAt(past, failAfter, recoverAfter, i)
  }

  ghost predicate OpenedAt(past: seq<Obs>, failAfter: int, recoverAfter: int, i: nat) {
    && i < |past|
    && Streak(past, false, i + 1) >= failAfter && !past[i].held
    && forall j | i + 1 < j <= |past| :: Streak(past, true, j) < recoverAfter
  }

  lemma {:induction false} StreakOfPrefix(past: seq<Obs>, x: Obs, v: bool, n: nat)
    requires n <= |past|
    ensures Streak(past + [x], v, n) == Streak(past, v, n)
  {
    if n > 0 {
      StreakOfPrefix(past, x, v, n - 1);
    }
  }

  /** The reading of one more observation, from the reading so far. */
  lemma OpenAfterOneMore(past: seq<Obs>, x: Obs, failAfter: int, recoverAfter: int)
    requires failAfter >= 1 && recoverAfter >= 1
    ensures var more := past + [x];
      OpenAfter(more, failAfter, recoverAfter) <==>
        if x.ok then OpenAfter(past, failAfter, recoverAfter) && Streak(more, true, |more|) < recoverAfter
        else OpenAfter(past, failAfter, recoverAfter) || (Streak(more, false, |more|) >= failAfter && !x.held)
  {
    var more, n := past + [x], |past|;
    forall k: nat, v | k <= n ensures Streak(more, v, k) == Streak(past, v, k) {
      StreakOfPrefix(past, x, v, k);
    }
    forall i: nat | i < n
      ensures OpenedAt(more, failAfter, recoverAfter, i) <==>
        OpenedAt(past, failAfter, recoverAfter, i) && Streak(more, true, n + 1) < recoverAfter
    {
      assert forall j | i + 1 < j <= n :: Streak(more, true, j) == Streak(past, true, j);
      if OpenedAt(more, failAfter, recoverAfter, i) {
        assert forall j | i + 1 < j <= n :: Streak(past, true, j) < recoverAfter;
      }
    }
    assert OpenedAt(more, failAfter, recoverAfter, n) <==> Streak(more, false, n + 1) >= failAfter && !x.held;
  }

  // ---------------------------------------------------------------- the tracker's counters

  datatype Counters = Counters(fails: nat, oks: nat, open: bool)

  const Zero := Counters(0, 0, false)

  function CountersOf(b: Book, key: Key): Counters {
    if key in b.states then Counters(b.states[key].fails, b.states[key].oks, key in b.incidents)
    else Counters(0, 0, key in b.incidents)
  }

  function Decide(c: Counters, x: Obs, failAfter: int, recoverAfter: int): Counters {
    if x.ok then Counters(0, c.oks + 1, c.open && c.oks + 1 < recoverAfter)
    else Counters(c.fails + 1, 0, c.open || (c.fails + 1 >= failAfter && !x.held))
  }

  function DecideAll(c: Counters, xs: seq<Obs>, failAfter: int, recoverAfter: int): Counters {
    if xs == [] then c
    else Decide(DecideAll(c, xs[..|xs| - 1], failAfter, recoverAfter), xs[|xs| - 1], failAfter, recoverAfter)
  }

  /** One observation fed to the tracker, for any rule. */
  datatype Input = Input(rule: Rule, ok: bool, at: Time, held: bool, channels: bool)

  function Feed(b: Book, inputs: seq<Input>): Book {
    if inputs == [] then b
    else
      var x := inputs[|inputs| - 1];
      Observe(Feed(b, inputs[..|inputs| - 1]), x.rule, x.ok, x.at, x.held, x.channels)
  }

  /** The observations of one rule among all that were fed. */
  function ObsOf(inputs: seq<Input>, key: Key): seq<Obs> {
    if inputs == [] then []
    else
      var x := inputs[|inputs| - 1];
      ObsOf(inputs[..|inputs| - 1], key) + if x.rule.key == key then [Obs(x.ok, x.held)] else []
  }

  ghost predicate FixedPolicy(inputs: seq<Input>, key: Key, failAfter: int, recoverAfter: int) {
    forall x <- inputs | x.rule.key == key ::
      x.rule.policy.Normalized().failAfter == failAfter && x.rule.policy.Normalized().recoverAfter == recoverAfter
  }

  /** An observation decides its own rule's incident, and no other's. */
  lemma ObserveDecides(b: Book, x: Input, key: Key)
    ensures var b' := Observe(b, x.rule, x.ok, x.at, x.held, x.channels);
      CountersOf(b', key) ==
        if x.rule.key == key then
          Decide(CountersOf(b, key), Obs(x.ok, x.held), x.rule.policy.Normalized().failAfter, x.rule.policy.Normalized().recoverAfter)
        else CountersOf(b, key)
  {
    hide Observe;
    if x.rule.key != key {
      ObserveLeavesOthers(b, x, key);
    } else if x.ok {
      PassDecides(b, x);
    } else {
      FailureDecides(b, x);
    }
  }

  lemma ObserveLeavesOthers(b: Book, x: Input, key: Key)
    requires x.rule.key != key
    ensures CountersOf(Observe(b, x.rule, x.ok, x.at, x.held, x.channels), key) == CountersOf(b, key)
  {
  }

  lemma PassDecides(b: Book, x: Input)
    requires x.ok
    ensures CountersOf(Observe(b, x.rule, true, x.at, x.held, x.channels), x.rule.key) ==
      Decide(CountersOf(b, x.rule.key), Obs(true, x.held), x.rule.policy.Normalized().failAfter, x.rule.policy.Normalized().recoverAfter)
  {
  }

  lemma FailureDecides(b: Book, x: Input)
    requires !x.ok
    ensures CountersOf(Observe(b, x.rule, false, x.at, x.held, x.channels), x.rule.key) ==
      Decide(CountersOf(b, x.rule.key), Obs(false, x.held), x.rule.policy.Normalized().failAfter, x.rule.policy.Normalized().recoverAfter)
  {
  }

  lemma {:induction false} FeedDecides(b: Book, inputs: seq<Input>, key: Key, failAfter: int, recoverAfter: int)
    requires FixedPolicy(inputs, key, failAfter, recoverAfter)
    ensures CountersOf(Feed(b, inputs), key) == DecideAll(CountersOf(b, key), ObsOf(inputs, key), failAfter, recoverAfter)
  {
    if inputs != [] {
      var n := |inputs| - 1;
      FeedDecides(b, inputs[..n], key, failAfter, recoverAfter);
      ObserveDecides(Feed(b, inputs[..n]), inputs[n], key);
      var before := ObsOf(inputs[..n], key);
      assert (before + [Obs(inputs[n].ok, inputs[n].held)])[..|before|] == before && before + [] == before;
    }
  }

  /** The counters are the streaks, and the flag is the reading. */
  lemma {:induction false} DecideAllIsReading(xs: seq<Obs>, failAfter: int, recoverAfter: int)
    requires failAfter >= 1 && recoverAfter >= 1
    ensures var c := DecideAll(Zero, xs, failAfter, recoverAfter);
      && c.fails == Streak(xs, false, |xs|) && c.oks == Streak(xs, true, |xs|)
      && (c.open <==> OpenAfter(xs, failAfter, recoverAfter))
  {
    if xs != [] {
      var n := |xs| - 1;
      var before, x := xs[..n], xs[n];
      assert xs == before + [x];
      DecideAllIsReading(before, failAfter, recoverAfter);
      OpenAfterOneMore(before, x, failAfter, recoverAfter);
      StreakOfPrefix(before, x, false, n);
      StreakOfPrefix(before, x, true, n);
    }
  }

  /**
   Debouncing: however observations of all rules interleave, a rule's incident is open exactly when
   the reading of that rule's own observations says so.
   */
  lemma IncidentIsReading(b: Book, inputs: seq<Input>, key: Key, failAfter: int, recoverAfter: int)
    requires key !in b.states && key !in b.incidents
    requires failAfter >= 1 && recoverAfter >= 1 && FixedPolicy(inputs, key, failAfter, recoverAfter)
    ensures key in Feed(b, inputs).incidents <==> OpenAfter(ObsOf(inputs, key), failAfter, recoverAfter)
  {
    FeedDecides(b, inputs, key, failAfter, recoverAfter);
    DecideAllIsReading(ObsOf(inputs, key), failAfter, recoverAfter);
  }
}
