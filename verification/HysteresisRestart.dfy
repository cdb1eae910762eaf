/**
 Restoring a rule's counters from a window of its history changes no decision exactly when the window is
 long enough.
 */
module HysteresisRestart {
  import opened IncidentBook
  import opened Hysteresis

  /** The newest `window` observations, newest first: what the store answers after a restart. */
  function History(past: seq<Obs>, window: nat): (h: seq<Sample>)
    ensures |h| == if window < |past| then window else |past|
    ensures forall i | 0 <= i < |h| :: h[i].ok == past[|past| - 1 - i].ok
  {
    if window == 0 || past == [] then []
    else [Sample(past[|past| - 1].ok, 0)] + History(past[..|past| - 1], window - 1)
  }

  /** The counters a restart restores; the open incident itself was kept on disk. */
  function Restored(past: seq<Obs>, window: nat, open: bool): Counters {
    var h := History(past, window);
    if h == [] then Counters(0, 0, open)
    else if h[0].ok then Counters(0, StreakLength(h), open)
    else Counters(StreakLength(h), 0, open)
  }

  /** Seeding is what `Restored` says, for any history with those verdicts. */
  lemma SeedRestores(b: Book, rule: Rule, history: seq<Sample>, past: seq<Obs>, window: nat)
    requires |history| == |History(past, window)|
    requires forall i | 0 <= i < |history| :: history[i].ok == History(past, window)[i].ok
    ensures CountersOf(Seed(b, rule, history), rule.key) == Restored(past, window, rule.key in b.incidents)
  {
    SameStreak(history, History(past, window));
  }

  lemma {:induction false} SameStreak(g: seq<Sample>, h: seq<Sample>)
    requires |g| == |h| && forall i | 0 <= i < |g| :: g[i].ok == h[i].ok
    ensures StreakLength(g) == StreakLength(h)
  {
    if |g| > 1 {
      SameStreak(g[1..], h[1..]);
    }
  }

  /** A window sees the streak that led up to it, no longer than itself. */
  lemma {:induction false} WindowStreak(past: seq<Obs>, window: nat)
    requires window > 0 && past != []
    ensures var full := Streak(past, past[|past| - 1].ok, |past|);
      StreakLength(History(past, window)) == if full < window then full else window
  {
    var h, n := History(past, window), |past| - 1;
    if window > 1 && n > 0 {
      assert h[1..] == History(past[..n], window - 1);
      WindowStreak(past[..n], window - 1);
      StreakTaken(past, n, n, past[n].ok);
    }
  }

  lemma {:induction false} StreakTaken(past: seq<Obs>, n: nat, k: nat, v: bool)
    requires n <= |past|
    requires k <= n
    ensures Streak(past[..n], v, k) == Streak(past, v, k)
  {
    if k > 0 {
      StreakTaken(past, n, k - 1, v);
    }
  }

  /** Two counts no threshold test will ever tell apart. */
  predicate Alike(x: nat, y: nat, threshold: int) { x == y || (x + 1 >= threshold && y + 1 >= threshold) }

  predicate AlikeCounters(c: Counters, d: Counters, failAfter: int, recoverAfter: int) {
    c.open == d.open && Alike(c.fails, d.fails, failAfter) && Alike(c.oks, d.oks, recoverAfter)
  }

  lemma {:induction false} AlikeDecide(c: Counters, d: Counters, xs: seq<Obs>, failAfter: int, recoverAfter: int)
    requires AlikeCounters(c, d, failAfter, recoverAfter)
    ensures AlikeCounters(DecideAll(c, xs, failAfter, recoverAfter), DecideAll(d, xs, failAfter, recoverAfter), failAfter, recoverAfter)
  {
    if xs != [] {
      AlikeDecide(c, d, xs[..|xs| - 1], failAfter, recoverAfter);
    }
  }

  /** Whatever comes next, restarting after `past` decides as never restarting does. */
  ghost predicate SameDecisions(past: seq<Obs>, next: seq<Obs>, window: nat, failAfter: int, recoverAfter: int) {
    var c := DecideAll(Zero, past, failAfter, recoverAfter);
    DecideAll(c, next, failAfter, recoverAfter).open == DecideAll(Restored(past, window, c.open), next, failAfter, recoverAfter).open
  }

  /** A window at least as long as both thresholds, less the observation about to come, is enough. */
  lemma LongWindowSuffices(past: seq<Obs>, next: seq<Obs>, window: nat, failAfter: int, recoverAfter: int)
    requires failAfter >= 1 && recoverAfter >= 1 && window + 1 >= failAfter && window + 1 >= recoverAfter
    ensures SameDecisions(past, next, window, failAfter, recoverAfter)
  {
    var c := DecideAll(Zero, past, failAfter, recoverAfter);
    DecideAllIsReading(past, failAfter, recoverAfter);
    if past != [] && window > 0 {
      WindowStreak(past, window);
    }
    AlikeDecide(c, Restored(past, window, c.open), next, failAfter, recoverAfter);
  }

  function Times(x: Obs, n: nat): (xs: seq<Obs>)
    ensures |xs| == n && forall i | 0 <= i < n :: xs[i] == x
  {
    if n == 0 then [] else Times(x, n - 1) + [x]
  }

  lemma {:induction false} FailTimes(n: nat, failAfter: int, recoverAfter: int)
    requires failAfter >= 1
    ensures DecideAll(Zero, Times(Obs(false, false), n), failAfter, recoverAfter) == Counters(n, 0, n >= failAfter)
  {
    if n > 0 {
      FailTimes(n - 1, failAfter, recoverAfter);
      assert Times(Obs(false, false), n)[..n - 1] == Times(Obs(false, false), n - 1);
    }
  }

  lemma {:induction false} ThenPassTimes(xs: seq<Obs>, n: nat, failAfter: int, recoverAfter: int)
    requires var c := DecideAll(Zero, xs, failAfter, recoverAfter); c.open && c.oks == 0
    requires n < recoverAfter
    ensures var c := DecideAll(Zero, xs + Times(Obs(true, false), n), failAfter, recoverAfter);
      c.open && c.oks == n
  {
    var all := xs + Times(Obs(true, false), n);
    if n == 0 {
      assert all == xs;
    } else {
      ThenPassTimes(xs, n - 1, failAfter, recoverAfter);
      assert all[..|all| - 1] == xs + Times(Obs(true, false), n - 1);
    }
  }

  lemma DecideLast(c: Counters, x: Obs, failAfter: int, recoverAfter: int)
    ensures DecideAll(c, [x], failAfter, recoverAfter) == Decide(c, x, failAfter, recoverAfter)
  {
    assert [x][..0] == [];
  }

  /** A window too short to see a failing streak coming delays the opening. */
  lemma ShortWindowDelaysOpening(window: nat, failAfter: int, recoverAfter: int)
    requires recoverAfter >= 1 && window + 1 < failAfter
    ensures !SameDecisions(Times(Obs(false, false), failAfter - 1), [Obs(false, false)], window, failAfter, recoverAfter)
  {
    var past := Times(Obs(false, false), failAfter - 1);
    FailTimes(failAfter - 1, failAfter, recoverAfter);
    DecideAllIsReading(past, failAfter, recoverAfter);
    hide DecideAll, Times, Streak;
    RestoredStreak(past, window, false);
    DecideLast(DecideAll(Zero, past, failAfter, recoverAfter), Obs(false, false), failAfter, recoverAfter);
    DecideLast(Restored(past, window, false), Obs(false, false), failAfter, recoverAfter);
    hide Restored;
  }

  /** What a window restores: the streak that led up to it, cut to the window. */
  lemma RestoredStreak(past: seq<Obs>, window: nat, open: bool)
    requires past != []
    ensures var ok := past[|past| - 1].ok;
      var full := Streak(past, ok, |past|);
      var n := if full < window then full else window;
      Restored(past, window, open) == if ok then Counters(0, n, open) else Counters(n, 0, open)
  {
    if window > 0 {
      WindowStreak(past, window);
    }
    hide Streak, StreakLength;
  }

  /** A window too short to see a passing streak coming delays the recovery. */
  lemma ShortWindowDelaysRecovery(window: nat, failAfter: int, recoverAfter: int)
    requires failAfter >= 1 && window + 1 < recoverAfter
    ensures !SameDecisions(Times(Obs(false, false), failAfter) + Times(Obs(true, false), recoverAfter - 1), [Obs(true, false)],
                           window, failAfter, recoverAfter)
  {
    var fails := Times(Obs(false, false), failAfter);
    var past := fails + Times(Obs(true, false), recoverAfter - 1);
    FailTimes(failAfter, failAfter, recoverAfter);
    ThenPassTimes(fails, recoverAfter - 1, failAfter, recoverAfter);
    DecideAllIsReading(past, failAfter, recoverAfter);
    assert past[|past| - 1].ok;
    hide DecideAll, Times, Streak;
    RestoredStreak(past, window, true);
    DecideLast(DecideAll(Zero, past, failAfter, recoverAfter), Obs(true, false), failAfter, recoverAfter);
    DecideLast(Restored(past, window, true), Obs(true, false), failAfter, recoverAfter);
    hide Restored;
  }

  /**
   Restarting from a window of history changes no decision, whatever came before and whatever comes
   next, if and only if the window holds at least one observation fewer than each threshold.
   */
  lemma RestartExact(window: nat, failAfter: int, recoverAfter: int)
    requires failAfter >= 1 && recoverAfter >= 1
    ensures (window + 1 >= failAfter && window + 1 >= recoverAfter) <==>
      (forall past, next :: SameDecisions(past, next, window, failAfter, recoverAfter))
  {
    if window + 1 < failAfter {
      ShortWindowDelaysOpening(window, failAfter, recoverAfter);
    } else if window + 1 < recoverAfter {
      ShortWindowDelaysRecovery(window, failAfter, recoverAfter);
    } else {
      forall past, next ensures SameDecisions(past, next, window, failAfter, recoverAfter) {
        LongWindowSuffices(past, next, window, failAfter, recoverAfter);
      }
    }
  }

  /** The window a monitor reads at start: one more than its larger threshold, at most fifty. */
  function MonitorWindow(failAfter: int, recoverAfter: int): nat
    requires failAfter >= 1 && recoverAfter >= 1
  {
    var n := (if recoverAfter > failAfter then recoverAfter else failAfter) + 1;
    if n > 50 then 50 else n
  }

  /** A monitor's restart is faithful exactly when neither threshold exceeds fifty-one. */
  lemma MonitorRestartExact(failAfter: int, recoverAfter: int)
    requires failAfter >= 1 && recoverAfter >= 1
    ensures (failAfter <= 51 && recoverAfter <= 51) <==>
      (forall past, next :: SameDecisions(past, next, MonitorWindow(failAfter, recoverAfter), failAfter, recoverAfter))
  {
    RestartExact(MonitorWindow(failAfter, recoverAfter), failAfter, recoverAfter);
  }

  /** The thresholds in force for the ones given: 0 or less stands for the default of the monitor's type. */
  function FailAfterOf(given: int, push: bool): int { if given > 0 then given else if push then 1 else 3 }

  function RecoverAfterOf(given: int, push: bool): int { if given > 0 then given else if push then 1 else 2 }

  /** What the interface accepts. */
  predicate Accepted(failAfter: int, recoverAfter: int) { 0 <= failAfter <= 20 && 0 <= recoverAfter <= 20 }

  /** Every monitor that can be set up restarts without a changed decision. */
  lemma AcceptedMonitorsRestartExactly(failAfter: int, recoverAfter: int, push: bool, past: seq<Obs>, next: seq<Obs>)
    requires Accepted(failAfter, recoverAfter)
    ensures var f, r := FailAfterOf(failAfter, push), RecoverAfterOf(recoverAfter, push);
      SameDecisions(past, next, MonitorWindow(f, r), f, r)
  {
    MonitorRestartExact(FailAfterOf(failAfter, push), RecoverAfterOf(recoverAfter, push));
  }
}
