/**
 What an observation and the other tracker operations do, told by when they speak and what they leave: an
 opening, a reminder or a recovery is sent exactly under these conditions, and no other rule is touched.
 */
module IncidentEffects {
  import opened Wrappers
  import opened IncidentBook
  import opened IncidentPasses

  // ---------------------------------------------------------------- one observation

  /** How many observations in a row have failed, this one among them. */
  function FailsThen(b: Book, key: Key, ok: bool): nat {
    if ok then 0 else 1 + if key in b.states then b.states[key].fails else 0
  }

  function PassesThen(b: Book, key: Key, ok: bool): nat {
    if ok then 1 + (if key in b.states then b.states[key].oks else 0) else 0
  }

  predicate HeldBefore(b: Book, key: Key) { key in b.states && b.states[key].held }

  /** The incident has got worse than it was said to be, or its reminder has come round. */
  predicate ReminderIsDue(inc: Incident, given: Rule, at: Time) {
    given.severity > inc.severity
    || (given.policy.repeatEvery > 0 && inc.lastNotifiedAt + given.policy.repeatEvery <= at)
  }

  predicate Reminds(b: Book, given: Rule, ok: bool, at: Time, held: bool, channels: bool) {
    !ok && given.key in b.incidents && b.incidents[given.key].notified && !held && channels
    && ReminderIsDue(b.incidents[given.key], given, at)
  }

  /** A streak of failures has reached the policy, with nothing open. */
  predicate StreakReached(b: Book, given: Rule, ok: bool) {
    !ok && given.key !in b.incidents && FailsThen(b, given.key, ok) >= given.policy.failAfter
  }

  predicate Recovers(b: Book, given: Rule, ok: bool) {
    ok && given.key in b.incidents && PassesThen(b, given.key, ok) >= given.policy.recoverAfter
  }

  /** What an observation says, if anything. */
  function Said(b: Book, given: Rule, ok: bool, at: Time, held: bool, channels: bool): seq<Alert> {
    var key := given.key;
    if Reminds(b, given, ok, at, held, channels) then [ForIncident(Repeat, b.incidents[key].id, NoReason, false)]
    else if StreakReached(b, given, ok) && held then if HeldBefore(b, key) then [] else [Journaled(key)]
    else if StreakReached(b, given, ok) then if channels && !b.adopting then [ForIncident(Opened, b.nextId, NoReason, false)] else []
    else if Recovers(b, given, ok) && b.incidents[key].notified then [ForIncident(Recovered, b.incidents[key].id, Healthy, false)]
    else []
  }

  lemma ObserveSays(b: Book, given: Rule, ok: bool, at: Time, held: bool, channels: bool)
    ensures Observe(b, given, ok, at, held, channels).alerts == b.alerts + Said(b, given, ok, at, held, channels)
  {
    if !ok && given.key in b.incidents {
      StillFailingSays(b, given, at, held, channels);
      hide StillFailing;
    } else {
      hide StillFailing;
    }
  }

  lemma StillFailingSays(b: Book, given: Rule, at: Time, held: bool, channels: bool)
    requires given.key in b.incidents
    ensures forall b': Book, fails: nat | b'.alerts == b.alerts ::
      StillFailing(b', given.Normalized(), b.incidents[given.key], fails, at, held, channels).alerts
        == b.alerts + if Reminds(b, given, false, at, held, channels) then [ForIncident(Repeat, b.incidents[given.key].id, NoReason, false)] else []
  {}

  /** Held, or with nobody to tell, an observation opens aloud and reminds of nothing. */
  lemma QuietWhileHeldOrUnheard(b: Book, given: Rule, ok: bool, at: Time, held: bool, channels: bool)
    requires held || !channels
    ensures var b' := Observe(b, given, ok, at, held, channels);
      && b.alerts <= b'.alerts
      && forall i | |b.alerts| <= i < |b'.alerts| :: b'.alerts[i].Journaled? || (b'.alerts[i].ForIncident? && b'.alerts[i].kind.Recovered?)
  {
    ObserveSays(b, given, ok, at, held, channels);
    hide Observe;
  }

  /** A reminder goes out exactly when one is due, once, and the incident remembers when. */
  lemma RemindsExactlyWhenDue(b: Book, given: Rule, ok: bool, at: Time, held: bool, channels: bool)
    requires given.key in b.incidents
    ensures var b', inc := Observe(b, given, ok, at, held, channels), b.incidents[given.key];
      var reminder := ForIncident(Repeat, inc.id, NoReason, false);
      && (b'.alerts == b.alerts + [reminder] <==>
            && !ok && inc.notified && !held && channels
            && (given.severity > inc.severity || (given.policy.repeatEvery > 0 && at - inc.lastNotifiedAt >= given.policy.repeatEvery)))
      && (b'.alerts == b.alerts + [reminder] ==> given.key in b'.incidents && b'.incidents[given.key].lastNotifiedAt == at)
      && (b'.alerts != b.alerts + [reminder] ==>
            && (forall i | |b.alerts| <= i < |b'.alerts| :: b'.alerts[i] != reminder)
            && (given.key in b'.incidents ==> b'.incidents[given.key].lastNotifiedAt == inc.lastNotifiedAt))
  {
    ObserveSays(b, given, ok, at, held, channels);
    ObserveKeepsIncident(b, given, ok, at, held, channels);
    hide Observe;
    var b', reminder := Observe(b, given, ok, at, held, channels), ForIncident(Repeat, b.incidents[given.key].id, NoReason, false);
    assert b'.alerts[|b.alerts|..] == Said(b, given, ok, at, held, channels);
    assert (b.alerts + [reminder])[|b.alerts|..] == [reminder];
    assert forall i | |b.alerts| <= i < |b'.alerts| :: b'.alerts[i] == Said(b, given, ok, at, held, channels)[i - |b.alerts|];
  }

  /** An open incident while its rule fails: the same incident, told of as its rule is now. */
  lemma ObserveKeepsIncident(b: Book, given: Rule, ok: bool, at: Time, held: bool, channels: bool)
    requires given.key in b.incidents
    ensures var b', inc := Observe(b, given, ok, at, held, channels), b.incidents[given.key];
      && (given.key !in b'.incidents <==> Recovers(b, given, ok))
      && (ok && given.key in b'.incidents ==> b'.incidents[given.key] == inc)
      && (!ok ==>
            var now := b'.incidents[given.key];
            && now.id == inc.id && now.startedAt == inc.startedAt && now.openedAt == inc.openedAt && now.notified == inc.notified
            && now.severity == given.severity && now.fails == FailsThen(b, given.key, ok)
            && now.lastNotifiedAt == (if Reminds(b, given, ok, at, held, channels) then at else inc.lastNotifiedAt)
            && now.autoResolveAt ==
                 if given.policy.autoResolveAfter <= 0 || (given.severity > inc.severity && inc.notified && !held && channels)
                 then inc.autoResolveAt else Some(at + given.policy.autoResolveAfter))
  {
    hide Book.Open;
  }

  /** With nothing open: an incident opens exactly when the streak is reached and the rule is not held. */
  lemma ObserveOpens(b: Book, given: Rule, ok: bool, at: Time, held: bool, channels: bool)
    requires given.key !in b.incidents
    ensures var b', aloud := Observe(b, given, ok, at, held, channels), channels && !b.adopting;
      && (given.key in b'.incidents <==> StreakReached(b, given, ok) && !held)
      && (given.key in b'.incidents ==>
            && b'.nextId == b.nextId + 1
            && b'.incidents[given.key].id == b.nextId && b'.incidents[given.key].severity == given.severity
            && b'.incidents[given.key].startedAt == b'.states[given.key].firstFailAt && b'.incidents[given.key].openedAt == at
            && b'.incidents[given.key].notified == aloud && b'.incidents[given.key].lastNotifiedAt == (if aloud then at else 0)
            && b'.incidents[given.key].fails == FailsThen(b, given.key, ok)
            && b'.incidents[given.key].autoResolveAt
                 == if given.policy.autoResolveAfter > 0 then Some(at + given.policy.autoResolveAfter) else None)
      && (given.key !in b'.incidents ==> b'.nextId == b.nextId)
  {
    hide StillFailing;
  }

  /** What an observation leaves of its rule. */
  lemma ObserveCounts(b: Book, given: Rule, ok: bool, at: Time, held: bool, channels: bool)
    ensures var b', key := Observe(b, given, ok, at, held, channels), given.key;
      && key in b'.states && b'.states[key].fails == FailsThen(b, key, ok) && b'.states[key].oks == PassesThen(b, key, ok)
      && b'.states[key].firstFailAt == (if ok then 0 else if FailsThen(b, key, ok) == 1 then at else b.states[key].firstFailAt)
      && b'.states[key].held == (if StreakReached(b, given, ok) then held else !ok && HeldBefore(b, key))
  {
    hide StillFailing;
    if !ok && given.key in b.incidents { StillFailingLeaves(b, given, at, held, channels); }
    hide Book.Open;
  }

  lemma StillFailingLeaves(b: Book, given: Rule, at: Time, held: bool, channels: bool)
    requires given.key in b.incidents
    ensures forall b': Book, fails: nat ::
      var b2 := StillFailing(b', given.Normalized(), b.incidents[given.key], fails, at, held, channels);
      && b2.states == b'.states && b2.adopting == b'.adopting
      && b2.incidents.Keys == b'.incidents.Keys + {given.key} && forall k <- b'.incidents | k != given.key :: b2.incidents[k] == b'.incidents[k]
  {}

  /** No other rule is touched. */
  lemma ObserveLeavesOthers(b: Book, given: Rule, ok: bool, at: Time, held: bool, channels: bool)
    ensures var b', key := Observe(b, given, ok, at, held, channels), given.key;
      && b'.adopting == b.adopting
      && (forall k | k != key :: (k in b'.states <==> k in b.states) && (k in b'.incidents <==> k in b.incidents))
      && (forall k <- b.states | k != key :: b'.states[k] == b.states[k])
      && (forall k <- b.incidents | k != key :: b'.incidents[k] == b.incidents[k])
  {
    hide StillFailing;
    if !ok && given.key in b.incidents { StillFailingLeaves(b, given, at, held, channels); }
  }

  // ---------------------------------------------------------------- the other operations

  /** A retired rule is forgotten and its incident gone, with one recovery if it was announced. */
  lemma RetireForgets(b: Book, key: Key)
    ensures var b' := Retire(b, key);
      && b' == b.(states := b.states - {key}, incidents := b.incidents - {key}, alerts := b'.alerts)
      && b'.alerts == b.alerts + if key in b.incidents && b.incidents[key].notified
                                 then [ForIncident(Recovered, b.incidents[key].id, Retired, false)] else []
  {}

  /** An outage seen at the upgrade opens unannounced, only while adopting, and starts no streak. */
  lemma AdoptOpenOpens(b: Book, given: Rule, startedAt: Time, fails: nat, now: Time)
    ensures var b' := AdoptOpen(b, given, startedAt, fails, now);
      if b.adopting && given.key !in b.incidents && fails >= 1 && fails >= given.policy.failAfter
      then b' == b.(incidents := b.incidents[given.key := Incident(b.nextId, given.severity, startedAt, now, false, 0, fails, None)],
                    nextId := b.nextId + 1)
      else b' == b
  {}

  /** A failing rule not held opens unannounced, its streak as long as the policy asks. */
  lemma AdoptFailingOpens(b: Book, given: Rule, startedAt: Time, held: bool, now: Time)
    ensures var b' := AdoptFailing(b, given, startedAt, held, now);
      if given.key !in b.incidents && !held
      then
        && b'.alerts == b.alerts && b'.adopting == b.adopting && b'.nextId == b.nextId + 1
        && b'.states.Keys == b.states.Keys + {given.key} && (forall k <- b.states | k != given.key :: b'.states[k] == b.states[k])
        && b'.incidents.Keys == b.incidents.Keys + {given.key} && (forall k <- b.incidents :: b'.incidents[k] == b.incidents[k])
        && b'.states[given.key].fails == (if given.policy.failAfter < 1 then 1 else given.policy.failAfter)
        && b'.states[given.key].oks == 0 && b'.states[given.key].firstFailAt == startedAt
        && b'.incidents[given.key] == Incident(b.nextId, given.severity, startedAt, now, false, 0, b'.states[given.key].fails, None)
      else b' == b
  {}

  /** The streak restored by a seed: what came last, how often in a row, and since when. */
  lemma SeedRemembers(b: Book, rule: Rule, history: seq<Sample>, n: nat)
    requires n <= |history| && forall i | 0 <= i < n :: history[i].ok == history[0].ok
    requires n < |history| ==> n > 0 && history[n].ok != history[0].ok
    ensures var b' := Seed(b, rule, history);
      && b' == b.(states := b'.states) && b'.states.Keys == b.states.Keys + {rule.key}
      && (forall k <- b.states | k != rule.key :: b'.states[k] == b.states[k])
      && b'.states[rule.key].fails == (if n > 0 && !history[0].ok then n else 0)
      && b'.states[rule.key].oks == (if n > 0 && history[0].ok then n else 0)
      && b'.states[rule.key].firstFailAt == (if n > 0 && !history[0].ok then history[n - 1].at else 0)
      && b'.states[rule.key].held == HeldBefore(b, rule.key)
  {
    if n > 0 { StreakIs(history, n); }
  }

  lemma {:induction false} StreakIs(history: seq<Sample>, n: nat)
    requires 0 < n <= |history| && forall i | 0 <= i < n :: history[i].ok == history[0].ok
    requires n < |history| ==> history[n].ok != history[0].ok
    ensures StreakLength(history) == n
  {
    if n > 1 {
      assert history[1].ok == history[0].ok;
      StreakIs(history[1..], n - 1);
    }
  }

  // ---------------------------------------------------------------- announcing

  function NowTold(inc: Incident, now: Time): Incident { inc.(notified := true, lastNotifiedAt := now) }

  /** One opening for each of these, for machines only or for all. */
  function Tellings(incidents: map<Key, Incident>, keys: seq<Key>, machineOnly: bool): seq<Alert>
    requires forall k <- keys :: k in incidents
  {
    seq(|keys|, i requires 0 <= i < |keys| => ForIncident(Opened, incidents[keys[i]].id, NoReason, machineOnly))
  }

  /** These incidents are announced as of now; nothing else in the book has changed but what was said. */
  ghost predicate ToldNow(b: Book, b': Book, keys: seq<Key>, now: Time) {
    && b' == b.(incidents := b'.incidents, alerts := b'.alerts) && b'.incidents.Keys == b.incidents.Keys
    && forall k <- b.incidents :: b'.incidents[k] == if k in keys then NowTold(b.incidents[k], now) else b.incidents[k]
  }

  lemma {:induction false} AnnounceEachTells(b: Book, keys: seq<Key>, now: Time, machineOnly: bool)
    requires forall k <- keys :: k in b.incidents && !b.incidents[k].notified
    requires forall i, j | 0 <= i < j < |keys| :: keys[i] != keys[j]
    ensures var b' := AnnounceEach(b, keys, now, machineOnly);
      ToldNow(b, b', keys, now) && b'.alerts == b.alerts + Tellings(b.incidents, keys, machineOnly)
  {
    if keys != [] {
      var n, key := |keys| - 1, keys[|keys| - 1];
      AnnounceEachTells(b, keys[..n], now, machineOnly);
      assert AnnounceEach(b, keys, now, machineOnly) == AnnounceOne(AnnounceEach(b, keys[..n], now, machineOnly), key, now, machineOnly);
      hide AnnounceEach;
      assert key !in keys[..n];
      TellsOneMore(b, AnnounceEach(b, keys[..n], now, machineOnly), keys[..n], key, now, machineOnly);
      assert keys == keys[..n] + [key];
    }
  }

  lemma TellsOneMore(b: Book, b1: Book, keys: seq<Key>, key: Key, now: Time, machineOnly: bool)
    requires (forall k <- keys :: k in b.incidents) && key in b.incidents && key !in keys && !b.incidents[key].notified
    requires ToldNow(b, b1, keys, now) && b1.alerts == b.alerts + Tellings(b.incidents, keys, machineOnly)
    ensures var b' := AnnounceOne(b1, key, now, machineOnly);
      ToldNow(b, b', keys + [key], now) && b'.alerts == b.alerts + Tellings(b.incidents, keys + [key], machineOnly)
  {
    assert b1.incidents[key] == b.incidents[key];
    assert Tellings(b.incidents, keys + [key], machineOnly)
        == Tellings(b.incidents, keys, machineOnly) + [ForIncident(Opened, b.incidents[key].id, NoReason, machineOnly)];
    hide Tellings;
    assert forall k :: k in keys + [key] <==> k in keys || k == key;
  }

  /**
   With a channel, every incident nobody was told of is announced once: alone with a plain opening,
   several with one summary for people and an opening each for machines.
   */
  lemma AnnounceTells(b: Book, order: seq<Key>, channels: bool, now: Time)
    requires Enumerates(order, b.incidents.Keys)
    ensures var keys := Unannounced(b, order);
      && Enumerates(keys, set k | k in b.incidents && !b.incidents[k].notified)
      && var b' := Announce(b, keys, channels, now);
         if channels then
           && ToldNow(b, b', keys, now)
           && b'.alerts == b.alerts + (if |keys| > 1 then [Summary(|keys|)] else []) + Tellings(b.incidents, keys, |keys| > 1)
         else b' == b
  {
    var silent := set k | k in b.incidents && !b.incidents[k].notified;
    var keys := Unannounced(b, order);
    OnlyEnumerates(order, b.incidents.Keys, silent);
    assert b.incidents.Keys * silent == silent;
    if |keys| > 1 {
      AnnounceEachTells(b.Told(Summary(|keys|)), keys, now, true);
    } else {
      AnnounceEachTells(b, keys, now, false);
    }
    hide AnnounceEach;
  }
}
