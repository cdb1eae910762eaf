/**
 The tracker as the program keeps it: maps of rule states and open incidents, updated in place, and
 the alerts handed to the outbox while the tracker's lock is held. Each operation is proved to be
 the one on the book it stands for. A pass over a map visits the keys in whatever order it likes.
 */
module IncidentTracker {
  import opened Wrappers
  import opened IncidentBook
  import opened IncidentPasses
  import opened IncidentEffects

  class Tracker {
    var states: map<Key, RuleState>
    var incidents: map<Key, Incident>
    var adopting: bool
    var alerts: seq<Alert>
    var nextId: IncidentId

    function View(): Book
      reads this
    {
      Book(states, incidents, adopting, alerts, nextId)
    }

    constructor (adopting: bool)
      ensures View() == Book(map[], map[], adopting, [], 0)
    {
      states, incidents, alerts, nextId := map[], map[], [], 0;
      this.adopting := adopting;
    }

    /** Records a new incident; the caller decides whether it is announced. */
    method Open(rule: Rule, startedAt: Time, now: Time, fails: nat, autoResolve: bool, announce: bool)
      modifies this`incidents, this`alerts, this`nextId
      ensures View() == old(View()).Open(rule, startedAt, now, fails, autoResolve, announce)
    {
      var inc := Incident(nextId, rule.severity, startedAt, now, false, 0, fails, None);
      if autoResolve && rule.policy.autoResolveAfter > 0 {
        inc := inc.(autoResolveAt := Some(now + rule.policy.autoResolveAfter));
      }
      if announce {
        inc := inc.(notified := true, lastNotifiedAt := now);
        alerts := alerts + [ForIncident(Opened, inc.id, NoReason, false)];
      }
      nextId := nextId + 1;
      incidents := incidents[rule.key := inc];
    }

    method Close(key: Key, reason: Reason)
      requires key in incidents
      modifies this`incidents, this`alerts
      ensures View() == old(View()).Close(key, reason) && incidents == old(incidents) - {key}
    {
      var inc := incidents[key];
      incidents := incidents - {key};
      if inc.notified {
        alerts := alerts + [ForIncident(Recovered, inc.id, reason, false)];
      }
    }

    method Remind(key: Key, at: Time)
      requires key in incidents
      modifies this`incidents, this`alerts
      ensures View() == old(View()).Remind(key, old(incidents[key]), at)
    {
      var inc := incidents[key];
      incidents := incidents[key := inc.(lastNotifiedAt := at)];
      alerts := alerts + [ForIncident(Repeat, inc.id, NoReason, false)];
    }

    /** Feeds one observation for a rule. */
    method Observe(given: Rule, ok: bool, at: Time, held: bool, channels: bool)
      modifies this
      ensures View() == IncidentBook.Observe(old(View()), given, ok, at, held, channels)
    {
      hide IncidentBook.StillFailing, Book.Open, Book.Close;
      var rule := given.Normalized();
      var key := rule.key;
      var st := View().StateOf(rule);
      if !ok {
        st := st.(oks := 0);
        if st.fails == 0 {
          st := st.(firstFailAt := at);
        }
        st := st.(fails := st.fails + 1);
        states := states[key := st];
        if key in incidents {
          StillFailing(rule, st.fails, at, held, channels);
        } else if st.fails >= rule.policy.failAfter {
          Reached(rule, at, held, channels);
          LastStateStands(old(View()), key, st, st.(held := held));
        }
      } else {
        st := st.(fails := 0, firstFailAt := 0, held := false);
        st := st.(oks := st.oks + 1);
        states := states[key := st];
        if key in incidents && st.oks >= rule.policy.recoverAfter {
          Close(key, Healthy);
        }
      }
    }

    /** A streak has reached the policy: open now, or hold the opening back and say so once. */
    method Reached(rule: Rule, at: Time, held: bool, channels: bool)
      requires rule.key in states && rule.key !in incidents
      modifies this
      ensures View() ==
        var b, st := old(View()), old(states[rule.key]);
        if held then
          var b1 := b.WithState(rule.key, st.(held := true));
          if st.held then b1 else b1.Told(Journaled(rule.key))
        else b.WithState(rule.key, st.(held := false)).Open(rule, st.firstFailAt, at, st.fails, true, !b.adopting && channels)
    {
      var st := states[rule.key];
      states := states[rule.key := st.(held := held)];
      if held {
        if !st.held {
          alerts := alerts + [Journaled(rule.key)];
        }
      } else {
        Open(rule, st.firstFailAt, at, st.fails, true, !adopting && channels);
      }
    }

    method StillFailing(rule: Rule, fails: nat, at: Time, held: bool, channels: bool)
      requires rule.key in incidents
      modifies this`incidents, this`alerts
      ensures View() == IncidentBook.StillFailing(old(View()), rule, old(incidents[rule.key]), fails, at, held, channels)
    {
      var key, inc := rule.key, incidents[rule.key];
      var was := inc.severity;
      inc := inc.(severity := rule.severity, fails := fails);
      incidents := incidents[key := inc];
      if inc.severity > was && inc.notified && !held && channels {
        Remind(key, at);
        assert View() == old(View()).Remind(key, inc, at);
        return;
      }
      if rule.policy.autoResolveAfter > 0 {
        inc := inc.(autoResolveAt := Some(at + rule.policy.autoResolveAfter));
        incidents := incidents[key := inc];
      }
      if rule.policy.repeatEvery > 0 && inc.notified && at - inc.lastNotifiedAt >= rule.policy.repeatEvery && !held && channels {
        Remind(key, at);
        assert View() == old(View()).Remind(key, inc, at);
      }
    }

    /** Opens held rules whose hold has ended while they are still failing. */
    method ReleaseHolds(order: seq<Key>, held: Chosen, channels: bool, now: Time) returns (count: nat)
      requires Enumerates(order, states.Keys)
      modifies this
      ensures View() == IncidentBook.ReleaseHolds(old(View()), order, held, channels, now)
      ensures exists keys ::
        && Enumerates(keys, Released(old(View()), held)) && count == |keys|
        && OpensEach(old(View()), View(), keys, now, !old(adopting) && channels)
    {
      hide OpensEach, Released;
      count := 0;
      for n := 0 to |order|
        invariant View() == IncidentBook.ReleaseHolds(old(View()), order[..n], held, channels, now)
        invariant states.Keys == old(states.Keys) && nextId == old(nextId) + count
      {
        assert order[..n + 1][..n] == order[..n];
        assert order[n] in order;
        var one := Release(order[n], held, channels, now);
        hide ReleaseOne;
        if one {
          count := count + 1;
        }
      }
      assert order[..|order|] == order;
      ReleaseHoldsOpens(old(View()), order, held, channels, now);
    }

    method Release(key: Key, held: Chosen, channels: bool, now: Time) returns (one: bool)
      requires key in states
      modifies this
      ensures View() == ReleaseOne(old(View()), key, held, channels, now)
      ensures states.Keys == old(states.Keys) && nextId == old(nextId) + if one then 1 else 0
    {
      var st := states[key];
      if !st.held || key in incidents || st.fails < st.rule.policy.Normalized().failAfter || key in held {
        return false;
      }
      states := states[key := st.(held := false)];
      Open(st.rule.(key := key), st.firstFailAt, now, st.fails, true, !adopting && channels);
      one := true;
    }

    /** Closes every open incident the caller selects. */
    method CloseMatching(order: seq<Key>, chosen: Chosen, reason: Reason) returns (closed: nat)
      requires Enumerates(order, incidents.Keys)
      modifies this
      ensures View() == IncidentBook.CloseMatching(old(View()), order, chosen, reason)
      ensures incidents == old(incidents) - chosen && states == old(states) && closed == |old(incidents)| - |incidents|
      ensures Recover(old(alerts), alerts, old(incidents), chosen, reason)
    {
      hide Recover, Book.Close;
      closed := 0;
      for n := 0 to |order|
        invariant View() == IncidentBook.CloseMatching(old(View()), order[..n], chosen, reason)
        invariant forall i | n <= i < |order| :: order[i] in incidents
        invariant closed == |old(incidents)| - |incidents|
      {
        assert order[..n + 1][..n] == order[..n];
        if order[n] in chosen {
          Close(order[n], reason);
          closed := closed + 1;
        }
      }
      assert order[..|order|] == order;
      CloseMatchingCloses(old(View()), order, chosen, reason);
    }

    /** Closes one-shot incidents whose time has passed. */
    method Sweep(order: seq<Key>, now: Time)
      requires Enumerates(order, incidents.Keys)
      modifies this
      ensures View() == IncidentBook.Sweep(old(View()), order, now)
      ensures var due := Due(old(incidents), now);
        && incidents == old(incidents) - due && states == old(states) - due
        && Recover(old(alerts), alerts, old(incidents), due, Retired)
    {
      hide Recover, Book.Close;
      for n := 0 to |order|
        invariant View() == IncidentBook.Sweep(old(View()), order[..n], now)
        invariant forall i | n <= i < |order| :: order[i] in incidents
      {
        assert order[..n + 1][..n] == order[..n];
        var resolveAt := incidents[order[n]].autoResolveAt;
        if resolveAt.Some? && now >= resolveAt.value {
          Close(order[n], Retired);
          states := states - {order[n]};
        }
      }
      assert order[..|order|] == order;
      SweepCloses(old(View()), order, now);
    }

    /** Forgets a rule, closing what it has open. */
    method Retire(key: Key)
      modifies this
      ensures View() == IncidentBook.Retire(old(View()), key)
    {
      states := states - {key};
      if key in incidents {
        Close(key, Retired);
      }
    }

    method AdoptOpen(given: Rule, startedAt: Time, fails: nat, now: Time)
      modifies this
      ensures View() == IncidentBook.AdoptOpen(old(View()), given, startedAt, fails, now)
    {
      var rule := given.Normalized();
      if !adopting || rule.key in incidents || fails < rule.policy.failAfter {
        return;
      }
      Open(rule, startedAt, now, fails, false, false);
    }

    method AdoptFailing(given: Rule, startedAt: Time, held: bool, now: Time) returns (adopted: bool)
      modifies this
      ensures View() == IncidentBook.AdoptFailing(old(View()), given, startedAt, held, now)
      ensures adopted <==> given.key !in old(incidents) && !held
    {
      var rule := given.Normalized();
      if rule.key in incidents || held {
        return false;
      }
      var st := View().StateOf(rule).(oks := 0, fails := rule.policy.failAfter, firstFailAt := startedAt);
      states := states[rule.key := st];
      Open(rule, startedAt, now, st.fails, false, false);
      return true;
    }

    /** The open incidents nobody has been told of, in the given order. */
    method Pending(order: seq<Key>) returns (pending: seq<Key>)
      requires Enumerates(order, incidents.Keys)
      ensures pending == Unannounced(View(), order)
      ensures forall k <- incidents :: incidents[k].notified || k in pending
      ensures forall k <- pending :: k in incidents
    {
      pending := [];
      for n := 0 to |order|
        invariant pending == Unannounced(View(), order[..n])
        invariant forall i | 0 <= i < n :: incidents[order[i]].notified || order[i] in pending
        invariant forall k <- pending :: k in incidents
      {
        assert order[..n + 1][..n] == order[..n];
        assert order[n] in order;
        if !incidents[order[n]].notified {
          pending := pending + [order[n]];
        }
      }
      assert order[..|order|] == order;
      assert forall k <- incidents :: k in order;
    }

    method AnnounceEach(pending: seq<Key>, now: Time, machineOnly: bool)
      requires forall k <- pending :: k in incidents
      requires forall k <- incidents :: incidents[k].notified || k in pending
      modifies this`incidents, this`alerts
      ensures View() == IncidentBook.AnnounceEach(old(View()), pending, now, machineOnly)
      ensures forall k <- incidents :: incidents[k].notified
    {
      for n := 0 to |pending|
        invariant View() == IncidentBook.AnnounceEach(old(View()), pending[..n], now, machineOnly)
        invariant incidents.Keys == old(incidents.Keys)
        invariant forall k <- incidents :: incidents[k].notified || k in pending[n..]
      {
        assert pending[..n + 1][..n] == pending[..n];
        var key := pending[n];
        if !incidents[key].notified {
          alerts := alerts + [ForIncident(Opened, incidents[key].id, NoReason, machineOnly)];
          incidents := incidents[key := incidents[key].(notified := true, lastNotifiedAt := now)];
        }
      }
      assert pending[..|pending|] == pending;
    }

    /** Announces what opened unannounced: one plain alert, or a summary for people and one alert
        each for machines. `order` lists the open incidents oldest first. */
    method Announce(order: seq<Key>, channels: bool, now: Time) returns (covered: nat)
      requires Enumerates(order, incidents.Keys)
      requires forall i, j | 0 <= i < j < |order| :: incidents[order[i]].startedAt <= incidents[order[j]].startedAt
      modifies this
      ensures View() == IncidentBook.Announce(old(View()), Unannounced(old(View()), order), channels, now)
      ensures adopting == old(adopting) && covered == if channels then |Unannounced(old(View()), order)| else 0
      ensures channels ==> forall k <- incidents :: incidents[k].notified
    {
      if !channels {
        return 0;
      }
      var pending := Pending(order);
      if |pending| > 1 {
        alerts := alerts + [Summary(|pending|)];
      }
      AnnounceEach(pending, now, |pending| > 1);
      return |pending|;
    }

    /** Closes the adoption window and announces what it collected. */
    method EndAdoption(order: seq<Key>, channels: bool, now: Time) returns (covered: nat)
      requires Enumerates(order, incidents.Keys)
      requires forall i, j | 0 <= i < j < |order| :: incidents[order[i]].startedAt <= incidents[order[j]].startedAt
      modifies this
      ensures View() == IncidentBook.EndAdoption(old(View()), Unannounced(old(View()), order), channels, now)
      ensures !adopting && covered == if channels then |Unannounced(old(View()), order)| else 0
    {
      adopting := false;
      SameUnannounced(old(View()), View(), order);
      covered := Announce(order, channels, now);
    }

    /** Restores a rule's streak from its history, newest first. */
    method Seed(rule: Rule, history: seq<Sample>)
      modifies this`states
      ensures View() == IncidentBook.Seed(old(View()), rule, history)
    {
      var st := (if rule.key in states then states[rule.key] else RuleState(0, 0, 0, false, NoRule)).(fails := 0, oks := 0, firstFailAt := 0);
      states := states[rule.key := st];
      if history == [] {
        return;
      }
      hide StreakLength;
      var first, n, oldest := history[0].ok, 0, 0;
      while n < |history| && history[n].ok == first
        invariant n <= |history|
        invariant n > 0 ==> oldest == history[n - 1].at
        invariant forall i | 0 <= i < n :: history[i].ok == first
      {
        oldest := history[n].at;
        n := n + 1;
      }
      StreakIs(history, n);
      states := states[rule.key := if first then st.(oks := n) else st.(fails := n, firstFailAt := oldest)];
    }
  }

  lemma LastStateStands(b: Book, key: Key, first: RuleState, last: RuleState)
    ensures b.WithState(key, first).WithState(key, last) == b.WithState(key, last)
  {
    assert b.states[key := first][key := last] == b.states[key := last];
  }

  lemma SameUnannounced(b: Book, b': Book, order: seq<Key>)
    requires b'.incidents == b.incidents
    ensures Unannounced(b, order) == Unannounced(b', order)
  {
  }
}
