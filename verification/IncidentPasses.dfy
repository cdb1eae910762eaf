/**
 The three passes over the tracker's maps, whatever order they visit the keys in: which incidents open or
 close, what becomes of the rules, and that receivers hear of each exactly once.
 */
module IncidentPasses {
  import opened Wrappers
  import opened IncidentBook

  /** Every key once, in any order. */
  ghost predicate Enumerates(order: seq<Key>, keys: set<Key>) {
    && (forall k :: k in order <==> k in keys)
    && (forall i, j | 0 <= i < j < |order| :: order[i] != order[j])
  }

  /** The part of `order` that is in `chosen`. */
  function Only(order: seq<Key>, chosen: set<Key>): seq<Key> {
    if order == [] then []
    else
      var n := |order| - 1;
      Only(order[..n], chosen) + if order[n] in chosen then [order[n]] else []
  }

  /** The keys of `order` whose incident has not been announced. */
  function Unannounced(b: Book, order: seq<Key>): seq<Key> {
    Only(order, set k | k in b.incidents && !b.incidents[k].notified)
  }

  lemma OnlyLast(order: seq<Key>, chosen: set<Key>)
    requires order != []
    ensures var n := |order| - 1;
      Only(order, chosen) == if order[n] in chosen then Only(order[..n], chosen) + [order[n]] else Only(order[..n], chosen)
  {}

  lemma AllButLast(order: seq<Key>, keys: set<Key>)
    requires Enumerates(order, keys) && order != []
    ensures var n := |order| - 1;
      && Enumerates(order[..n], keys - {order[n]}) && order[n] in keys && order[n] !in order[..n]
      && keys == (keys - {order[n]}) + {order[n]}
  {
    assert forall k :: k in order <==> k in order[..|order| - 1] || k == order[|order| - 1];
  }

  lemma OneMore(order: seq<Key>, keys: set<Key>, key: Key)
    requires Enumerates(order, keys) && key !in keys
    ensures Enumerates(order + [key], keys + {key})
  {}

  lemma {:induction false} OnlyEnumerates(order: seq<Key>, keys: set<Key>, chosen: set<Key>)
    requires Enumerates(order, keys)
    ensures Enumerates(Only(order, chosen), keys * chosen)
    decreases |order|
  {
    if order != [] {
      var n := |order| - 1;
      AllButLast(order, keys);
      OnlyEnumerates(order[..n], keys - {order[n]}, chosen);
      hide Enumerates;
      if order[n] in chosen {
        OneMore(Only(order[..n], chosen), (keys - {order[n]}) * chosen, order[n]);
        assert keys * chosen == (keys - {order[n]}) * chosen + {order[n]};
      } else {
        assert keys * chosen == (keys - {order[n]}) * chosen;
      }
    }
  }

  // ---------------------------------------------------------------- closing

  function Announced(incidents: map<Key, Incident>, chosen: set<Key>): set<Key> {
    set k | k in incidents && k in chosen && incidents[k].notified
  }

  /** One recovery for each of these, in this order. */
  function Recoveries(incidents: map<Key, Incident>, keys: seq<Key>, reason: Reason): seq<Alert>
    requires forall k <- keys :: k in incidents
  {
    seq(|keys|, i requires 0 <= i < |keys| => ForIncident(Recovered, incidents[keys[i]].id, reason, false))
  }

  /** One recovery for each chosen incident that was announced, and for no other. */
  ghost predicate Recover(alerts: seq<Alert>, alerts': seq<Alert>, incidents: map<Key, Incident>, chosen: set<Key>, reason: Reason) {
    exists keys ::
      Enumerates(keys, Announced(incidents, chosen)) && alerts' == alerts + Recoveries(incidents, keys, reason)
  }

  /** The book after closing some of its incidents, telling receivers of these. */
  function Closed(b: Book, gone: set<Key>, told: seq<Key>, reason: Reason): Book
    requires forall k <- told :: k in b.incidents
  {
    b.(incidents := b.incidents - gone, alerts := b.alerts + Recoveries(b.incidents, told, reason))
  }

  lemma ClosesNext(b: Book, gone: set<Key>, told: seq<Key>, key: Key, reason: Reason)
    requires (forall k <- told :: k in b.incidents) && key in b.incidents && key !in gone
    ensures var told' := if b.incidents[key].notified then told + [key] else told;
      Closed(b, gone, told, reason).Close(key, reason) == Closed(b, gone + {key}, told', reason)
  {
    assert b.incidents - (gone + {key}) == (b.incidents - gone) - {key};
    if b.incidents[key].notified {
      assert Recoveries(b.incidents, told + [key], reason)
          == Recoveries(b.incidents, told, reason) + [ForIncident(Recovered, b.incidents[key].id, reason, false)];
    }
  }

  lemma {:induction false} ClosedSoFar(b: Book, order: seq<Key>, keys: set<Key>, chosen: set<Key>, reason: Reason)
    requires Enumerates(order, keys) && keys <= b.incidents.Keys
    ensures var told := Only(order, Announced(b.incidents, chosen));
      (forall k <- told :: k in b.incidents) && CloseMatching(b, order, chosen, reason) == Closed(b, keys * chosen, told, reason)
    decreases |order|
  {
    OnlyEnumerates(order, keys, Announced(b.incidents, chosen));
    if order == [] {
      assert b.incidents - (keys * chosen) == b.incidents;
    } else {
      var n, key := |order| - 1, order[|order| - 1];
      var gone := (keys - {key}) * chosen;
      AllButLast(order, keys);
      OnlyLast(order, Announced(b.incidents, chosen));
      assert CloseMatching(b, order, chosen, reason) == CloseOne(CloseMatching(b, order[..n], chosen, reason), key, chosen, reason);
      assert key in chosen && b.incidents[key].notified <==> key in Announced(b.incidents, chosen);
      hide Enumerates, Only, CloseMatching, Closed, Announced;
      ClosedSoFar(b, order[..n], keys - {key}, chosen, reason);
      if key in chosen {
        ClosesNext(b, gone, Only(order[..n], Announced(b.incidents, chosen)), key, reason);
        assert keys * chosen == gone + {key};
        StillOpen(b, gone, Only(order[..n], Announced(b.incidents, chosen)), key, reason);
      } else {
        assert keys * chosen == gone;
      }
    }
  }

  lemma StillOpen(b: Book, gone: set<Key>, told: seq<Key>, key: Key, reason: Reason)
    requires (forall k <- told :: k in b.incidents) && key in b.incidents && key !in gone
    ensures key in Closed(b, gone, told, reason).incidents && Closed(b, gone, told, reason).incidents[key] == b.incidents[key]
  {}

  /** Exactly the chosen incidents close; rules keep their streaks. */
  lemma CloseMatchingCloses(b: Book, order: seq<Key>, chosen: set<Key>, reason: Reason)
    requires Enumerates(order, b.incidents.Keys)
    ensures var b' := CloseMatching(b, order, chosen, reason);
      && b' == b.(incidents := b.incidents - chosen, alerts := b'.alerts)
      && Recover(b.alerts, b'.alerts, b.incidents, chosen, reason)
  {
    var announced := Announced(b.incidents, chosen);
    ClosedSoFar(b, order, b.incidents.Keys, chosen, reason);
    assert b.incidents - (b.incidents.Keys * chosen) == b.incidents - chosen;
    OnlyEnumerates(order, b.incidents.Keys, announced);
    assert b.incidents.Keys * announced == announced;
  }

  // ---------------------------------------------------------------- sweeping

  function Due(incidents: map<Key, Incident>, now: Time): set<Key> {
    set k | k in incidents && incidents[k].autoResolveAt.Some? && now >= incidents[k].autoResolveAt.value
  }

  lemma {:induction false} SweptSoFar(b: Book, order: seq<Key>, keys: set<Key>, now: Time)
    requires Enumerates(order, keys) && keys <= b.incidents.Keys
    ensures var due := Due(b.incidents, now);
      Sweep(b, order, now) == CloseMatching(b, order, due, Retired).(states := b.states - (keys * due))
    decreases |order|
  {
    var due := Due(b.incidents, now);
    if order == [] {
      assert b.states - (keys * due) == b.states;
    } else {
      var n, key := |order| - 1, order[|order| - 1];
      AllButLast(order, keys);
      assert Sweep(b, order, now) == SweepOne(Sweep(b, order[..n], now), key, now);
      assert CloseMatching(b, order, due, Retired) == CloseOne(CloseMatching(b, order[..n], due, Retired), key, due, Retired);
      ClosedSoFar(b, order[..n], keys - {key}, due, Retired);
      StillOpen(b, (keys - {key}) * due, Only(order[..n], Announced(b.incidents, due)), key, Retired);
      assert key in due <==> b.incidents[key].autoResolveAt.Some? && now >= b.incidents[key].autoResolveAt.value;
      hide *;
      SweptSoFar(b, order[..n], keys - {key}, now);
      SweepsAsCloses(b, order[..n], (keys - {key}) * due, key, now, due);
      assert b.states - (keys * due) == (b.states - ((keys - {key}) * due)) - (if key in due then {key} else {});
    }
  }

  lemma SweepsAsCloses(b: Book, order: seq<Key>, keys: set<Key>, key: Key, now: Time, due: set<Key>)
    requires var closed := CloseMatching(b, order, due, Retired);
      key in b.incidents && key in closed.incidents && closed.incidents[key] == b.incidents[key]
    requires key in due <==> b.incidents[key].autoResolveAt.Some? && now >= b.incidents[key].autoResolveAt.value
    ensures var closed, swept := CloseMatching(b, order, due, Retired), b.states - keys;
      SweepOne(closed.(states := swept), key, now)
        == CloseOne(closed, key, due, Retired).(states := swept - (if key in due then {key} else {}))
  {
    hide CloseMatching;
  }

  /** Exactly the incidents whose time has passed close, and exactly their rules are forgotten. */
  lemma SweepCloses(b: Book, order: seq<Key>, now: Time)
    requires Enumerates(order, b.incidents.Keys)
    ensures var b', due := Sweep(b, order, now), Due(b.incidents, now);
      && b' == b.(incidents := b.incidents - due, states := b.states - due, alerts := b'.alerts)
      && Recover(b.alerts, b'.alerts, b.incidents, due, Retired)
  {
    SweptSoFar(b, order, b.incidents.Keys, now);
    CloseMatchingCloses(b, order, Due(b.incidents, now), Retired);
    assert b.incidents.Keys * Due(b.incidents, now) == Due(b.incidents, now);
  }

  // ---------------------------------------------------------------- releasing

  /** Held back, nothing open, still failing, and not held now. */
  function Released(b: Book, held: Chosen): set<Key> {
    set k | k in b.states && b.states[k].held && k !in b.incidents
              && b.states[k].fails >= b.states[k].rule.policy.Normalized().failAfter && k !in held
  }

  function Cleared(states: map<Key, RuleState>, released: set<Key>): map<Key, RuleState> {
    map k | k in states :: if k in released then states[k].(held := false) else states[k]
  }

  /** The incident a released rule opens. */
  function OpenedLate(st: RuleState, id: IncidentId, now: Time, announce: bool): Incident {
    var resolve := st.rule.policy.autoResolveAfter;
    Incident(id, st.rule.severity, st.firstFailAt, now, announce, if announce then now else 0, st.fails,
             if resolve > 0 then Some(now + resolve) else None)
  }

  /** From `first` on, one opening each. */
  function Openings(first: IncidentId, count: nat): seq<Alert> {
    seq(count, i requires 0 <= i < count => ForIncident(Opened, first + i, NoReason, false))
  }

  /** These rules have each opened one incident under ids in turn, announced or not; nothing else has changed. */
  ghost predicate OpensEach(b: Book, b': Book, keys: seq<Key>, now: Time, announce: bool)
    requires forall k <- keys :: k in b.states
  {
    && b'.incidents.Keys == b.incidents.Keys + (set k | k in keys)
    && (forall k <- b.incidents | k !in keys :: b'.incidents[k] == b.incidents[k])
    && (forall i | 0 <= i < |keys| :: b'.incidents[keys[i]] == OpenedLate(b.states[keys[i]], b.nextId + i, now, announce))
    && b'.states == Cleared(b.states, set k | k in keys)
    && b'.nextId == b.nextId + |keys|
    && b'.alerts == b.alerts + (if announce then Openings(b.nextId, |keys|) else [])
    && b'.adopting == b.adopting
  }

  /** One more rule opens. */
  function OpenedOne(b: Book, st: RuleState, key: Key, now: Time, announce: bool): Book {
    b.WithState(key, st.(held := false)).Open(st.rule.(key := key), st.firstFailAt, now, st.fails, true, announce)
  }

  lemma ClearsNext(states: map<Key, RuleState>, keys: seq<Key>, key: Key)
    requires key in states
    ensures Cleared(states, set k | k in keys)[key := states[key].(held := false)] == Cleared(states, set k | k in keys + [key])
  {}

  lemma TellsNext(first: IncidentId, count: nat)
    ensures Openings(first, count + 1) == Openings(first, count) + [ForIncident(Opened, first + count, NoReason, false)]
  {}

  lemma OpensNext(b: Book, b1: Book, keys: seq<Key>, key: Key, now: Time, announce: bool)
    requires (forall k <- keys :: k in b.states) && OpensEach(b, b1, keys, now, announce)
    requires key in b.states && key !in keys
    ensures OpensEach(b, OpenedOne(b1, b.states[key], key, now, announce), keys + [key], now, announce)
  {
    var b2 := OpenedOne(b1, b.states[key], key, now, announce);
    ClearsNext(b.states, keys, key);
    TellsNext(b.nextId, |keys|);
    assert b2.incidents == b1.incidents[key := OpenedLate(b.states[key], b.nextId + |keys|, now, announce)];
    assert b2.states == b1.states[key := b.states[key].(held := false)] && b2.nextId == b1.nextId + 1 && b2.adopting == b1.adopting;
    assert b2.alerts == b1.alerts + if announce then [ForIncident(Opened, b.nextId + |keys|, NoReason, false)] else [];
    hide Cleared, Openings, OpenedOne, OpenedLate;
    IncidentsGrow(b.incidents, b1.incidents, keys, key, b2.incidents[key]);
  }

  lemma IncidentsGrow(before: map<Key, Incident>, now: map<Key, Incident>, keys: seq<Key>, key: Key, inc: Incident)
    requires now.Keys == before.Keys + (set k | k in keys)
    requires forall k <- before | k !in keys :: now[k] == before[k]
    ensures now[key := inc].Keys == before.Keys + (set k | k in keys + [key])
    ensures forall k <- before | k !in keys + [key] :: now[key := inc][k] == before[k]
  {}

  /** The pass decides about a rule as it stood before the pass. */
  lemma DecidesAsBefore(b: Book, b1: Book, told: seq<Key>, key: Key, held: Chosen, channels: bool, now: Time, announce: bool)
    requires (forall k <- told :: k in b.states) && OpensEach(b, b1, told, now, announce) && key in b.states && key !in told
    requires announce == (!b.adopting && channels)
    ensures ReleaseOne(b1, key, held, channels, now)
         == if key in Released(b, held) then OpenedOne(b1, b.states[key], key, now, announce) else b1
  {
    hide Openings;
    assert b1.states[key] == b.states[key] && (key in b1.incidents <==> key in b.incidents) && b1.adopting == b.adopting;
    hide OpensEach;
  }

  lemma NoneReleased(b: Book, released: set<Key>, held: Chosen, channels: bool, now: Time, announce: bool)
    ensures Only([], released) == [] && ReleaseHolds(b, [], held, channels, now) == b && OpensEach(b, b, [], now, announce)
  {
    assert Cleared(b.states, set k: Key | k in []) == b.states;
  }

  lemma ReleaseLast(b: Book, order: seq<Key>, held: Chosen, channels: bool, now: Time)
    requires order != []
    ensures ReleaseHolds(b, order, held, channels, now)
         == ReleaseOne(ReleaseHolds(b, order[..|order| - 1], held, channels, now), order[|order| - 1], held, channels, now)
  {}

  lemma OnlyThese(b: Book, order: seq<Key>, keys: set<Key>, held: Chosen)
    requires Enumerates(order, keys)
    ensures forall k <- Only(order, Released(b, held)) :: k in b.states && k in keys
  {
    OnlyEnumerates(order, keys, Released(b, held));
  }

  lemma {:induction false} ReleasedSoFar(b: Book, order: seq<Key>, keys: set<Key>, held: Chosen, channels: bool, now: Time)
    requires Enumerates(order, keys) && keys <= b.states.Keys
    ensures forall k <- Only(order, Released(b, held)) :: k in b.states
    ensures OpensEach(b, ReleaseHolds(b, order, held, channels, now), Only(order, Released(b, held)), now, !b.adopting && channels)
    decreases |order|
  {
    hide *;
    var released, announce := Released(b, held), !b.adopting && channels;
    OnlyThese(b, order, keys, held);
    if order == [] {
      NoneReleased(b, released, held, channels, now, announce);
    } else {
      var n, key := |order| - 1, order[|order| - 1];
      AllButLast(order, keys);
      OnlyLast(order, released);
      OnlyThese(b, order[..n], keys - {key}, held);
      ReleaseLast(b, order, held, channels, now);
      ReleasedSoFar(b, order[..n], keys - {key}, held, channels, now);
      var b1, told := ReleaseHolds(b, order[..n], held, channels, now), Only(order[..n], released);
      DecidesAsBefore(b, b1, told, key, held, channels, now, announce);
      if key in released {
        OpensNext(b, b1, told, key, now, announce);
      }
    }
  }

  /** Exactly the rules held back, still failing and no longer held open, once each. */
  lemma ReleaseHoldsOpens(b: Book, order: seq<Key>, held: Chosen, channels: bool, now: Time)
    requires Enumerates(order, b.states.Keys)
    ensures exists keys ::
      && Enumerates(keys, Released(b, held)) && |keys| == ReleaseHolds(b, order, held, channels, now).nextId - b.nextId
      && OpensEach(b, ReleaseHolds(b, order, held, channels, now), keys, now, !b.adopting && channels)
  {
    var keys := Only(order, Released(b, held));
    ReleasedSoFar(b, order, b.states.Keys, held, channels, now);
    OnlyEnumerates(order, b.states.Keys, Released(b, held));
    assert b.states.Keys * Released(b, held) == Released(b, held);
    assert Enumerates(keys, Released(b, held));
  }
}
