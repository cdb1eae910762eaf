/**
 What receivers see of one incident: nothing; or that it opened, then reminders, then at most once
 that it recovered. Proved over every interleaving of the tracker's operations.
 */
module AlertGrammar {
  import opened Wrappers
  import opened IncidentBook

  /** What has been said of an incident so far. */
  datatype Said = Nothing | Open | Over | OutOfOrder

  function Hear(said: Said, kind: Kind): Said {
    match kind
    case Opened => if said.Nothing? then Said.Open else OutOfOrder
    case Repeat => if said.Open? then Said.Open else OutOfOrder
    case Recovered => if said.Open? then Over else OutOfOrder
  }

  function SaidOf(alerts: seq<Alert>, id: IncidentId): Said {
    if alerts == [] then Nothing
    else
      var n := |alerts| - 1;
      var before := SaidOf(alerts[..n], id);
      if alerts[n].ForIncident? && alerts[n].id == id then Hear(before, alerts[n].kind) else before
  }

  /** The alerts of one incident, in order. */
  function KindsOf(alerts: seq<Alert>, id: IncidentId): seq<Kind> {
    if alerts == [] then []
    else
      var n := |alerts| - 1;
      KindsOf(alerts[..n], id) + if alerts[n].ForIncident? && alerts[n].id == id then [alerts[n].kind] else []
  }

  /** Nothing; or opened, then repeats, then at most one recovered. */
  predicate Lawful(kinds: seq<Kind>) {
    kinds != [] ==>
      && kinds[0].Opened?
      && forall i | 0 < i < |kinds| :: kinds[i].Repeat? || (kinds[i].Recovered? && i == |kinds| - 1)
  }

  /** Each open incident has its own id, and receivers have heard exactly what `notified` says. */
  ghost predicate Inv(b: Book) {
    && (forall k <- b.incidents :: b.incidents[k].id < b.nextId)
    && (forall j, k | j in b.incidents && k in b.incidents && j != k :: b.incidents[j].id != b.incidents[k].id)
    && (forall k <- b.incidents :: SaidOf(b.alerts, b.incidents[k].id) == if b.incidents[k].notified then Said.Open else Nothing)
    && (forall id | id >= b.nextId :: SaidOf(b.alerts, id).Nothing?)
    && (forall id :: !SaidOf(b.alerts, id).OutOfOrder?)
    && (forall id | SaidOf(b.alerts, id).Open? :: IsOpen(b, id))
  }

  ghost predicate IsOpen(b: Book, id: IncidentId) { exists k :: k in b.incidents && b.incidents[k].id == id }

  lemma SaidAfter(alerts: seq<Alert>, a: Alert, id: IncidentId)
    ensures SaidOf(alerts + [a], id) ==
      if a.ForIncident? && a.id == id then Hear(SaidOf(alerts, id), a.kind) else SaidOf(alerts, id)
  {
    assert (alerts + [a])[..|alerts|] == alerts;
  }

  lemma StillOpen(b: Book, b': Book)
    requires forall k <- b.incidents :: k in b'.incidents && b'.incidents[k].id == b.incidents[k].id
    ensures forall id | IsOpen(b, id) :: IsOpen(b', id)
  {
    forall id | IsOpen(b, id) ensures IsOpen(b', id) {
      var k :| k in b.incidents && b.incidents[k].id == id;
      assert k in b'.incidents && b'.incidents[k].id == id;
    }
  }

  // ---------------------------------------------------------------- what any operation is made of

  /** States, and alerts about no incident, do not matter. */
  lemma OtherwiseKept(b: Book, states: map<Key, RuleState>, adopting: bool)
    requires Inv(b)
    ensures Inv(b.(states := states, adopting := adopting))
  {
  }

  lemma ToldKept(b: Book, alert: Alert)
    requires Inv(b) && !alert.ForIncident?
    ensures Inv(b.Told(alert))
  {
    forall id ensures SaidOf(b.Told(alert).alerts, id) == SaidOf(b.alerts, id) {
      SaidAfter(b.alerts, alert, id);
    }
  }

  /** An incident's description changes; its identity and whether it was announced do not. */
  lemma UpdateKept(b: Book, key: Key, inc: Incident)
    requires Inv(b) && key in b.incidents && inc.id == b.incidents[key].id && inc.notified == b.incidents[key].notified
    ensures Inv(b.WithIncident(key, inc))
  {
    StillOpen(b, b.WithIncident(key, inc));
  }

  lemma OpenKept(b: Book, rule: Rule, startedAt: Time, now: Time, fails: nat, autoResolve: bool, announce: bool)
    requires Inv(b) && rule.key !in b.incidents
    ensures Inv(b.Open(rule, startedAt, now, fails, autoResolve, announce))
  {
    var b' := b.Open(rule, startedAt, now, fails, autoResolve, announce);
    StillOpen(b, b');
    assert IsOpen(b', b.nextId) by {
      assert b'.incidents[rule.key].id == b.nextId;
    }
    if announce {
      forall id ensures SaidOf(b.alerts + [ForIncident(Opened, b.nextId, NoReason, false)], id) ==
        if id == b.nextId then Said.Open else SaidOf(b.alerts, id)
      {
        SaidAfter(b.alerts, ForIncident(Opened, b.nextId, NoReason, false), id);
      }
    }
  }

  lemma CloseKept(b: Book, key: Key, reason: Reason)
    requires Inv(b) && key in b.incidents
    ensures Inv(b.Close(key, reason))
  {
    var inc := b.incidents[key];
    forall id | IsOpen(b, id) && id != inc.id ensures IsOpen(b.Close(key, reason), id) {
      var k :| k in b.incidents && b.incidents[k].id == id;
      assert b.Close(key, reason).incidents[k].id == id;
    }
    forall id ensures SaidOf(b.alerts + [ForIncident(Recovered, inc.id, reason, false)], id) ==
      if id == inc.id then Hear(SaidOf(b.alerts, id), Recovered) else SaidOf(b.alerts, id)
    {
      SaidAfter(b.alerts, ForIncident(Recovered, inc.id, reason, false), id);
    }
  }

  lemma RemindKept(b: Book, key: Key, inc: Incident, at: Time)
    requires Inv(b) && key in b.incidents && inc.id == b.incidents[key].id
    requires inc.notified && b.incidents[key].notified
    ensures Inv(b.Remind(key, inc, at))
  {
    StillOpen(b, b.Remind(key, inc, at));
    forall id ensures SaidOf(b.alerts + [ForIncident(Repeat, inc.id, NoReason, false)], id) == SaidOf(b.alerts, id) {
      SaidAfter(b.alerts, ForIncident(Repeat, inc.id, NoReason, false), id);
    }
  }

  lemma AnnounceOneKept(b: Book, key: Key, now: Time, machineOnly: bool)
    requires Inv(b)
    ensures Inv(AnnounceOne(b, key, now, machineOnly))
  {
    if key in b.incidents && !b.incidents[key].notified {
      StillOpen(b, AnnounceOne(b, key, now, machineOnly));
      var inc := b.incidents[key];
      assert IsOpen(b, inc.id);
      forall id ensures SaidOf(b.alerts + [ForIncident(Opened, inc.id, NoReason, machineOnly)], id) ==
        if id == inc.id then Said.Open else SaidOf(b.alerts, id)
      {
        SaidAfter(b.alerts, ForIncident(Opened, inc.id, NoReason, machineOnly), id);
      }
    }
  }

  // ---------------------------------------------------------------- the operations

  datatype Op =
    | DoObserve(rule: Rule, ok: bool, at: Time, isHeld: bool, channels: bool)
    | DoRelease(order: seq<Key>, held: Chosen, channels: bool, at: Time)
    | DoClose(order: seq<Key>, chosen: Chosen, reason: Reason)
    | DoSweep(order: seq<Key>, at: Time)
    | DoRetire(key: Key)
    | DoAdoptOpen(rule: Rule, startedAt: Time, fails: nat, at: Time)
    | DoAdoptFailing(rule: Rule, startedAt: Time, isHeld: bool, at: Time)
    | DoAnnounce(order: seq<Key>, channels: bool, at: Time)
    | DoEndAdoption(order: seq<Key>, channels: bool, at: Time)
    | DoSeed(rule: Rule, history: seq<Sample>)

  function Do(b: Book, op: Op): Book {
    match op
    case DoObserve(rule, ok, at, held, channels) => Observe(b, rule, ok, at, held, channels)
    case DoRelease(order, held, channels, at) => ReleaseHolds(b, order, held, channels, at)
    case DoClose(order, chosen, reason) => CloseMatching(b, order, chosen, reason)
    case DoSweep(order, at) => Sweep(b, order, at)
    case DoRetire(key) => Retire(b, key)
    case DoAdoptOpen(rule, startedAt, fails, at) => AdoptOpen(b, rule, startedAt, fails, at)
    case DoAdoptFailing(rule, startedAt, held, at) => AdoptFailing(b, rule, startedAt, held, at)
    case DoAnnounce(order, channels, at) => Announce(b, order, channels, at)
    case DoEndAdoption(order, channels, at) => EndAdoption(b, order, channels, at)
    case DoSeed(rule, history) => Seed(b, rule, history)
  }

  lemma ObserveKept(b: Book, given: Rule, ok: bool, at: Time, held: bool, channels: bool)
    requires Inv(b)
    ensures Inv(Observe(b, given, ok, at, held, channels))
  {
    hide Inv;
    var rule := given.Normalized();
    var key, st := rule.key, b.StateOf(rule);
    if !ok {
      var st1 := st.(oks := 0, fails := st.fails + 1, firstFailAt := if st.fails == 0 then at else st.firstFailAt);
      var b1 := b.WithState(key, st1);
      OtherwiseKept(b, b1.states, b.adopting);
      if key in b.incidents {
        StillFailingKept(b1, rule, b.incidents[key], st1.fails, at, held, channels);
      } else if st1.fails >= rule.policy.failAfter {
        var b2 := b.WithState(key, st1.(held := held));
        OtherwiseKept(b, b2.states, b.adopting);
        if held {
          ToldKept(b2, Journaled(key));
        } else {
          OpenKept(b2, rule, st1.firstFailAt, at, st1.fails, true, !b.adopting && channels);
        }
      }
    } else {
      var b1 := b.WithState(key, st.(fails := 0, firstFailAt := 0, held := false, oks := st.oks + 1));
      OtherwiseKept(b, b1.states, b.adopting);
      if key in b.incidents {
        CloseKept(b1, key, Healthy);
      }
    }
  }

  lemma StillFailingKept(b: Book, rule: Rule, inc: Incident, fails: nat, at: Time, held: bool, channels: bool)
    requires Inv(b) && rule.key in b.incidents && inc == b.incidents[rule.key]
    ensures Inv(StillFailing(b, rule, inc, fails, at, held, channels))
  {
    hide Inv;
    var now := inc.(severity := rule.severity, fails := fails);
    var p := rule.policy;
    var later := if p.autoResolveAfter > 0 then now.(autoResolveAt := Some(at + p.autoResolveAfter)) else now;
    UpdateKept(b, rule.key, later);
    if inc.notified {
      RemindKept(b, rule.key, now, at);
      RemindKept(b, rule.key, later, at);
    }
  }

  lemma {:induction false} ReleaseKept(b: Book, order: seq<Key>, held: Chosen, channels: bool, now: Time)
    requires Inv(b)
    ensures Inv(ReleaseHolds(b, order, held, channels, now))
  {
    hide Inv;
    if order != [] {
      var n := |order| - 1;
      ReleaseKept(b, order[..n], held, channels, now);
      var b1, key := ReleaseHolds(b, order[..n], held, channels, now), order[n];
      if key in b1.states && key !in b1.incidents {
        var st := b1.states[key];
        var b2 := b1.WithState(key, st.(held := false));
        OtherwiseKept(b1, b2.states, b1.adopting);
        OpenKept(b2, st.rule.(key := key), st.firstFailAt, now, st.fails, true, !b1.adopting && channels);
      }
    }
  }

  lemma {:induction false} CloseAllKept(b: Book, order: seq<Key>, chosen: Chosen, reason: Reason)
    requires Inv(b)
    ensures Inv(CloseMatching(b, order, chosen, reason))
  {
    if order != [] {
      var n := |order| - 1;
      CloseAllKept(b, order[..n], chosen, reason);
      var b1 := CloseMatching(b, order[..n], chosen, reason);
      if order[n] in b1.incidents {
        CloseKept(b1, order[n], reason);
      }
    }
  }

  lemma {:induction false} SweepKept(b: Book, order: seq<Key>, now: Time)
    requires Inv(b)
    ensures Inv(Sweep(b, order, now))
  {
    if order != [] {
      var n := |order| - 1;
      SweepKept(b, order[..n], now);
      var b1 := Sweep(b, order[..n], now);
      if order[n] in b1.incidents {
        CloseKept(b1, order[n], Retired);
        OtherwiseKept(b1.Close(order[n], Retired), b1.states - {order[n]}, b1.adopting);
      }
    }
  }

  lemma {:induction false} AnnounceEachKept(b: Book, pending: seq<Key>, now: Time, machineOnly: bool)
    requires Inv(b)
    ensures Inv(AnnounceEach(b, pending, now, machineOnly))
  {
    if pending != [] {
      var n := |pending| - 1;
      AnnounceEachKept(b, pending[..n], now, machineOnly);
      AnnounceOneKept(AnnounceEach(b, pending[..n], now, machineOnly), pending[n], now, machineOnly);
    }
  }

  lemma AnnounceKept(b: Book, pending: seq<Key>, channels: bool, now: Time)
    requires Inv(b)
    ensures Inv(Announce(b, pending, channels, now))
  {
    AnnounceEachKept(b, pending, now, false);
    ToldKept(b, Summary(|pending|));
    AnnounceEachKept(b.Told(Summary(|pending|)), pending, now, true);
  }

  lemma AdoptKept(b: Book, op: Op)
    requires Inv(b) && (op.DoAdoptOpen? || op.DoAdoptFailing?)
    ensures Inv(Do(b, op))
  {
    hide Inv;
    var rule := op.rule.Normalized();
    if rule.key !in b.incidents {
      if op.DoAdoptOpen? {
        OpenKept(b, rule, op.startedAt, op.at, op.fails, false, false);
      } else {
        var st := b.StateOf(rule).(oks := 0, fails := rule.policy.failAfter, firstFailAt := op.startedAt);
        OtherwiseKept(b, b.WithState(rule.key, st).states, b.adopting);
        OpenKept(b.WithState(rule.key, st), rule, op.startedAt, op.at, st.fails, false, false);
      }
    }
  }

  lemma InvKept(b: Book, op: Op)
    requires Inv(b)
    ensures Inv(Do(b, op))
  {
    hide Inv;
    match op
    case DoObserve(rule, ok, at, held, channels) => ObserveKept(b, rule, ok, at, held, channels);
    case DoRelease(order, held, channels, at) => ReleaseKept(b, order, held, channels, at);
    case DoClose(order, chosen, reason) => CloseAllKept(b, order, chosen, reason);
    case DoSweep(order, at) => SweepKept(b, order, at);
    case DoRetire(key) =>
      OtherwiseKept(b, b.states - {key}, b.adopting);
      if key in b.incidents {
        CloseKept(b.(states := b.states - {key}), key, Retired);
      }
    case DoAdoptOpen(_, _, _, _) => AdoptKept(b, op);
    case DoAdoptFailing(_, _, _, _) => AdoptKept(b, op);
    case DoAnnounce(order, channels, at) => AnnounceKept(b, order, channels, at);
    case DoEndAdoption(order, channels, at) =>
      OtherwiseKept(b, b.states, false);
      AnnounceKept(b.(adopting := false), order, channels, at);
    case DoSeed(rule, history) => OtherwiseKept(b, Seed(b, rule, history).states, b.adopting);
  }

  function Run(b: Book, ops: seq<Op>): Book {
    if ops == [] then b else Do(Run(b, ops[..|ops| - 1]), ops[|ops| - 1])
  }

  lemma LawfulStep(before: seq<Kind>, kind: Kind)
    ensures Lawful(before + [kind]) <==>
      && Lawful(before)
      && if before == [] then kind.Opened? else !kind.Opened? && !before[|before| - 1].Recovered?
  {
    var kinds := before + [kind];
    assert kinds[|before|] == kind;
    assert forall i | 0 <= i < |before| :: before[i] == kinds[i];
    if Lawful(kinds) && before != [] {
      assert !kinds[|before| - 1].Recovered?;
    }
  }

  /** Hearing never goes out of order exactly when the alerts are lawful. */
  lemma {:induction false} LawfulWhenInOrder(alerts: seq<Alert>, id: IncidentId)
    ensures !SaidOf(alerts, id).OutOfOrder? <==> Lawful(KindsOf(alerts, id))
    ensures !SaidOf(alerts, id).OutOfOrder? ==>
      var kinds := KindsOf(alerts, id);
      SaidOf(alerts, id) == if kinds == [] then Nothing else if kinds[|kinds| - 1].Recovered? then Over else Said.Open
  {
    if alerts != [] {
      var n := |alerts| - 1;
      LawfulWhenInOrder(alerts[..n], id);
      Next(alerts, id);
      hide SaidOf, KindsOf, Lawful;
      if alerts[n].ForIncident? && alerts[n].id == id {
        var before := KindsOf(alerts[..n], id);
        LawfulStep(before, alerts[n].kind);
        assert (before + [alerts[n].kind])[|before|] == alerts[n].kind;
      }
    }
  }

  lemma Next(alerts: seq<Alert>, id: IncidentId)
    requires alerts != []
    ensures var n := |alerts| - 1;
      if alerts[n].ForIncident? && alerts[n].id == id then
        && SaidOf(alerts, id) == Hear(SaidOf(alerts[..n], id), alerts[n].kind)
        && KindsOf(alerts, id) == KindsOf(alerts[..n], id) + [alerts[n].kind]
      else SaidOf(alerts, id) == SaidOf(alerts[..n], id) && KindsOf(alerts, id) == KindsOf(alerts[..n], id)
  {
    assert KindsOf(alerts[..|alerts| - 1], id) + [] == KindsOf(alerts[..|alerts| - 1], id);
  }

  /**
   The alert grammar: from a book in which nothing has happened, whatever the tracker is asked to
   do and in whatever order, each incident's alerts are lawful, no two open incidents share an id,
   and an incident was announced open exactly when it is marked so. Once it has closed, receivers
   have heard nothing of it, or heard last that it recovered.
   */
  lemma {:induction false} AlertsAreLawful(b: Book, ops: seq<Op>)
    requires b.incidents == map[] && b.alerts == []
    ensures Inv(Run(b, ops))
    ensures forall id :: Lawful(KindsOf(Run(b, ops).alerts, id))
    ensures forall k <- Run(b, ops).incidents ::
      KindsOf(Run(b, ops).alerts, Run(b, ops).incidents[k].id) != [] <==> Run(b, ops).incidents[k].notified
    ensures forall id | !IsOpen(Run(b, ops), id) ::
      var kinds := KindsOf(Run(b, ops).alerts, id); kinds == [] || kinds[|kinds| - 1].Recovered?
  {
    if ops == [] {
      assert Inv(b);
    } else {
      AlertsAreLawful(b, ops[..|ops| - 1]);
      InvKept(Run(b, ops[..|ops| - 1]), ops[|ops| - 1]);
    }
    var b' := Run(b, ops);
    forall id ensures Lawful(KindsOf(b'.alerts, id)) {
      LawfulWhenInOrder(b'.alerts, id);
    }
    forall id | !IsOpen(b', id)
      ensures var kinds := KindsOf(b'.alerts, id); kinds == [] || kinds[|kinds| - 1].Recovered?
    {
      LawfulWhenInOrder(b'.alerts, id);
    }
    forall k <- b'.incidents ensures KindsOf(b'.alerts, b'.incidents[k].id) != [] <==> b'.incidents[k].notified {
      LawfulWhenInOrder(b'.alerts, b'.incidents[k].id);
    }
  }
}
