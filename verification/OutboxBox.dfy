/**
 The alert outbox as a function of its state: delivery records by id, in creation order, and the
 journal lines that make them durable. One channel leg of a record is delivered, or waits, or is
 dead-lettered on its own account.
 */
module OutboxBox {
  import opened Wrappers

  type Id = string
  type Channel = string
  type Time = int

  datatype EventKind = Opened | Repeat | Recovered | Other

  /** What an alert says, as far as delivery is concerned. */
  datatype Event = Event(kind: EventKind, incident: Option<nat>)

  datatype Status = Pending | Delivered | DeadLettered | Suppressed | Superseded

  datatype Leg = Leg(status: Status, attempts: nat)

  /** `legs` is absent on records from before per-channel accounting. `serial` numbers the
      records as they are made, and so tells apart two that had the same delivery id. */
  datatype Record = Record(
    id: Id, serial: nat, event: Event, status: Status, attempts: nat,
    nextAttemptAt: Option<Time>, createdAt: Time, legs: Option<map<Channel, Leg>>)
  {
    function LegStatus(c: Channel): Status {
      if legs.Some? && c in legs.value then legs.value[c].status else Pending
    }
  }

  datatype Box = Box(records: map<Id, Record>, order: seq<Id>, nextSerial: nat)

  const Empty := Box(map[], [], 0)

  /** The alerts a recovery makes pointless: its incident's own undelivered opening and reminders. */
  predicate Outdated(rec: Record, recovery: Event) {
    && recovery.kind.Recovered? && recovery.incident.Some?
    && rec.status.Pending? && rec.event.incident == recovery.incident
    && (rec.event.kind.Opened? || rec.event.kind.Repeat?)
  }

  function Retired(rec: Record): Record { rec.(status := Superseded, nextAttemptAt := None) }

  /** Accepts an event for delivery, deduplicated by id; a recovery supersedes what it outdates. */
  function Enqueue(b: Box, id: Id, event: Event, now: Time): Box {
    if id in b.records then b
    else
      var rec := Record(id, b.nextSerial, event, Pending, 0, Some(now), now, None);
      Box((map x | x in b.records :: if Outdated(b.records[x], event) then Retired(b.records[x]) else b.records[x])[id := rec],
          b.order + [id], b.nextSerial + 1)
  }

  /** Journals an alert that was held rather than sent. It is never delivered. */
  function Hold(b: Box, id: Id, event: Event, now: Time): Box {
    if id in b.records then b
    else Box(b.records[id := Record(id, b.nextSerial, event, Suppressed, 0, None, now, None)], b.order + [id], b.nextSerial + 1)
  }

  predicate Due(rec: Record, now: Time) { rec.status.Pending? && rec.nextAttemptAt.Some? && rec.nextAttemptAt.value <= now }

  // ---------------------------------------------------------------- one attempt

  datatype Outcome = Outcome(channel: Channel, acked: bool)

  /** The alert configuration as an attempt finds it: unreadable, or the channels this event goes to. */
  datatype Config = Unreadable | Goes(channels: seq<Channel>)

  datatype Limits = Limits(maxAttempts: nat, base: Time, max: Time, maxRetained: nat) {
    ghost predicate Valid() { maxAttempts > 0 && base > 0 && max > 0 && maxRetained > 0 }
  }

  function Marked(legs: map<Channel, Leg>, out: Outcome): map<Channel, Leg> {
    var before := if out.channel in legs then legs[out.channel].attempts else 0;
    legs[out.channel := Leg(if out.acked then Delivered else Pending, before + 1)]
  }

  function MarkedAll(legs: map<Channel, Leg>, outcomes: seq<Outcome>): map<Channel, Leg> {
    if outcomes == [] then legs
    else Marked(MarkedAll(legs, outcomes[..|outcomes| - 1]), outcomes[|outcomes| - 1])
  }

  /** An empty ledger is made only once there is something to enter. */
  function Ledger(rec: Record, outcomes: seq<Outcome>): Option<map<Channel, Leg>> {
    if rec.legs.None? && outcomes == [] then None
    else Some(MarkedAll(if rec.legs.Some? then rec.legs.value else map[], outcomes))
  }

  function DeadLegs(legs: map<Channel, Leg>): map<Channel, Leg> {
    map c | c in legs :: if legs[c].status.Pending? then legs[c].(status := DeadLettered) else legs[c]
  }

  function Power(n: nat): nat { if n == 0 then 1 else 2 * Power(n - 1) }

  /** One base interval before the first retry, doubling from there up to the maximum. */
  function Backoff(limits: Limits, attempts: nat): Time
    requires attempts > 0
  {
    var d := limits.base * Power(attempts - 1);
    if d > limits.max then limits.max else d
  }

  /** A pending record after an attempt whose channels answered `outcomes`. */
  function Settled(rec: Record, config: Config, outcomes: seq<Outcome>, retryAfter: Time, now: Time, limits: Limits): Record {
    var tried := rec.(attempts := rec.attempts + 1, legs := Ledger(rec, outcomes));
    if config.Goes? && (tried.legs.None? || forall c <- config.channels :: tried.LegStatus(c).Delivered?) then
      tried.(status := Delivered, nextAttemptAt := None)
    else if tried.attempts >= limits.maxAttempts then
      tried.(status := DeadLettered, nextAttemptAt := None,
             legs := if tried.legs.Some? then Some(DeadLegs(tried.legs.value)) else None)
    else
      var wait := Backoff(limits, tried.attempts);
      tried.(nextAttemptAt := Some(now + if retryAfter > wait then retryAfter else wait))
  }

  /** The outcome lands only on a record still pending: a terminal transition meanwhile wins. */
  function Settle(b: Box, snap: Record, config: Config, outcomes: seq<Outcome>, retryAfter: Time, now: Time, limits: Limits): Box {
    if snap.id in b.records && b.records[snap.id].status.Pending? then
      b.(records := b.records[snap.id := Settled(b.records[snap.id], config, outcomes, retryAfter, now, limits)])
    else b
  }

  // ---------------------------------------------------------------- retention

  /** What compaction keeps: it passes over `drop` terminal records, oldest first, and no pending one. */
  function Kept(records: map<Id, Record>, order: seq<Id>, drop: nat): seq<Id> {
    if order == [] then []
    else if drop > 0 && order[0] in records && !records[order[0]].status.Pending? then Kept(records, order[1..], drop - 1)
    else [order[0]] + Kept(records, order[1..], drop)
  }

  function Excess(b: Box, maxRetained: nat): nat {
    if |b.records| > maxRetained then |b.records| - maxRetained else 0
  }

  function Compact(b: Box, maxRetained: nat): Box {
    var kept := Kept(b.records, b.order, Excess(b, maxRetained));
    b.(records := (map x | x in b.records && x in kept :: b.records[x]), order := kept)
  }

  /** The records are exactly those listed, each once, under its own id. */
  ghost predicate Tidy(b: Box) {
    && (forall x :: x in b.records <==> x in b.order)
    && (forall i, j | 0 <= i < j < |b.order| :: b.order[i] != b.order[j])
    && (forall x <- b.records :: b.records[x].id == x)
  }

  // ---------------------------------------------------------------- what retention keeps

  lemma {:induction false} KeptShape(records: map<Id, Record>, order: seq<Id>, drop: nat)
    requires forall i, j | 0 <= i < j < |order| :: order[i] != order[j]
    requires forall x <- order :: x in records
    ensures var kept := Kept(records, order, drop);
      && (forall x <- kept :: x in order)
      && (forall i, j | 0 <= i < j < |kept| :: kept[i] != kept[j])
      && |kept| <= |order| <= |kept| + drop
  {
    if order != [] {
      var rest := order[1..];
      assert forall x <- rest :: x != order[0];
      if drop > 0 && !records[order[0]].status.Pending? {
        KeptShape(records, rest, drop - 1);
        hide Kept;
      } else {
        KeptShape(records, rest, drop);
        hide Kept;
        ThenKept(order[0], Kept(records, rest, drop), rest);
      }
    }
  }

  lemma ThenKept(first: Id, more: seq<Id>, rest: seq<Id>)
    requires first !in rest && forall x <- more :: x in rest
    requires forall i, j | 0 <= i < j < |more| :: more[i] != more[j]
    ensures forall x <- [first] + more :: x == first || x in rest
    ensures forall i, j | 0 <= i < j < |[first] + more| :: ([first] + more)[i] != ([first] + more)[j]
  {
    assert forall k | 0 <= k < |more| :: more[k] in rest;
  }

  /** No pending record goes, and a terminal one goes only if every older terminal one goes too. */
  lemma {:induction false} OldestTerminalFirst(records: map<Id, Record>, order: seq<Id>, drop: nat, i: nat, j: nat)
    requires forall a, b | 0 <= a < b < |order| :: order[a] != order[b]
    requires forall x <- order :: x in records
    requires i <= j < |order| && order[j] !in Kept(records, order, drop)
    ensures !records[order[j]].status.Pending?
    ensures records[order[i]].status.Pending? <==> order[i] in Kept(records, order, drop)
  {
    var rest := order[1..];
    var passed := drop > 0 && !records[order[0]].status.Pending?;
    var left := if passed then drop - 1 else drop;
    KeptShape(records, rest, left);
    assert j > 0 ==> order[j] == rest[j - 1];
    assert i > 0 ==> order[i] == rest[i - 1];
    if j > 0 {
      assert order[j] !in Kept(records, rest, left);
      OldestTerminalFirst(records, rest, left, if i > 0 then i - 1 else 0, j - 1);
      if i == 0 {
        DropsWereLeft(records, rest, left, j - 1);
      }
    }
  }

  /** Something can go only while there are drops left. */
  lemma {:induction false} DropsWereLeft(records: map<Id, Record>, order: seq<Id>, drop: nat, j: nat)
    requires j < |order| && order[j] !in Kept(records, order, drop)
    ensures drop > 0
  {
    if drop == 0 && j > 0 {
      DropsWereLeft(records, order[1..], 0, j - 1);
    }
  }

  function Terminals(records: map<Id, Record>, order: seq<Id>): nat {
    if order == [] then 0
    else (if order[0] in records && !records[order[0]].status.Pending? then 1 else 0) + Terminals(records, order[1..])
  }

  /** Exactly as many go as must, or all terminal ones if there are fewer. */
  lemma {:induction false} DropsAsManyAsItMust(records: map<Id, Record>, order: seq<Id>, drop: nat)
    ensures |order| - |Kept(records, order, drop)| == if drop < Terminals(records, order) then drop else Terminals(records, order)
  {
    if order != [] {
      var passed := drop > 0 && order[0] in records && !records[order[0]].status.Pending?;
      DropsAsManyAsItMust(records, order[1..], if passed then drop - 1 else drop);
    }
  }

  lemma OrderSize(b: Box)
    requires Tidy(b)
    ensures |b.order| == |b.records|
  {
    SizeOf(b.order);
    assert (set x <- b.order) == b.records.Keys;
  }

  lemma {:induction false} SizeOf(order: seq<Id>)
    requires forall i, j | 0 <= i < j < |order| :: order[i] != order[j]
    ensures |(set x <- order)| == |order|
  {
    if order != [] {
      var n := |order| - 1;
      SizeOf(order[..n]);
      assert (set x <- order) == (set x <- order[..n]) + {order[n]};
      assert order[n] !in order[..n];
    }
  }

  /**
   Compaction: the box stays tidy, no pending record is lost, what stays is unchanged and in order,
   and afterwards the box is within its bound or holds pending records only.
   */
  lemma CompactKeeps(b: Box, maxRetained: nat)
    requires Tidy(b)
    ensures var c := Compact(b, maxRetained);
      && Tidy(c)
      && (forall x <- c.records :: x in b.records && c.records[x] == b.records[x])
      && (forall x <- b.records :: b.records[x].status.Pending? ==> x in c.records)
      && (|c.records| <= maxRetained || forall x <- c.records :: c.records[x].status.Pending?)
      && (|b.records| >= maxRetained ==> |c.records| >= maxRetained)
  {
    var drop := Excess(b, maxRetained);
    var c := Compact(b, maxRetained);
    KeptShape(b.records, b.order, drop);
    assert Tidy(c);
    forall x <- b.records | b.records[x].status.Pending? ensures x in c.records {
      var i :| 0 <= i < |b.order| && b.order[i] == x;
      if x !in c.order {
        OldestTerminalFirst(b.records, b.order, drop, i, i);
      }
    }
    OrderSize(b);
    OrderSize(c);
    DropsAsManyAsItMust(b.records, b.order, drop);
    if |c.records| > maxRetained {
      AllTerminalGone(b.records, b.order, drop);
    }
  }

  lemma {:induction false} AllTerminalGone(records: map<Id, Record>, order: seq<Id>, drop: nat)
    requires Terminals(records, order) < drop
    ensures forall x <- Kept(records, order, drop) :: x in records ==> records[x].status.Pending?
  {
    if order != [] {
      var passed := drop > 0 && order[0] in records && !records[order[0]].status.Pending?;
      AllTerminalGone(records, order[1..], if passed then drop - 1 else drop);
    }
  }

  // ---------------------------------------------------------------- delivery accounting

  /**
   What an attempt does to a pending record: it counts, it delivers only under a readable configuration
   and with no configured leg left, it dead-letters at the limit, ending exactly the legs still pending,
   and otherwise the next attempt waits for the doubled base interval, at most the maximum, or for as long
   as the receiver asks, whichever is longer.
   */
  lemma AttemptAccounts(rec: Record, config: Config, outcomes: seq<Outcome>, retryAfter: Time, now: Time, limits: Limits)
    requires limits.Valid() && rec.status.Pending? && rec.attempts < limits.maxAttempts
    ensures var r := Settled(rec, config, outcomes, retryAfter, now, limits);
      && r.attempts == rec.attempts + 1
      && (r.status.Pending? || r.status.Delivered? || r.status.DeadLettered?)
      && (r.status.Delivered? ==> config.Goes?)
      && (r.status.DeadLettered? <==> !r.status.Delivered? && r.attempts >= limits.maxAttempts)
      && (r.status.Pending? ==> r.attempts < limits.maxAttempts && r.nextAttemptAt.Some?)
      && (r.status.Pending? ==>
            var interval, wait := limits.base * Power(rec.attempts), r.nextAttemptAt.value - now;
            && wait >= retryAfter && (wait >= interval || wait >= limits.max)
            && (wait == retryAfter || (wait <= interval && wait <= limits.max)))
      && (!r.status.Pending? ==> r.nextAttemptAt.None?)
      && (r.status.Delivered? && r.legs.Some? ==> forall c <- config.channels :: r.LegStatus(c).Delivered?)
      && (r.status.DeadLettered? && r.legs.Some? ==> forall c <- r.legs.value :: !r.LegStatus(c).Pending?)
      && (r.legs.Some? <==> rec.legs.Some? || outcomes != [])
      && (r.legs.Some? ==>
            var legs := MarkedAll(if rec.legs.Some? then rec.legs.value else map[], outcomes);
            && r.legs.value.Keys == legs.Keys
            && forall c <- legs :: r.legs.value[c].attempts == legs[c].attempts
                 && (legs[c].status == r.legs.value[c].status
                     || (r.status.DeadLettered? && legs[c].status.Pending? && r.legs.value[c].status.DeadLettered?)))
  {}

  predicate AnsweredBy(outcomes: seq<Outcome>, c: Channel, acked: bool) {
    exists i | 0 <= i < |outcomes| :: outcomes[i] == Outcome(c, acked)
  }

  /** Each answer is counted on its own leg, which it leaves delivered or pending; other legs are as they were. */
  lemma {:induction false} AnswersAreEntered(legs: map<Channel, Leg>, outcomes: seq<Outcome>, c: Channel)
    requires forall i, j | 0 <= i < j < |outcomes| :: outcomes[i].channel != outcomes[j].channel
    ensures var after := MarkedAll(legs, outcomes);
      && (forall i | 0 <= i < |outcomes| && outcomes[i].channel == c ::
            && c in after && after[c].attempts == 1 + (if c in legs then legs[c].attempts else 0)
            && (if outcomes[i].acked then after[c].status.Delivered? else after[c].status.Pending?))
      && ((forall i | 0 <= i < |outcomes| :: outcomes[i].channel != c) ==>
            (c in after <==> c in legs) && (c in legs ==> after[c] == legs[c]))
  {
    if outcomes != [] {
      var n := |outcomes| - 1;
      AnswersAreEntered(legs, outcomes[..n], c);
      assert forall i | 0 <= i < n :: outcomes[..n][i] == outcomes[i];
    }
  }

  /** An acknowledged leg stays acknowledged, and only an acknowledgement makes one so. */
  lemma {:induction false} LegsFollowAnswers(legs: map<Channel, Leg>, outcomes: seq<Outcome>, c: Channel)
    requires forall i | 0 <= i < |outcomes| && outcomes[i].channel == c :: c !in legs || !legs[c].status.Delivered?
    requires forall i, j | 0 <= i < j < |outcomes| :: outcomes[i].channel != outcomes[j].channel
    ensures var after := MarkedAll(legs, outcomes);
      && ((c in after && after[c].status.Delivered?) <==> (c in legs && legs[c].status.Delivered?) || AnsweredBy(outcomes, c, true))
  {
    if outcomes != [] {
      var n := |outcomes| - 1;
      LegsFollowAnswers(legs, outcomes[..n], c);
      var before := MarkedAll(legs, outcomes[..n]);
      if outcomes[n].channel == c {
        assert !AnsweredBy(outcomes[..n], c, true);
        assert AnsweredBy(outcomes, c, true) <==> outcomes[n].acked;
      } else {
        assert AnsweredBy(outcomes, c, true) ==> AnsweredBy(outcomes[..n], c, true);
        assert forall i | 0 <= i < n :: outcomes[..n][i] == outcomes[i];
      }
    }
  }

  /** The channels an attempt sends to, with their answers: those whose leg has not acknowledged yet. */
  function Tried(snap: Record, channels: seq<Channel>, answers: seq<bool>): seq<Outcome>
    requires |answers| == |channels|
  {
    if channels == [] then []
    else
      var n := |channels| - 1;
      Tried(snap, channels[..n], answers[..n])
      + if snap.LegStatus(channels[n]).Delivered? then [] else [Outcome(channels[n], answers[n])]
  }

  lemma {:induction false} TriedAnswers(rec: Record, channels: seq<Channel>, answers: seq<bool>)
    requires |answers| == |channels| && forall i, j | 0 <= i < j < |channels| :: channels[i] != channels[j]
    ensures var out := Tried(rec, channels, answers);
      && (forall i | 0 <= i < |out| :: out[i].channel in channels && !rec.LegStatus(out[i].channel).Delivered?)
      && (forall i, j | 0 <= i < j < |out| :: out[i].channel != out[j].channel)
      && (out == [] ==> forall i | 0 <= i < |channels| :: rec.LegStatus(channels[i]).Delivered?)
      && (forall i | 0 <= i < |channels| ::
            AnsweredBy(out, channels[i], true) <==> !rec.LegStatus(channels[i]).Delivered? && answers[i])
  {
    if channels != [] {
      var n := |channels| - 1;
      TriedAnswers(rec, channels[..n], answers[..n]);
      var before, out := Tried(rec, channels[..n], answers[..n]), Tried(rec, channels, answers);
      assert channels[n] !in channels[..n];
      assert rec.LegStatus(channels[n]).Delivered? ==> out == before;
      forall i | 0 <= i < |channels| ensures AnsweredBy(out, channels[i], true) <==> !rec.LegStatus(channels[i]).Delivered? && answers[i] {
        OneMoreAnswer(before, Outcome(channels[n], answers[n]), channels[i]);
        if i < n {
          assert channels[i] == channels[..n][i] && answers[i] == answers[..n][i];
        } else {
          assert !AnsweredBy(before, channels[n], true);
        }
      }
    }
  }

  lemma OneMoreAnswer(outcomes: seq<Outcome>, last: Outcome, c: Channel)
    ensures AnsweredBy(outcomes + [last], c, true) <==> AnsweredBy(outcomes, c, true) || last == Outcome(c, true)
  {
    var all := outcomes + [last];
    assert all[|outcomes|] == last;
    assert forall i | 0 <= i < |outcomes| :: all[i] == outcomes[i];
  }

  lemma LegAfter(rec: Record, channels: seq<Channel>, answers: seq<bool>, i: nat)
    requires |answers| == |channels| && (forall k, l | 0 <= k < l < |channels| :: channels[k] != channels[l]) && i < |channels|
    ensures var tried := rec.(attempts := rec.attempts + 1, legs := Ledger(rec, Tried(rec, channels, answers)));
      tried.LegStatus(channels[i]).Delivered? <==> rec.LegStatus(channels[i]).Delivered? || answers[i]
  {
    TriedAnswers(rec, channels, answers);
    var out := Tried(rec, channels, answers);
    LegsFollowAnswers(if rec.legs.Some? then rec.legs.value else map[], out, channels[i]);
    hide Tried, MarkedAll;
  }

  /** An attempt delivers exactly when the configuration is readable and each channel in it had acknowledged or does now. */
  lemma DeliversExactlyWhen(rec: Record, config: Config, answers: seq<bool>, retryAfter: Time, now: Time, limits: Limits)
    requires limits.Valid() && rec.status.Pending?
    requires config.Goes? ==> |answers| == |config.channels|
    requires config.Goes? ==> forall i, j | 0 <= i < j < |config.channels| :: config.channels[i] != config.channels[j]
    ensures var out := if config.Goes? then Tried(rec, config.channels, answers) else [];
      Settled(rec, config, out, retryAfter, now, limits).status.Delivered?
      <==> config.Goes? && forall i | 0 <= i < |config.channels| :: rec.LegStatus(config.channels[i]).Delivered? || answers[i]
  {
    if config.Goes? {
      TriedAnswers(rec, config.channels, answers);
      forall i | 0 <= i < |config.channels|
        ensures rec.(attempts := rec.attempts + 1, legs := Ledger(rec, Tried(rec, config.channels, answers))).LegStatus(config.channels[i]).Delivered?
                <==> rec.LegStatus(config.channels[i]).Delivered? || answers[i]
      {
        LegAfter(rec, config.channels, answers, i);
      }
      hide Tried, MarkedAll, Backoff, DeadLegs;
    }
  }
}
