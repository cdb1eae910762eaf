/**
 No channel acknowledges the same record twice: wherever a leg could be sent from again, its
 acknowledgement is on record.
 */
module AlertAcks {
  import IncidentBook
  import AlertGrammar
  import opened OutboxBox
  import opened AlertPipeline

  /** Serial numbers tell records apart. */
  ghost predicate Stamped(b: Box) {
    && (forall x <- b.records :: b.records[x].id == x && b.records[x].serial < b.nextSerial)
    && (forall x, y | x in b.records && y in b.records && b.records[x].serial == b.records[y].serial :: x == y)
  }

  /** What a scanned record `r` may find in the box: itself while pending, or a later record under its id. */
  ghost predicate Matches(p: Pipe, r: Record) {
    && r.serial < p.box.nextSerial
    && (forall x | x in p.box.records && p.box.records[x].serial == r.serial :: x == r.id && (p.box.records[x].status.Pending? ==> p.box.records[x] == r))
    && (r.id in p.box.records && p.box.records[r.id].serial != r.serial
        ==> forall k | 0 <= k < |p.acks| :: p.acks[k].serial != p.box.records[r.id].serial)
  }

  /** The worker holds each record once. */
  ghost predicate Apart(p: Pipe) {
    && (forall i, j | 0 <= i < j < |p.due| :: p.due[i].id != p.due[j].id && p.due[i].serial != p.due[j].serial)
    && (p.busy.Some? ==> forall i | 0 <= i < |p.due| :: p.due[i].id != p.busy.value.snap.id && p.due[i].serial != p.busy.value.snap.serial)
  }

  /** An attempt has answers only of legs it had to send, from the channels it has passed. */
  ghost predicate Sound(at: Attempt) {
    && (at.config.Unreadable? ==> at.outcomes == [])
    && (at.config.Goes? ==>
          && (forall i, j | 0 <= i < j < |at.config.channels| :: at.config.channels[i] != at.config.channels[j])
          && forall k | 0 <= k < |at.outcomes| :: Passed(at, at.outcomes[k].channel))
    && (forall k | 0 <= k < |at.outcomes| :: !at.snap.LegStatus(at.outcomes[k].channel).Delivered?)
    && (forall j, k | 0 <= j < k < |at.outcomes| :: at.outcomes[j].channel != at.outcomes[k].channel)
  }

  predicate Passed(at: Attempt, c: Channel)
    requires at.config.Goes?
  {
    exists i :: 0 <= i < |at.config.channels| && i < at.next && at.config.channels[i] == c
  }

  /** Wherever the leg could be sent from again, its acknowledgement is on record. */
  ghost predicate Remembered(p: Pipe, ack: Ack) {
    && ack.serial < p.box.nextSerial
    && (forall x | x in p.box.records && p.box.records[x].serial == ack.serial && p.box.records[x].status.Pending? ::
          p.box.records[x].LegStatus(ack.channel).Delivered? || (p.busy.Some? && p.busy.value.snap.serial == ack.serial))
    && (forall i | 0 <= i < |p.due| && p.due[i].serial == ack.serial :: p.due[i].LegStatus(ack.channel).Delivered?)
    && (p.busy.Some? && p.busy.value.snap.serial == ack.serial ==>
          p.busy.value.snap.LegStatus(ack.channel).Delivered? || AnsweredBy(p.busy.value.outcomes, ack.channel, true))
  }

  ghost predicate Once(acks: seq<Ack>) { forall i, j | 0 <= i < j < |acks| :: acks[i] != acks[j] }

  ghost predicate AckInv(p: Pipe) {
    && Stamped(p.box)
    && (forall r | p.Watching(r) :: Matches(p, r))
    && Apart(p)
    && (p.busy.Some? ==> Sound(p.busy.value))
    && (forall k | 0 <= k < |p.acks| :: Remembered(p, p.acks[k]))
    && Once(p.acks)
  }

  /** The box changes as enqueueing and compaction change it: a scanned record stays, or stops being pending. */
  ghost predicate Moves(b: Box, b': Box) {
    && b.nextSerial <= b'.nextSerial
    && (forall x | x in b'.records && b'.records[x].serial < b.nextSerial ::
          x in b.records && b.records[x].serial == b'.records[x].serial && (b'.records[x].status.Pending? ==> b'.records[x] == b.records[x]))
  }

  lemma BoxMovesKeepAcks(p: Pipe, q: Pipe)
    requires AckInv(p) && Stamped(q.box) && Moves(p.box, q.box)
    requires q.due == p.due && q.busy == p.busy && q.acks == p.acks
    ensures AckInv(q)
  {
    assert forall r :: q.Watching(r) <==> p.Watching(r);
    hide Sound, AnsweredBy;
    forall r | q.Watching(r) ensures Matches(q, r) {
      assert Matches(p, r);
      forall k | 0 <= k < |q.acks| ensures q.acks[k].serial < p.box.nextSerial {
        assert Remembered(p, p.acks[k]);
      }
    }
    forall k | 0 <= k < |q.acks| ensures Remembered(q, q.acks[k]) {
      assert Remembered(p, p.acks[k]);
    }
  }

  lemma EnqueueMoves(b: Box, id: Id, event: Event, now: Time)
    requires Stamped(b)
    ensures Stamped(Enqueue(b, id, event, now)) && Moves(b, Enqueue(b, id, event, now))
  {
    EnqueueStamps(b, id, event, now);
    hide Outdated;
  }

  lemma EnqueueStamps(b: Box, id: Id, event: Event, now: Time)
    requires Stamped(b)
    ensures Stamped(Enqueue(b, id, event, now))
  {
    hide Outdated;
  }

  lemma HoldMoves(b: Box, id: Id, event: Event, now: Time)
    requires Stamped(b)
    ensures Stamped(Hold(b, id, event, now)) && Moves(b, Hold(b, id, event, now))
  {}

  lemma CompactMoves(b: Box, max: nat)
    requires Stamped(b)
    ensures Stamped(Compact(b, max)) && Moves(b, Compact(b, max))
  {
    hide Kept;
  }

  lemma NoMoves(b: Box)
    ensures Moves(b, b)
  {}

  lemma BoxStepsKeepAcks(p: Pipe, step: Step)
    requires AckInv(p) && Enabled(p, step) && (step.Track? || step.HandOver? || step.SendOther? || step.Compacted?)
    ensures AckInv(Do(p, step))
  {
    assert Stamped(p.box) by { hide Matches, Apart, Sound, Remembered, Once; }
    hide AckInv, Stamped, Moves, Enqueue, Hold, Compact, AlertGrammar.Do;
    NoMoves(p.box);
    match step {
      case Track(_) =>
      case HandOver(id, _, now) =>
        EnqueueMoves(p.box, id, EventOf(p.book.alerts[p.handed]), now);
        HoldMoves(p.box, id, EventOf(p.book.alerts[p.handed]), now);
      case SendOther(id, event, now) => EnqueueMoves(p.box, id, event, now);
      case Compacted(max) => CompactMoves(p.box, max);
    }
    BoxMovesKeepAcks(p, Do(p, step));
  }

  lemma ScanKeepsAcks(p: Pipe, step: Step)
    requires AckInv(p) && Enabled(p, step) && step.Scan?
    ensures AckInv(Do(p, step))
  {
    var q := Do(p, step);
    forall k | 0 <= k < |q.acks| ensures Remembered(q, q.acks[k]) {
      assert Remembered(p, p.acks[k]);
    }
  }

  lemma BeginKeepsAcks(p: Pipe, step: Step)
    requires AckInv(p) && Enabled(p, step) && step.Begin?
    ensures AckInv(Do(p, step))
  {
    var q := Do(p, step);
    forall r | q.Watching(r) ensures p.Watching(r) {
      if r == p.due[0] {
      } else {
        var i :| 0 <= i < |q.due| && q.due[i] == r;
        assert p.due[i + 1] == r;
      }
    }
    forall k | 0 <= k < |q.acks| ensures Remembered(q, q.acks[k]) {
      assert Remembered(p, p.acks[k]);
    }
    forall r | q.Watching(r) ensures Matches(q, r) {
      assert Matches(p, r);
    }
  }

  lemma OutcomeAnswers(outcomes: seq<Outcome>, out: Outcome, c: Channel)
    ensures AnsweredBy(outcomes + [out], c, true) <==> AnsweredBy(outcomes, c, true) || out == Outcome(c, true)
  {
    var more := outcomes + [out];
    assert more[|outcomes|] == out;
    assert forall i | 0 <= i < |outcomes| :: more[i] == outcomes[i];
  }

  lemma SendStaysSound(at: Attempt, c: Channel, acked: bool)
    requires Sound(at) && at.config.Goes? && at.next < |at.config.channels| && c == at.config.channels[at.next]
    ensures Sound(at.(next := at.next + 1)) && forall k | 0 <= k < |at.outcomes| :: at.outcomes[k].channel != c
    ensures !at.snap.LegStatus(c).Delivered? ==> Sound(at.(next := at.next + 1, outcomes := at.outcomes + [Outcome(c, acked)]))
  {
    forall k | 0 <= k < |at.outcomes|
      ensures at.outcomes[k].channel != c && Passed(at.(next := at.next + 1), at.outcomes[k].channel)
    {
      assert Passed(at, at.outcomes[k].channel);
    }
    var more := at.(next := at.next + 1, outcomes := at.outcomes + [Outcome(c, acked)]);
    assert Passed(more, c);
    forall k | 0 <= k < |more.outcomes| ensures Passed(more, more.outcomes[k].channel) {
      if k < |at.outcomes| {
        assert Passed(at.(next := at.next + 1), at.outcomes[k].channel);
      }
    }
  }

  lemma SendKeepsAcks(p: Pipe, step: Step)
    requires AckInv(p) && Enabled(p, step) && step.SendNext?
    ensures AckInv(Do(p, step))
  {
    var q := Do(p, step);
    var at := p.busy.value;
    var c := at.config.channels[at.next];
    var out, ack := Outcome(c, step.acked), Ack(at.snap.serial, c);
    SendStaysSound(at, c, step.acked);
    hide Sound;
    assert p.Watching(at.snap);
    assert forall r :: q.Watching(r) <==> p.Watching(r);
    var sending := !at.snap.LegStatus(c).Delivered?;
    forall k | 0 <= k < |p.acks| ensures Remembered(q, p.acks[k]) && (sending ==> p.acks[k] != ack) {
      assert Remembered(p, p.acks[k]);
      OutcomeAnswers(at.outcomes, out, p.acks[k].channel);
    }
    if sending && step.acked {
      OutcomeAnswers(at.outcomes, out, c);
      assert AnsweredBy(q.busy.value.outcomes, c, true);
      assert Matches(p, at.snap);
      assert Remembered(q, ack);
    }
    forall r | q.Watching(r) ensures Matches(q, r) {
      assert Matches(p, r) && Matches(p, at.snap);
      hide Remembered;
    }
  }

  // ---- settling

  lemma SettledLegs(rec: Record, at: Attempt, retryAfter: Time, now: Time, limits: Limits, c: Channel)
    requires Sound(at) && at.snap == rec && rec.status.Pending?
    ensures var r := Settled(rec, at.config, at.outcomes, retryAfter, now, limits);
      && r.id == rec.id && r.serial == rec.serial
      && (r.status.Pending? ==> (r.LegStatus(c).Delivered? <==> rec.LegStatus(c).Delivered? || AnsweredBy(at.outcomes, c, true)))
  {
    LegsFollowAnswers(if rec.legs.Some? then rec.legs.value else map[], at.outcomes, c);
    hide MarkedAll, Backoff;
  }

  lemma SettledIdentity(rec: Record, at: Attempt, retryAfter: Time, now: Time, limits: Limits)
    ensures var r := Settled(rec, at.config, at.outcomes, retryAfter, now, limits); r.id == rec.id && r.serial == rec.serial
  {
    hide Ledger, Backoff;
  }

  lemma FinishKeepsAcks(p: Pipe, step: Step)
    requires AckInv(p) && Enabled(p, step) && step.Finish?
    ensures AckInv(Do(p, step))
  {
    var q := Do(p, step);
    var at := p.busy.value;
    var id := at.snap.id;
    assert p.Watching(at.snap) && Matches(p, at.snap);
    assert forall r :: q.Watching(r) ==> p.Watching(r);
    if id in p.box.records && p.box.records[id].status.Pending? {
      SettledIdentity(p.box.records[id], at, step.retryAfter, step.now, step.limits);
    }
    FinishRemembers(p, step);
    hide Settled, Sound, Remembered;
    forall r | q.Watching(r) ensures Matches(q, r) {
      assert Matches(p, r);
    }
  }

  lemma FinishRemembers(p: Pipe, step: Step)
    requires AckInv(p) && Enabled(p, step) && step.Finish?
    ensures forall k | 0 <= k < |p.acks| :: Remembered(Do(p, step), p.acks[k])
  {
    var q := Do(p, step);
    var at := p.busy.value;
    var id := at.snap.id;
    assert p.Watching(at.snap) && Matches(p, at.snap);
    hide Apart, Once;
    forall k | 0 <= k < |p.acks| ensures Remembered(q, p.acks[k]) {
      assert Remembered(p, p.acks[k]);
      if id in p.box.records && p.box.records[id].status.Pending? {
        SettledIdentity(p.box.records[id], at, step.retryAfter, step.now, step.limits);
        if p.box.records[id].serial == at.snap.serial {
          SettledLegs(at.snap, at, step.retryAfter, step.now, step.limits, p.acks[k].channel);
        }
      }
      hide Settled, Sound, AnsweredBy;
    }
  }

  lemma AckKept(p: Pipe, step: Step)
    requires AckInv(p) && Enabled(p, step)
    ensures AckInv(Do(p, step))
  {
    match step
    case Track(_) => BoxStepsKeepAcks(p, step);
    case HandOver(_, _, _) => BoxStepsKeepAcks(p, step);
    case SendOther(_, _, _) => BoxStepsKeepAcks(p, step);
    case Compacted(_) => BoxStepsKeepAcks(p, step);
    case Scan(_, _) => ScanKeepsAcks(p, step);
    case Begin(_) => BeginKeepsAcks(p, step);
    case SendNext(_) => SendKeepsAcks(p, step);
    case Finish(_, _, _) => FinishKeepsAcks(p, step);
    case Restarted =>
      assert forall r :: !Do(p, step).Watching(r);
  }
}
