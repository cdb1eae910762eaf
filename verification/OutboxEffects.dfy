/**
 What sending and holding an alert come to, record by record and field by field, after however much
 compaction: the new record can be delivered at once or never, a recovery takes exactly its own incident's
 openings and reminders out of delivery, and nothing else changes.
 */
module OutboxEffects {
  import opened Wrappers
  import opened OutboxBox
  import opened OutboxJournal

  /** Only what is no longer pending has gone, and the rest is as it was. */
  ghost predicate Thinned(records: map<Id, Record>, records': map<Id, Record>) {
    && (forall x <- records' :: x in records && records'[x] == records[x])
    && (forall x <- records :: x in records' || !records[x].status.Pending?)
  }

  lemma PersistThins(s: Store, line: Record, maxRetained: nat)
    requires Tidy(s.box)
    ensures Thinned(s.box.records, Persist(s, line, maxRetained).box.records) && Tidy(Persist(s, line, maxRetained).box)
  {
    CompactKeeps(s.box, maxRetained);
    hide Tidy, Compact;
  }

  lemma {:induction false} PersistAllThins(s: Store, lines: seq<Record>, maxRetained: nat)
    requires Tidy(s.box)
    ensures Thinned(s.box.records, PersistAll(s, lines, maxRetained).box.records)
    decreases |lines|
  {
    if lines != [] {
      PersistThins(s, lines[0], maxRetained);
      hide Tidy, Persist;
      PersistAllThins(Persist(s, lines[0], maxRetained), lines[1..], maxRetained);
    }
  }

  /** A pending opening or reminder of the incident that `event` says has recovered. */
  predicate Overtaken(rec: Record, event: Event) {
    match event.incident
    case None => false
    case Some(i) => event.kind.Recovered? && rec.status.Pending? && rec.event.incident == Some(i) && (rec.event.kind.Opened? || rec.event.kind.Repeat?)
  }

  /** How a record of before stands after the send of `event`. */
  ghost predicate StandsAfter(was: Record, rec: Record, event: Event) {
    && rec.id == was.id && rec.serial == was.serial && rec.event == was.event && rec.attempts == was.attempts
    && rec.createdAt == was.createdAt && rec.legs == was.legs
    && (if Overtaken(was, event) then rec.status.Superseded? && rec.nextAttemptAt.None?
        else rec.status == was.status && rec.nextAttemptAt == was.nextAttemptAt)
  }

  /** A record just accepted: nothing tried yet, and due from now on. */
  ghost predicate DueFrom(rec: Record, event: Event, now: Time) {
    && rec.event == event && rec.status.Pending? && rec.attempts == 0 && rec.legs.None? && rec.createdAt == now
    && rec.nextAttemptAt.Some? && rec.nextAttemptAt.value <= now
  }

  /** What a send leaves of the records there were, with the new one among them. */
  ghost predicate Accepted(records: map<Id, Record>, records': map<Id, Record>, id: Id, event: Event, now: Time) {
    && id in records' && DueFrom(records'[id], event, now)
    && (forall x <- records' | x != id :: x in records && StandsAfter(records[x], records'[x], event))
    && (forall x <- records | records[x].status.Pending? && !Overtaken(records[x], event) :: x in records')
  }

  lemma SendAccepts(s: Store, step: Step, limits: Limits)
    requires step.Send? && Tidy(s.box) && Enabled(s, step) && step.id !in s.box.records
    ensures Accepted(s.box.records, Do(s, step, limits).box.records, step.id, step.event, step.now)
  {
    var b := Enqueue(s.box, step.id, step.event, step.now);
    EnqueueTidy(s.box, step.id, step.event, step.now);
    PersistAllThins(s.(box := b), SendLines(b, step.retired, step.id), limits.maxRetained);
    EnqueueAccepts(s.box, step.id, step.event, step.now);
    ThinnedAccepts(s.box.records, b.records, Do(s, step, limits).box.records, step.id, step.event, step.now);
    hide PersistAll, Lines, Tidy, Accepted, Thinned, Enqueue;
  }

  lemma EnqueueAccepts(b: Box, id: Id, event: Event, now: Time)
    requires id !in b.records
    ensures Accepted(b.records, Enqueue(b, id, event, now).records, id, event, now)
  {
    var b' := Enqueue(b, id, event, now);
    forall x <- b'.records | x != id ensures x in b.records && StandsAfter(b.records[x], b'.records[x], event) {
    }
    hide StandsAfter;
  }

  lemma ThinnedAccepts(records: map<Id, Record>, all: map<Id, Record>, kept: map<Id, Record>, id: Id, event: Event, now: Time)
    requires Accepted(records, all, id, event, now) && Thinned(all, kept)
    ensures Accepted(records, kept, id, event, now)
  {
    forall x <- records | records[x].status.Pending? && !Overtaken(records[x], event) ensures x in kept {
      if x != id { assert StandsAfter(records[x], all[x], event); }
    }
    hide StandsAfter, Overtaken;
  }

  /** A held alert is journaled and never due; nothing else changes, and nothing pending goes. */
  ghost predicate Held(records: map<Id, Record>, records': map<Id, Record>, id: Id, event: Event) {
    && (id in records' ==> records'[id].status.Suppressed? && records'[id].nextAttemptAt.None? && records'[id].event == event)
    && (forall x <- records' | x != id :: x in records && records'[x] == records[x])
    && (forall x <- records | records[x].status.Pending? :: x in records')
  }

  lemma SuppressHolds(s: Store, step: Step, limits: Limits)
    requires step.Suppress? && Tidy(s.box) && step.id !in s.box.records
    ensures Held(s.box.records, Do(s, step, limits).box.records, step.id, step.event)
  {
    var b := Hold(s.box, step.id, step.event, step.now);
    EnqueueTidy(s.box, step.id, step.event, step.now);
    PersistThins(s.(box := b), b.records[step.id], limits.maxRetained);
    hide Persist, Tidy;
  }

  /** An attempt touches its own record alone, and not what that says or when it was made. */
  lemma AttemptLeavesOthers(s: Store, step: Step, limits: Limits)
    requires step.Attempt? && Tidy(s.box)
    ensures var before, after := s.box.records, Do(s, step, limits).box.records;
      && (forall x <- after :: x in before)
      && (forall x <- after | x != step.snap.id :: after[x] == before[x])
      && (forall x <- before | before[x].status.Pending? && x != step.snap.id :: x in after)
      && (step.snap.id in after && step.snap.id in before ==>
            var rec, was := after[step.snap.id], before[step.snap.id];
            rec.id == was.id && rec.serial == was.serial && rec.event == was.event && rec.createdAt == was.createdAt
            && (!was.status.Pending? ==> rec == was))
  {
    var id := step.snap.id;
    if id in s.box.records && s.box.records[id].status.Pending? {
      var b := Settle(s.box, step.snap, step.config, step.outcomes, step.retryAfter, step.now, limits);
      SettledId(s.box.records[id], step, limits);
      assert Tidy(b);
      PersistThins(s.(box := b), b.records[id], limits.maxRetained);
      SettledSays(s.box.records[id], step, limits);
      hide Persist, Tidy, Settled;
    }
  }

  lemma SettledSays(rec: Record, step: Step, limits: Limits)
    requires step.Attempt?
    ensures var r := Settled(rec, step.config, step.outcomes, step.retryAfter, step.now, limits);
      r.id == rec.id && r.serial == rec.serial && r.event == rec.event && r.createdAt == rec.createdAt
  {
    hide Ledger, Backoff, DeadLegs;
  }
}
