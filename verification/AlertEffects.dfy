/**
 What reaches the outbox of what the tracker says, what the delivery worker sends, and how a pending alert
 stops being pending.
 */
module AlertEffects {
  import opened Wrappers
  import IncidentBook
  import opened OutboxBox
  import opened OutboxEffects
  import opened AlertPipeline

  /** What an alert of the tracker's is as an event: its kind and incident, or a message about none. */
  predicate Means(a: IncidentBook.Alert, e: Event) {
    match a
    case ForIncident(kind, id, _, _) =>
      && e.incident == Some(id)
      && (kind == IncidentBook.Opened <==> e.kind.Opened?) && (kind == IncidentBook.Repeat <==> e.kind.Repeat?)
      && (kind == IncidentBook.Recovered <==> e.kind.Recovered?)
    case Summary(_) => e.incident.None? && e.kind.Other?
    case Journaled(_) => e.incident.None? && e.kind.Other?
  }

  /** The alert handed over next is in the outbox as what it means: due now, or if held never; unless it has no channel. */
  lemma HandedOverAsSaid(p: Pipe, step: Step)
    requires Enabled(p, step) && step.HandOver? && step.id !in p.box.records
    ensures var p', a := Do(p, step), p.book.alerts[p.handed];
      && p'.handed == p.handed + 1
      && (if !a.Journaled? && step.config == Goes([]) then p'.box == p.box
          else
            && step.id in p'.box.records && Means(a, p'.box.records[step.id].event)
            && (if a.Journaled? then p'.box.records[step.id].status.Suppressed? && p'.box.records[step.id].nextAttemptAt.None?
                else DueFrom(p'.box.records[step.id], p'.box.records[step.id].event, step.now)))
      && (a.ForIncident? && a.kind == IncidentBook.Recovered && step.config != Goes([]) ==> a.id in p'.closed)
  {
    EnqueueAccepts(p.box, step.id, EventOf(p.book.alerts[p.handed]), step.now);
    hide Enqueue;
  }

  /** A leg not yet acknowledged is sent to with its record's own event; an acknowledged one is passed over. */
  lemma SendsWhatIsLeft(p: Pipe, step: Step)
    requires Enabled(p, step) && step.SendNext?
    ensures var p', at := Do(p, step), p.busy.value;
      var c := at.config.channels[at.next];
      var sends := !at.snap.LegStatus(c).Delivered?;
      && p'.starts == (if sends then p.starts + [Start(at.snap.event, c)] else p.starts)
      && p'.acks == (if sends && step.acked then p.acks + [Ack(at.snap.serial, c)] else p.acks)
      && p'.busy.Some? && p'.busy.value.next == at.next + 1 && p'.busy.value.snap == at.snap && p'.busy.value.config == at.config
      && p'.busy.value.outcomes == (if sends then at.outcomes + [Outcome(c, step.acked)] else at.outcomes)
      && p'.box == p.box && p'.book == p.book
  {}

  /** The worker attempts what its scan found, in the order found, against the configuration of that moment. */
  lemma BeginsWithTheFirst(p: Pipe, step: Step)
    requires Enabled(p, step) && step.Begin?
    ensures var p' := Do(p, step);
      && p'.busy == Some(Attempt(p.due[0], step.config, 0, [])) && [p.due[0]] + p'.due == p.due && p'.box == p.box && p'.starts == p.starts
  {}

  /** The step is an incident's recovery reaching the outbox. */
  ghost predicate BringsRecovery(p: Pipe, step: Step, incident: Option<nat>)
    requires Enabled(p, step)
  {
    step.HandOver? && incident.Some?
    && p.book.alerts[p.handed].ForIncident? && p.book.alerts[p.handed].kind == IncidentBook.Recovered
    && p.book.alerts[p.handed].id == incident.value
  }

  /** A pending alert stays as it is until its own attempt is settled, or its incident's recovery overtakes it. */
  lemma PendingStays(p: Pipe, step: Step, x: Id)
    requires Tidy(p.box) && Enabled(p, step) && x in p.box.records && p.box.records[x].status.Pending?
    ensures var rec, p' := p.box.records[x], Do(p, step);
      (x in p'.box.records && p'.box.records[x] == rec)
      || (step.Finish? && p.busy.value.snap.id == x)
      || (BringsRecovery(p, step, rec.event.incident) && (rec.event.kind.Opened? || rec.event.kind.Repeat?)
          && x in p'.box.records && p'.box.records[x].status.Superseded?)
  {
    hide Enqueue, Compact, Settled, Overtaken;
    if step.HandOver? {
      EnqueueOvertakes(p.box, step.id, EventOf(p.book.alerts[p.handed]), step.now, x);
      OvertakenByRecovery(p.box.records[x], p.book.alerts[p.handed]);
    } else if step.SendOther? {
      EnqueueOvertakes(p.box, step.id, step.event, step.now, x);
      NothingOvertaken(p.box.records[x], step.event);
    } else if step.Compacted? {
      CompactKeeps(p.box, step.maxRetained);
    }
  }

  lemma OvertakenByRecovery(rec: Record, a: IncidentBook.Alert)
    ensures Overtaken(rec, EventOf(a)) ==>
      && a.ForIncident? && a.kind == IncidentBook.Recovered && rec.event.incident == Some(a.id)
      && (rec.event.kind.Opened? || rec.event.kind.Repeat?)
  {}

  lemma NothingOvertaken(rec: Record, event: Event)
    requires event.incident.None?
    ensures !Overtaken(rec, event)
  {}

  lemma EnqueueOvertakes(b: Box, id: Id, event: Event, now: Time, x: Id)
    requires x in b.records && b.records[x].status.Pending?
    ensures var after := Enqueue(b, id, event, now).records;
      x in after && (after[x] == b.records[x] || (Overtaken(b.records[x], event) && after[x].status.Superseded?))
  {
    if id !in b.records {
      EnqueueAccepts(b, id, event, now);
      var after := Enqueue(b, id, event, now).records;
      hide Enqueue;
      assert StandsAfter(b.records[x], after[x], event);
      if !Overtaken(b.records[x], event) { SameRecord(b.records[x], after[x], event); }
    }
  }

  lemma SameRecord(was: Record, rec: Record, event: Event)
    requires StandsAfter(was, rec, event) && !Overtaken(was, event)
    ensures rec == was
  {}
}
