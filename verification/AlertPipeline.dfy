/**
 The tracker and the outbox together, step by step: the tracker hands its alerts over under its lock
 while other sources send, the journal is compacted, and one delivery worker scans for due records and
 sends them leg by leg. Any interleaving of these is a run.
 */
module AlertPipeline {
  import opened Wrappers
  import IncidentBook
  import AlertGrammar
  import opened OutboxBox

  type IncidentId = IncidentBook.IncidentId

  datatype Attempt = Attempt(snap: Record, config: Config, next: nat, outcomes: seq<Outcome>) {
    predicate Finished() { config.Unreadable? || next >= |config.channels| }
  }

  /** A send that has started: which event, to which channel. */
  datatype Start = Start(event: Event, channel: Channel)

  datatype Ack = Ack(serial: nat, channel: Channel)

  /**
   `handed` of the book's alerts have reached the outbox. `due` is what the worker's last scan found
   and it has not attempted yet. `closed`, `starts` and `acks` are history: the incidents whose
   recovery was accepted for delivery, the sends started, and this process's acknowledgements.
   */
  datatype Pipe = Pipe(
    book: IncidentBook.Book, handed: nat,
    box: Box,
    due: seq<Record>, busy: Option<Attempt>,
    closed: set<IncidentId>, starts: seq<Start>, acks: seq<Ack>)
  {
    predicate Quiet() { handed == |book.alerts| }

    ghost predicate Watching(r: Record) { (busy.Some? && busy.value.snap == r) || exists i :: 0 <= i < |due| && due[i] == r }
  }

  datatype Step =
    | Track(op: AlertGrammar.Op)
    | HandOver(id: Id, config: Config, now: Time)
    | SendOther(id: Id, event: Event, now: Time)
    | Compacted(maxRetained: nat)
    | Scan(found: seq<Record>, now: Time)
    | Begin(config: Config)
    | SendNext(acked: bool)
    | Finish(retryAfter: Time, now: Time, limits: Limits)
    | Restarted

  function KindOf(k: IncidentBook.Kind): EventKind {
    match k
    case Opened => EventKind.Opened
    case Repeat => EventKind.Repeat
    case Recovered => EventKind.Recovered
  }

  /** The event of an alert. A held opening and a summary name no incident. */
  function EventOf(a: IncidentBook.Alert): Event {
    if a.ForIncident? then Event(KindOf(a.kind), Some(a.id)) else Event(Other, None)
  }

  /**
   The lock keeps the tracker still until its alerts are handed over. A delivery id names one event.
   A scan finds pending records, once each. Each configured channel is listed once.
   */
  ghost predicate Enabled(p: Pipe, step: Step) {
    match step
    case Track(_) => p.Quiet()
    case HandOver(id, config, _) => p.handed < |p.book.alerts| && NamesOne(p.box, id, EventOf(p.book.alerts[p.handed]))
    case SendOther(_, event, _) => event.incident.None?
    case Compacted(_) => true
    case Scan(found, now) =>
      && p.busy.None? && p.due == []
      && (forall i | 0 <= i < |found| :: found[i].id in p.box.records && p.box.records[found[i].id] == found[i] && Due(found[i], now))
      && (forall i, j | 0 <= i < j < |found| :: found[i].id != found[j].id)
    case Begin(config) =>
      && p.busy.None? && p.due != []
      && (config.Goes? ==> forall i, j | 0 <= i < j < |config.channels| :: config.channels[i] != config.channels[j])
    case SendNext(_) => p.busy.Some? && !p.busy.value.Finished()
    case Finish(_, _, _) => p.busy.Some? && p.busy.value.Finished()
    case Restarted => p.Quiet()
  }

  ghost predicate NamesOne(b: Box, id: Id, event: Event) { id in b.records ==> b.records[id].event == event }

  /** A send is a no-op when the configuration is readable and gives it no channel. */
  function Accepted(p: Pipe, id: Id, event: Event, config: Config, now: Time): Pipe {
    if config == Goes([]) then p
    else p.(box := Enqueue(p.box, id, event, now),
            closed := if event.kind.Recovered? && event.incident.Some? then p.closed + {event.incident.value} else p.closed)
  }

  function Do(p: Pipe, step: Step): Pipe
    requires Enabled(p, step)
  {
    match step
    case Track(op) => p.(book := AlertGrammar.Do(p.book, op))
    case HandOver(id, config, now) =>
      var a := p.book.alerts[p.handed];
      var q := p.(handed := p.handed + 1);
      if a.Journaled? then q.(box := Hold(p.box, id, EventOf(a), now)) else Accepted(q, id, EventOf(a), config, now)
    case SendOther(id, event, now) => p.(box := Enqueue(p.box, id, event, now))
    case Compacted(max) => p.(box := Compact(p.box, max))
    case Scan(found, _) => p.(due := found)
    case Begin(config) => p.(due := p.due[1..], busy := Some(Attempt(p.due[0], config, 0, [])))
    case SendNext(acked) =>
      var at := p.busy.value;
      var c := at.config.channels[at.next];
      if at.snap.LegStatus(c).Delivered? then p.(busy := Some(at.(next := at.next + 1)))
      else p.(busy := Some(at.(next := at.next + 1, outcomes := at.outcomes + [Outcome(c, acked)])),
              starts := p.starts + [Start(at.snap.event, c)],
              acks := if acked then p.acks + [Ack(at.snap.serial, c)] else p.acks)
    case Finish(retryAfter, now, limits) =>
      var at := p.busy.value;
      p.(box := Settle(p.box, at.snap, at.config, at.outcomes, retryAfter, now, limits), busy := None)
    case Restarted => p.(book := p.book.(states := map[], adopting := true), due := [], busy := None, acks := [])
  }
}
