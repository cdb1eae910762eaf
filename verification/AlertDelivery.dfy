/**
 End to end, over whole runs: no opening after its recovery, and no leg acknowledged twice.
 */
module AlertDelivery {
  import opened Wrappers
  import IncidentBook
  import AlertGrammar
  import opened OutboxBox
  import opened AlertPipeline
  import opened AlertOrder
  import opened AlertAcks

  ghost predicate Runs(p: Pipe, steps: seq<Step>)
    decreases |steps|
  {
    steps == [] || (Enabled(p, steps[0]) && Runs(Do(p, steps[0]), steps[1..]))
  }

  function After(p: Pipe, steps: seq<Step>): Pipe
    requires Runs(p, steps)
    decreases |steps|
  {
    if steps == [] then p else After(Do(p, steps[0]), steps[1..])
  }

  /** A first start: no incident is open, and no record in the box is about one. */
  ghost predicate Fresh(p: Pipe) {
    && p.book.incidents == map[] && p.book.alerts == [] && p.handed == 0
    && Stamped(p.box) && (forall x <- p.box.records :: p.box.records[x].event.incident.None?)
    && p.due == [] && p.busy.None? && p.closed == {} && p.starts == [] && p.acks == []
  }

  lemma {:induction false} InvariantsHold(p: Pipe, steps: seq<Step>)
    requires OrderInv(p) && AckInv(p) && Runs(p, steps)
    ensures OrderInv(After(p, steps)) && AckInv(After(p, steps))
    decreases |steps|
  {
    if steps != [] {
      OrderKept(p, steps[0]);
      AckKept(p, steps[0]);
      hide OrderInv, AckInv, Do, Enabled;
      InvariantsHold(Do(p, steps[0]), steps[1..]);
    }
  }

  /**
   End to end, whatever the tracker is asked, however its alerts interleave with other sends, compactions
   and restarts, and whatever the channels answer: once a send of an incident's recovery has started, no
   send of its opening or of a reminder starts; and since the last restart no leg was acknowledged twice.
   */
  lemma NoOpeningAfterRecovery(p: Pipe, steps: seq<Step>)
    requires Fresh(p) && Runs(p, steps)
    ensures var end := After(p, steps);
      && (forall a, b, i: IncidentId | 0 <= a < b < |end.starts|
            && end.starts[a].event == Event(EventKind.Recovered, Some(i)) ::
            end.starts[b].event != Event(EventKind.Opened, Some(i)) && end.starts[b].event != Event(EventKind.Repeat, Some(i)))
      && (forall a, b | 0 <= a < b < |end.acks| :: end.acks[a] != end.acks[b])
  {
    assert OrderInv(p);
    assert AckInv(p);
    InvariantsHold(p, steps);
    var end := After(p, steps);
    assert InOrder(end.starts) && Once(end.acks);
    hide OrderInv, AckInv, After, Runs, Fresh;
    forall a, b, i: IncidentId | 0 <= a < b < |end.starts| && end.starts[a].event == Event(EventKind.Recovered, Some(i))
      ensures end.starts[b].event != Event(EventKind.Opened, Some(i)) && end.starts[b].event != Event(EventKind.Repeat, Some(i))
    {
      assert Late(end.starts[a].event, i) && !Early(end.starts[b].event, i);
    }
  }
}
