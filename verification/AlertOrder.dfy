/**
 A recovery overtakes what it outdates: what was scanned before it is sent before it, and nothing of its
 incident is scanned after it.
 */
module AlertOrder {
  import opened Wrappers
  import IncidentBook
  import AlertGrammar
  import opened OutboxBox
  import opened AlertPipeline

  predicate Early(e: Event, i: IncidentId) { e.incident == Some(i) && (e.kind.Opened? || e.kind.Repeat?) }

  predicate Late(e: Event, i: IncidentId) { e.incident == Some(i) && e.kind.Recovered? }

  /** The first `n` alerts tell of the incident's recovery. */
  ghost predicate ToldOver(alerts: seq<IncidentBook.Alert>, n: nat, i: IncidentId)
    requires n <= |alerts|
  {
    exists j :: 0 <= j < n && alerts[j].ForIncident? && alerts[j].id == i && alerts[j].kind.Recovered?
  }

  /** No opening or reminder starts after the recovery. */
  ghost predicate InOrder(starts: seq<Start>) {
    forall a, b, i: IncidentId {:trigger Late(starts[a].event, i), Early(starts[b].event, i)}
      | 0 <= a < b < |starts| && Late(starts[a].event, i) :: !Early(starts[b].event, i)
  }

  /** In the box, an accepted recovery has outdated what came before it. */
  ghost predicate BoxOrdered(b: Box, closed: set<IncidentId>) {
    && (forall x, i | x in b.records && i in closed && Early(b.records[x].event, i) :: !b.records[x].status.Pending?)
    && (forall x, i: IncidentId | x in b.records && Late(b.records[x].event, i) :: i in closed)
  }

  /** Every recovery scanned or sent was accepted, and whatever is scanned beside or after it is no earlier alert. */
  ghost predicate WatchOrdered(p: Pipe) {
    && (forall r, i: IncidentId | p.Watching(r) && Late(r.event, i) :: i in p.closed)
    && (forall s, i: IncidentId | 0 <= s < |p.starts| && Late(p.starts[s].event, i) :: i in p.closed)
    && (forall r, q, i: IncidentId | p.Watching(r) && p.Watching(q) && Late(r.event, i) :: !Early(q.event, i))
    && (forall r, s, i: IncidentId | p.Watching(r) && 0 <= s < |p.starts| && Late(p.starts[s].event, i) :: !Early(r.event, i))
    && InOrder(p.starts)
  }

  ghost predicate OrderInv(p: Pipe) {
    && AlertGrammar.Inv(p.book) && p.handed <= |p.book.alerts|
    && (forall i <- p.closed :: ToldOver(p.book.alerts, p.handed, i))
    && BoxOrdered(p.box, p.closed) && WatchOrdered(p)
  }

  // ---------------------------------------------------------------- the tracker only adds alerts

  lemma {:induction false} ReleaseAdds(b: IncidentBook.Book, order: seq<IncidentBook.Key>, held: IncidentBook.Chosen, channels: bool, now: Time)
    ensures b.alerts <= IncidentBook.ReleaseHolds(b, order, held, channels, now).alerts
  {
    if order != [] { ReleaseAdds(b, order[..|order| - 1], held, channels, now); }
  }

  lemma {:induction false} CloseAdds(b: IncidentBook.Book, order: seq<IncidentBook.Key>, chosen: IncidentBook.Chosen, reason: IncidentBook.Reason)
    ensures b.alerts <= IncidentBook.CloseMatching(b, order, chosen, reason).alerts
  {
    if order != [] { CloseAdds(b, order[..|order| - 1], chosen, reason); }
  }

  lemma {:induction false} SweepAdds(b: IncidentBook.Book, order: seq<IncidentBook.Key>, now: Time)
    ensures b.alerts <= IncidentBook.Sweep(b, order, now).alerts
  {
    if order != [] { SweepAdds(b, order[..|order| - 1], now); }
  }

  lemma {:induction false} AnnounceAdds(b: IncidentBook.Book, pending: seq<IncidentBook.Key>, now: Time, machineOnly: bool)
    ensures b.alerts <= IncidentBook.AnnounceEach(b, pending, now, machineOnly).alerts
  {
    if pending != [] { AnnounceAdds(b, pending[..|pending| - 1], now, machineOnly); }
  }

  lemma TrackAdds(b: IncidentBook.Book, op: AlertGrammar.Op)
    ensures b.alerts <= AlertGrammar.Do(b, op).alerts
  {
    match op
    case DoRelease(order, held, channels, at) => ReleaseAdds(b, order, held, channels, at);
    case DoClose(order, chosen, reason) => CloseAdds(b, order, chosen, reason);
    case DoSweep(order, at) => SweepAdds(b, order, at);
    case DoAnnounce(order, _, at) =>
      AnnounceAdds(b, order, at, false);
      AnnounceAdds(b.Told(IncidentBook.Summary(|order|)), order, at, true);
    case DoEndAdoption(order, _, at) =>
      var c := b.(adopting := false);
      AnnounceAdds(c, order, at, false);
      AnnounceAdds(c.Told(IncidentBook.Summary(|order|)), order, at, true);
    case _ =>
  }

  /** After the recovery the tracker has nothing more to say of an incident. */
  lemma {:induction false} SilentAfterRecovery(alerts: seq<IncidentBook.Alert>, j: nat, i: IncidentId)
    requires j < |alerts| && alerts[j].ForIncident? && alerts[j].id == i && alerts[j].kind.Recovered?
    requires !AlertGrammar.SaidOf(alerts, i).OutOfOrder?
    ensures AlertGrammar.SaidOf(alerts, i).Over?
    ensures forall k | j < k < |alerts| :: !(alerts[k].ForIncident? && alerts[k].id == i)
  {
    var n := |alerts| - 1;
    if j < n {
      SilentAfterRecovery(alerts[..n], j, i);
      assert forall k | j < k < n :: alerts[..n][k] == alerts[k];
    }
  }

  // ---------------------------------------------------------------- every step keeps the order

  lemma TrackKeepsOrder(p: Pipe, step: Step)
    requires OrderInv(p) && Enabled(p, step) && step.Track?
    ensures OrderInv(Do(p, step))
  {
    AlertGrammar.InvKept(p.book, step.op);
    TrackAdds(p.book, step.op);
    hide AlertGrammar.Inv, AlertGrammar.Do, InOrder;
    var q := Do(p, step);
    forall i <- q.closed ensures ToldOver(q.book.alerts, q.handed, i) {
      var j :| 0 <= j < p.handed && p.book.alerts[j].ForIncident? && p.book.alerts[j].id == i && p.book.alerts[j].kind.Recovered?;
      assert q.book.alerts[j] == p.book.alerts[j];
    }
  }

  /** What is handed over now was not preceded by its incident's recovery. */
  lemma HandedInTime(p: Pipe)
    requires OrderInv(p) && p.handed < |p.book.alerts|
    ensures forall i <- p.closed :: !Early(EventOf(p.book.alerts[p.handed]), i)
  {
    hide InOrder;
    forall i <- p.closed ensures !Early(EventOf(p.book.alerts[p.handed]), i) {
      var j :| 0 <= j < p.handed && p.book.alerts[j].ForIncident? && p.book.alerts[j].id == i && p.book.alerts[j].kind.Recovered?;
      assert !AlertGrammar.SaidOf(p.book.alerts, i).OutOfOrder?;
      SilentAfterRecovery(p.book.alerts, j, i);
    }
  }

  lemma EnqueueKeepsBox(b: Box, closed: set<IncidentId>, id: Id, event: Event, now: Time)
    requires BoxOrdered(b, closed) && (event.incident.Some? ==> NamesOne(b, id, event))
    requires forall i <- closed :: !Early(event, i)
    ensures var closed' := if event.kind.Recovered? && event.incident.Some? then closed + {event.incident.value} else closed;
      BoxOrdered(Enqueue(b, id, event, now), closed')
  {
    if id !in b.records {
      var b' := Enqueue(b, id, event, now);
      forall x | x in b'.records && x != id ensures x in b.records && b'.records[x].event == b.records[x].event
        && (b'.records[x].status.Pending? ==> b.records[x].status.Pending? && !Outdated(b.records[x], event))
      {}
      assert b'.records[id].event == event;
      hide Enqueue;
    }
  }

  lemma HandOverKeepsOrder(p: Pipe, step: Step)
    requires OrderInv(p) && Enabled(p, step) && step.HandOver?
    ensures OrderInv(Do(p, step))
  {
    var q := Do(p, step);
    var a := p.book.alerts[p.handed];
    HandedInTime(p);
    EnqueueKeepsBox(p.box, p.closed, step.id, EventOf(a), step.now);
    assert BoxOrdered(q.box, q.closed);
    hide BoxOrdered, AlertGrammar.Inv, Enqueue;
    assert WatchOrdered(q) by {
      hide InOrder;
      assert forall r :: q.Watching(r) <==> p.Watching(r);
    }
    hide WatchOrdered;
    forall i <- q.closed ensures ToldOver(q.book.alerts, q.handed, i) {
      if i !in p.closed {
        assert a.ForIncident? && a.id == i && a.kind.Recovered?;
      }
    }
  }

  lemma OtherKeepsOrder(p: Pipe, step: Step)
    requires OrderInv(p) && Enabled(p, step) && step.SendOther?
    ensures OrderInv(Do(p, step))
  {
    EnqueueKeepsBox(p.box, p.closed, step.id, step.event, step.now);
    assert forall r :: Do(p, step).Watching(r) <==> p.Watching(r);
    hide BoxOrdered, AlertGrammar.Inv, Enqueue, InOrder, ToldOver;
  }

  lemma CompactedKeepsOrder(p: Pipe, step: Step)
    requires OrderInv(p) && Enabled(p, step) && step.Compacted?
    ensures OrderInv(Do(p, step))
  {
    assert BoxOrdered(Do(p, step).box, p.closed) by { hide Kept; }
    assert forall r :: Do(p, step).Watching(r) <==> p.Watching(r);
    hide BoxOrdered, AlertGrammar.Inv, Compact, InOrder, ToldOver;
  }

  lemma ScanKeepsOrder(p: Pipe, step: Step)
    requires OrderInv(p) && Enabled(p, step) && step.Scan?
    ensures OrderInv(Do(p, step))
  {
    var q := Do(p, step);
    hide AlertGrammar.Inv, InOrder, ToldOver;
    forall r | q.Watching(r)
      ensures (forall i <- p.closed :: !Early(r.event, i)) && (forall i: IncidentId | Late(r.event, i) :: i in p.closed)
    {
      assert r.id in p.box.records && p.box.records[r.id] == r && r.status.Pending?;
    }
    assert forall s, i: IncidentId | 0 <= s < |q.starts| && Late(q.starts[s].event, i) :: i in p.closed;
    hide BoxOrdered;
    assert WatchOrdered(q);
  }

  lemma BeginKeepsOrder(p: Pipe, step: Step)
    requires OrderInv(p) && Enabled(p, step) && step.Begin?
    ensures OrderInv(Do(p, step))
  {
    var q := Do(p, step);
    hide AlertGrammar.Inv, InOrder, ToldOver, BoxOrdered;
    forall r | q.Watching(r) ensures p.Watching(r) {
      if r == p.due[0] {
      } else {
        var i :| 0 <= i < |q.due| && q.due[i] == r;
        assert p.due[i + 1] == r;
      }
    }
  }

  lemma SendKeepsOrder(p: Pipe, step: Step)
    requires OrderInv(p) && Enabled(p, step) && step.SendNext?
    ensures OrderInv(Do(p, step))
  {
    var q := Do(p, step);
    var snap := p.busy.value.snap;
    hide AlertGrammar.Inv, ToldOver, BoxOrdered;
    assert p.Watching(snap);
    assert forall r :: q.Watching(r) <==> p.Watching(r);
    if q.starts != p.starts {
      StartsInOrder(p.starts, q.starts[|p.starts|]);
    }
    hide InOrder;
    forall s, i: IncidentId | 0 <= s < |q.starts| && Late(q.starts[s].event, i)
      ensures i in q.closed && forall r | q.Watching(r) :: !Early(r.event, i)
    {
      if s < |p.starts| {
        assert Late(p.starts[s].event, i);
      } else {
        assert Late(snap.event, i);
      }
    }
    forall r, w, i: IncidentId | q.Watching(r) && q.Watching(w) && Late(r.event, i) ensures i in q.closed && !Early(w.event, i) {
      assert p.Watching(r) && p.Watching(w);
    }
    assert WatchOrdered(q);
  }

  lemma StartsInOrder(starts: seq<Start>, next: Start)
    requires InOrder(starts)
    requires forall s, i: IncidentId | 0 <= s < |starts| && Late(starts[s].event, i) :: !Early(next.event, i)
    ensures InOrder(starts + [next])
  {
    var more := starts + [next];
    forall a, b, i: IncidentId | 0 <= a < b < |more| && Late(more[a].event, i) ensures !Early(more[b].event, i) {
      assert Late(starts[a].event, i);
    }
  }

  lemma FinishKeepsOrder(p: Pipe, step: Step)
    requires OrderInv(p) && Enabled(p, step) && step.Finish?
    ensures OrderInv(Do(p, step))
  {
    var q := Do(p, step);
    hide AlertGrammar.Inv, ToldOver, InOrder, Ledger;
    assert forall r | q.Watching(r) :: p.Watching(r);
    assert BoxOrdered(q.box, q.closed);
  }

  lemma RestartedKeepsOrder(p: Pipe, step: Step)
    requires OrderInv(p) && Enabled(p, step) && step.Restarted?
    ensures OrderInv(Do(p, step))
  {
    var q := Do(p, step);
    AlertGrammar.OtherwiseKept(p.book, map[], true);
    hide AlertGrammar.Inv, ToldOver, InOrder, BoxOrdered;
    assert forall r :: !q.Watching(r);
  }

  lemma OrderKept(p: Pipe, step: Step)
    requires OrderInv(p) && Enabled(p, step)
    ensures OrderInv(Do(p, step))
  {
    hide OrderInv, Do, Enabled;
    match step
    case Track(_) => TrackKeepsOrder(p, step);
    case HandOver(_, _, _) => HandOverKeepsOrder(p, step);
    case SendOther(_, _, _) => OtherKeepsOrder(p, step);
    case Compacted(_) => CompactedKeepsOrder(p, step);
    case Scan(_, _) => ScanKeepsOrder(p, step);
    case Begin(_) => BeginKeepsOrder(p, step);
    case SendNext(_) => SendKeepsOrder(p, step);
    case Finish(_, _, _) => FinishKeepsOrder(p, step);
    case Restarted => RestartedKeepsOrder(p, step);
  }
}
