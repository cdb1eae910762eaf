/**
 What an append records, and that an event lost to a failed append is owned up to: the next thing the
 process records after it is a marker.
 */
module EventLosses {
  import opened EventLog
  import opened EventReplay

  /** Whether the event of this step was not written: its own append failed, or the marker owed before it did. */
  predicate LosesEvent(log: Log, step: Step) {
    step.DoAppend? && !step.gap && (!step.out.Landed? || (log.lost > 0 && !step.markerOut.Landed?))
  }

  /** The events a step records: the marker owed, if it lands, and then the event, if it lands. */
  function Records(log: Log, step: Step): seq<Event>
    requires step.DoAppend?
  {
    var next := Last(log.window) + 1;
    if log.lost == 0 then if step.out.Landed? then [Event(next, step.gap, step.size)] else []
    else if !step.markerOut.Landed? then []
    else if !step.out.Landed? then [Event(next, true, step.marker)]
    else [Event(next, true, step.marker), Event(next + 1, step.gap, step.size)]
  }

  /** A failed append takes no number and leaves the window; a lost event is counted, until a marker lands. */
  lemma AppendRecords(log: Log, step: Step, limits: Limits)
    requires limits.Valid() && step.DoAppend? && Enabled(log, step)
    ensures var log', more := Do(log, step, limits), Records(log, step);
      && log'.up && log'.all == log.all + more
      && log'.window == (if more == [] then log.window else Tail(log.window + more, limits.maxEvents))
      && log'.lost == (if log.lost == 0 || step.markerOut.Landed? then 0 else log.lost) + (if LosesEvent(log, step) then 1 else 0)
  {
    hide AppendOne, Tail;
    if log.lost == 0 {
      OneRecords(log, step.gap, step.size, step.out, limits);
    } else if step.markerOut.Landed? {
      BothRecord(log, step, limits);
      var n := Last(log.window) + 1;
      TwoMore(log.window, Event(n, true, step.marker), Event(n + 1, step.gap, step.size));
      TwoMore(log.all, Event(n, true, step.marker), Event(n + 1, step.gap, step.size));
      hide Do;
    } else {
      OneRecords(log.(lost := 0), true, step.marker, step.markerOut, limits);
    }
    assert log.all + [] == log.all;
  }

  lemma BothRecord(log: Log, step: Step, limits: Limits)
    requires limits.Valid() && step.DoAppend? && log.up && log.lost > 0 && step.markerOut.Landed?
    ensures var log', n := Do(log, step, limits), Last(log.window) + 1;
      var g, e := Event(n, true, step.marker), Event(n + 1, step.gap, step.size);
      && log'.up && log'.lost == (if step.out.Landed? || step.gap then 0 else 1)
      && log'.all == (if step.out.Landed? then log.all + [g] + [e] else log.all + [g])
      && log'.window == Tail(if step.out.Landed? then log.window + [g] + [e] else log.window + [g], limits.maxEvents)
  {
    assert limits.maxEvents > 0;
    hide *;
    var n, m := Last(log.window) + 1, limits.maxEvents;
    var g, e := Event(n, true, step.marker), Event(n + 1, step.gap, step.size);
    var clear := log.(lost := 0);
    var marked := AppendOne(clear, true, step.marker, Landed, limits);
    MarkerFirst(log, step, limits);
    OneRecords(clear, true, step.marker, Landed, limits);
    TailLast(log.window + [g], m);
    LastIs(log.window, g);
    OneRecords(marked, step.gap, step.size, step.out, limits);
    if step.out.Landed? {
      TailTwice(log.window + [g], e, m);
    }
  }

  lemma MarkerFirst(log: Log, step: Step, limits: Limits)
    requires step.DoAppend? && log.up && log.lost > 0 && step.markerOut.Landed?
    ensures Do(log, step, limits)
         == AppendOne(AppendOne(log.(lost := 0), true, step.marker, Landed, limits), step.gap, step.size, step.out, limits)
  {
    hide AppendOne;
  }

  lemma LastIs(events: seq<Event>, e: Event)
    ensures Last(events + [e]) == e.number
  {}

  lemma TwoMore(events: seq<Event>, g: Event, e: Event)
    ensures events + [g] + [e] == events + [g, e]
  {}

  lemma OneRecords(log: Log, gap: bool, size: nat, out: Outcome, limits: Limits)
    ensures var log', e := AppendOne(log, gap, size, out, limits), Event(Last(log.window) + 1, gap, size);
      && log'.up == log.up
      && log'.all == (if out.Landed? then log.all + [e] else log.all)
      && log'.window == (if out.Landed? then Tail(log.window + [e], limits.maxEvents) else log.window)
      && log'.lost == log.lost + if out.Landed? || gap then 0 else 1
  {
    hide Compacted, Tail;
  }

  /** In the file, a landed event comes last; a failed one leaves it whole, or its end if it was being compacted. */
  lemma FileGrows(log: Log, gap: bool, size: nat, out: Outcome, limits: Limits) returns (k: nat)
    ensures k <= |log.file| && (out.FailedClean? || Bytes(log.file) + size <= limits.maxBytes ==> k == 0)
    ensures AppendOne(log, gap, size, out, limits).file
         == log.file[k..] + if out.Landed? then [Event(Last(log.window) + 1, gap, size)] else []
  {
    k := 0;
    if !out.FailedClean? && Bytes(log.file) + size > limits.maxBytes {
      k := CompactedIsSuffix(log.file, limits, size);
    }
    assert log.file[0..] == log.file;
    hide Bytes, Retained;
    assert log.file[k..] + [] == log.file[k..];
  }

  lemma TailTwice(events: seq<Event>, e: Event, n: nat)
    requires n > 0
    ensures Tail(Tail(events, n) + [e], n) == Tail(events + [e], n)
  {}

  /** The window is the newest events, as many as it may hold. */
  lemma WindowIsNewest(log: Log, limits: Limits)
    requires Inv(log, limits) && log.up
    ensures |log.window| == if |log.all| < limits.maxEvents then |log.all| else limits.maxEvents
    ensures log.window == log.all[|log.all| - |log.window|..]
  {
    assert log.all[0..] == log.all;
    hide Sound;
  }

  /** While an event is owed, whatever is recorded next is a marker. */
  lemma {:induction false} NextIsMarker(log: Log, steps: seq<Step>, limits: Limits)
    requires limits.Valid() && log.up && log.lost > 0 && Runs(log, steps, limits) && forall i | 0 <= i < |steps| :: steps[i].DoAppend?
    ensures log.all <= End(log, steps, limits).all
    ensures |End(log, steps, limits).all| > |log.all| ==> End(log, steps, limits).all[|log.all|].gap
    decreases |steps|
  {
    if steps != [] {
      AppendRecords(log, steps[0], limits);
      hide Do;
      var next := Do(log, steps[0], limits);
      if Records(log, steps[0]) == [] {
        NextIsMarker(next, steps[1..], limits);
      } else {
        OnlyGrows(next, steps[1..], limits);
        assert next.all[|log.all|].gap;
      }
    }
  }

  lemma {:induction false} OnlyGrows(log: Log, steps: seq<Step>, limits: Limits)
    requires limits.Valid() && log.up && Runs(log, steps, limits) && forall i | 0 <= i < |steps| :: steps[i].DoAppend?
    ensures log.all <= End(log, steps, limits).all
    decreases |steps|
  {
    if steps != [] {
      AppendRecords(log, steps[0], limits);
      hide Do, Records;
      OnlyGrows(Do(log, steps[0], limits), steps[1..], limits);
    }
  }

  /**
   A lost event is owned up to: after a step that lost one, over any further appends, the next thing
   recorded is a marker. A crash forgets what is owed.
   */
  lemma LossIsOwnedUpTo(log: Log, step: Step, steps: seq<Step>, limits: Limits)
    requires limits.Valid() && Enabled(log, step) && LosesEvent(log, step)
    requires Runs(Do(log, step, limits), steps, limits) && forall i | 0 <= i < |steps| :: steps[i].DoAppend?
    ensures var after, end := Do(log, step, limits), End(Do(log, step, limits), steps, limits);
      && after.all <= end.all && (|end.all| > |after.all| ==> end.all[|after.all|].gap)
  {
    AppendRecords(log, step, limits);
    hide Do;
    NextIsMarker(Do(log, step, limits), steps, limits);
  }
}
