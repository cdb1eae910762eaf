/**
 One operation's journal as it runs: frames appended to a file whose size is tracked, compaction when the
 size would pass the bound, the scan that finds holes and cuts damage off, and the window in memory from
 which clients are answered.
 */
module EventJournal {
  import opened Wrappers
  import opened EventLog
  import opened EventMarkers

  /** A line of the file: an event, or what does not parse as one of this operation's. */
  type Line = Option<Event>

  function Lines(events: seq<Event>): seq<Line> { seq(|events|, i requires 0 <= i < |events| => Some(events[i])) }

  predicate Parsed(lines: seq<Line>) { forall i | 0 <= i < |lines| :: lines[i].Some? }

  function Events(lines: seq<Line>): (events: seq<Event>)
    requires Parsed(lines)
    ensures |events| == |lines| && forall i | 0 <= i < |lines| :: lines[i] == Some(events[i])
  {
    if lines == [] then [] else Events(lines[..|lines| - 1]) + [lines[|lines| - 1].value]
  }

  lemma EventsOf(lines: seq<Line>, events: seq<Event>)
    requires |events| == |lines| && forall i | 0 <= i < |lines| :: lines[i] == Some(events[i])
    ensures Parsed(lines) && Events(lines) == events
  {
    assert Parsed(lines);
    assert forall i | 0 <= i < |lines| :: lines[i] == Some(Events(lines)[i]);
  }

  /** The line goes on from the number before it. */
  predicate Continues(line: Line, last: nat) { line.Some? && line.value.number > last }

  /** How far the file can be read: up to the first line that does not parse or does not go on. */
  function Readable(lines: seq<Line>): (n: nat)
    ensures n <= |lines|
  {
    if lines == [] then 0
    else
      var k := |lines| - 1;
      var n := Readable(lines[..k]);
      if n == k && Continues(lines[k], LastOf(lines[..k])) then k + 1 else n
  }

  function LastOf(lines: seq<Line>): nat {
    if lines == [] || lines[|lines| - 1].None? then 0 else lines[|lines| - 1].value.number
  }

  /** The line parses and its number is above that of the line before it. */
  predicate GoesOn(lines: seq<Line>, i: nat)
    requires i < |lines|
  {
    lines[i].Some? && lines[i].value.number > if i > 0 && lines[i - 1].Some? then lines[i - 1].value.number else 0
  }

  /** What is read are lines that each parse and go on from the one before; the next, if any, does not. */
  lemma {:induction false} ReadableIsAsFarAsItGoes(lines: seq<Line>)
    ensures forall i | 0 <= i < Readable(lines) :: GoesOn(lines, i)
    ensures Readable(lines) < |lines| ==> !GoesOn(lines, Readable(lines))
  {
    if lines != [] {
      var k := |lines| - 1;
      var front := lines[..k];
      ReadableIsAsFarAsItGoes(front);
      LastGoesOn(lines);
      assert Readable(lines) == if Readable(front) == k && Continues(lines[k], LastOf(front)) then k + 1 else Readable(front);
      hide Readable, Continues, LastOf;
      assert forall i | 0 <= i < k :: GoesOn(front, i) == GoesOn(lines, i);
      hide GoesOn;
    }
  }

  lemma LastGoesOn(lines: seq<Line>)
    requires lines != []
    ensures GoesOn(lines, |lines| - 1) <==> Continues(lines[|lines| - 1], LastOf(lines[..|lines| - 1]))
  {}

  class Journal {
    const limits: Limits
    var lines: seq<Line>
    var size: nat
    var window: seq<Event>
    var lost: nat
    ghost var all: seq<Event>

    /** In a running process every line is an event and the tracked size is the file's. */
    ghost predicate Valid() reads this {
      && limits.Valid() && Clean()
      && size == Bytes(File())
    }

    predicate Clean() reads this { Parsed(lines) }

    function File(): seq<Event>
      requires Clean()
      reads this
    {
      Events(lines)
    }

    ghost function View(): Log
      requires Clean()
      reads this
    {
      Log(true, File(), false, window, lost, all)
    }

    // -------------------------------------------------------------- compaction

    /** The longest suffix within both bounds, from sizes computed once. */
    static method RetainedSuffix(events: seq<Event>, maxEvents: nat, budget: int) returns (kept: seq<Event>)
      ensures kept == Retained(events, maxEvents, budget)
    {
      if |events| <= 1 {
        return events;
      }
      var from := if maxEvents > 0 && |events| > maxEvents then |events| - maxEvents else 0;
      OverCount(events, maxEvents, budget, from);
      kept := events[from..];
      var allowed := if budget < 0 then 0 else budget;
      var total := TotalSize(kept);
      var start := 0;
      ghost var count := |kept|;
      assert kept[0..] == kept;
      hide Retained, Bytes;
      while start < |kept| - 1 && total > allowed
        invariant 0 <= start <= |kept| - 1
        invariant total == Bytes(kept[start..])
        invariant Retained(events, maxEvents, budget) == Retained(kept[start..], maxEvents, budget)
      {
        FirstGoes(kept[start..], maxEvents, budget);
        assert kept[start..][1..] == kept[start + 1..];
        total := total - kept[start].size;
        start := start + 1;
      }
      kept := kept[start..];
      RestFits(kept, maxEvents, budget);
    }

    /** Makes room for the incoming line. */
    method MakeRoom(line: nat)
      requires Valid()
      modifies this`lines, this`size
      ensures Valid()
      ensures File() == Compacted(old(File()), limits, line)
    {
      if size + line > limits.maxBytes {
        var keep := RetainedSuffix(File(), limits.maxEvents, Budget(limits, line));
        lines := Lines(keep);
        EventsOf(lines, keep);
        size := TotalSize(keep);
      }
    }

    static method TotalSize(events: seq<Event>) returns (n: nat)
      ensures n == Bytes(events)
    {
      n := 0;
      for i := 0 to |events|
        invariant n == Bytes(events[..i])
      {
        assert events[..i + 1][..i] == events[..i];
        n := n + events[i].size;
      }
      assert events[..|events|] == events;
    }

    // -------------------------------------------------------------- appending

    method AppendOne(gap: bool, bytes: nat, out: Outcome) returns (ok: bool)
      requires Valid()
      modifies this
      ensures Valid()
      ensures View() == EventLog.AppendOne(old(View()), gap, bytes, out, limits)
      ensures ok == out.Landed?
    {
      hide Events, Bytes, Compacted, Tail;
      var e := Event((if window == [] then 0 else window[|window| - 1].number) + 1, gap, bytes);
      if !out.FailedClean? {
        MakeRoom(bytes);
      }
      if !out.Landed? {
        lost := if gap then lost else lost + 1;
        return false;
      }
      Put(e);
      ok := true;
    }

    method Put(e: Event)
      requires Valid()
      modifies this
      ensures Valid() && lost == old(lost)
      ensures File() == old(File()) + [e] && window == Tail(old(window) + [e], limits.maxEvents) && all == old(all) + [e]
    {
      hide Events, Bytes;
      ghost var file := File();
      BytesMore(file, e);
      lines := lines + [Some(e)];
      EventsOf(lines, file + [e]);
      size := size + e.size;
      window := window + [e];
      if |window| > limits.maxEvents {
        window := window[|window| - limits.maxEvents..];
      }
      all := all + [e];
    }

    /** Appends one event, owning up first to those lost before it. */
    method AppendEvent(gap: bool, bytes: nat, marker: nat, markerOut: Outcome, out: Outcome) returns (ok: bool)
      requires Valid()
      modifies this
      ensures Valid()
      ensures View() == Append(old(View()), gap, bytes, marker, markerOut, out, limits)
      ensures ok <==> out.Landed? && (old(lost) == 0 || markerOut.Landed?)
    {
      hide Events, Bytes, EventLog.AppendOne;
      if lost > 0 {
        var owed := lost;
        lost := 0;
        ok := AppendOne(true, marker, markerOut);
        if !ok {
          lost := if gap then owed else owed + 1;
          return;
        }
      }
      ok := AppendOne(gap, bytes, out);
    }

    // -------------------------------------------------------------- reading

    /**
     Reads the file once, whatever is in it: finds the holes, and cuts the file off at the first line that
     does not parse or does not go on.
     */
    method Scan() returns (events: seq<Event>, gaps: seq<Event>)
      modifies this`lines
      ensures lines == old(lines)[..Readable(old(lines))] && Clean() && events == File()
      ensures Scanned(events, gaps, Loaded(events, Readable(old(lines)) < |old(lines)|))
    {
      hide Marked, Scanned, Events;
      events, gaps := [], [];
      var last := 0;
      var i := 0;
      NothingScanned();
      while i < |lines| && Continues(lines[i], last)
        invariant i <= |lines| && lines == old(lines) && Readable(lines[..i]) == i
        invariant |events| == i && forall k | 0 <= k < i :: lines[k] == Some(events[k])
        invariant last == LastOf(lines[..i]) == Last(events)
        invariant Scanned(events, gaps, Marked(events)) && Below(gaps, last)
      {
        var e := lines[i].value;
        assert lines[..i + 1][..i] == lines[..i];
        ScanOn(events, gaps, e);
        if events != [] && e.number != last + 1 {
          gaps := gaps + [Gap(last + 1)];
        }
        last := e.number;
        events := events + [e];
        i := i + 1;
      }
      ReadableStops(lines, i);
      ScanEnds(events, gaps, i < |lines|);
      if i < |lines| {
        gaps := gaps + [Gap(last + 1)];
      }
      lines := lines[..i];
      EventsOf(lines, events);
    }

    /** Merges the markers into the events by number: the history as a client sees it. */
    method LoadEvents() returns (merged: seq<Event>)
      modifies this`lines
      ensures lines == old(lines)[..Readable(old(lines))] && Clean()
      ensures merged == Loaded(File(), Readable(old(lines)) < |old(lines)|)
    {
      hide Readable, Loaded, Events;
      var events, gaps := Scan();
      ghost var torn := Readable(old(lines)) < |old(lines)|;
      ScannedApart(events, gaps, Loaded(events, torn));
      merged := SortBySequence(events + gaps);
      ScannedIs(events, gaps, Loaded(events, torn), merged);
      LoadedIs(events, torn);
      hide Scanned;
      SameOrder(merged, Loaded(events, torn));
    }

    static method SortBySequence(events: seq<Event>) returns (sorted: seq<Event>)
      requires Distinct(events)
      ensures Increasing(sorted) && forall x :: x in sorted <==> x in events
    {
      sorted := [];
      for i := 0 to |events|
        invariant Increasing(sorted) && forall x :: x in sorted <==> x in events[..i]
      {
        var k := 0;
        while k < |sorted| && sorted[k].number <= events[i].number
          invariant 0 <= k <= |sorted| && forall j | 0 <= j < k :: sorted[j].number <= events[i].number
        {
          k := k + 1;
        }
        NewNumber(events, i, sorted);
        InsertedIncreasing(sorted, k, events[i]);
        hide Increasing;
        assert events[..i + 1] == events[..i] + [events[i]];
        sorted := sorted[..k] + [events[i]] + sorted[k..];
      }
      assert events[..|events|] == events;
    }

    /** The history from the file, which in a running process loses nothing by being read. */
    method LoadWhole() returns (loaded: seq<Event>)
      requires Valid() && Increasing(File()) && Positive(File())
      modifies this`lines
      ensures lines == old(lines) && loaded == Marked(old(File()))
    {
      hide Marked, Readable, Events, Bytes;
      WholeIsReadable(lines, File());
      loaded := LoadEvents();
      assert Marked(File()) + [] == Marked(File());
    }

    /** What a client asking from `s` is sent. */
    method ReplayLocked(s: nat, readable: bool) returns (out: seq<Event>)
      requires Valid() && Increasing(File()) && Positive(File()) && First(window) > 0
      modifies this`lines
      ensures lines == old(lines)
      ensures out == Replay(old(View()), s, readable)
    {
      hide Marked, After, Events, Bytes, Increasing, Positive;
      ghost var was := View();
      var first := if window == [] then 1 else window[0].number;
      if window == [] || s >= first - 1 {
        out := EventsAfter(window, s);
        return;
      }
      var loaded := [];
      if readable {
        loaded := LoadWhole();
      }
      if loaded == [] {
        out := EventsAfter(window, s);
        out := [Gap(first - 1)] + out;
        return;
      }
      if loaded[0].number > s + 1 {
        loaded := [Gap(loaded[0].number - 1)] + loaded;
      }
      out := EventsAfter(loaded, s);
    }

    static method EventsAfter(events: seq<Event>, s: nat) returns (out: seq<Event>)
      ensures out == After(events, s)
    {
      out := [];
      for i := 0 to |events|
        invariant out == After(events[..i], s)
      {
        assert events[..i + 1][..i] == events[..i];
        if events[i].number > s {
          out := out + [events[i]];
        }
      }
      assert events[..|events|] == events;
    }
  }

  // ---------------------------------------------------------------- why the loops are right

  /** Over its budget, a file loses its oldest event. */
  lemma FirstGoes(events: seq<Event>, maxEvents: nat, budget: int)
    requires |events| > 1
    ensures Bytes(events) == events[0].size + Bytes(events[1..])
    ensures Bytes(events) > (if budget < 0 then 0 else budget) ==>
      Retained(events, maxEvents, budget) == Retained(events[1..], maxEvents, budget)
  {
    BytesSuffix(events, 1);
    assert events[..1] == [events[0]] && [events[0]][..0] == [];
  }

  lemma RestFits(events: seq<Event>, maxEvents: nat, budget: int)
    requires |events| <= 1 || (Bytes(events) <= (if budget < 0 then 0 else budget) && (maxEvents == 0 || |events| <= maxEvents))
    ensures Retained(events, maxEvents, budget) == events
  {}

  /** Events over the count go first. */
  lemma {:induction false} OverCount(events: seq<Event>, maxEvents: nat, budget: int, from: nat)
    requires |events| > 1 && from == if maxEvents > 0 && |events| > maxEvents then |events| - maxEvents else 0
    ensures Retained(events, maxEvents, budget) == Retained(events[from..], maxEvents, budget)
    decreases |events|
  {
    if from > 0 {
      if from == 1 || |events| == 2 {
        assert from == 1;
      } else {
        OverCount(events[1..], maxEvents, budget, from - 1);
        assert events[1..][from - 1..] == events[from..];
      }
    } else {
      assert events[from..] == events;
    }
  }

  ghost predicate Distinct(events: seq<Event>) { forall i, j | 0 <= i < j < |events| :: events[i].number != events[j].number }

  ghost predicate Below(events: seq<Event>, n: nat) { forall i | 0 <= i < |events| :: events[i].number < n }

  /** Events and markers in order, on different numbers, together the history. */
  ghost predicate Scanned(events: seq<Event>, gaps: seq<Event>, history: seq<Event>) {
    && Increasing(events) && Positive(events) && Increasing(gaps)
    && (forall i, j | 0 <= i < |events| && 0 <= j < |gaps| :: events[i].number != gaps[j].number)
    && (forall x :: x in events || x in gaps <==> x in history)
  }

  lemma NothingScanned()
    ensures Scanned([], [], Marked([]))
  {}

  lemma ScannedMoreGap(events: seq<Event>, gaps: seq<Event>, history: seq<Event>, n: nat)
    requires Scanned(events, gaps, history) && Below(gaps, n) && Below(events, n)
    ensures Scanned(events, gaps + [Gap(n)], history + [Gap(n)])
  {}

  lemma ScannedMoreEvent(events: seq<Event>, gaps: seq<Event>, history: seq<Event>, e: Event)
    requires Scanned(events, gaps, history) && Below(gaps, e.number) && Below(events, e.number) && e.number > 0
    ensures Scanned(events + [e], gaps, history + [e])
  {}

  lemma LastIsAbove(events: seq<Event>)
    requires Increasing(events)
    ensures Below(events, Last(events) + 1)
  {}

  lemma ScanFirst(gaps: seq<Event>, e: Event)
    requires Below(gaps, 0) && e.number > 0
    ensures Scanned([e], gaps, Marked([e])) && gaps == []
  {
    assert |gaps| > 0 ==> gaps[0].number < 0;
    MarkedOne(e);
    hide Marked;
  }

  lemma ScanNextJoined(events: seq<Event>, gaps: seq<Event>, e: Event, history: seq<Event>)
    requires Scanned(events, gaps, history) && Below(gaps, e.number) && Below(events, e.number) && e.number > 0
    ensures Scanned(events + [e], gaps, history + [e]) && Below(gaps, e.number)
  {
    hide Scanned, Below;
    ScannedMoreEvent(events, gaps, history, e);
  }

  lemma BelowMore(gaps: seq<Event>, n: nat, m: nat)
    requires Below(gaps, n) && n <= m
    ensures Below(gaps, m) && (n < m ==> Below(gaps + [Gap(n)], m))
  {}

  lemma ScanNext(events: seq<Event>, gaps: seq<Event>, e: Event)
    requires Scanned(events, gaps, Marked(events)) && Below(gaps, Last(events)) && e.number > Last(events) && events != []
    requires Below(events, Last(events) + 1)
    ensures var more := if e.number != Last(events) + 1 then gaps + [Gap(Last(events) + 1)] else gaps;
      Scanned(events + [e], more, Marked(events + [e])) && Below(more, e.number)
  {
    var last := Last(events);
    var history := Marked(events);
    assert last == events[|events| - 1].number;
    MarkedMore(events, e);
    assert Joint(events[|events| - 1], e) == if e.number == last + 1 then [e] else [Gap(last + 1), e];
    hide *;
    BelowMore(gaps, last, last + 1);
    BelowMore(gaps, last + 1, e.number);
    BelowMore(events, last + 1, e.number);
    if e.number != last + 1 {
      ScannedMoreGap(events, gaps, history, last + 1);
      ScanNextJoined(events, gaps + [Gap(last + 1)], e, history + [Gap(last + 1)]);
      TwoJoined(history, Gap(last + 1), e);
    } else {
      ScanNextJoined(events, gaps, e, history);
    }
  }

  lemma TwoJoined(history: seq<Event>, g: Event, e: Event)
    ensures history + [g] + [e] == history + [g, e]
  {}

  lemma ScanOn(events: seq<Event>, gaps: seq<Event>, e: Event)
    requires Scanned(events, gaps, Marked(events)) && Below(gaps, Last(events)) && e.number > Last(events)
    ensures var more := if events != [] && e.number != Last(events) + 1 then gaps + [Gap(Last(events) + 1)] else gaps;
      Scanned(events + [e], more, Marked(events + [e])) && Below(more, e.number)
  {
    hide Marked;
    if events == [] {
      ScanFirst(gaps, e);
      assert [] + [e] == [e];
    } else {
      assert Increasing(events);
      LastIsAbove(events);
      hide Scanned, Increasing, Below;
      ScanNext(events, gaps, e);
    }
  }

  lemma ScanEnds(events: seq<Event>, gaps: seq<Event>, torn: bool)
    requires Scanned(events, gaps, Marked(events)) && Below(gaps, Last(events))
    ensures Scanned(events, if torn then gaps + [Gap(Last(events) + 1)] else gaps, Loaded(events, torn))
    ensures Increasing(events) && Positive(events)
  {
    assert Increasing(events) && Positive(events);
    LastIsAbove(events);
    hide Marked, Scanned;
    if torn {
      ScannedMoreGap(events, gaps, Marked(events), Last(events) + 1);
    } else {
      assert Marked(events) + [] == Marked(events);
    }
  }

  lemma ScannedApart(events: seq<Event>, gaps: seq<Event>, history: seq<Event>)
    requires Scanned(events, gaps, history)
    ensures Distinct(events + gaps) && Increasing(events) && Positive(events)
  {}

  lemma ScannedIs(events: seq<Event>, gaps: seq<Event>, history: seq<Event>, merged: seq<Event>)
    requires Scanned(events, gaps, history) && forall x :: x in merged <==> x in events + gaps
    ensures forall x :: x in merged <==> x in history
  {
    hide Increasing, Positive;
  }

  lemma NewNumber(events: seq<Event>, i: nat, sorted: seq<Event>)
    requires Distinct(events) && i < |events| && forall x :: x in sorted <==> x in events[..i]
    ensures forall k | 0 <= k < |sorted| :: sorted[k].number != events[i].number
  {
    forall k | 0 <= k < |sorted| ensures sorted[k].number != events[i].number {
      assert sorted[k] in events[..i];
      var j :| 0 <= j < i && events[..i][j] == sorted[k];
      assert events[j].number != events[i].number;
    }
  }

  lemma InsertedIncreasing(sorted: seq<Event>, k: nat, e: Event)
    requires Increasing(sorted) && k <= |sorted| && forall i | 0 <= i < |sorted| :: sorted[i].number != e.number
    requires forall j | 0 <= j < k :: sorted[j].number <= e.number
    requires k < |sorted| ==> sorted[k].number > e.number
    ensures var more := sorted[..k] + [e] + sorted[k..];
      Increasing(more) && forall x :: x in more <==> x in sorted || x == e
  {
    assert sorted == sorted[..k] + sorted[k..];
    assert forall i | k <= i < |sorted| :: sorted[i].number > e.number;
  }

  lemma {:induction false} ReadableStops(lines: seq<Line>, n: nat)
    requires n <= |lines| && Readable(lines[..n]) == n
    requires n < |lines| ==> !Continues(lines[n], LastOf(lines[..n]))
    ensures Readable(lines) == n
  {
    var k := |lines| - 1;
    if n == |lines| {
      assert lines[..n] == lines;
    } else if n < k {
      assert lines[..k][..n] == lines[..n];
      ReadableStops(lines[..k], n);
    }
  }

  /** A file of increasing events reads whole. */
  lemma {:induction false} WholeIsReadable(lines: seq<Line>, file: seq<Event>)
    requires |lines| == |file| && Increasing(file) && Positive(file)
    requires forall i | 0 <= i < |file| :: lines[i] == Some(file[i])
    ensures Readable(lines) == |lines| && lines[..|lines|] == lines
  {
    if lines != [] {
      var k := |lines| - 1;
      WholeIsReadable(lines[..k], file[..k]);
    }
  }

  /** Two strictly increasing histories of the same events are the same. */
  lemma {:induction false} SameOrder(a: seq<Event>, b: seq<Event>)
    requires Increasing(a) && Increasing(b) && forall x :: x in a <==> x in b
    ensures a == b
  {
    if a == [] {
      assert forall i | 0 <= i < |b| :: b[i] in a;
    } else {
      assert a[0] in b;
      var m, n := |a| - 1, |b| - 1;
      assert a[m] in b && b[n] in a;
      assert a[m] == b[n];
      forall x ensures x in a[..m] <==> x in b[..n] {
        FrontHas(a, x);
        FrontHas(b, x);
      }
      SameOrder(a[..m], b[..n]);
    }
  }

  lemma FrontHas(events: seq<Event>, x: Event)
    requires Increasing(events) && events != []
    ensures x in events[..|events| - 1] <==> x in events && x != events[|events| - 1]
  {
    var n := |events| - 1;
    assert events == events[..n] + [events[n]];
    if x in events[..n] {
      var i :| 0 <= i < n && events[..n][i] == x;
      assert events[i].number < events[n].number;
    }
  }
}
