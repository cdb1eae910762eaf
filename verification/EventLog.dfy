/**
 One operation's event history: a journal file, the window of it kept in memory, and what a client is
 sent. Appends fail, the file is compacted, a crash tears the last frame, and a restart reads the file
 again, marking what is missing. Sizes are in bytes, frame terminator included.
 */
module EventLog {

  datatype Event = Event(number: nat, gap: bool, size: nat)

  datatype Limits = Limits(maxEvents: nat, maxBytes: nat) {
    ghost predicate Valid() { maxEvents > 0 }
  }

  function Last(events: seq<Event>): nat { if events == [] then 0 else events[|events| - 1].number }

  function First(events: seq<Event>): nat { if events == [] then 1 else events[0].number }

  function Gap(n: nat): Event { Event(n, true, 0) }

  function Bytes(events: seq<Event>): nat { if events == [] then 0 else Bytes(events[..|events| - 1]) + events[|events| - 1].size }

  function Tail(events: seq<Event>, n: nat): seq<Event> { if |events| > n then events[|events| - n..] else events }

  // ---------------------------------------------------------------- reading the file

  /** An event behind another, with a marker between them if it does not follow on. */
  function Joint(a: Event, b: Event): seq<Event> { if b.number == a.number + 1 then [b] else [Gap(a.number + 1), b] }

  /** A marker at the first missing number before each event that does not follow the one before it. */
  function Marked(file: seq<Event>): seq<Event> {
    if |file| <= 1 then file
    else
      var n := |file| - 1;
      Marked(file[..n]) + Joint(file[n - 1], file[n])
  }

  /** What a load returns: events and markers, and one more marker when the tail was torn. */
  function Loaded(file: seq<Event>, torn: bool): seq<Event> {
    Marked(file) + if torn then [Gap(Last(file) + 1)] else []
  }

  // ---------------------------------------------------------------- compaction

  /** The longest suffix within both bounds, and never less than the newest event. */
  function Retained(events: seq<Event>, maxEvents: nat, budget: int): seq<Event> {
    if |events| <= 1 then events
    else if (maxEvents == 0 || |events| <= maxEvents) && Bytes(events) <= (if budget < 0 then 0 else budget) then events
    else Retained(events[1..], maxEvents, budget)
  }

  /** Three quarters of the bound, less the incoming line. */
  function Budget(limits: Limits, line: nat): int { limits.maxBytes * 3 / 4 - line }

  function Compacted(file: seq<Event>, limits: Limits, line: nat): seq<Event> {
    if Bytes(file) + line > limits.maxBytes then Retained(file, limits.maxEvents, Budget(limits, line)) else file
  }

  // ---------------------------------------------------------------- the history and its steps

  /** `all` is history: everything this process has read or written, of which `window` is the tail. */
  datatype Log = Log(up: bool, file: seq<Event>, torn: bool, window: seq<Event>, lost: nat, all: seq<Event>)

  /** An append lands, or fails; a failed one may have compacted first. */
  datatype Outcome = Landed | FailedClean | FailedCompacted

  function Next(log: Log): nat { Last(log.window) + 1 }

  /** One event, at the next number; a failed one consumes none and is counted unless it is a marker. */
  function AppendOne(log: Log, gap: bool, size: nat, out: Outcome, limits: Limits): Log {
    var e := Event(Next(log), gap, size);
    match out
    case Landed =>
      log.(file := Compacted(log.file, limits, size) + [e],
           window := Tail(log.window + [e], limits.maxEvents), all := log.all + [e])
    case FailedClean => log.(lost := if gap then log.lost else log.lost + 1)
    case FailedCompacted => log.(file := Compacted(log.file, limits, size), lost := if gap then log.lost else log.lost + 1)
  }

  /** Events lost before are owned up to by a marker first; if that fails too, all are still owed. */
  function Append(log: Log, gap: bool, size: nat, marker: nat, markerOut: Outcome, out: Outcome, limits: Limits): Log {
    if log.lost == 0 then AppendOne(log, gap, size, out, limits)
    else
      var owed := log.lost;
      var marked := AppendOne(log.(lost := 0), true, marker, markerOut, limits);
      if markerOut.Landed? then AppendOne(marked, gap, size, out, limits)
      else marked.(lost := if gap then owed else owed + 1)
  }

  datatype Step =
    | DoAppend(gap: bool, size: nat, marker: nat, markerOut: Outcome, out: Outcome)
    | Crash(torn: bool)
    | Restart

  predicate Enabled(log: Log, step: Step) { if step.Restart? then !log.up else log.up }

  function Do(log: Log, step: Step, limits: Limits): Log
    requires Enabled(log, step)
  {
    match step
    case DoAppend(gap, size, marker, markerOut, out) => Append(log, gap, size, marker, markerOut, out, limits)
    case Crash(torn) => Log(false, log.file, torn, [], 0, [])
    case Restart =>
      var loaded := Loaded(log.file, log.torn);
      Log(true, log.file, false, Tail(loaded, limits.maxEvents), 0, loaded)
  }

  // ---------------------------------------------------------------- what a client is sent

  function After(events: seq<Event>, s: nat): seq<Event> {
    if events == [] then []
    else After(events[..|events| - 1], s) + if events[|events| - 1].number > s then [events[|events| - 1]] else []
  }

  /** From the window if it reaches back to `s`, otherwise from the file, or from the window with a marker. */
  function Replay(log: Log, s: nat, readable: bool): seq<Event> {
    var first := First(log.window);
    if log.window == [] || s >= first - 1 then After(log.window, s)
    else
      var loaded := Marked(log.file);
      if !readable || loaded == [] then [Gap(first - 1)] + After(log.window, s)
      else if First(loaded) > s + 1 then After([Gap(First(loaded) - 1)] + loaded, s)
      else After(loaded, s)
  }

  // ---------------------------------------------------------------- order and chains

  ghost predicate Increasing(events: seq<Event>) { forall i, j | 0 <= i < j < |events| :: events[i].number < events[j].number }

  /** Nothing is skipped without a marker where the skipping starts. */
  ghost predicate Chained(events: seq<Event>) {
    forall i, j | 0 <= i && j == i + 1 < |events| :: events[j].number == events[i].number + 1 || events[i].gap
  }

  ghost predicate Positive(events: seq<Event>) { forall i | 0 <= i < |events| :: events[i].number > 0 }

  ghost predicate Sound(events: seq<Event>) { Increasing(events) && Chained(events) && Positive(events) }

  /** Every event of the file from some number on, and only those, are what `all` has from there. */
  ghost predicate Inv(log: Log, limits: Limits) {
    && Increasing(log.file) && Positive(log.file)
    && (log.up ==>
          && !log.torn && Sound(log.all) && log.window == Tail(log.all, limits.maxEvents)
          && (forall e <- log.file :: e in log.all)
          && (forall e <- log.all | !e.gap && log.file != [] && e.number >= log.file[0].number :: e in log.file)
          && (log.file == [] ==> forall e <- log.all :: e.gap))
    && (!log.up ==> log.window == [] && log.all == [])
  }

  lemma JointSound(m: seq<Event>, a: Event, b: Event)
    requires Sound(m) && m != [] && Last(m) == a.number < b.number
    ensures Sound(m + Joint(a, b)) && Last(m + Joint(a, b)) == b.number
  {
    SoundMore(m, if b.number == a.number + 1 then b else Gap(a.number + 1));
    if b.number != a.number + 1 {
      SoundMore(m + [Gap(a.number + 1)], b);
      assert m + [Gap(a.number + 1)] + [b] == m + [Gap(a.number + 1), b];
    }
  }

  lemma {:induction false} MarkedIs(file: seq<Event>)
    requires Increasing(file) && Positive(file)
    ensures Sound(Marked(file)) && Last(Marked(file)) == Last(file)
    ensures (file == [] <==> Marked(file) == []) && (file != [] ==> Marked(file)[0] == file[0])
  {
    if |file| > 1 {
      var n := |file| - 1;
      MarkedIs(file[..n]);
      var m := Marked(file[..n]);
      assert m != [] && Last(m) == file[n - 1].number && m[0] == file[0];
      JointSound(m, file[n - 1], file[n]);
      var more := m + Joint(file[n - 1], file[n]);
      assert Marked(file) == more && more[0] == m[0];
      hide Marked, Sound, Increasing, Positive;
    }
  }

  lemma {:induction false} MarkedHas(file: seq<Event>)
    ensures forall e <- file :: e in Marked(file)
    ensures forall e <- Marked(file) :: e in file || e.gap
  {
    if |file| > 1 {
      var n := |file| - 1;
      MarkedHas(file[..n]);
      assert file == file[..n] + [file[n]];
    }
  }

  lemma LoadedIs(file: seq<Event>, torn: bool)
    requires Increasing(file) && Positive(file)
    ensures Sound(Loaded(file, torn))
    ensures forall e <- file :: e in Loaded(file, torn)
    ensures forall e <- Loaded(file, torn) :: e in file || e.gap
  {
    var m := Marked(file);
    MarkedIs(file);
    MarkedHas(file);
    hide Marked, Increasing, Positive, Chained;
    if torn {
      SoundMore(m, Gap(Last(file) + 1));
    } else {
      assert m + [] == m;
    }
    hide Sound;
  }

  lemma SoundMore(events: seq<Event>, e: Event)
    requires Sound(events)
    requires e.number > Last(events) && (events != [] ==> e.number == Last(events) + 1 || events[|events| - 1].gap)
    ensures Sound(events + [e]) && Last(events + [e]) == e.number
  {
    forall i | 0 <= i < |events| ensures events[i].number <= Last(events) {}
  }

  lemma {:induction false} RetainedIsSuffix(events: seq<Event>, maxEvents: nat, budget: int) returns (k: nat)
    ensures k <= |events| && Retained(events, maxEvents, budget) == events[k..]
    ensures events != [] ==> k < |events|
  {
    k := 0;
    if Retained(events, maxEvents, budget) != events {
      var j := RetainedIsSuffix(events[1..], maxEvents, budget);
      assert events[1..][j..] == events[1 + j..];
      k := 1 + j;
    } else {
      assert events[0..] == events;
    }
  }

  lemma CompactedIsSuffix(file: seq<Event>, limits: Limits, line: nat) returns (k: nat)
    ensures k <= |file| && Compacted(file, limits, line) == file[k..]
    ensures file != [] ==> k < |file|
  {
    k := RetainedIsSuffix(file, limits.maxEvents, Budget(limits, line));
    if Compacted(file, limits, line) == file {
      k := 0;
    }
    assert file[0..] == file;
  }

  // ---------------------------------------------------------------- every step keeps the invariant

  lemma TailLast(events: seq<Event>, n: nat)
    requires n > 0
    ensures Last(Tail(events, n)) == Last(events) && (Tail(events, n) == [] <==> events == [])
  {}

  lemma InLast(events: seq<Event>, e: Event)
    requires Increasing(events) && e in events
    ensures e.number <= Last(events)
  {}

  /** Dropping the oldest events of the file. */
  lemma ShortenedKeeps(log: Log, limits: Limits, k: nat)
    requires Inv(log, limits) && log.up && k <= |log.file| && (log.file != [] ==> k < |log.file|)
    ensures Inv(log.(file := log.file[k..]), limits)
  {
    var file := log.file[k..];
    hide Sound;
    if log.file != [] {
      forall e <- log.all | !e.gap && e.number >= file[0].number ensures e in file {
        assert log.file[0].number <= log.file[k].number;
        var i :| 0 <= i < |log.file| && log.file[i] == e;
        assert i >= k;
        assert file[i - k] == e;
      }
    }
  }

  lemma WrittenKeeps(log: Log, limits: Limits, e: Event)
    requires limits.Valid() && Inv(log, limits) && log.up && e.number == Next(log)
    ensures Inv(log.(file := log.file + [e], window := Tail(log.window + [e], limits.maxEvents), all := log.all + [e]), limits)
  {
    TailLast(log.all, limits.maxEvents);
    SoundMore(log.all, e);
    forall x <- log.file ensures x.number < e.number {
      InLast(log.all, x);
    }
    hide Sound;
    assert forall i | 0 <= i < |log.file| :: log.file[i] in log.file;
    assert Tail(log.all + [e], limits.maxEvents) == Tail(log.window + [e], limits.maxEvents);
    assert log.file == [] ==> forall x <- log.all :: x.gap;
  }

  lemma AppendOneKeeps(log: Log, gap: bool, size: nat, out: Outcome, limits: Limits)
    requires limits.Valid() && Inv(log, limits) && log.up
    ensures Inv(AppendOne(log, gap, size, out, limits), limits)
  {
    var k := CompactedIsSuffix(log.file, limits, size);
    hide Compacted;
    ShortenedKeeps(log, limits, k);
    WrittenKeeps(log.(file := log.file[k..]), limits, Event(Next(log), gap, size));
  }

  lemma RestartKeeps(log: Log, limits: Limits)
    requires limits.Valid() && Inv(log, limits) && !log.up
    ensures Inv(Do(log, Restart, limits), limits)
  {
    LoadedIs(log.file, log.torn);
    hide Loaded, Sound, Tail;
  }

  lemma InvKept(log: Log, step: Step, limits: Limits)
    requires limits.Valid() && Inv(log, limits) && Enabled(log, step)
    ensures Inv(Do(log, step, limits), limits)
  {
    match step
    case DoAppend(gap, size, marker, markerOut, out) =>
      hide Inv, AppendOne;
      if log.lost == 0 {
        AppendOneKeeps(log, gap, size, out, limits);
      } else {
        LostKeeps(log, 0, limits);
        AppendOneKeeps(log.(lost := 0), true, marker, markerOut, limits);
        var marked := AppendOne(log.(lost := 0), true, marker, markerOut, limits);
        AppendOneUp(log.(lost := 0), true, marker, markerOut, limits);
        AppendOneKeeps(marked, gap, size, out, limits);
        LostKeeps(marked, if gap then log.lost else log.lost + 1, limits);
      }
    case Crash(_) =>
    case Restart => RestartKeeps(log, limits);
  }

  lemma AppendOneUp(log: Log, gap: bool, size: nat, out: Outcome, limits: Limits)
    ensures AppendOne(log, gap, size, out, limits).up == log.up
  {}

  lemma LostKeeps(log: Log, lost: nat, limits: Limits)
    requires Inv(log, limits)
    ensures Inv(log.(lost := lost), limits)
  {}

  // ---------------------------------------------------------------- the byte bound

  lemma {:induction false} BytesSuffix(events: seq<Event>, k: nat)
    requires k <= |events|
    ensures Bytes(events) == Bytes(events[..k]) + Bytes(events[k..])
    decreases |events|
  {
    var n := |events| - 1;
    if k == |events| {
      assert events[..k] == events && events[k..] == [];
    } else {
      BytesSuffix(events[..n], k);
      assert events[..n][..k] == events[..k] && events[..n][k..] == events[k..][..n - k];
    }
  }

  predicate FitsBoth(events: seq<Event>, maxEvents: nat, budget: int) {
    (maxEvents == 0 || |events| <= maxEvents) && Bytes(events) <= if budget < 0 then 0 else budget
  }

  /** What is retained is the longest suffix that fits both bounds, or the newest event if that alone does not fit. */
  lemma {:induction false} RetainedIsLongest(events: seq<Event>, maxEvents: nat, budget: int) returns (k: nat)
    requires events != []
    ensures k < |events| && Retained(events, maxEvents, budget) == events[k..]
    ensures FitsBoth(events[k..], maxEvents, budget) || k == |events| - 1
    ensures forall j | 0 <= j < k :: !FitsBoth(events[j..], maxEvents, budget)
  {
    k := 0;
    assert events[0..] == events;
    if |events| > 1 && !FitsBoth(events, maxEvents, budget) {
      k := RetainedIsLongest(events[1..], maxEvents, budget);
      assert events[1..][k..] == events[k + 1..];
      forall j | 0 <= j < k + 1 ensures !FitsBoth(events[j..], maxEvents, budget) {
        if j > 0 {
          assert events[1..][j - 1..] == events[j..];
        }
      }
      k := k + 1;
    }
  }

  /** A line that fits leaves the file before it alone. */
  lemma FittingLeavesFile(log: Log, gap: bool, size: nat, limits: Limits)
    requires Bytes(log.file) + size <= limits.maxBytes
    ensures AppendOne(log, gap, size, Landed, limits).file == log.file + [Event(Next(log), gap, size)]
    ensures AppendOne(log, gap, size, FailedCompacted, limits).file == log.file
  {
    hide Bytes, Retained;
  }

  /** One event more than is kept would be past the count or past three quarters of the bound. */
  lemma NoMoreThanItMust(file: seq<Event>, limits: Limits, line: nat) returns (k: nat)
    requires file != [] && Bytes(file) + line > limits.maxBytes
    ensures k < |file| && Compacted(file, limits, line) == file[k..]
    ensures k > 0 ==> (limits.maxEvents > 0 && |file| - k + 1 > limits.maxEvents) || 4 * (Bytes(file[k - 1..]) + line) > 3 * limits.maxBytes
    ensures k < |file| - 1 && limits.maxEvents > 0 ==> |file| - k <= limits.maxEvents
  {
    k := RetainedIsLongest(file, limits.maxEvents, Budget(limits, line));
    hide Retained;
    if k > 0 {
      assert !FitsBoth(file[k - 1..], limits.maxEvents, Budget(limits, line));
      hide Bytes;
    }
  }

  /**
   After every append the file is within its bound, or is the newest event retained and the incoming
   line alone; and after an append that compacted and fitted its budget, within three quarters of it.
   */
  lemma ByteBound(log: Log, gap: bool, size: nat, limits: Limits)
    ensures var before := Bytes(log.file);
      var newest := if log.file == [] then 0 else log.file[|log.file| - 1].size;
      var after := Bytes(AppendOne(log, gap, size, Landed, limits).file);
      && (after <= limits.maxBytes || after == newest + size)
      && (before + size > limits.maxBytes ==> 4 * after <= 3 * limits.maxBytes || after == newest + size)
  {
    var file, line := log.file, Event(Next(log), gap, size);
    var kept := Compacted(file, limits, size);
    BytesMore(kept, line);
    assert AppendOne(log, gap, size, Landed, limits).file == kept + [line];
    if Bytes(file) + size > limits.maxBytes && file != [] {
      CompactedFits(file, limits, size);
      var newest := file[|file| - 1].size;
      hide *;
      WithinThreeQuarters(Bytes(kept), newest, limits, size);
    }
  }

  /** What compaction leaves fits its budget, or is the newest event alone. */
  lemma CompactedFits(file: seq<Event>, limits: Limits, line: nat)
    requires file != [] && Bytes(file) + line > limits.maxBytes
    ensures var b, newest := Bytes(Compacted(file, limits, line)), file[|file| - 1].size;
      b == newest || (newest <= b && b <= if Budget(limits, line) < 0 then 0 else Budget(limits, line))
  {
    var k := RetainedIsLongest(file, limits.maxEvents, Budget(limits, line));
    var front := file[k..|file| - 1];
    assert file[k..] == front + [file[|file| - 1]];
    BytesMore(front, file[|file| - 1]);
    assert k == |file| - 1 ==> front == [];
    hide Retained, Budget;
  }

  lemma WithinThreeQuarters(b: nat, newest: nat, limits: Limits, line: nat)
    requires b == newest || (newest <= b && b <= if Budget(limits, line) < 0 then 0 else Budget(limits, line))
    ensures 4 * (b + line) <= 3 * limits.maxBytes || b + line == newest + line
    ensures b + line <= limits.maxBytes || b + line == newest + line
  {}

  lemma BytesMore(events: seq<Event>, e: Event)
    ensures Bytes(events + [e]) == Bytes(events) + e.size
  {
    assert (events + [e])[..|events|] == events;
  }
}
