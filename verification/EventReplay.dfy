/**
 What a client is sent of an operation's history, from the window, the file, or the window with a marker:
 nothing is skipped silently, over any run.
 */
module EventReplay {
  import opened EventLog

  lemma {:induction false} AfterIsSuffix(events: seq<Event>, s: nat) returns (k: nat)
    requires Increasing(events)
    ensures k <= |events| && After(events, s) == events[k..]
    ensures forall i | 0 <= i < k :: events[i].number <= s
    ensures forall i | k <= i < |events| :: events[i].number > s
  {
    hide After;
    k := 0;
    AfterLast(events, s);
    if events != [] {
      var n := |events| - 1;
      var front := events[..n];
      if events[n].number > s {
        k := AfterIsSuffix(front, s);
        assert events[k..] == front[k..] + [events[n]];
      } else {
        AllBelow(front, s);
        k := |events|;
      }
    }
  }

  lemma {:induction false} AllBelow(events: seq<Event>, s: nat)
    requires forall i | 0 <= i < |events| :: events[i].number <= s
    ensures After(events, s) == []
  {
    AfterLast(events, s);
    hide After;
    if events != [] {
      AllBelow(events[..|events| - 1], s);
    }
  }

  lemma AfterLast(events: seq<Event>, s: nat)
    ensures events == [] ==> After(events, s) == []
    ensures events != [] ==>
      var n := |events| - 1; After(events, s) == After(events[..n], s) + if events[n].number > s then [events[n]] else []
  {}

  /** The marker `g` stands right before `next` in the file, at or before `s`. */
  ghost predicate Marks(file: seq<Event>, g: Event, s: nat, next: nat) {
    g.gap && g.number <= s && forall i | 0 <= i < |file| :: file[i].number <= g.number || next <= file[i].number
  }

  ghost predicate MarkedBefore(log: Log, s: nat, next: nat) {
    exists g :: (g in log.all || g in Marked(log.file)) && Marks(log.file, g, s, next)
  }

  predicate Above(out: seq<Event>, s: nat) { forall i | 0 <= i < |out| :: out[i].number > s }

  /** What is missing at the start was marked at or before `s`, or is marked first. */
  ghost predicate StartsHonestly(log: Log, s: nat, out: seq<Event>) {
    out != [] ==> out[0].number == s + 1 || out[0].gap || MarkedBefore(log, s, out[0].number)
  }

  /** Every event known above `s` is there, unless a marker that comes first stands for it. */
  ghost predicate Complete(log: Log, s: nat, out: seq<Event>) {
    forall e <- log.all | !e.gap && e.number > s :: e in out || (out != [] && out[0].gap && e.number <= out[0].number)
  }

  /** Nothing is skipped silently. */
  ghost predicate Honest(log: Log, s: nat, out: seq<Event>) {
    Sound(out) && Above(out, s) && StartsHonestly(log, s, out) && Complete(log, s, out)
  }

  lemma SuffixSound(events: seq<Event>, k: nat)
    requires Sound(events) && k <= |events|
    ensures Sound(events[k..])
  {
    forall i, j | 0 <= i && j == i + 1 < |events[k..]|
      ensures events[k..][j].number == events[k..][i].number + 1 || events[k..][i].gap
    {
      assert events[k + j].number == events[k + i].number + 1 || events[k + i].gap;
    }
  }

  lemma SoundFront(g: Event, events: seq<Event>)
    requires Sound(events) && g.gap && g.number > 0 && (events != [] ==> g.number < events[0].number)
    ensures Sound([g] + events)
  {
    assert forall i | 0 <= i < |events| :: events[0].number <= events[i].number;
    var more := [g] + events;
    forall i, j | 0 <= i && j == i + 1 < |more| ensures more[j].number == more[i].number + 1 || more[i].gap {
      if i > 0 {
        assert events[j - 1].number == events[i - 1].number + 1 || events[i - 1].gap;
      }
    }
  }

  lemma AfterHas(events: seq<Event>, s: nat)
    requires Increasing(events)
    ensures Above(After(events, s), s)
    ensures forall e :: e in After(events, s) <==> e in events && e.number > s
  {
    var k := AfterIsSuffix(events, s);
    hide After, Increasing;
    forall e | e in events && e.number > s ensures e in events[k..] {
      var i :| 0 <= i < |events| && events[i] == e;
      assert events[k..][i - k] == e;
    }
  }

  /** What comes after `s` of a sound history is sound, and starts next to `s`, at the start, or after a marker. */
  lemma AfterSound(events: seq<Event>, s: nat)
    requires Sound(events)
    ensures var out := After(events, s);
      && Sound(out) && Above(out, s)
      && (forall e :: e in out <==> e in events && e.number > s)
      && (out != [] && out[0] != events[0] && out[0].number != s + 1 ==> exists g :: g in events && Marks(events, g, s, out[0].number))
  {
    AfterHas(events, s);
    var k := AfterIsSuffix(events, s);
    SuffixSound(events, k);
    hide After, Above;
    if 0 < k < |events| {
      var before := events[k - 1];
      assert events[k].number == before.number + 1 || before.gap;
      hide Chained, Positive;
      assert before in events && before.number <= s;
      assert before.gap ==> Marks(events, before, s, events[k].number);
    }
  }

  lemma FrontKeeps(g: Event, rest: seq<Event>)
    ensures ([g] + rest)[0] == g && forall e <- rest :: e in [g] + rest
  {}

  lemma WindowIsTail(log: Log, limits: Limits, e: Event)
    requires limits.Valid() && Inv(log, limits) && log.up
    ensures Sound(log.window) && (forall x <- log.window :: x in log.all)
    ensures e in log.all && log.window != [] && e.number >= First(log.window) ==> e in log.window
    ensures log.window == [] ==> log.all == []
  {
    var all := log.all;
    var k := if |all| > limits.maxEvents then |all| - limits.maxEvents else 0;
    assert all[0..] == all;
    assert log.window == all[k..];
    SuffixSound(all, k);
    hide Chained, Positive;
    if e in all && log.window != [] && e.number >= First(log.window) {
      var i :| 0 <= i < |all| && all[i] == e;
      assert i >= k;
      assert log.window[i - k] == e;
    }
  }

  lemma WindowStart(log: Log, limits: Limits, s: nat)
    requires limits.Valid() && Inv(log, limits) && log.up && log.window != [] && s >= First(log.window) - 1
    ensures StartsHonestly(log, s, After(log.window, s))
  {
    var out := After(log.window, s);
    WindowIsTail(log, limits, Event(0, false, 0));
    AfterSound(log.window, s);
    hide After, Tail, Marked, Above;
    if out != [] && out[0] != log.window[0] && out[0].number != s + 1 {
      hide Sound, Inv;
      var g :| g in log.window && Marks(log.window, g, s, out[0].number);
      WindowMarks(log, limits, g, s, out[0].number);
      hide Marks;
    }
  }

  lemma WindowComplete(log: Log, limits: Limits, s: nat)
    requires limits.Valid() && Inv(log, limits) && log.up && (log.window == [] || s >= First(log.window) - 1)
    ensures Complete(log, s, After(log.window, s))
  {
    WindowIsTail(log, limits, Event(0, false, 0));
    AfterSound(log.window, s);
    hide After, Tail, Sound, Above;
    forall e <- log.all | e.number > s ensures e in After(log.window, s) {
      WindowIsTail(log, limits, e);
    }
  }

  lemma WindowHonest(log: Log, limits: Limits, s: nat)
    requires limits.Valid() && Inv(log, limits) && log.up && (log.window == [] || s >= First(log.window) - 1)
    ensures Honest(log, s, After(log.window, s))
  {
    WindowIsTail(log, limits, Event(0, false, 0));
    WindowComplete(log, limits, s);
    AfterSound(log.window, s);
    if log.window != [] {
      hide Inv, Sound, Above, After, Complete;
      WindowStart(log, limits, s);
    }
    hide Inv, Sound, Above, Complete, MarkedBefore;
  }

  lemma WindowMarks(log: Log, limits: Limits, g: Event, s: nat, next: nat)
    requires limits.Valid() && Inv(log, limits) && log.up && g in log.window && Marks(log.window, g, s, next)
    ensures g in log.all && Marks(log.file, g, s, next)
  {
    WindowIsTail(log, limits, g);
    forall i | 0 <= i < |log.file| && log.file[i].number > g.number ensures next <= log.file[i].number {
      var e := log.file[i];
      assert First(log.window) <= g.number;
      assert e in log.all;
      WindowIsTail(log, limits, e);
    }
    hide Tail;
  }

  lemma UnreadableComplete(log: Log, limits: Limits, s: nat)
    requires limits.Valid() && Inv(log, limits) && log.up && log.window != [] && s < First(log.window) - 1
    ensures Complete(log, s, [Gap(First(log.window) - 1)] + After(log.window, s))
  {
    var out := [Gap(First(log.window) - 1)] + After(log.window, s);
    WindowIsTail(log, limits, Event(0, false, 0));
    AfterSound(log.window, s);
    FrontKeeps(Gap(First(log.window) - 1), After(log.window, s));
    hide Inv, After, Tail, Sound, Above;
    forall e <- log.all | !e.gap && e.number > s ensures e in out || e.number <= out[0].number {
      WindowIsTail(log, limits, e);
    }
  }

  lemma UnreadableHonest(log: Log, limits: Limits, s: nat)
    requires limits.Valid() && Inv(log, limits) && log.up && log.window != [] && s < First(log.window) - 1
    ensures Honest(log, s, [Gap(First(log.window) - 1)] + After(log.window, s))
  {
    var g := Gap(First(log.window) - 1);
    UnreadableComplete(log, limits, s);
    WindowIsTail(log, limits, Event(0, false, 0));
    AfterSound(log.window, s);
    hide Inv, After, Tail, Complete;
    var rest := After(log.window, s);
    assert forall i | 0 <= i < |log.window| :: log.window[0].number <= log.window[i].number;
    assert rest != [] ==> rest[0] in log.window;
    SoundFront(g, rest);
    hide Sound, MarkedBefore;
  }

  /** Every event known is in the file, or older than all of it. */
  lemma KnownInFile(log: Log, limits: Limits, e: Event)
    requires Inv(log, limits) && log.up && log.file != [] && e in log.all && !e.gap
    ensures e in Marked(log.file) || e.number < log.file[0].number
  {
    MarkedHas(log.file);
    hide Marked, Sound;
  }

  lemma MarksInFile(file: seq<Event>, g: Event, s: nat, next: nat)
    requires Marks(Marked(file), g, s, next)
    ensures Marks(file, g, s, next)
  {
    MarkedHas(file);
    hide Marked;
    forall i | 0 <= i < |file| ensures file[i].number <= g.number || next <= file[i].number {
      assert file[i] in Marked(file);
    }
  }

  lemma FileStart(log: Log, s: nat)
    requires Sound(Marked(log.file)) && Marked(log.file) != [] && First(Marked(log.file)) <= s + 1
    ensures StartsHonestly(log, s, After(Marked(log.file), s))
  {
    var loaded := Marked(log.file);
    AfterSound(loaded, s);
    var out := After(loaded, s);
    hide After, Marked, Marks, Sound;
    if out != [] && out[0] != loaded[0] && out[0].number != s + 1 {
      var g :| g in loaded && Marks(loaded, g, s, out[0].number);
      MarksInFile(log.file, g, s, out[0].number);
    }
  }

  lemma FileComplete(log: Log, limits: Limits, s: nat)
    requires Inv(log, limits) && log.up && Marked(log.file) != [] && First(Marked(log.file)) <= s + 1
    ensures Complete(log, s, After(Marked(log.file), s))
  {
    MarkedIs(log.file);
    AfterSound(Marked(log.file), s);
    hide Sound, Marked, After, Above;
    forall e <- log.all | !e.gap && e.number > s ensures e in After(Marked(log.file), s) {
      KnownInFile(log, limits, e);
    }
  }

  lemma FileHonest(log: Log, limits: Limits, s: nat)
    requires Inv(log, limits) && log.up && Marked(log.file) != [] && First(Marked(log.file)) <= s + 1
    ensures Honest(log, s, After(Marked(log.file), s))
  {
    hide Sound, Marked, After, Above, StartsHonestly, Complete, Increasing, Positive;
    MarkedIs(log.file);
    FileComplete(log, limits, s);
    hide Inv;
    AfterSound(Marked(log.file), s);
    FileStart(log, s);
  }

  lemma FrontedComplete(log: Log, limits: Limits, s: nat)
    requires Inv(log, limits) && log.up && Marked(log.file) != [] && First(Marked(log.file)) > s + 1
    requires Sound([Gap(First(Marked(log.file)) - 1)] + Marked(log.file))
    ensures var out := After([Gap(First(Marked(log.file)) - 1)] + Marked(log.file), s);
      Complete(log, s, out) && out != [] && out[0].gap
  {
    var loaded := Marked(log.file);
    var g := Gap(First(loaded) - 1);
    var fronted := [g] + loaded;
    FrontKeeps(g, loaded);
    FirstIs(fronted, s, g);
    AfterHas(fronted, s);
    FirstOfMarked(log.file);
    hide *;
    forall e <- log.all | !e.gap && e.number > s ensures e in After(fronted, s) || e.number <= g.number {
      KnownInFile(log, limits, e);
    }
    CompleteBecause(log, s, After(fronted, s));
  }

  lemma FirstOfMarked(file: seq<Event>)
    requires Marked(file) != [] && Increasing(file) && Positive(file)
    ensures file != [] && First(Marked(file)) == file[0].number
  {
    MarkedIs(file);
    assert file == [] ==> Marked(file) == [];
    hide Marked, Sound, Increasing, Positive;
  }

  lemma CompleteBecause(log: Log, s: nat, out: seq<Event>)
    requires forall e <- log.all | !e.gap && e.number > s :: e in out || (out != [] && out[0].gap && e.number <= out[0].number)
    ensures Complete(log, s, out)
  {}

  lemma FrontedHonest(log: Log, limits: Limits, s: nat)
    requires Inv(log, limits) && log.up && Marked(log.file) != [] && First(Marked(log.file)) > s + 1
    ensures Honest(log, s, After([Gap(First(Marked(log.file)) - 1)] + Marked(log.file), s))
  {
    var loaded := Marked(log.file);
    var g := Gap(First(loaded) - 1);
    MarkedIs(log.file);
    SoundFront(g, loaded);
    hide Sound, Marked, After, Above, Complete, MarkedBefore;
    FrontedComplete(log, limits, s);
    AfterSound([g] + loaded, s);
    hide Inv;
  }

  lemma FirstIs(events: seq<Event>, s: nat, e: Event)
    requires Sound(events) && events != [] && e == events[0] && e.number > s
    ensures After(events, s) != [] && After(events, s)[0] == e
  {
    var k := AfterIsSuffix(events, s);
    hide After;
    assert k == 0;
  }

  /**
   No silent loss: whatever sequence number a client asks from, it is sent numbers above it in increasing
   order; where numbers are skipped there is a marker where the skipping starts, or at or before the
   number asked from; and every event the process knows of above it is sent, unless a marker that comes
   first stands for it.
   */
  lemma NoSilentLoss(log: Log, limits: Limits, s: nat, readable: bool)
    requires limits.Valid() && Inv(log, limits) && log.up
    ensures Honest(log, s, Replay(log, s, readable))
  {
    hide Inv, Honest, Marked, After;
    if log.window == [] || s >= First(log.window) - 1 {
      WindowHonest(log, limits, s);
    } else if !readable || Marked(log.file) == [] {
      UnreadableHonest(log, limits, s);
    } else if First(Marked(log.file)) > s + 1 {
      FrontedHonest(log, limits, s);
    } else {
      FileHonest(log, limits, s);
    }
  }

  // ---------------------------------------------------------------- whole runs

  ghost predicate Runs(log: Log, steps: seq<Step>, limits: Limits)
    decreases |steps|
  {
    steps == [] || (Enabled(log, steps[0]) && Runs(Do(log, steps[0], limits), steps[1..], limits))
  }

  function End(log: Log, steps: seq<Step>, limits: Limits): Log
    requires Runs(log, steps, limits)
    decreases |steps|
  {
    if steps == [] then log else End(Do(log, steps[0], limits), steps[1..], limits)
  }

  /** An operation just admitted has an empty history. */
  const Empty := Log(true, [], false, [], 0, [])

  lemma EmptyIsSound(limits: Limits)
    ensures Inv(Empty, limits)
  {}

  /** Over any run of appends, failures, compactions, crashes that tear the tail, and restarts. */
  lemma {:induction false} NoSilentLossEver(log: Log, steps: seq<Step>, limits: Limits, s: nat, readable: bool)
    requires limits.Valid() && Inv(log, limits) && Runs(log, steps, limits) && End(log, steps, limits).up
    ensures Honest(End(log, steps, limits), s, Replay(End(log, steps, limits), s, readable))
    decreases |steps|
  {
    if steps == [] {
      NoSilentLoss(log, limits, s, readable);
    } else {
      InvKept(log, steps[0], limits);
      hide Inv, Do, Honest, Replay;
      NoSilentLossEver(Do(log, steps[0], limits), steps[1..], limits, s, readable);
    }
  }
}
