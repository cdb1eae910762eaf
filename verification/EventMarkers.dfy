/**
 A marker of missing events stays at its number: through appends, other loads and compactions, except the
 marker of a torn tail that nothing followed.
 */
module EventMarkers {
  import opened EventLog
  import opened EventReplay

  /** Numbers handed out one after the other from `n`. */
  ghost predicate Consecutive(events: seq<Event>, n: nat) { forall i | 0 <= i < |events| :: events[i].number == n + i }

  lemma MarkedMore(file: seq<Event>, e: Event)
    requires file != []
    ensures Marked(file + [e]) == Marked(file) + Joint(file[|file| - 1], e)
  {
    assert (file + [e])[..|file|] == file;
  }

  /** What a process appends to the file it loaded is numbered on from the last thing it loaded. */
  lemma {:induction false} MarkedAfterLoad(file: seq<Event>, torn: bool, more: seq<Event>)
    requires file != [] && more != [] && Consecutive(more, Last(file) + if torn then 2 else 1)
    ensures Marked(file + more) == Loaded(file, torn) + more
  {
    hide Marked;
    var n := |more| - 1;
    var front := file + more[..n];
    assert file + more == front + [more[n]];
    MarkedMore(front, more[n]);
    assert more == more[..n] + [more[n]];
    if n == 0 {
      assert front == file;
      assert Joint(file[|file| - 1], more[0]) == (if torn then [Gap(Last(file) + 1)] else []) + [more[0]];
    } else {
      MarkedAfterLoad(file, torn, more[..n]);
      assert front[|front| - 1] == more[n - 1];
      assert Joint(front[|front| - 1], more[n]) == [more[n]];
    }
  }

  lemma LoadedLast(file: seq<Event>, torn: bool)
    requires Increasing(file) && Positive(file)
    ensures Last(Loaded(file, torn)) == Last(file) + if torn then 1 else 0
    ensures Loaded(file, false) == Marked(file)
  {
    MarkedIs(file);
    hide Marked;
    assert Marked(file) + [] == Marked(file);
  }

  /**
   Another load finds every marker where it was exactly when there was no torn tail to mark, or something
   was appended to a file that was not empty. A torn tail's marker is not in the file: it goes, number
   and all, with the tail, unless a later event leaves the hole behind it, and there is no hole before
   the first event of a file.
   */
  lemma MarkersStayExactlyWhen(file: seq<Event>, torn: bool, more: seq<Event>)
    requires Increasing(file) && Positive(file)
    requires Consecutive(more, Last(Loaded(file, torn)) + 1)
    ensures Loaded(file, torn) <= Loaded(file + more, false) <==> !torn || (file != [] && more != [])
  {
    LoadedLast(file, torn);
    if file == [] {
      assert file + more == more && Loaded(file, torn) == if torn then [Gap(1)] else [];
      ConsecutiveIs(more, Last(Loaded(file, torn)) + 1);
      MarkedIs(more);
      WholeFile(more);
      hide Marked;
      assert Marked(more) != [] ==> Marked(more)[0] == more[0];
    } else if more != [] {
      MarkedAfterLoad(file, torn, more);
      assert Loaded(file + more, false) == Loaded(file, torn) + more;
    } else {
      assert file + more == file;
      assert |Loaded(file, true)| == |Marked(file)| + 1;
    }
  }

  lemma ConsecutiveIs(events: seq<Event>, n: nat)
    requires Consecutive(events, n) && n > 0
    ensures Increasing(events) && Positive(events)
  {}

  lemma KeepsNewest(front: seq<Event>, e: Event)
    requires Increasing(front) && Positive(front) && front != [] && Last(front) == front[|front| - 1].number < e.number
    ensures After(Marked(front + [e]), e.number - 1) == [e]
  {
    hide *;
    MarkedIs(front);
    MarkedMore(front, e);
    JointAfter(front[|front| - 1], e, e.number - 1);
    AfterNone(Marked(front), e.number - 1);
    AfterConcat(Marked(front), Joint(front[|front| - 1], e), e.number - 1);
  }

  lemma JointAfter(a: Event, b: Event, s: nat)
    requires a.number < b.number && s == b.number - 1
    ensures After(Joint(a, b), s) == [b]
  {
    if b.number != a.number + 1 {
      assert [Gap(a.number + 1), b] == [Gap(a.number + 1)] + [b];
      AfterConcat([Gap(a.number + 1)], [b], s);
      AfterNone([Gap(a.number + 1)], s);
    }
    AfterAll([b], s);
  }

  lemma KeepsMore(front: seq<Event>, e: Event, k: nat, s: nat)
    requires k < |front| && Marked(front[k..]) == After(Marked(front), s) && s <= front[|front| - 1].number < e.number
    ensures Marked((front + [e])[k..]) == After(Marked(front + [e]), s)
  {
    hide *;
    var back := front[k..];
    assert back[|back| - 1] == front[|front| - 1];
    assert (front + [e])[k..] == back + [e];
    MarkedMore(front, e);
    MarkedMore(back, e);
    JointAbove(front[|front| - 1], e, s);
    AfterConcat(Marked(front), Joint(front[|front| - 1], e), s);
  }

  lemma JointAbove(a: Event, b: Event, s: nat)
    requires s <= a.number < b.number
    ensures After(Joint(a, b), s) == Joint(a, b)
  {
    AfterAll(Joint(a, b), s);
  }

  /** Compaction moves no marker either: the shorter file is marked as that part of the longer one. */
  lemma {:induction false} CompactionKeepsMarkers(file: seq<Event>, k: nat)
    requires Increasing(file) && Positive(file) && k < |file|
    ensures Marked(file[k..]) == After(Marked(file), file[k].number - 1)
    decreases |file|
  {
    hide After, Marked;
    var n := |file| - 1;
    var front, e := file[..n], file[n];
    assert file == front + [e];
    if k < n {
      CompactionKeepsMarkers(front, k);
      KeepsMore(front, e, k, file[k].number - 1);
    } else {
      assert file[k..] == [e];
      MarkedOne(e);
      if n > 0 {
        assert Increasing(front) && Positive(front);
        assert Last(front) == file[n - 1].number;
        KeepsNewest(front, e);
      } else {
        assert file == [e];
        AfterAll([e], e.number - 1);
      }
    }
  }

  lemma MarkedOne(e: Event)
    ensures Marked([e]) == [e]
  {}

  lemma AfterNone(events: seq<Event>, s: nat)
    requires Sound(events) && Last(events) <= s
    ensures After(events, s) == []
  {
    var k := AfterIsSuffix(events, s);
    if events != [] {
      assert events[|events| - 1].number <= s;
    }
  }

  lemma {:induction false} AfterConcat(a: seq<Event>, b: seq<Event>, s: nat)
    ensures After(a + b, s) == After(a, s) + After(b, s)
  {
    if b == [] {
      assert a + b == a;
    } else {
      var n := |b| - 1;
      AfterConcat(a, b[..n], s);
      assert (a + b)[..|a| + n] == a + b[..n];
    }
  }

  lemma {:induction false} AfterAll(events: seq<Event>, s: nat)
    requires forall i | 0 <= i < |events| :: events[i].number > s
    ensures After(events, s) == events
  {
    if events != [] {
      AfterAll(events[..|events| - 1], s);
    }
  }

  // ---------------------------------------------------------------- over whole runs

  /** Whether an append landed anything; after a failed marker the event itself is not attempted. */
  predicate Lands(log: Log, step: Step)
    requires step.DoAppend?
  {
    if log.lost == 0 then step.out.Landed? else step.markerOut.Landed?
  }

  /** Whether a torn tail was cut off by the last load and nothing has landed since. */
  function Dangles(log: Log, step: Step, dangling: bool): bool {
    match step
    case DoAppend(_, _, _, _, _) => dangling && !Lands(log, step)
    case Crash(_) => false
    case Restart => log.torn
  }

  function DanglesAfter(log: Log, steps: seq<Step>, limits: Limits, dangling: bool): bool
    requires Runs(log, steps, limits)
    decreases |steps|
  {
    if steps == [] then dangling
    else DanglesAfter(Do(log, steps[0], limits), steps[1..], limits, Dangles(log, steps[0], dangling))
  }

  /** Where the file begins; an empty file begins at the beginning. */
  function From(file: seq<Event>): nat { if file == [] then 0 else file[0].number - (if file[0].number > 0 then 1 else 0) }

  /**
   What is known, from the file's first event on, is what loading the file gives; and if a torn tail was
   cut off and nothing has landed since, the marker of that tail behind it.
   */
  ghost predicate AgreesOn(file: seq<Event>, all: seq<Event>, dangling: bool) {
    After(all, From(file)) == Loaded(file, dangling)
  }

  ghost predicate Agrees(log: Log, dangling: bool) { log.up ==> AgreesOn(log.file, log.all, dangling) }

  lemma AfterLater(events: seq<Event>, a: nat, b: nat)
    requires Sound(events) && a <= b
    ensures After(After(events, a), b) == After(events, b)
  {
    var k := AfterIsSuffix(events, a);
    hide After;
    var front, back := events[..k], events[k..];
    assert events == front + back;
    AllBelow(front, b);
    AfterConcat(front, back, b);
    assert [] + After(back, b) == After(back, b);
  }

  lemma AfterKeepsLast(events: seq<Event>, s: nat)
    requires Sound(events) && After(events, s) != []
    ensures Last(After(events, s)) == Last(events)
  {
    var k := AfterIsSuffix(events, s);
    hide After;
  }

  /** The process goes on numbering from the end of what the file gives. */
  lemma AgreesLast(log: Log, limits: Limits, dangling: bool)
    requires limits.Valid() && Inv(log, limits) && log.up && Agrees(log, dangling)
    ensures Next(log) == Last(log.file) + if dangling then 2 else 1
  {
    TailLast(log.all, limits.maxEvents);
    LoadedLast(log.file, dangling);
    MarkedIs(log.file);
    AfterEmpty(log.all);
    hide After, Marked;
    if After(log.all, From(log.file)) != [] {
      AfterKeepsLast(log.all, From(log.file));
    }
  }

  lemma AfterEmpty(events: seq<Event>)
    requires Positive(events)
    ensures After(events, 0) == events
  {
    AfterAll(events, 0);
  }

  /** A file cut short from the front is loaded as that part of it, torn marker and all. */
  lemma LoadedShortened(file: seq<Event>, k: nat, dangling: bool)
    requires Increasing(file) && Positive(file) && k < |file|
    ensures After(Loaded(file, dangling), file[k].number - 1) == Loaded(file[k..], dangling)
  {
    ShortLast(file, k);
    CompactionKeepsMarkers(file, k);
    hide *;
    WholeFile(file);
    WholeFile(file[k..]);
    TornFile(file);
    TornFile(file[k..]);
    AfterMore(Marked(file), Gap(Last(file) + 1), file[k].number - 1);
  }

  lemma TornFile(file: seq<Event>)
    ensures Loaded(file, true) == Marked(file) + [Gap(Last(file) + 1)] && Gap(Last(file) + 1).number == Last(file) + 1
  {}

  lemma AfterMore(events: seq<Event>, e: Event, s: nat)
    requires e.number > s
    ensures After(events + [e], s) == After(events, s) + [e]
  {
    hide After;
    AfterConcat(events, [e], s);
    AfterAll([e], s);
  }

  lemma ShortLast(file: seq<Event>, k: nat)
    requires Increasing(file) && k < |file|
    ensures Last(file[k..]) == Last(file) && file[k].number <= Last(file)
  {
    assert file[k..][|file| - k - 1] == file[|file| - 1];
  }

  lemma FromShortened(file: seq<Event>, k: nat)
    requires Increasing(file) && Positive(file) && k < |file|
    ensures From(file[k..]) == file[k].number - 1 && From(file) <= file[k].number - 1
  {
    assert file[k..][0] == file[k] && file[0].number <= file[k].number;
  }

  /** The file cut short from the front still agrees. */
  lemma AgreesShortened(file: seq<Event>, all: seq<Event>, dangling: bool, k: nat)
    requires Increasing(file) && Positive(file) && Sound(all) && AgreesOn(file, all, dangling) && k < |file|
    ensures AgreesOn(file[k..], all, dangling)
  {
    hide After, Loaded, Sound, Increasing, Positive, From;
    FromShortened(file, k);
    LoadedShortened(file, k, dangling);
    AfterLater(all, From(file), file[k].number - 1);
  }

  lemma WholeFile(file: seq<Event>)
    ensures Loaded(file, false) == Marked(file)
  {
    hide Marked;
    assert Marked(file) + [] == Marked(file);
  }

  /** The first event of a file, numbered on from nothing or from a torn tail's marker. */
  lemma AgreesFirst(all: seq<Event>, dangling: bool, e: Event)
    requires Positive(all) && AgreesOn([], all, dangling) && e.number == if dangling then 2 else 1
    ensures AgreesOn([e], all + [e], false)
  {
    var s := e.number - 1;
    assert Loaded([], dangling) == if dangling then [Gap(1)] else [];
    AfterEmpty(all);
    hide After, Loaded;
    assert From([e]) == s;
    AllBelow(all, s);
    AfterConcat(all, [e], s);
    AfterAll([e], s);
    WholeFile([e]);
    MarkedOne(e);
    hide Marked;
    assert [] + [e] == [e];
  }

  /** A later event: the hole that a torn tail left before it is marked where the tail was. */
  lemma AgreesLater(file: seq<Event>, all: seq<Event>, dangling: bool, e: Event)
    requires Increasing(file) && Positive(file) && file != [] && AgreesOn(file, all, dangling)
    requires e.number == Last(file) + if dangling then 2 else 1
    ensures AgreesOn(file + [e], all + [e], false)
  {
    assert From(file + [e]) == From(file) by { assert (file + [e])[0] == file[0]; }
    assert e.number > From(file) by { assert file[0].number <= Last(file); }
    MarkedAfterLoad(file, dangling, [e]);
    hide After, Loaded, Marked, From, Increasing, Positive, Last;
    WholeFile(file + [e]);
    AfterConcat(all, [e], From(file));
    AfterAll([e], From(file));
  }

  lemma LoadedFrom(file: seq<Event>, torn: bool)
    requires Increasing(file) && Positive(file)
    ensures AgreesOn(file, Loaded(file, torn), torn)
  {
    hide After, Loaded;
    if file == [] {
      LoadedIs(file, torn);
      AfterEmpty(Loaded(file, torn));
    } else {
      LoadedShortened(file, 0, torn);
      hide Increasing, Positive;
      assert file[0..] == file;
    }
  }

  lemma AppendOneAgrees(log: Log, gap: bool, size: nat, out: Outcome, limits: Limits, dangling: bool)
    requires limits.Valid() && Inv(log, limits) && log.up && Agrees(log, dangling)
    ensures Agrees(AppendOne(log, gap, size, out, limits), dangling && !out.Landed?)
  {
    AgreesLast(log, limits, dangling);
    var k := CompactedIsSuffix(log.file, limits, size);
    var short := log.file[k..];
    var e := Event(Next(log), gap, size);
    ShortenedKeeps(log, limits, k);
    assert Increasing(log.file) && Positive(log.file) && Sound(log.all);
    assert Increasing(short) && Positive(short);
    hide Compacted, Inv, AgreesOn, Increasing, Positive;
    if log.file == [] {
      assert short == [];
      if out.Landed? {
        assert [] + [e] == [e];
        AgreesFirst(log.all, dangling, e) by { assert Positive(log.all); }
      }
    } else {
      AgreesShortened(log.file, log.all, dangling, k);
      assert Last(short) == Last(log.file);
      if out.Landed? {
        AgreesLater(short, log.all, dangling, e);
      }
    }
    hide Next;
  }

  lemma AppendAgrees(log: Log, step: Step, limits: Limits, dangling: bool)
    requires limits.Valid() && Inv(log, limits) && log.up && Agrees(log, dangling) && step.DoAppend?
    ensures Agrees(Do(log, step, limits), Dangles(log, step, dangling))
  {
    var DoAppend(gap, size, marker, markerOut, out) := step;
    if log.lost == 0 {
      hide AppendOne, AgreesOn;
      AppendOneAgrees(log, gap, size, out, limits, dangling);
    } else {
      var paid := log.(lost := 0);
      LostKeeps(log, 0, limits);
      AppendOneKeeps(paid, true, marker, markerOut, limits);
      AppendOneUp(paid, true, marker, markerOut, limits);
      AppendOneAgrees(paid, true, marker, markerOut, limits, dangling);
      hide AppendOne, AgreesOn, Inv;
      if markerOut.Landed? {
        AppendOneAgrees(AppendOne(paid, true, marker, markerOut, limits), gap, size, out, limits, false);
      }
    }
  }

  lemma AgreesKept(log: Log, step: Step, limits: Limits, dangling: bool)
    requires limits.Valid() && Inv(log, limits) && Enabled(log, step) && Agrees(log, dangling)
    ensures Agrees(Do(log, step, limits), Dangles(log, step, dangling))
  {
    match step
    case DoAppend(_, _, _, _, _) =>
      hide Inv, Agrees, Dangles;
      AppendAgrees(log, step, limits, dangling);
    case Crash(_) =>
    case Restart =>
      hide AgreesOn;
      LoadedFrom(log.file, log.torn);
  }

  lemma {:induction false} AgreesThroughout(log: Log, steps: seq<Step>, limits: Limits, dangling: bool)
    requires limits.Valid() && Inv(log, limits) && Agrees(log, dangling) && Runs(log, steps, limits)
    ensures Inv(End(log, steps, limits), limits)
    ensures Agrees(End(log, steps, limits), DanglesAfter(log, steps, limits, dangling))
    decreases |steps|
  {
    if steps != [] {
      InvKept(log, steps[0], limits);
      AgreesKept(log, steps[0], limits, dangling);
      hide Inv, Do, Agrees, Dangles;
      AgreesThroughout(Do(log, steps[0], limits), steps[1..], limits, Dangles(log, steps[0], dangling));
    }
  }

  /**
   Markers stay over any run of appends, failures, compactions, torn tails and reloads: what the process
   knows, from the file's first event on, is what the next load finds, number for number, and behind it
   the marker of a torn tail that nothing has followed. So an event or a marker is found again exactly
   if the file has begun by its number and, when such a tail's marker stands last, it is not that one.
   */
  lemma MarkersStayEver(steps: seq<Step>, limits: Limits)
    requires limits.Valid() && Runs(Empty, steps, limits) && End(Empty, steps, limits).up
    ensures var end := End(Empty, steps, limits);
      var dangling := DanglesAfter(Empty, steps, limits, false);
      && After(end.all, From(end.file)) == Loaded(end.file, dangling)
      && (forall e <- end.all ::
            (e in Loaded(end.file, false)
             <==> end.file != [] && end.file[0].number <= e.number && (dangling ==> e.number <= Last(end.file))))
  {
    EmptyIsSound(limits);
    EmptyAgrees();
    AgreesThroughout(Empty, steps, limits, false);
    var end, dangling := End(Empty, steps, limits), DanglesAfter(Empty, steps, limits, false);
    hide Runs, End, DanglesAfter, After, Loaded;
    assert Increasing(end.file) && Positive(end.file) && Sound(end.all);
    hide Inv, Sound, Increasing, Positive;
    FoundAgain(end.file, end.all, dangling);
  }

  lemma EmptyAgrees()
    ensures Agrees(Empty, false)
  {}

  lemma FoundAgain(file: seq<Event>, all: seq<Event>, dangling: bool)
    requires Increasing(file) && Positive(file) && Sound(all) && AgreesOn(file, all, dangling)
    ensures forall e <- all ::
      (e in Loaded(file, false) <==> file != [] && file[0].number <= e.number && (dangling ==> e.number <= Last(file)))
  {
    AfterHas(all, From(file));
    WholeFile(file);
    MarkedIs(file);
    var m := Marked(file);
    hide Marked, After;
    forall e <- all ensures e in m
      <==> file != [] && file[0].number <= e.number && (dangling ==> e.number <= Last(file))
    {
      MemberIs(file, m, all, dangling, e);
    }
  }

  lemma MemberIs(file: seq<Event>, m: seq<Event>, all: seq<Event>, dangling: bool, e: Event)
    requires Increasing(file) && Positive(file) && m == Marked(file) && Increasing(m) && Last(m) == Last(file)
    requires (file == [] <==> m == []) && (file != [] ==> m[0] == file[0])
    requires e in all && (e in Loaded(file, dangling) <==> e in all && e.number > From(file))
    ensures e in m <==> file != [] && file[0].number <= e.number && (dangling ==> e.number <= Last(file))
  {
    hide Marked;
    if e in m {
      InLast(m, e);
    }
    if dangling {
      assert e in Loaded(file, true) <==> e in m || e == Gap(Last(file) + 1);
    } else {
      assert e in Loaded(file, false) <==> e in m;
    }
  }
}
