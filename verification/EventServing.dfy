/**
 Where the events a client is sent come from: the window where it reaches back far enough, otherwise the
 file whenever it can be read, and only without it the window behind a marker. Every event the file still
 has is sent.
 */
module EventServing {
  import opened EventLog
  import opened EventReplay

  /** The marker of a hole between two events of the file. */
  ghost predicate HoleIn(file: seq<Event>, e: Event) {
    exists i :: 0 <= i < |file| - 1 && HoleAt(file, i, e)
  }

  predicate HoleAt(file: seq<Event>, i: nat, e: Event)
    requires i + 1 < |file|
  {
    file[i].number + 1 != file[i + 1].number && e.gap && e.number == file[i].number + 1
  }

  /** The window reaches back to `s`: every number after `s` it could miss is its own first or later. */
  predicate Reaches(window: seq<Event>, s: nat) { window == [] || window[0].number <= s + 1 }

  /** Exactly the window's events above `s`. */
  ghost predicate FromWindow(log: Log, s: nat, out: seq<Event>) { forall e :: e in out <==> e in log.window && e.number > s }

  /**
   The file's events above `s`, all of them, and between them markers of the file's own holes; in front a
   marker of truncation if and only if the file begins after `s + 1`.
   */
  ghost predicate FromFile(log: Log, s: nat, out: seq<Event>)
    requires log.file != []
  {
    var first := log.file[0].number;
    && (forall e <- log.file | e.number > s :: e in out)
    && (forall e <- out :: e.number > s && (e in log.file || HoleIn(log.file, e) || (e.gap && first > s + 1 && e.number == first - 1)))
    && (first > s + 1 ==> out != [] && out[0].gap && out[0].number == first - 1)
  }

  /** The whole window behind a marker of what is missing before it. */
  ghost predicate BehindMarker(log: Log, out: seq<Event>)
    requires log.window != []
  {
    && out != [] && out[0].gap && out[0].number + 1 == log.window[0].number
    && (forall e :: e in out[1..] <==> e in log.window)
  }

  ghost predicate Serves(log: Log, s: nat, readable: bool, out: seq<Event>) {
    && (readable ==> forall e <- log.file | e.number > s :: e in out)
    && (if Reaches(log.window, s) then FromWindow(log, s, out)
        else if readable && log.file != [] then FromFile(log, s, out)
        else BehindMarker(log, out))
  }

  lemma {:induction false} MarkersAreHoles(file: seq<Event>)
    ensures forall e <- Marked(file) :: e in file || HoleIn(file, e)
  {
    if |file| > 1 {
      var n := |file| - 1;
      MarkersAreHoles(file[..n]);
      assert Marked(file) == Marked(file[..n]) + Joint(file[n - 1], file[n]);
      hide Marked;
      forall e <- Marked(file) ensures e in file || HoleIn(file, e) {
        if e in Marked(file[..n]) {
          HolesStay(file, n, e);
        } else if e != file[n] {
          assert HoleAt(file, n - 1, e);
        }
      }
    }
  }

  lemma HolesStay(file: seq<Event>, n: nat, e: Event)
    requires n <= |file| && (e in file[..n] || HoleIn(file[..n], e))
    ensures e in file || HoleIn(file, e)
  {
    if HoleIn(file[..n], e) {
      var i :| 0 <= i < n - 1 && HoleAt(file[..n], i, e);
      assert HoleAt(file, i, e);
    }
  }

  lemma WindowServes(log: Log, limits: Limits, s: nat)
    requires limits.Valid() && Inv(log, limits) && log.up && Reaches(log.window, s)
    ensures FromWindow(log, s, After(log.window, s))
    ensures forall e <- log.file | e.number > s :: e in After(log.window, s)
  {
    WindowIsTail(log, limits, Gap(0));
    AfterHas(log.window, s);
    forall e <- log.file | e.number > s ensures e in After(log.window, s) {
      assert e in log.all;
      WindowIsTail(log, limits, e);
    }
  }

  lemma FileServes(log: Log, limits: Limits, s: nat)
    requires Inv(log, limits) && log.up && log.file != [] && log.file[0].number <= s + 1
    ensures FromFile(log, s, After(Marked(log.file), s))
  {
    MarkedIs(log.file);
    MarkedHas(log.file);
    MarkersAreHoles(log.file);
    AfterHas(Marked(log.file), s);
    hide After, Marked, Sound, Inv;
  }

  lemma FrontedServes(log: Log, limits: Limits, s: nat)
    requires Inv(log, limits) && log.up && log.file != [] && log.file[0].number > s + 1
    ensures FromFile(log, s, After([Gap(log.file[0].number - 1)] + Marked(log.file), s))
  {
    var g := Gap(log.file[0].number - 1);
    var fronted := [g] + Marked(log.file);
    MarkedIs(log.file);
    MarkedHas(log.file);
    MarkersAreHoles(log.file);
    SoundFront(g, Marked(log.file));
    FirstIs(fronted, s, g);
    AfterHas(fronted, s);
    assert forall e :: e in fronted <==> e == g || e in Marked(log.file);
    hide After, Marked, Sound, Inv;
  }

  lemma MarkerServes(log: Log, limits: Limits, s: nat)
    requires limits.Valid() && Inv(log, limits) && log.up && !Reaches(log.window, s)
    ensures BehindMarker(log, [Gap(log.window[0].number - 1)] + After(log.window, s))
  {
    WindowIsTail(log, limits, Gap(0));
    AfterHas(log.window, s);
    hide After, Inv;
    var out := [Gap(log.window[0].number - 1)] + After(log.window, s);
    assert out[1..] == After(log.window, s);
    assert forall e <- log.window :: e.number >= log.window[0].number;
  }

  /** What is sent, from where, and that nothing the file has is withheld. */
  lemma ReplayServes(log: Log, limits: Limits, s: nat, readable: bool)
    requires limits.Valid() && Inv(log, limits) && log.up
    ensures Serves(log, s, readable, Replay(log, s, readable))
  {
    ReplayIs(log, limits, s, readable);
    hide Inv, After, Marked, FromWindow, FromFile, BehindMarker, Replay;
    if Reaches(log.window, s) {
      WindowServes(log, limits, s);
    } else if !readable || log.file == [] {
      MarkerServes(log, limits, s);
    } else if log.file[0].number > s + 1 {
      FrontedServes(log, limits, s);
      SentFromFile(log, s, After([Gap(log.file[0].number - 1)] + Marked(log.file), s));
    } else {
      FileServes(log, limits, s);
      SentFromFile(log, s, After(Marked(log.file), s));
    }
  }

  lemma ReplayIs(log: Log, limits: Limits, s: nat, readable: bool)
    requires limits.Valid() && Inv(log, limits) && log.up
    ensures Replay(log, s, readable) ==
      if Reaches(log.window, s) then After(log.window, s)
      else if !readable || log.file == [] then [Gap(log.window[0].number - 1)] + After(log.window, s)
      else if log.file[0].number > s + 1 then After([Gap(log.file[0].number - 1)] + Marked(log.file), s)
      else After(Marked(log.file), s)
  {
    WindowStartsAbove(log, limits);
    MarkedStarts(log, limits);
    hide Inv, After, Marked;
  }

  lemma SentFromFile(log: Log, s: nat, out: seq<Event>)
    requires log.file != [] && FromFile(log, s, out)
    ensures forall e <- log.file | e.number > s :: e in out
  {}

  lemma WindowStartsAbove(log: Log, limits: Limits)
    requires limits.Valid() && Inv(log, limits) && log.up
    ensures log.window != [] ==> First(log.window) > 0
  {
    WindowIsTail(log, limits, Gap(0));
  }

  lemma MarkedStarts(log: Log, limits: Limits)
    requires Inv(log, limits)
    ensures (Marked(log.file) == [] <==> log.file == []) && (log.file != [] ==> First(Marked(log.file)) == log.file[0].number)
  {
    MarkedIs(log.file);
  }

  /** The same after any run of appends, failures, compactions, torn tails and reloads. */
  lemma {:induction false} ReplayServesEver(log: Log, steps: seq<Step>, limits: Limits, s: nat, readable: bool)
    requires limits.Valid() && Inv(log, limits) && Runs(log, steps, limits) && End(log, steps, limits).up
    ensures var end := End(log, steps, limits); Serves(end, s, readable, Replay(end, s, readable))
    decreases |steps|
  {
    if steps == [] {
      ReplayServes(log, limits, s, readable);
    } else {
      InvKept(log, steps[0], limits);
      hide Inv, Do, Serves, Replay;
      ReplayServesEver(Do(log, steps[0], limits), steps[1..], limits, s, readable);
    }
  }
}
