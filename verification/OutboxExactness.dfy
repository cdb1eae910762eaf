/**
 When loading the outbox journal gives exactly the memory, records and order alike: always, unless a send
 writes a superseded record that its own first compaction dropped.
 */
module OutboxExactness {
  import opened Wrappers
  import opened OutboxBox
  import opened OutboxJournal
  import opened OutboxRuns

  /**
   A send writes its superseded records one by one, and the first write may already compact. The
   journal stays exact unless that compaction drops a superseded record whose own line is still to
   come, and leaves a box within its bound, so that no later compaction clears the line away again.
   */
  ghost predicate Undisturbed(b: Box, step: Step, maxRetained: nat)
    requires step.Send?
  {
    var b' := Enqueue(b, step.id, step.event, step.now);
    || step.id in b.records
    || Excess(b', maxRetained) == 0
    || Terminals(b'.records, b'.order) < Excess(b', maxRetained)
    || forall i | 1 <= i < |step.retired| :: step.retired[i] in Compact(b', maxRetained).records
  }

  lemma {:induction false} FoldOnto(journal: seq<Record>, lines: seq<Record>)
    ensures Fold(journal).records.Keys <= Fold(journal + lines).records.Keys
    ensures forall i | 0 <= i < |lines| :: lines[i].id in Fold(journal + lines).records
    ensures (forall i | 0 <= i < |lines| :: lines[i].id in Fold(journal).records)
      ==> Fold(journal + lines).records.Keys == Fold(journal).records.Keys && Fold(journal + lines).order == Fold(journal).order
  {
    if lines == [] {
      assert journal + lines == journal;
    } else {
      var rest, line := lines[..|lines| - 1], lines[|lines| - 1];
      FoldOnto(journal, rest);
      assert journal + lines == (journal + rest) + [line];
      FoldAppend(journal + rest, line);
      hide Fold;
    }
  }

  lemma {:induction false} PersistAllPlain(s: Store, lines: seq<Record>, maxRetained: nat)
    requires Tidy(s.box) && |s.box.records| <= maxRetained
    ensures PersistAll(s, lines, maxRetained) == s.(journal := s.journal + lines)
    decreases |lines|
  {
    if lines == [] {
      assert s.journal + lines == s.journal;
    } else {
      PersistAllPlain(s.(journal := s.journal + [lines[0]]), lines[1..], maxRetained);
      assert s.journal + lines == (s.journal + [lines[0]]) + lines[1..];
    }
  }

  lemma {:induction false} NothingToDrop(records: map<Id, Record>, order: seq<Id>, drop: nat)
    requires forall i | 0 <= i < |order| :: order[i] in records && records[order[i]].status.Pending?
    ensures Kept(records, order, drop) == order
  {
    if order != [] {
      NothingToDrop(records, order[1..], drop);
    }
  }

  lemma CompactFull(b: Box, maxRetained: nat)
    requires Tidy(b) && forall x <- b.records :: b.records[x].status.Pending?
    ensures Compact(b, maxRetained) == b
  {
    assert forall i | 0 <= i < |b.order| :: b.order[i] in b.order;
    NothingToDrop(b.records, b.order, Excess(b, maxRetained));
    hide Kept;
    assert (map x | x in b.records && x in b.order :: b.records[x]) == b.records;
    hide Tidy;
  }

  lemma FullIsRewritten(b: Box, line: Record, maxRetained: nat)
    requires Tidy(b) && |b.records| > maxRetained && forall x <- b.records :: b.records[x].status.Pending?
    ensures Persist(Store(b, Lines(b.records, b.order)), line, maxRetained) == Store(b, Lines(b.records, b.order))
  {
    CompactFull(b, maxRetained);
    hide Lines, Kept, Compact;
  }

  /** A box of pending records alone is written out anew each time. */
  lemma {:induction false} PersistAllFull(b: Box, lines: seq<Record>, maxRetained: nat)
    requires Tidy(b) && |b.records| > maxRetained && forall x <- b.records :: b.records[x].status.Pending?
    ensures var s := Store(b, Lines(b.records, b.order)); PersistAll(s, lines, maxRetained) == s
    decreases |lines|
  {
    if lines != [] {
      PersistAllFull(b, lines[1..], maxRetained);
      FullIsRewritten(b, lines[0], maxRetained);
      hide Lines, Persist, Tidy;
    }
  }

  /** Lines about records that are all in an exactly journaled memory leave it exactly journaled. */
  lemma KnownLinesKeepExact(s: Store, lines: seq<Record>, maxRetained: nat)
    requires Tidy(s.box) && AllLast(s.box, lines) && Exact(s) && |s.box.records| <= maxRetained
    requires forall i | 0 <= i < |lines| :: lines[i].id in s.box.records
    ensures Exact(PersistAll(s, lines, maxRetained))
  {
    hide Fold, Tidy, AllLast;
    assert CoversBut(s, {});
    PersistAllCovers(s, lines, maxRetained, {});
    NoneLeft(lines);
    FoldOnto(s.journal, lines);
    PersistAllPlain(s, lines, maxRetained);
    hide PersistAll;
    var end := PersistAll(s, lines, maxRetained);
    assert Covers(end);
    hide CoversBut, Covers;
    CoveringIsExact(end);
  }

  lemma NoneLeft(lines: seq<Record>)
    ensures {} - Ids(lines) == {}
  {}

  /** One line about a record that is not in memory breaks it. */
  lemma UnknownLineBreaksExact(s: Store, lines: seq<Record>, maxRetained: nat, i: nat)
    requires Tidy(s.box) && |s.box.records| <= maxRetained
    requires i < |lines| && lines[i].id !in s.box.records
    ensures !Exact(PersistAll(s, lines, maxRetained))
  {
    FoldOnto(s.journal, lines);
    PersistAllPlain(s, lines, maxRetained);
    hide PersistAll, Fold, Tidy;
  }

  /** Without a compaction the send's lines are all appended. */
  lemma SmallSend(s: Store, step: Step, limits: Limits)
    requires step.Send? && Tidy(s.box) && Enabled(s, step) && step.id !in s.box.records
    requires Excess(Enqueue(s.box, step.id, step.event, step.now), limits.maxRetained) == 0
    ensures var b := Enqueue(s.box, step.id, step.event, step.now);
      && (forall i | 0 <= i < |step.retired| :: step.retired[i] in b.records)
      && Do(s, step, limits) == Store(b, s.journal + Lines(b.records, step.retired) + [b.records[step.id]])
  {
    var b := Enqueue(s.box, step.id, step.event, step.now);
    EnqueueTidy(s.box, step.id, step.event, step.now);
    SendAllLast(s.box, step);
    PersistAllPlain(s.(box := b), SendLines(b, step.retired, step.id), limits.maxRetained);
    hide PersistAll, Lines, Tidy, Enqueue, AllLast;
  }

  lemma FoldKnownThenNew(journal: seq<Record>, known: seq<Record>, line: Record)
    requires forall i | 0 <= i < |known| :: known[i].id in Fold(journal).records
    requires line.id !in Fold(journal).records
    ensures Fold(journal + known + [line]).records.Keys == Fold(journal).records.Keys + {line.id}
    ensures Fold(journal + known + [line]).order == Fold(journal).order + [line.id]
  {
    FoldOnto(journal, known);
    FoldAppend(journal + known, line);
    hide Fold;
  }

  lemma SmallSendIsExact(s: Store, step: Step, limits: Limits)
    requires step.Send? && Tidy(s.box) && Exact(s) && Enabled(s, step) && step.id !in s.box.records
    requires Excess(Enqueue(s.box, step.id, step.event, step.now), limits.maxRetained) == 0
    ensures Exact(Do(s, step, limits))
  {
    hide Fold, Lines, Do, Covers;
    var b := Enqueue(s.box, step.id, step.event, step.now);
    EnqueueAdds(s.box, step.id, step.event, step.now);
    SmallSend(s, step, limits);
    ExactCovers(s);
    SendCovers(s, step, limits);
    hide Tidy, Enqueue;
    FoldKnownThenNew(s.journal, Lines(b.records, step.retired), b.records[step.id]);
    hide Enabled, Retires, Outdated;
    CoveringIsExact(Do(s, step, limits));
  }

  lemma EnqueueAdds(b: Box, id: Id, event: Event, now: Time)
    requires Tidy(b) && id !in b.records
    ensures var b' := Enqueue(b, id, event, now);
      && b'.records.Keys == b.records.Keys + {id} && b'.order == b.order + [id]
      && forall x <- b'.records :: b'.records[x].id == x
  {}

  lemma ExactCovers(s: Store)
    requires Exact(s)
    ensures Covers(s)
  {
    hide Fold;
  }

  lemma CoveringIsExact(s: Store)
    requires Covers(s) && Fold(s.journal).records.Keys == s.box.records.Keys && Fold(s.journal).order == s.box.order
    ensures Exact(s)
  {
    hide Fold;
  }

  /** With one, the first line's compaction writes the box out, and the other lines follow. */
  lemma BigSend(s: Store, step: Step, limits: Limits)
    requires step.Send? && Tidy(s.box) && Enabled(s, step) && step.id !in s.box.records
    requires Excess(Enqueue(s.box, step.id, step.event, step.now), limits.maxRetained) > 0
    ensures var b := Enqueue(s.box, step.id, step.event, step.now);
      && Tidy(b) && (forall i | 0 <= i < |step.retired| :: step.retired[i] in b.records)
      && var c := Compact(b, limits.maxRetained);
      && Tidy(c) && (forall i | 0 <= i < |c.order| :: c.order[i] in c.records)
      && var rest := SendLines(b, step.retired, step.id)[1..];
      && AllLast(c, rest)
      && Do(s, step, limits) == PersistAll(Store(c, Lines(c.records, c.order)), rest, limits.maxRetained)
  {
    var b := Enqueue(s.box, step.id, step.event, step.now);
    EnqueueTidy(s.box, step.id, step.event, step.now);
    var lines := SendLines(b, step.retired, step.id);
    SendAllLast(s.box, step);
    CompactKeeps(b, limits.maxRetained);
    RestLasts(b, lines, limits.maxRetained);
    hide Lines, Enqueue, Compact, Tidy, AllLast;
  }

  lemma RestLasts(b: Box, lines: seq<Record>, maxRetained: nat)
    requires Tidy(b) && lines != [] && AllLast(b, lines)
    ensures AllLast(Compact(b, maxRetained), lines[1..])
  {
    CompactKeeps(b, maxRetained);
    hide Compact, Tidy;
    forall i | 0 <= i < |lines[1..]| ensures Lasts(Compact(b, maxRetained), lines[1..][i]) {
      assert Lasts(b, lines[i + 1]);
    }
  }

  lemma SendAllLast(b: Box, step: Step)
    requires step.Send? && Tidy(b) && Retires(b, step.event, step.retired) && step.id !in b.records
    ensures var b' := Enqueue(b, step.id, step.event, step.now);
      (forall i | 0 <= i < |step.retired| :: step.retired[i] in b'.records) && AllLast(b', SendLines(b', step.retired, step.id))
  {
    EnqueueTidy(b, step.id, step.event, step.now);
    IdsOfLines(Enqueue(b, step.id, step.event, step.now), step.retired);
    hide Lines, Tidy;
  }

  /** Exactly when a send leaves the journal loading as the memory, records and order alike. */
  lemma SendExactIff(s: Store, step: Step, limits: Limits)
    requires step.Send? && Tidy(s.box) && Exact(s) && Enabled(s, step)
    ensures Exact(Do(s, step, limits)) <==> Undisturbed(s.box, step, limits.maxRetained)
  {
    var b := Enqueue(s.box, step.id, step.event, step.now);
    if step.id in s.box.records {
    } else if Excess(b, limits.maxRetained) == 0 {
      SmallSendIsExact(s, step, limits);
    } else {
      BigSendExactIff(s, step, limits);
    }
  }

  lemma BigSendExactIff(s: Store, step: Step, limits: Limits)
    requires step.Send? && Tidy(s.box) && Enabled(s, step) && step.id !in s.box.records
    requires Excess(Enqueue(s.box, step.id, step.event, step.now), limits.maxRetained) > 0
    ensures Exact(Do(s, step, limits)) <==> Undisturbed(s.box, step, limits.maxRetained)
  {
    var max := limits.maxRetained;
    var b := Enqueue(s.box, step.id, step.event, step.now);
    BigSend(s, step, limits);
    hide Do, Enqueue, Enabled, AllLast;
    var c := Compact(b, max);
    var rest := SendLines(b, step.retired, step.id)[1..];
    CompactSize(b, max);
    RestIds(b, step.retired, step.id, max);
    hide Lines, SendLines, Compact, PersistAll;
    RewriteIsExact(c);
    if |c.records| > max {
      PersistAllFull(c, rest, max);
    } else if forall i | 0 <= i < |rest| :: rest[i].id in c.records {
      KnownLinesKeepExact(Store(c, Lines(c.records, c.order)), rest, max);
    } else {
      var i :| 0 <= i < |rest| && rest[i].id !in c.records;
      UnknownLineBreaksExact(Store(c, Lines(c.records, c.order)), rest, max, i);
    }
  }

  lemma CompactSize(b: Box, max: nat)
    requires Tidy(b) && Excess(b, max) > 0
    ensures var c := Compact(b, max);
      && (|c.records| > max <==> Terminals(b.records, b.order) < Excess(b, max))
      && (|c.records| > max ==> forall x <- c.records :: c.records[x].status.Pending?)
  {
    CompactKeeps(b, max);
    OrderSize(b);
    OrderSize(Compact(b, max));
    DropsAsManyAsItMust(b.records, b.order, Excess(b, max));
    hide Kept, Terminals, Tidy;
  }

  lemma RestIds(b: Box, retired: seq<Id>, id: Id, max: nat)
    requires Tidy(b) && id in b.records && b.records[id].status.Pending? && forall i | 0 <= i < |retired| :: retired[i] in b.records
    ensures var rest := SendLines(b, retired, id)[1..];
      var c := Compact(b, max);
      (forall i | 0 <= i < |rest| :: rest[i].id in c.records) <==> (forall i | 1 <= i < |retired| :: retired[i] in c.records)
  {
    CompactKeeps(b, max);
    hide Compact, Lines, Tidy;
    var c := Compact(b, max);
    var before := Lines(b.records, retired);
    var lines := SendLines(b, retired, id);
    assert id in c.records && b.records[id].id == id by { assert Tidy(b); }
    assert forall i | 0 <= i < |retired| :: before[i].id == retired[i] by { assert Tidy(b); }
    assert forall i | 0 <= i < |lines| - 1 :: lines[i] == before[i];
    assert lines[|lines| - 1] == b.records[id];
    SuffixAll(lines, retired, id, c);
  }

  lemma SuffixAll(lines: seq<Record>, retired: seq<Id>, id: Id, c: Box)
    requires |lines| == |retired| + 1 && id in c.records && lines[|retired|].id == id
    requires forall i | 0 <= i < |retired| :: lines[i].id == retired[i]
    ensures (forall i | 0 <= i < |lines[1..]| :: lines[1..][i].id in c.records) <==> (forall i | 1 <= i < |retired| :: retired[i] in c.records)
  {
    var rest := lines[1..];
    assert forall i | 0 <= i < |rest| :: rest[i] == lines[i + 1];
    if forall i | 0 <= i < |rest| :: rest[i].id in c.records {
      forall i | 1 <= i < |retired| ensures retired[i] in c.records {
        assert rest[i - 1].id in c.records;
      }
    }
  }

  lemma OneLineIsExact(s: Store, line: Record, maxRetained: nat)
    requires Tidy(s.box) && Folded(Fold(s.journal), line) == Table(s.box.records, s.box.order)
    ensures Exact(Persist(s, line, maxRetained))
  {
    hide Fold, Lines;
    if |s.box.records| > maxRetained {
      CompactKeeps(s.box, maxRetained);
      RewriteIsExact(Compact(s.box, maxRetained));
    } else {
      FoldAppend(s.journal, line);
    }
  }

  /** Of all the steps, only such a send can part the journal from the memory. */
  lemma ExactUnlessDisturbed(s: Store, step: Step, limits: Limits)
    requires Tidy(s.box) && Exact(s) && Enabled(s, step)
    ensures Exact(Do(s, step, limits)) <==> (step.Send? ==> Undisturbed(s.box, step, limits.maxRetained))
  {
    hide Fold, Undisturbed, Lines;
    match step
    case Send(_, _, _, _) => SendExactIff(s, step, limits);
    case Suppress(id, event, now) =>
      if id !in s.box.records {
        var b := Hold(s.box, id, event, now);
        EnqueueTidy(s.box, id, event, now);
        OneLineIsExact(s.(box := b), b.records[id], limits.maxRetained);
      }
    case Attempt(snap, config, outcomes, retryAfter, now) =>
      hide Settled;
      if snap.id in s.box.records && s.box.records[snap.id].status.Pending? {
        var b := Settle(s.box, snap, config, outcomes, retryAfter, now, limits);
        SettledId(s.box.records[snap.id], step, limits);
        assert Folded(Fold(s.journal), b.records[snap.id]) == Table(b.records, b.order);
        OneLineIsExact(s.(box := b), b.records[snap.id], limits.maxRetained);
      }
    case Restart =>
  }

  ghost predicate AllUndisturbed(s: Store, steps: seq<Step>, limits: Limits)
    requires Tidy(s.box) && Covers(s) && Runs(s, steps, limits)
    decreases |steps|
  {
    steps == [] ||
    (&& (steps[0].Send? ==> Undisturbed(s.box, steps[0], limits.maxRetained))
     && (StepKeeps(s, steps[0], limits); AllUndisturbed(Do(s, steps[0], limits), steps[1..], limits)))
  }

  /** Over a whole run without one, the journal always loads as the memory. */
  lemma {:induction false} UndisturbedRunsStayExact(s: Store, steps: seq<Step>, limits: Limits)
    requires Tidy(s.box) && Covers(s) && Exact(s) && Runs(s, steps, limits) && AllUndisturbed(s, steps, limits)
    ensures Exact(After(s, steps, limits))
    decreases |steps|
  {
    if steps != [] {
      StepKeeps(s, steps[0], limits);
      ExactUnlessDisturbed(s, steps[0], limits);
      hide Do, Exact, Covers, Tidy, Enabled, Undisturbed;
      UndisturbedRunsStayExact(Do(s, steps[0], limits), steps[1..], limits);
    }
  }

  /** A full box whose oldest record is superseded, but not written first, is left with a stale line. */
  lemma OldestWrittenLateIsLeft(s: Store, step: Step, limits: Limits, i: nat)
    requires step.Send? && Tidy(s.box) && Exact(s) && Enabled(s, step) && step.id !in s.box.records
    requires 1 <= i < |step.retired| && s.box.order != [] && step.retired[i] == s.box.order[0]
    requires |s.box.records| == limits.maxRetained
    ensures !Exact(Do(s, step, limits))
  {
    hide Do, Exact, Fold, Lines;
    var b := Enqueue(s.box, step.id, step.event, step.now);
    EnqueueTidy(s.box, step.id, step.event, step.now);
    SendExactIff(s, step, limits);
    assert Outdated(s.box.records[step.retired[i]], step.event);
    OldestGoesFirst(s.box, step, limits.maxRetained);
    hide Enqueue, Tidy, Compact;
  }

  lemma OldestGoesFirst(b: Box, step: Step, max: nat)
    requires step.Send? && Tidy(b) && step.id !in b.records
    requires b.order != [] && b.order[0] in b.records && Outdated(b.records[b.order[0]], step.event) && |b.records| == max
    ensures var b' := Enqueue(b, step.id, step.event, step.now);
      Excess(b', max) == 1 && Terminals(b'.records, b'.order) >= 1 && b.order[0] !in Compact(b', max).records
  {
    var b' := Enqueue(b, step.id, step.event, step.now);
    EnqueueAdds(b, step.id, step.event, step.now);
    assert b'.order[0] == b.order[0] && b'.records[b.order[0]].status.Superseded?;
    assert b.order[0] !in b'.order[1..];
    hide Enqueue, Tidy, Outdated;
    assert |b'.records.Keys| == |b.records.Keys| + 1;
    NoDropsLeft(b'.records, b'.order[1..]);
    assert Kept(b'.records, b'.order, 1) == b'.order[1..];
    hide Kept;
  }

  /** An opening and its reminder, both superseded, in a box that keeps two records. */
  lemma StaleLineLeft() returns (s: Store, step: Step, limits: Limits)
    ensures Tidy(s.box) && Exact(s) && Enabled(s, step) && !Exact(Do(s, step, limits))
  {
    hide Exact, Do, Fold, Lines;
    var opening := Record("open", 0, Event(Opened, Some(7)), Pending, 0, Some(0), 0, None);
    var again := Record("again", 1, Event(Repeat, Some(7)), Pending, 0, Some(1), 1, None);
    limits := Limits(8, 30, 1800, 2);
    var b := Box(map["open" := opening, "again" := again], ["open", "again"], 2);
    s := Store(b, Lines(b.records, b.order));
    step := Send("recovered", Event(Recovered, Some(7)), 2, ["again", "open"]);
    assert b.order[0] == "open" && b.order[1] == "again";
    assert "open" != "again" by { assert |"open"| != |"again"|; }
    assert "recovered" !in b.records by { assert |"recovered"| == 9; }
    assert Tidy(b);
    RewriteIsExact(b);
    assert step.retired[0] == "again" && step.retired[1] == "open";
    assert b.records.Keys == {"open", "again"};
    OldestWrittenLateIsLeft(s, step, limits, 1);
  }

  lemma {:induction false} NoDropsLeft(records: map<Id, Record>, order: seq<Id>)
    ensures Kept(records, order, 0) == order
  {
    if order != [] {
      NoDropsLeft(records, order[1..]);
    }
  }
}
