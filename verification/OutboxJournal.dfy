/**
 The outbox's journal: one line per state change of a record, the last line of an id being its state.
 Every change is written with its line in one step, and a box grown past its bound is compacted into a
 rewritten journal. Loading the journal is compared with the memory it stands for.
 */
module OutboxJournal {
  import opened OutboxBox

  datatype Table = Table(records: map<Id, Record>, order: seq<Id>)

  function Folded(t: Table, line: Record): Table {
    Table(t.records[line.id := line], if line.id in t.records then t.order else t.order + [line.id])
  }

  /** Loading: the last line of an id is its state, its first line its place. */
  function Fold(journal: seq<Record>): Table {
    if journal == [] then Table(map[], [])
    else Folded(Fold(journal[..|journal| - 1]), journal[|journal| - 1])
  }

  datatype Store = Store(box: Box, journal: seq<Record>)

  function Lines(records: map<Id, Record>, order: seq<Id>): (lines: seq<Record>)
    requires forall i | 0 <= i < |order| :: order[i] in records
    ensures |lines| == |order| && forall i | 0 <= i < |order| :: lines[i] == records[order[i]]
  {
    if order == [] then []
    else Lines(records, order[..|order| - 1]) + [records[order[|order| - 1]]]
  }

  /** A line is appended; a box past its bound is compacted and the journal rewritten from it. */
  function Persist(s: Store, line: Record, maxRetained: nat): Store
    requires Tidy(s.box)
  {
    if |s.box.records| > maxRetained then
      CompactKeeps(s.box, maxRetained);
      var b := Compact(s.box, maxRetained);
      Store(b, Lines(b.records, b.order))
    else s.(journal := s.journal + [line])
  }

  function PersistAll(s: Store, lines: seq<Record>, maxRetained: nat): (r: Store)
    requires Tidy(s.box)
    ensures Tidy(r.box)
    decreases |lines|
  {
    if lines == [] then s
    else
      CompactKeeps(s.box, maxRetained);
      PersistAll(Persist(s, lines[0], maxRetained), lines[1..], maxRetained)
  }

  /** The journal loads as exactly the records in memory, in their order. */
  ghost predicate Exact(s: Store) { Fold(s.journal) == Table(s.box.records, s.box.order) }

  /** The journal loads every record in memory as it is; anything else it loads was superseded. */
  ghost predicate Covers(s: Store) {
    var t := Fold(s.journal).records;
    && (forall x <- s.box.records :: x in t && t[x] == s.box.records[x])
    && (forall x <- t | x !in s.box.records :: t[x].status.Superseded?)
  }

  // ---------------------------------------------------------------- folding

  lemma FoldAppend(journal: seq<Record>, line: Record)
    ensures Fold(journal + [line]) == Folded(Fold(journal), line)
  {
    assert (journal + [line])[..|journal|] == journal;
  }

  /** The table of a box: its records where `order` lists them. */
  ghost predicate TableOf(t: Table, records: map<Id, Record>, order: seq<Id>) {
    && t.order == order
    && (forall x :: x in t.records <==> x in order)
    && (forall x <- t.records :: x in records && t.records[x] == records[x])
  }

  lemma FoldedIsTable(t: Table, records: map<Id, Record>, rest: seq<Id>, id: Id)
    requires TableOf(t, records, rest) && id !in rest && id in records && records[id].id == id
    ensures TableOf(Folded(t, records[id]), records, rest + [id])
  {}

  /** A rewritten journal loads as the box it was written from. */
  lemma {:induction false} FoldLines(records: map<Id, Record>, order: seq<Id>)
    requires forall i | 0 <= i < |order| :: order[i] in records && records[order[i]].id == order[i]
    requires forall i, j | 0 <= i < j < |order| :: order[i] != order[j]
    ensures TableOf(Fold(Lines(records, order)), records, order)
  {
    hide Fold, Lines, TableOf;
    if order == [] {
      FoldNothing(records);
    } else {
      var rest, id := order[..|order| - 1], order[|order| - 1];
      FoldLines(records, rest);
      LinesMore(records, rest, id);
      FoldAppend(Lines(records, rest), records[id]);
      assert order == rest + [id];
      assert forall i | 0 <= i < |rest| :: rest[i] == order[i];
      FoldedIsTable(Fold(Lines(records, rest)), records, rest, id);
    }
  }

  lemma FoldNothing(records: map<Id, Record>)
    ensures TableOf(Fold(Lines(records, [])), records, [])
  {}

  lemma LinesMore(records: map<Id, Record>, order: seq<Id>, id: Id)
    requires id in records && forall i | 0 <= i < |order| :: order[i] in records
    ensures Lines(records, order + [id]) == Lines(records, order) + [records[id]]
  {
    assert (order + [id])[..|order|] == order;
  }

  lemma RewriteIsExact(b: Box)
    requires Tidy(b)
    ensures (forall i | 0 <= i < |b.order| :: b.order[i] in b.records) && Exact(Store(b, Lines(b.records, b.order)))
  {
    hide Fold, Lines;
    FoldLines(b.records, b.order);
  }

  // ---------------------------------------------------------------- what the outbox does to its store

  datatype Step =
    | Send(id: Id, event: Event, now: Time, retired: seq<Id>)
    | Suppress(id: Id, event: Event, now: Time)
    | Attempt(snap: Record, config: Config, outcomes: seq<Outcome>, retryAfter: Time, now: Time)
    | Restart

  /** `retired` names what the recovery outdates, in whatever order the records were visited. */
  ghost predicate Retires(b: Box, event: Event, retired: seq<Id>) {
    && (forall i | 0 <= i < |retired| :: retired[i] in b.records && Outdated(b.records[retired[i]], event))
    && (forall x <- b.records | Outdated(b.records[x], event) :: x in retired)
  }

  ghost predicate Enabled(s: Store, step: Step) {
    step.Send? && step.id !in s.box.records ==> Retires(s.box, step.event, step.retired)
  }

  /** The lines of a send: what it superseded, then the new record. */
  function SendLines(b: Box, retired: seq<Id>, id: Id): seq<Record>
    requires id in b.records && forall i | 0 <= i < |retired| :: retired[i] in b.records
  {
    Lines(b.records, retired) + [b.records[id]]
  }

  function Do(s: Store, step: Step, limits: Limits): Store
    requires Tidy(s.box) && Enabled(s, step)
  {
    match step
    case Send(id, event, now, retired) =>
      if id in s.box.records then s
      else
        var b := Enqueue(s.box, id, event, now);
        PersistAll(s.(box := b), SendLines(b, retired, id), limits.maxRetained)
    case Suppress(id, event, now) =>
      if id in s.box.records then s
      else
        var b := Hold(s.box, id, event, now);
        Persist(s.(box := b), b.records[id], limits.maxRetained)
    case Attempt(snap, config, outcomes, retryAfter, now) =>
      var b := Settle(s.box, snap, config, outcomes, retryAfter, now, limits);
      if snap.id in s.box.records && s.box.records[snap.id].status.Pending? then
        Persist(s.(box := b), b.records[snap.id], limits.maxRetained)
      else s
    case Restart =>
      var t := Fold(s.journal);
      s.(box := Box(t.records, t.order, s.box.nextSerial))
  }

  // ---------------------------------------------------------------- every step keeps the journal's promise

  /** As Covers, while the lines of the records in `todo` are still to be written. */
  ghost predicate CoversBut(s: Store, todo: set<Id>) {
    var t := Fold(s.journal).records;
    && (forall x <- s.box.records | x !in todo :: x in t && t[x] == s.box.records[x])
    && (forall x <- t | x !in s.box.records :: t[x].status.Superseded?)
  }

  /** A line tells the memory's state of its record, or of a superseded record no longer in memory. */
  ghost predicate Tells(b: Box, line: Record) {
    if line.id in b.records then b.records[line.id] == line else line.status.Superseded?
  }

  /** Such a line goes on telling the truth through any compaction. */
  ghost predicate Lasts(b: Box, line: Record) { Tells(b, line) && (line.status.Pending? || line.status.Superseded?) }

  lemma PersistCovers(s: Store, line: Record, maxRetained: nat, todo: set<Id>)
    requires Tidy(s.box) && CoversBut(s, todo) && Tells(s.box, line)
    ensures CoversBut(Persist(s, line, maxRetained), todo - {line.id})
    ensures forall x: Record :: Lasts(s.box, x) ==> Lasts(Persist(s, line, maxRetained).box, x)
  {
    hide Fold, Lines;
    CompactKeeps(s.box, maxRetained);
    if |s.box.records| > maxRetained {
      RewriteIsExact(Compact(s.box, maxRetained));
    } else {
      FoldAppend(s.journal, line);
    }
    hide Compact, Tidy;
  }

  ghost function Ids(lines: seq<Record>): set<Id> {
    set i | 0 <= i < |lines| :: lines[i].id
  }

  ghost predicate AllLast(b: Box, lines: seq<Record>) {
    forall i | 0 <= i < |lines| :: Lasts(b, lines[i])
  }

  lemma {:induction false} PersistAllCovers(s: Store, lines: seq<Record>, maxRetained: nat, todo: set<Id>)
    requires Tidy(s.box) && CoversBut(s, todo) && AllLast(s.box, lines)
    ensures CoversBut(PersistAll(s, lines, maxRetained), todo - Ids(lines))
    decreases |lines|
  {
    hide CoversBut, Persist, Fold, Tidy, Lasts;
    if lines == [] {
      assert todo - Ids(lines) == todo;
    } else {
      var line, rest := lines[0], lines[1..];
      var s' := Persist(s, line, maxRetained);
      CompactKeeps(s.box, maxRetained);
      assert Lasts(s.box, line);
      LastsTells(s.box, line);
      PersistCovers(s, line, maxRetained, todo);
      AllStillLast(s.box, s'.box, lines);
      PersistTidy(s, line, maxRetained);
      hide AllLast, Tells;
      PersistAllCovers(s', rest, maxRetained, todo - {line.id});
      assert (todo - {line.id}) - Ids(rest) == todo - Ids(lines) by { IdsFront(lines); }
    }
  }

  lemma IdsFront(lines: seq<Record>)
    requires lines != []
    ensures Ids(lines) == {lines[0].id} + Ids(lines[1..])
  {
    forall x <- Ids(lines) ensures x in {lines[0].id} + Ids(lines[1..]) {
      var i :| 0 <= i < |lines| && lines[i].id == x;
      if i > 0 {
        assert lines[1..][i - 1].id == x;
      }
    }
  }

  lemma AllStillLast(b: Box, b': Box, lines: seq<Record>)
    requires lines != [] && AllLast(b, lines) && forall x: Record :: Lasts(b, x) ==> Lasts(b', x)
    ensures AllLast(b', lines[1..])
  {
    hide Lasts;
  }

  lemma PersistTidy(s: Store, line: Record, maxRetained: nat)
    requires Tidy(s.box)
    ensures Tidy(Persist(s, line, maxRetained).box)
  {
    CompactKeeps(s.box, maxRetained);
    hide Tidy;
  }

  lemma LastsTells(b: Box, line: Record)
    requires Lasts(b, line)
    ensures Tells(b, line)
  {}

  lemma IdsOfLines(b: Box, retired: seq<Id>)
    requires Tidy(b) && forall i | 0 <= i < |retired| :: retired[i] in b.records && b.records[retired[i]].status.Superseded?
    ensures forall x :: x in Ids(Lines(b.records, retired)) <==> x in retired
    ensures AllLast(b, Lines(b.records, retired))
  {
    var lines := Lines(b.records, retired);
    assert forall i | 0 <= i < |lines| :: lines[i].id == retired[i] by { hide Lines; }
    hide Lines, Tidy;
    SameIds(lines, retired);
    hide Ids;
  }

  lemma SameIds(lines: seq<Record>, ids: seq<Id>)
    requires |lines| == |ids| && forall i | 0 <= i < |lines| :: lines[i].id == ids[i]
    ensures forall x :: x in Ids(lines) <==> x in ids
  {
    forall x | x in ids ensures x in Ids(lines) {
      var i :| 0 <= i < |ids| && ids[i] == x;
      assert lines[i].id == x;
    }
  }

  lemma EnqueueTidy(b: Box, id: Id, event: Event, now: Time)
    requires Tidy(b)
    ensures Tidy(Enqueue(b, id, event, now)) && Tidy(Hold(b, id, event, now))
  {}

  lemma SendOpens(s: Store, step: Step)
    requires step.Send? && Tidy(s.box) && Covers(s) && Enabled(s, step) && step.id !in s.box.records
    ensures var b := Enqueue(s.box, step.id, step.event, step.now);
      && Tidy(b) && (forall i | 0 <= i < |step.retired| :: step.retired[i] in b.records)
      && var lines := SendLines(b, step.retired, step.id);
      && AllLast(b, lines) && CoversBut(s.(box := b), Ids(lines))
  {
    var b := Enqueue(s.box, step.id, step.event, step.now);
    EnqueueTidy(s.box, step.id, step.event, step.now);
    hide Fold, Ids, Lines;
    IdsOfLines(b, step.retired);
    OneMoreLine(b, Lines(b.records, step.retired), b.records[step.id]);
    hide Tidy, AllLast;
  }

  lemma OneMoreLine(b: Box, lines: seq<Record>, line: Record)
    requires AllLast(b, lines) && Lasts(b, line)
    ensures AllLast(b, lines + [line]) && forall x :: x in Ids(lines + [line]) <==> x in Ids(lines) || x == line.id
  {
    var all := lines + [line];
    assert all[|lines|] == line;
    assert forall i | 0 <= i < |lines| :: all[i] == lines[i];
    hide Lasts;
  }

  lemma CoversAll(s: Store)
    requires CoversBut(s, {})
    ensures Covers(s)
  {}

  lemma SendCovers(s: Store, step: Step, limits: Limits)
    requires step.Send? && Tidy(s.box) && Covers(s) && Enabled(s, step)
    ensures Covers(Do(s, step, limits))
  {
    if step.id !in s.box.records {
      var b := Enqueue(s.box, step.id, step.event, step.now);
      SendOpens(s, step);
      var lines := SendLines(b, step.retired, step.id);
      hide Ids, Fold, Lines, AllLast, Tidy, Enqueue, PersistAll, Covers, CoversBut;
      PersistAllCovers(s.(box := b), lines, limits.maxRetained, Ids(lines));
      assert Ids(lines) - Ids(lines) == {};
      CoversAll(PersistAll(s.(box := b), lines, limits.maxRetained));
    }
  }

  /** The journal loads as a tidy table whatever its lines are. */
  lemma {:induction false} FoldTidy(journal: seq<Record>, n: nat)
    ensures Tidy(Box(Fold(journal).records, Fold(journal).order, n))
  {
    if journal != [] {
      FoldTidy(journal[..|journal| - 1], n);
    }
  }

  lemma OneLineCovers(s: Store, line: Record, limits: Limits)
    requires Tidy(s.box) && CoversBut(s, {line.id}) && line.id in s.box.records && s.box.records[line.id] == line
    ensures Covers(Persist(s, line, limits.maxRetained)) && Tidy(Persist(s, line, limits.maxRetained).box)
  {
    hide Fold, Lines;
    CompactKeeps(s.box, limits.maxRetained);
    PersistCovers(s, line, limits.maxRetained, {line.id});
    hide Tidy, Persist;
    assert {line.id} - {line.id} == {};
  }

  lemma SuppressCovers(s: Store, step: Step, limits: Limits)
    requires step.Suppress? && Tidy(s.box) && Covers(s)
    ensures Tidy(Do(s, step, limits).box) && Covers(Do(s, step, limits))
  {
    hide Fold, Lines, Persist;
    if step.id !in s.box.records {
      var b := Hold(s.box, step.id, step.event, step.now);
      EnqueueTidy(s.box, step.id, step.event, step.now);
      hide Tidy;
      assert CoversBut(s.(box := b), {step.id});
      OneLineCovers(s.(box := b), b.records[step.id], limits);
    }
  }

  lemma AttemptCovers(s: Store, step: Step, limits: Limits)
    requires step.Attempt? && Tidy(s.box) && Covers(s)
    ensures Tidy(Do(s, step, limits).box) && Covers(Do(s, step, limits))
  {
    hide Fold, Lines, Persist, Settled;
    var id := step.snap.id;
    if id in s.box.records && s.box.records[id].status.Pending? {
      var b := Settle(s.box, step.snap, step.config, step.outcomes, step.retryAfter, step.now, limits);
      SettledId(s.box.records[id], step, limits);
      assert Tidy(b);
      hide Tidy;
      assert CoversBut(s.(box := b), {id});
      OneLineCovers(s.(box := b), b.records[id], limits);
    }
  }

  lemma SettledId(rec: Record, step: Step, limits: Limits)
    requires step.Attempt?
    ensures Settled(rec, step.config, step.outcomes, step.retryAfter, step.now, limits).id == rec.id
  {}

  /** No step leaves a record in memory that a restart would find otherwise, or bring back to life. */
  lemma StepKeeps(s: Store, step: Step, limits: Limits)
    requires Tidy(s.box) && Covers(s) && Enabled(s, step)
    ensures Tidy(Do(s, step, limits).box) && Covers(Do(s, step, limits))
  {
    match step
    case Send(_, _, _, _) => SendCovers(s, step, limits); SendTidy(s, step, limits);
    case Suppress(_, _, _) => SuppressCovers(s, step, limits);
    case Attempt(_, _, _, _, _) => AttemptCovers(s, step, limits);
    case Restart => hide Tidy; FoldTidy(s.journal, s.box.nextSerial);
  }

  lemma SendTidy(s: Store, step: Step, limits: Limits)
    requires step.Send? && Tidy(s.box) && Enabled(s, step)
    ensures Tidy(Do(s, step, limits).box)
  {
    hide PersistAll, Enqueue;
    EnqueueTidy(s.box, step.id, step.event, step.now);
    hide Tidy;
  }
}
