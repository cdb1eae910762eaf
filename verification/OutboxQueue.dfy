/**
 The alert outbox as it runs: records and their order held in memory, a journal appended and rewritten,
 and the delivery attempts that fold each channel's answer into a record's ledger.
 */
module OutboxQueue {
  import opened Wrappers
  import opened OutboxBox
  import opened OutboxJournal
  import opened OutboxEffects

  /** Compaction has `rest` still to pass and `drop` records left to drop, and will end with `target`. */
  ghost predicate PassingRest(source: map<Id, Record>, target: seq<Id>, records: map<Id, Record>, kept: seq<Id>, rest: seq<Id>, drop: nat) {
    && kept + Kept(source, rest, drop) == target
    && (forall x :: x in records <==> x in kept || x in rest)
    && (forall x <- records :: x in source && records[x] == source[x])
    && (forall x <- kept :: x !in rest)
  }

  /** Compaction has passed the first `i` records and has `drop` of `excess` left to drop. */
  ghost predicate Passing(b: Box, records: map<Id, Record>, kept: seq<Id>, i: nat, drop: nat, excess: nat)
    requires i <= |b.order|
  {
    PassingRest(b.records, Kept(b.records, b.order, excess), records, kept, b.order[i..], drop)
  }

  lemma PassBegins(b: Box, drop: nat)
    requires Tidy(b)
    ensures Passing(b, b.records, [], 0, drop, drop)
  {
    assert b.order[0..] == b.order;
    hide Kept;
  }

  lemma PassDrops(source: map<Id, Record>, target: seq<Id>, records: map<Id, Record>, kept: seq<Id>,
                  before: seq<Id>, id: Id, rest: seq<Id>, drop: nat)
    requires drop > 0 && PassingRest(source, target, records, kept, before, drop)
    requires id !in rest && (forall x :: x in before <==> x == id || x in rest) && Kept(source, before, drop) == Kept(source, rest, drop - 1)
    ensures PassingRest(source, target, records - {id}, kept, rest, drop - 1)
  {
    hide Kept;
  }

  lemma PassKeeps(source: map<Id, Record>, target: seq<Id>, records: map<Id, Record>, kept: seq<Id>,
                  before: seq<Id>, id: Id, rest: seq<Id>, drop: nat)
    requires PassingRest(source, target, records, kept, before, drop)
    requires id !in rest && (forall x :: x in before <==> x == id || x in rest) && Kept(source, before, drop) == [id] + Kept(source, rest, drop)
    ensures PassingRest(source, target, records, kept + [id], rest, drop)
  {
    assert kept + ([id] + Kept(source, rest, drop)) == kept + [id] + Kept(source, rest, drop);
    hide Kept;
    assert forall x :: x in kept + [id] <==> x in kept || x == id;
  }

  lemma PassOn(b: Box, records: map<Id, Record>, kept: seq<Id>, i: nat, drop: nat, excess: nat)
    requires Tidy(b) && i < |b.order| && Passing(b, records, kept, i, drop, excess)
    ensures var id := b.order[i]; id in records
    ensures var id := b.order[i];
      if drop > 0 && !records[id].status.Pending? then Passing(b, records - {id}, kept, i + 1, drop - 1, excess)
      else Passing(b, records, kept + [id], i + 1, drop, excess)
  {
    var id, target := b.order[i], Kept(b.records, b.order, excess);
    RestOf(b, i, drop);
    assert id in records && records[id] == b.records[id];
    hide PassingRest, Kept, Tidy;
    if drop > 0 && !records[id].status.Pending? {
      PassDrops(b.records, target, records, kept, b.order[i..], id, b.order[i + 1..], drop);
    } else {
      PassKeeps(b.records, target, records, kept, b.order[i..], id, b.order[i + 1..], drop);
    }
  }

  lemma RestOf(b: Box, i: nat, drop: nat)
    requires Tidy(b) && i < |b.order|
    ensures var id, rest := b.order[i], b.order[i + 1..];
      && id in b.records && id !in rest && (forall x :: x in b.order[i..] <==> x == id || x in rest)
      && Kept(b.records, b.order[i..], drop) ==
           if drop > 0 && !b.records[id].status.Pending? then Kept(b.records, rest, drop - 1) else [id] + Kept(b.records, rest, drop)
  {
    assert b.order[i..][1..] == b.order[i + 1..];
    assert b.order[i] in b.order;
    assert forall x :: x in b.order[i..] <==> x == b.order[i] || x in b.order[i + 1..];
    assert b.order[i] !in b.order[i + 1..];
    hide Tidy;
  }

  lemma PassEnds(b: Box, records: map<Id, Record>, kept: seq<Id>, drop: nat, maxRetained: nat)
    requires Tidy(b) && Passing(b, records, kept, |b.order|, drop, Excess(b, maxRetained))
    ensures Box(records, kept, b.nextSerial) == OutboxBox.Compact(b, maxRetained)
    ensures Tidy(OutboxBox.Compact(b, maxRetained))
    ensures forall i | 0 <= i < |kept| :: kept[i] in records
  {
    CompactKeeps(b, maxRetained);
    hide Tidy;
    assert kept + Kept(b.records, b.order[|b.order|..], drop) == kept;
    hide Kept;
  }

  class Outbox {
    const limits: Limits
    var records: map<Id, Record>
    var order: seq<Id>
    var journal: seq<Record>
    var made: nat

    ghost predicate Valid() reads this { limits.Valid() && Tidy(State().box) }

    function State(): Store reads this { Store(Box(records, order, made), journal) }

    /** Starts from what is in the journal file. */
    constructor (limits: Limits, lines: seq<Record>)
      requires limits.Valid()
      ensures Valid() && this.limits == limits
      ensures State() == Do(Store(Empty, lines), Restart, limits)
    {
      this.limits := limits;
      records, order, made := map[], [], 0;
      journal := lines;
      new;
      for i := 0 to |lines|
        invariant journal == lines && made == 0
        invariant Table(records, order) == Fold(lines[..i])
      {
        FoldAppend(lines[..i], lines[i]);
        assert lines[..i + 1] == lines[..i] + [lines[i]];
        if lines[i].id !in records {
          order := order + [lines[i].id];
        }
        records := records[lines[i].id := lines[i]];
      }
      assert lines[..|lines|] == lines;
      FoldTidy(lines, 0);
    }

    method Compact()
      requires Valid() && |records| > limits.maxRetained
      modifies this
      ensures Valid() && made == old(made)
      ensures State().box == OutboxBox.Compact(old(State().box), limits.maxRetained)
      ensures journal == Lines(records, order)
    {
      ghost var b := State().box;
      hide Tidy, Kept, Terminals, Passing;
      var drop: nat := |records| - limits.maxRetained;
      var kept: seq<Id> := [];
      var i := 0;
      PassBegins(b, drop);
      while i < |order|
        invariant i <= |order| && order == b.order && made == b.nextSerial && Tidy(b)
        invariant Passing(b, records, kept, i, drop, Excess(b, limits.maxRetained))
      {
        var id := order[i];
        PassOn(b, records, kept, i, drop, Excess(b, limits.maxRetained));
        if drop > 0 && !records[id].status.Pending? {
          records := records - {id};
          drop := drop - 1;
        } else {
          kept := kept + [id];
        }
        i := i + 1;
      }
      PassEnds(b, records, kept, drop, limits.maxRetained);
      order := kept;
      WriteOut();
    }

    method WriteOut()
      requires forall i | 0 <= i < |order| :: order[i] in records
      modifies this`journal
      ensures journal == Lines(records, order)
    {
      journal := [];
      for i := 0 to |order|
        invariant journal == Lines(records, order[..i])
      {
        assert order[..i + 1][..i] == order[..i];
        journal := journal + [records[order[i]]];
      }
      assert order[..|order|] == order;
    }

    method Persist(line: Record)
      requires Valid()
      modifies this
      ensures Valid()
      ensures State() == OutboxJournal.Persist(old(State()), line, limits.maxRetained)
    {
      journal := journal + [line];
      if |records| > limits.maxRetained {
        Compact();
      }
    }

    /** Enqueues an event once per delivery id; says which alerts its recovery superseded. */
    method Send(config: Config, id: Id, event: Event, now: Time) returns (retired: seq<Id>)
      requires Valid()
      modifies this
      ensures Valid()
      ensures config == Goes([]) || id in old(records) ==> State() == old(State())
      ensures config != Goes([]) ==> Enabled(old(State()), Step.Send(id, event, now, retired))
      ensures config != Goes([]) ==> State() == Do(old(State()), Step.Send(id, event, now, retired), limits)
      ensures config != Goes([]) && id !in old(records) ==> Accepted(old(records), records, id, event, now)
    {
      retired := [];
      if config == Goes([]) || id in records {
        return;
      }
      ghost var was := State();
      var rec := Record(id, made, event, Pending, 0, Some(now), now, None);
      records := records[id := rec];
      order := order + [id];
      made := made + 1;
      var superseded;
      retired, superseded := Supersede(was.box, id, event, now);
      assert State() == was.(box := Enqueue(was.box, id, event, now));
      EnqueueTidy(was.box, id, event, now);
      SendAccepts(was, Step.Send(id, event, now, retired), limits);
      hide Accepted, Tidy, Enqueue, PersistAll;
      PersistEach(superseded, rec);
    }

    /** Visits the records in any order and drops from delivery those the event makes pointless. */
    method Supersede(ghost b: Box, id: Id, event: Event, ghost now: Time) returns (retired: seq<Id>, superseded: seq<Record>)
      requires Tidy(b) && id !in b.records && records == Added(b, id, event, now)
      modifies this`records
      ensures records == Enqueue(b, id, event, now).records
      ensures Retires(b, event, retired) && forall i | 0 <= i < |retired| :: retired[i] in records
      ensures superseded == Lines(records, retired)
    {
      ghost var start, end := records, Enqueue(b, id, event, now).records;
      retired, superseded := [], [];
      assert Lines(end, retired) == [];
      var todo := records.Keys;
      SweepBegins(b, id, event, now);
      hide Lines, Tidy, Sweeping, Enqueue, Outdated, Retired, Added;
      while todo != {}
        invariant Sweeping(b, event, start, end, records, todo, retired)
        invariant (forall i | 0 <= i < |retired| :: retired[i] in end) && superseded == Lines(end, retired)
      {
        var x :| x in todo;
        SweepOn(b, id, event, now, records, todo, retired, x);
        todo := todo - {x};
        if x != id && Outdated(records[x], event) {
          records := records[x := Retired(records[x])];
          LinesAppend(end, retired, x);
          retired := retired + [x];
          superseded := superseded + [records[x]];
        }
      }
      SweepEnds(b, event, start, end, records, retired);
    }

    method PersistEach(superseded: seq<Record>, rec: Record)
      requires Valid()
      modifies this
      ensures Valid()
      ensures State() == PersistAll(old(State()), superseded + [rec], limits.maxRetained)
    {
      ghost var all := superseded + [rec];
      for i := 0 to |superseded|
        invariant Valid()
        invariant PersistAll(State(), all[i..], limits.maxRetained) == PersistAll(old(State()), all, limits.maxRetained)
      {
        assert all[i..][1..] == all[i + 1..];
        Persist(superseded[i]);
      }
      assert all[|superseded|..] == [rec];
      Persist(rec);
    }

    /** Journals an alert that was held. */
    method RecordSuppressed(id: Id, event: Event, now: Time)
      requires Valid()
      modifies this
      ensures Valid()
      ensures State() == Do(old(State()), Suppress(id, event, now), limits)
      ensures if id in old(records) then State() == old(State()) else Held(old(records), records, id, event)
    {
      if id in records {
        return;
      }
      hide Lines, Fold, OutboxJournal.Persist, PersistAll, Settle, Held;
      ghost var was := State();
      SuppressHolds(was, Suppress(id, event, now), limits);
      EnqueueTidy(State().box, id, event, now);
      hide Tidy;
      var rec := Record(id, made, event, Suppressed, 0, None, now, None);
      records := records[id := rec];
      order := order + [id];
      made := made + 1;
      assert State() == was.(box := Hold(was.box, id, event, now));
      hide Hold;
      Persist(rec);
    }

    /** The pending records whose time has come, oldest first. */
    method DueRecords(now: Time) returns (due: seq<Record>)
      requires Valid()
      ensures forall r :: r in due <==>
        r.id in records && records[r.id] == r && r.status.Pending? && r.nextAttemptAt.Some? && r.nextAttemptAt.value <= now
      ensures forall i, j | 0 <= i < j < |due| :: due[i].createdAt <= due[j].createdAt && due[i].id != due[j].id
    {
      due := [];
      var todo := records.Keys;
      while todo != {}
        invariant todo <= records.Keys
        invariant forall r :: r in due <==> r.id in records && r.id !in todo && records[r.id] == r && Due(r, now)
        invariant forall i, j | 0 <= i < j < |due| :: due[i].createdAt <= due[j].createdAt && due[i].id != due[j].id
      {
        var x :| x in todo;
        todo := todo - {x};
        if Due(records[x], now) {
          InsertedInOrder(due, records[x]);
          due := Inserted(due, records[x]);
        }
      }
    }

    /** The doubling stops at the maximum: `highest` is the largest value computed on the way. */
    method Wait(attempts: nat) returns (wait: Time, ghost highest: Time)
      requires Valid() && attempts > 0
      ensures wait == Backoff(limits, attempts) && wait <= highest && (highest == limits.base || highest < 2 * limits.max)
    {
      var d := limits.base;
      var i := 1;
      assert d == Nth(limits.base, 0);
      hide Nth, Tidy;
      while i < attempts && d < limits.max
        invariant 1 <= i <= attempts && d == Nth(limits.base, i - 1)
        invariant d == limits.base || d < 2 * limits.max
      {
        NthDoubles(limits.base, i - 1);
        d := d * 2;
        i := i + 1;
      }
      PowerGrows(i - 1, attempts - 1, limits.base);
      BackoffIs(limits, attempts);
      highest := d;
      wait := if d > limits.max then limits.max else d;
    }

    /** Sends one due record to the channels still waiting for it, and settles what they answered. */
    method Attempt(snap: Record, config: Config, answers: seq<bool>, retryAfter: Time, now: Time) returns (outcomes: seq<Outcome>)
      requires Valid() && (config.Goes? ==> |answers| == |config.channels|)
      modifies this
      ensures Valid()
      ensures outcomes == if config.Goes? then Tried(snap, config.channels, answers) else []
      ensures State() == Do(old(State()), Step.Attempt(snap, config, outcomes, retryAfter, now), limits)
    {
      outcomes := [];
      if config.Goes? {
        for i := 0 to |config.channels|
          invariant outcomes == Tried(snap, config.channels[..i], answers[..i])
        {
          assert config.channels[..i + 1][..i] == config.channels[..i] && answers[..i + 1][..i] == answers[..i];
          if !snap.LegStatus(config.channels[i]).Delivered? {
            outcomes := outcomes + [Outcome(config.channels[i], answers[i])];
          }
        }
        assert config.channels[..|config.channels|] == config.channels && answers[..|answers|] == answers;
      }
      if snap.id !in records || !records[snap.id].status.Pending? {
        return;
      }
      ghost var was := State();
      var rec := FoldOutcomes(records[snap.id], config, outcomes, retryAfter, now);
      SettledId(records[snap.id], Step.Attempt(snap, config, outcomes, retryAfter, now), limits);
      records := records[snap.id := rec];
      Persist(rec);
    }

    method FoldOutcomes(before: Record, config: Config, outcomes: seq<Outcome>, retryAfter: Time, now: Time) returns (rec: Record)
      requires Valid() && before.status.Pending?
      ensures rec == Settled(before, config, outcomes, retryAfter, now, limits)
    {
      rec := before.(attempts := before.attempts + 1);
      var ledger := Enter(before, outcomes);
      hide Ledger;
      rec := rec.(legs := ledger);
      if config.Goes? {
        var pending := 0;
        if rec.legs.Some? {
          for i := 0 to |config.channels|
            invariant pending >= 0 && (pending == 0 <==> forall k | 0 <= k < i :: rec.LegStatus(config.channels[k]).Delivered?)
          {
            if !rec.LegStatus(config.channels[i]).Delivered? {
              pending := pending + 1;
            }
          }
        }
        if pending == 0 {
          rec := rec.(status := Delivered, nextAttemptAt := None);
          return;
        }
      }
      if rec.attempts >= limits.maxAttempts {
        rec := rec.(status := DeadLettered, nextAttemptAt := None);
        if rec.legs.Some? {
          var legs := DeadLetter(rec.legs.value);
          rec := rec.(legs := Some(legs));
        }
      } else {
        var wait, _ := Wait(rec.attempts);
        if retryAfter > wait {
          wait := retryAfter;
        }
        rec := rec.(nextAttemptAt := Some(now + wait));
      }
    }

    method Enter(rec: Record, outcomes: seq<Outcome>) returns (ledger: Option<map<Channel, Leg>>)
      ensures ledger == Ledger(rec, outcomes)
    {
      if rec.legs.None? && outcomes == [] {
        return None;
      }
      ghost var start := if rec.legs.Some? then rec.legs.value else map[];
      var legs := if rec.legs.Some? then rec.legs.value else map[];
      for i := 0 to |outcomes|
        invariant legs == MarkedAll(start, outcomes[..i])
      {
        assert outcomes[..i + 1][..i] == outcomes[..i];
        var out := outcomes[i];
        var leg := if out.channel in legs then legs[out.channel] else Leg(Pending, 0);
        legs := legs[out.channel := Leg(if out.acked then Delivered else Pending, leg.attempts + 1)];
      }
      assert outcomes[..|outcomes|] == outcomes;
      ledger := Some(legs);
    }

    method DeadLetter(before: map<Channel, Leg>) returns (legs: map<Channel, Leg>)
      ensures legs == DeadLegs(before)
    {
      legs := before;
      var todo := before.Keys;
      while todo != {}
        invariant todo <= before.Keys == legs.Keys
        invariant forall c <- before :: legs[c] == if c in todo then before[c] else DeadLegs(before)[c]
      {
        var c :| c in todo;
        todo := todo - {c};
        if legs[c].status.Pending? {
          legs := legs[c := legs[c].(status := DeadLettered)];
        }
      }
    }
  }

  /** `r` placed after the records created no later. */
  function Inserted(due: seq<Record>, r: Record): seq<Record> {
    if due == [] || r.createdAt < due[0].createdAt then [r] + due
    else [due[0]] + Inserted(due[1..], r)
  }

  lemma {:induction false} InsertedInOrder(due: seq<Record>, r: Record)
    requires forall i, j | 0 <= i < j < |due| :: due[i].createdAt <= due[j].createdAt && due[i].id != due[j].id
    requires forall i | 0 <= i < |due| :: due[i].id != r.id
    ensures var more := Inserted(due, r);
      && (forall x :: x in more <==> x == r || x in due)
      && (forall i, j | 0 <= i < j < |more| :: more[i].createdAt <= more[j].createdAt && more[i].id != more[j].id)
  {
    if due != [] && due[0].createdAt <= r.createdAt {
      InsertedInOrder(due[1..], r);
      var rest := Inserted(due[1..], r);
      assert forall i | 0 <= i < |rest| :: rest[i] == r || rest[i] in due[1..];
      assert due == [due[0]] + due[1..];
    }
  }

  /** The interval after `n` doublings. */
  function Nth(base: Time, n: nat): Time { base * Power(n) }

  lemma NthDoubles(base: Time, n: nat)
    ensures Nth(base, n + 1) == Nth(base, n) * 2
  {}

  lemma BackoffIs(limits: Limits, attempts: nat)
    requires attempts > 0
    ensures var d := Nth(limits.base, attempts - 1); Backoff(limits, attempts) == if d > limits.max then limits.max else d
  {}

  lemma {:induction false} PowerGrows(a: nat, b: nat, base: Time)
    requires base > 0 && a <= b
    ensures 0 < Nth(base, a) <= Nth(base, b)
    decreases b
  {
    if a < b {
      NthDoubles(base, b - 1);
      hide Nth;
      PowerGrows(a, b - 1, base);
    } else {
      PowerPositive(a, base);
    }
  }

  lemma {:induction false} PowerPositive(a: nat, base: Time)
    requires base > 0
    ensures base * Power(a) > 0
  {
    if a > 0 {
      PowerPositive(a - 1, base);
      assert base * (2 * Power(a - 1)) == 2 * (base * Power(a - 1));
    }
  }

  /** The records with the new one among them. */
  function Added(b: Box, id: Id, event: Event, now: Time): map<Id, Record> {
    b.records[id := Record(id, b.nextSerial, event, Pending, 0, Some(now), now, None)]
  }

  /** The records not in `todo` have been superseded where `event` outdates them, and listed. */
  ghost predicate Sweeping(b: Box, event: Event, start: map<Id, Record>, end: map<Id, Record>,
                           records: map<Id, Record>, todo: set<Id>, retired: seq<Id>)
  {
    && todo <= start.Keys && records.Keys == start.Keys == end.Keys
    && (forall x <- records :: records[x] == if x in todo then start[x] else end[x])
    && (forall i | 0 <= i < |retired| :: retired[i] in b.records && retired[i] in end && retired[i] !in todo && Outdated(b.records[retired[i]], event))
    && (forall x <- b.records | x !in todo && Outdated(b.records[x], event) :: x in retired)
  }

  lemma SweepBegins(b: Box, id: Id, event: Event, now: Time)
    ensures var start := Added(b, id, event, now);
      id !in b.records ==> Sweeping(b, event, start, Enqueue(b, id, event, now).records, start, start.Keys, [])
  {}

  lemma SweepEnds(b: Box, event: Event, start: map<Id, Record>, end: map<Id, Record>, records: map<Id, Record>, retired: seq<Id>)
    requires Sweeping(b, event, start, end, records, {}, retired)
    ensures records == end && Retires(b, event, retired) && forall i | 0 <= i < |retired| :: retired[i] in records
  {}

  lemma SweepOn(b: Box, id: Id, event: Event, now: Time, records: map<Id, Record>, todo: set<Id>, retired: seq<Id>, x: Id)
    requires Tidy(b) && id !in b.records && x in todo
    requires var start := Added(b, id, event, now);
      Sweeping(b, event, start, Enqueue(b, id, event, now).records, records, todo, retired)
    ensures var start := Added(b, id, event, now);
      var end := Enqueue(b, id, event, now).records;
      && x in records && (forall i | 0 <= i < |retired| :: retired[i] in end) && x in end
      && if x != id && Outdated(records[x], event)
         then end[x] == Retired(records[x])
           && Sweeping(b, event, start, end, records[x := Retired(records[x])], todo - {x}, retired + [x])
         else Sweeping(b, event, start, end, records, todo - {x}, retired)
  {
    hide Tidy;
  }

  lemma LinesAppend(records: map<Id, Record>, ids: seq<Id>, x: Id)
    requires x in records && forall i | 0 <= i < |ids| :: ids[i] in records
    ensures (forall i | 0 <= i < |ids + [x]| :: (ids + [x])[i] in records) && Lines(records, ids + [x]) == Lines(records, ids) + [records[x]]
  {
    assert (ids + [x])[..|ids|] == ids;
  }
}
