/**
 The outbox over whole runs of sends, holds, attempts, compactions and restarts: what a restart resumes, and
 how many attempts a record gets.
 */
module OutboxRuns {
  import opened OutboxBox
  import opened OutboxJournal

  ghost predicate Runs(s: Store, steps: seq<Step>, limits: Limits)
    requires Tidy(s.box) && Covers(s)
    decreases |steps|
  {
    steps == [] ||
    (&& Enabled(s, steps[0])
     && (StepKeeps(s, steps[0], limits); Runs(Do(s, steps[0], limits), steps[1..], limits)))
  }

  function After(s: Store, steps: seq<Step>, limits: Limits): Store
    requires Tidy(s.box) && Covers(s) && Runs(s, steps, limits)
    decreases |steps|
  {
    if steps == [] then s
    else StepKeeps(s, steps[0], limits); After(Do(s, steps[0], limits), steps[1..], limits)
  }

  /**
   Through any run of sends, holds, attempts, compactions and restarts, loading the journal gives back
   every record as it is in memory, so it resumes exactly the deliveries that are pending.
   */
  lemma {:induction false} RestartResumesExactlyThePending(s: Store, steps: seq<Step>, limits: Limits)
    requires Tidy(s.box) && Covers(s) && Runs(s, steps, limits)
    ensures var end := After(s, steps, limits);
      && Tidy(end.box) && Covers(end)
      && forall x :: (x in Fold(end.journal).records && Fold(end.journal).records[x].status.Pending?)
                 <==> (x in end.box.records && end.box.records[x].status.Pending?)
    decreases |steps|
  {
    if steps != [] {
      StepKeeps(s, steps[0], limits);
      hide Fold, Do, Tidy, Covers;
      RestartResumesExactlyThePending(Do(s, steps[0], limits), steps[1..], limits);
    }
  }

  // ---------------------------------------------------------------- attempts are bounded

  ghost predicate BelowLimit(rec: Record, limits: Limits) { rec.status.Pending? ==> rec.attempts < limits.maxAttempts }

  /** Every record, in memory or in the journal, that is still pending has attempts left. */
  ghost predicate Bounded(s: Store, limits: Limits) {
    && (forall x <- s.box.records :: BelowLimit(s.box.records[x], limits))
    && (forall i | 0 <= i < |s.journal| :: BelowLimit(s.journal[i], limits))
  }

  lemma PersistBounded(s: Store, line: Record, limits: Limits)
    requires Tidy(s.box) && Bounded(s, limits) && BelowLimit(line, limits)
    ensures Tidy(Persist(s, line, limits.maxRetained).box) && Bounded(Persist(s, line, limits.maxRetained), limits)
  {
    CompactKeeps(s.box, limits.maxRetained);
    hide Tidy;
  }

  lemma {:induction false} PersistAllBounded(s: Store, lines: seq<Record>, limits: Limits)
    requires Tidy(s.box) && Bounded(s, limits) && forall i | 0 <= i < |lines| :: BelowLimit(lines[i], limits)
    ensures Bounded(PersistAll(s, lines, limits.maxRetained), limits)
    decreases |lines|
  {
    if lines != [] {
      PersistBounded(s, lines[0], limits);
      hide Bounded, Tidy, Persist;
      PersistAllBounded(Persist(s, lines[0], limits.maxRetained), lines[1..], limits);
    }
  }

  lemma {:induction false} FoldBounded(journal: seq<Record>, limits: Limits)
    requires forall i | 0 <= i < |journal| :: BelowLimit(journal[i], limits)
    ensures forall x <- Fold(journal).records :: BelowLimit(Fold(journal).records[x], limits)
  {
    if journal != [] {
      FoldBounded(journal[..|journal| - 1], limits);
    }
  }

  lemma BoundedKept(s: Store, step: Step, limits: Limits)
    requires limits.Valid() && Tidy(s.box) && Bounded(s, limits) && Enabled(s, step)
    ensures Bounded(Do(s, step, limits), limits)
  {
    hide Persist, PersistAll, Fold, Lines, Ledger;
    match step
    case Send(id, event, now, retired) =>
      if id !in s.box.records {
        var b := Enqueue(s.box, id, event, now);
        EnqueueTidy(s.box, id, event, now);
        hide Tidy;
        PersistAllBounded(s.(box := b), SendLines(b, retired, id), limits);
      }
    case Suppress(id, event, now) =>
      if id !in s.box.records {
        EnqueueTidy(s.box, id, event, now);
        var b := Hold(s.box, id, event, now);
        hide Tidy;
        PersistBounded(s.(box := b), b.records[id], limits);
      }
    case Attempt(snap, config, outcomes, retryAfter, now) =>
      if snap.id in s.box.records && s.box.records[snap.id].status.Pending? {
        var b := Settle(s.box, snap, config, outcomes, retryAfter, now, limits);
        SettledId(s.box.records[snap.id], step, limits);
        hide Tidy;
        PersistBounded(s.(box := b), b.records[snap.id], limits);
      }
    case Restart => FoldBounded(s.journal, limits);
  }

  /** Through any run, with restarts, a record still pending has had fewer than `maxAttempts` attempts. */
  lemma {:induction false} AttemptsStayBounded(s: Store, steps: seq<Step>, limits: Limits)
    requires limits.Valid() && Tidy(s.box) && Covers(s) && Runs(s, steps, limits) && Bounded(s, limits)
    ensures Bounded(After(s, steps, limits), limits)
    decreases |steps|
  {
    if steps != [] {
      StepKeeps(s, steps[0], limits);
      BoundedKept(s, steps[0], limits);
      hide Bounded, Do, Enabled, Tidy, Covers;
      AttemptsStayBounded(Do(s, steps[0], limits), steps[1..], limits);
    }
  }
}
