/**
 No key Dash was told of is forgotten: in a run no crash interrupts, whatever mints, probes, stops and
 pushes come to, such a key that still exists is named by its server's record, listed for a person, or
 still in the handler's hand. A key whose creation the provider's answer did not reach Dash for is not.
 */
module KeyConservation {
  import opened Wrappers
  import opened KeyRotation
  import opened KeySafety

  /** The key's server's record names it, or it is listed for a person to delete. */
  ghost predicate Named(w: World, k: KeyId)
    requires k in w.owner
  {
    k in RefsOf(RecordOf(w, w.owner[k])) || k in w.mem.leftovers
  }

  /** The handler itself still carries the key: just made, or replaced and about to be dropped. */
  ghost predicate InHand(w: World, k: KeyId)
    requires k in w.owner
  {
    var job := w.JobOf(w.owner[k]);
    (job.ToSave? && job.key == k) || (job.Retiring? && k in job.due)
  }

  /** What the record of `s` names is carried on by `heirs`, listed, or gone. */
  ghost predicate Covered(w: World, s: ServerName, heirs: set<KeyId>, tracked: set<KeyId>) {
    forall k <- RefsOf(RecordOf(w, s)) | k in tracked :: k in heirs || k in w.mem.leftovers || k !in w.provider
  }

  ghost predicate Carries(w: World, s: ServerName, tracked: set<KeyId>) {
    match w.JobOf(s)
    case Stale(_, rec) => RecordOf(w, s) == Some(rec)
    case ToMint(_, prev) => Covered(w, s, RefsOf(prev), tracked)
    case ToSave(_, _, prev) => Covered(w, s, RefsOf(prev), tracked)
    case Probing(_, k, prev) => Covered(w, s, RefsOf(prev) + {k}, tracked)
    case Pending(_, k, prev) => Covered(w, s, RefsOf(prev) + {k}, tracked)
    case AtPush(_, k, prev) => Covered(w, s, RefsOf(prev) + {k}, tracked)
    case Replied(_, k, prev, _) => Covered(w, s, RefsOf(prev) + {k}, tracked)
    case Undo(k, prev) => Covered(w, s, RefsOf(prev) + {k}, tracked)
    case Restoring(prev) => Covered(w, s, RefsOf(prev), tracked)
    case _ => true
  }

  function JobRefs(job: Job): set<KeyId> {
    match job
    case Idle => {}
    case Stale(_, rec) => Refs(rec)
    case ToMint(_, prev) => RefsOf(prev)
    case ToSave(_, k, prev) => RefsOf(prev) + {k}
    case Probing(_, k, prev) => RefsOf(prev) + {k}
    case Pending(_, k, prev) => RefsOf(prev) + {k}
    case AtPush(_, k, prev) => RefsOf(prev) + {k}
    case Replied(_, k, prev, _) => RefsOf(prev) + {k}
    case Undo(k, prev) => RefsOf(prev) + {k}
    case Restoring(prev) => RefsOf(prev)
    case Retiring(k, due) => {k} + set x | x in due
  }

  /** What one server's record and job say about the tracked keys. */
  ghost predicate Local(w: World, s: ServerName, tracked: set<KeyId>) {
    && RefsOf(RecordOf(w, s)) + JobRefs(w.JobOf(s)) <= w.owner.Keys
    && Carries(w, s, tracked)
  }

  ghost predicate Conserved(w: World, tracked: set<KeyId>) {
    && (forall k <- tracked :: k in w.owner && (k in w.provider ==> Named(w, k) || InHand(w, k)))
    && (forall s :: Local(w, s, tracked))
  }

  /** A handler's own steps: no crash, and nobody fills in the manual form meanwhile. */
  predicate InRun(step: Step) { !step.Crash? && !step.ManualForm? }

  function NewKey(step: Step): set<KeyId> { if step.MintOk? then {step.key} else {} }

  /** A step of one server leaves what another server's record and job say. */
  lemma LocalElsewhere(w: World, step: Step, tracked: set<KeyId>, t: ServerName)
    requires Conserved(w, tracked) && Enabled(w, step) && InRun(step) && t != step.s
    ensures Local(Do(w, step), t, tracked + NewKey(step))
    ensures RecordOf(Do(w, step), t) == RecordOf(w, t) && Do(w, step).JobOf(t) == w.JobOf(t)
  {
    assert Local(w, t, tracked);
    StepFrame(w, step, t);
    var w' := Do(w, step);
    hide Do, Enabled;
    assert forall k <- RefsOf(RecordOf(w, t)) :: k !in w'.owner.Keys - w.owner.Keys;
  }

  function MadeKeys(step: Step): set<KeyId> { if step.MintOk? || step.MintUnheard? then {step.key} else {} }

  /** Provider and list change only by a new key, a delete, or a key being listed. */
  ghost predicate Grows(w: World, w': World, step: Step) {
    && w.owner.Keys <= w'.owner.Keys && (forall k <- w.owner :: w'.owner[k] == w.owner[k])
    && NewKey(step) <= w'.owner.Keys - w.owner.Keys <= MadeKeys(step)
    && (step.PushCall? || step.HandPush? || w'.targets == w.targets)
    && w'.provider - w.provider <= w'.owner.Keys - w.owner.Keys
    && (forall k <- w.mem.leftovers :: k in w'.mem.leftovers)
  }

  lemma PhaseOneGrows(w: World, step: Step)
    requires Enabled(w, step) && PhaseOne(step)
    ensures Grows(w, Do(w, step), step)
  {
  }

  lemma PhaseTwoGrows(w: World, step: Step)
    requires Enabled(w, step) && InRun(step) && !PhaseOne(step)
    ensures Grows(w, Do(w, step), step)
  {
  }

  /** A step is one server's: another's record, job and key stay. */
  ghost predicate Elsewhere(w: World, w': World, t: ServerName) {
    RecordOf(w', t) == RecordOf(w, t) && w'.JobOf(t) == w.JobOf(t) && w'.TargetOf(t) == w.TargetOf(t)
  }

  lemma PhaseOneElsewhere(w: World, step: Step, t: ServerName)
    requires Enabled(w, step) && PhaseOne(step) && t != step.s
    ensures Elsewhere(w, Do(w, step), t)
  {
  }

  lemma PhaseTwoElsewhere(w: World, step: Step, t: ServerName)
    requires Enabled(w, step) && InRun(step) && !PhaseOne(step) && t != step.s
    ensures Elsewhere(w, Do(w, step), t)
  {
    if step.DropNew? || step.DropOld? {
      DropMoves(w, step);
      hide Do, Enabled;
    } else {
      hide Dropped;
    }
  }

  /** A drop moves its server's job on, and touches no record or target. */
  lemma DropMoves(w: World, step: Step)
    requires Enabled(w, step) && (step.DropStale? || step.DropNew? || step.DropOld?)
    ensures var w', job := Do(w, step), w.JobOf(step.s);
      && w'.mem.keys == w.mem.keys && w'.targets == w.targets && w'.known == w.known
      && w'.jobs == w.jobs[step.s :=
           if step.DropStale? then ToMint(job.place, ChainRecord(job.stale))
           else if step.DropNew? then Restoring(job.prev)
           else if job.due == [] then Idle else Retiring(job.key, job.due[1..])]
  {
    var job := w.JobOf(step.s);
    hide ChainRecord;
    if step.DropNew? {
      DroppedShape(w, job.key, step.reply, step.landed);
    } else if step.DropStale? {
      if job.stale.keyId.Some? { DroppedShape(w, job.stale.keyId.value, step.reply, step.landed); }
    } else if job.due != [] {
      DroppedShape(w, job.due[0], step.reply, step.landed);
    }
    hide Dropped;
  }

  lemma StepFrame(w: World, step: Step, t: ServerName)
    requires Enabled(w, step) && InRun(step)
    ensures t != step.s ==> RecordOf(Do(w, step), t) == RecordOf(w, t) && Do(w, step).JobOf(t) == w.JobOf(t)
    ensures t != step.s ==> Do(w, step).TargetOf(t) == w.TargetOf(t)
    ensures Grows(w, Do(w, step), step)
  {
    hide Grows, Do, Enabled;
    if PhaseOne(step) {
      PhaseOneGrows(w, step);
      if t != step.s { PhaseOneElsewhere(w, step, t); }
    } else {
      PhaseTwoGrows(w, step);
      if t != step.s { PhaseTwoElsewhere(w, step, t); }
    }
  }

  lemma PhaseOneLocal(w: World, step: Step, tracked: set<KeyId>)
    requires Conserved(w, tracked) && Enabled(w, step) && PhaseOne(step)
    ensures Local(Do(w, step), step.s, tracked + NewKey(step))
  {
    var s := step.s;
    if step.DropStale? {
      DropStaleLocal(w, step, tracked);
    } else if step.SaveMinted? {
      SaveMintedLocal(w, step, tracked);
    } else {
      assert Local(w, s, tracked);
    }
  }

  lemma SaveMintedLocal(w: World, step: Step, tracked: set<KeyId>)
    requires Conserved(w, tracked) && step.SaveMinted? && Enabled(w, step)
    ensures Local(Do(w, step), step.s, tracked)
  {
    var job := w.JobOf(step.s);
    assert Local(w, step.s, tracked);
    assert Refs(MintedRecord(job.place, job.key, job.prev)) == RefsOf(job.prev) + {job.key};
  }

  lemma DropStaleLocal(w: World, step: Step, tracked: set<KeyId>)
    requires Conserved(w, tracked) && step.DropStale? && Enabled(w, step)
    ensures Local(Do(w, step), step.s, tracked)
  {
    var rec := w.JobOf(step.s).stale;
    assert Local(w, step.s, tracked);
    assert Refs(rec) == RefsOf(ChainRecord(rec)) + (if rec.keyId.Some? then {rec.keyId.value} else {}) by {
      assert rec.older != [] ==> rec.older == rec.older[..|rec.older| - 1] + [rec.older[|rec.older| - 1]];
    }
  }

  /** A drop leaves the records as they are, and its key gone or listed. */
  lemma DroppedShape(w: World, k: KeyId, reply: Delete, landed: bool)
    requires PlausibleDelete(w, k, reply)
    ensures var w' := Dropped(w, k, reply, landed);
      && w'.mem.keys == w.mem.keys && w'.jobs == w.jobs && w'.owner == w.owner && w'.provider <= w.provider
      && w'.targets == w.targets && w'.known == w.known
      && (forall x <- w.mem.leftovers :: x in w'.mem.leftovers)
      && (k in w'.mem.leftovers || k !in w'.provider)
  {
  }

  lemma DropLocal(w: World, step: Step, tracked: set<KeyId>)
    requires Conserved(w, tracked) && (step.DropNew? || step.DropOld?) && Enabled(w, step)
    ensures Local(Do(w, step), step.s, tracked)
  {
    var s, job := step.s, w.JobOf(step.s);
    assert Local(w, s, tracked);
    if step.DropNew? {
      DroppedShape(w, job.key, step.reply, step.landed);
      hide Dropped;
    } else if job.due != [] {
      DroppedShape(w, job.due[0], step.reply, step.landed);
      hide Dropped;
    }
  }

  lemma PhaseTwoLocal(w: World, step: Step, tracked: set<KeyId>)
    requires Conserved(w, tracked) && Enabled(w, step) && InRun(step) && !PhaseOne(step)
    ensures Local(Do(w, step), step.s, tracked)
  {
    if step.DropNew? || step.DropOld? {
      DropLocal(w, step, tracked);
    } else {
      assert Local(w, step.s, tracked);
    }
  }

  lemma KeyElsewhereKept(w: World, step: Step, k: KeyId)
    requires Enabled(w, step) && InRun(step) && k in w.owner && w.owner[k] != step.s
    requires k in w.provider ==> Named(w, k) || InHand(w, k)
    ensures k in Do(w, step).owner
    ensures k in Do(w, step).provider ==> Named(Do(w, step), k) || InHand(Do(w, step), k)
  {
    StepFrame(w, step, w.owner[k]);
    hide Do, Enabled;
  }

  lemma KeyKeptThroughStale(w: World, step: Step, tracked: set<KeyId>, k: KeyId)
    requires Conserved(w, tracked) && Enabled(w, step) && step.DropStale? && k in tracked && w.owner[k] == step.s
    ensures k in Do(w, step).owner
    ensures k in Do(w, step).provider ==> Named(Do(w, step), k) || InHand(Do(w, step), k)
  {
    assert Local(w, step.s, tracked);
    hide Conserved;
  }

  lemma KeyKeptThroughMint(w: World, step: Step, tracked: set<KeyId>, k: KeyId)
    requires Conserved(w, tracked) && Enabled(w, step) && step.SaveMinted? && k in tracked && w.owner[k] == step.s
    ensures k in Do(w, step).owner
    ensures k in Do(w, step).provider ==> Named(Do(w, step), k) || InHand(Do(w, step), k)
  {
    assert Local(w, step.s, tracked);
    hide Conserved;
  }

  lemma KeyKeptInPhaseOne(w: World, step: Step, tracked: set<KeyId>, k: KeyId)
    requires Conserved(w, tracked) && Enabled(w, step) && PhaseOne(step) && !step.DropStale? && !step.SaveMinted? && k in tracked && w.owner[k] == step.s
    ensures k in Do(w, step).owner
    ensures k in Do(w, step).provider ==> Named(Do(w, step), k) || InHand(Do(w, step), k)
  {
    assert Local(w, step.s, tracked);
    hide Conserved;
  }

  lemma KeyKeptThroughUndo(w: World, step: Step, tracked: set<KeyId>, k: KeyId)
    requires Conserved(w, tracked) && Enabled(w, step) && step.DropNew? && k in tracked && w.owner[k] == step.s
    ensures k in Do(w, step).owner
    ensures k in Do(w, step).provider ==> Named(Do(w, step), k) || InHand(Do(w, step), k)
  {
    assert Local(w, step.s, tracked);
    hide Conserved;
  }

  lemma KeyKeptThroughRetiring(w: World, step: Step, tracked: set<KeyId>, k: KeyId)
    requires Conserved(w, tracked) && Enabled(w, step) && step.DropOld? && k in tracked && w.owner[k] == step.s
    ensures k in Do(w, step).owner
    ensures k in Do(w, step).provider ==> Named(Do(w, step), k) || InHand(Do(w, step), k)
  {
    assert Local(w, step.s, tracked);
    hide Conserved;
  }

  lemma KeyKeptThroughPush(w: World, step: Step, tracked: set<KeyId>, k: KeyId)
    requires Conserved(w, tracked) && Enabled(w, step) && InRun(step) && !PhaseOne(step) && !step.DropNew? && !step.DropOld? && k in tracked && w.owner[k] == step.s
    ensures k in Do(w, step).owner
    ensures k in Do(w, step).provider ==> Named(Do(w, step), k) || InHand(Do(w, step), k)
  {
    assert Carries(w, step.s, tracked) by { assert Local(w, step.s, tracked); }
    hide Conserved, Dropped, Local;
  }

  lemma KeyKept(w: World, step: Step, tracked: set<KeyId>, k: KeyId)
    requires Conserved(w, tracked) && Enabled(w, step) && InRun(step) && k in tracked
    ensures k in Do(w, step).owner
    ensures k in Do(w, step).provider ==> Named(Do(w, step), k) || InHand(Do(w, step), k)
  {
    hide Do, Enabled, Local, Named, InHand;
    if w.owner[k] != step.s {
      KeyElsewhereKept(w, step, k);
    } else if step.DropStale? {
      KeyKeptThroughStale(w, step, tracked, k);
    } else if step.SaveMinted? {
      KeyKeptThroughMint(w, step, tracked, k);
    } else if PhaseOne(step) {
      KeyKeptInPhaseOne(w, step, tracked, k);
    } else if step.DropNew? {
      KeyKeptThroughUndo(w, step, tracked, k);
    } else if step.DropOld? {
      KeyKeptThroughRetiring(w, step, tracked, k);
    } else {
      KeyKeptThroughPush(w, step, tracked, k);
    }
  }

  lemma ConservedKept(w: World, step: Step, tracked: set<KeyId>)
    requires Conserved(w, tracked) && Enabled(w, step) && InRun(step)
    ensures Conserved(Do(w, step), tracked + NewKey(step))
  {
    var w', tracked' := Do(w, step), tracked + NewKey(step);
    forall s ensures Local(w', s, tracked') {
      if s != step.s {
        LocalElsewhere(w, step, tracked, s);
      } else if PhaseOne(step) {
        PhaseOneLocal(w, step, tracked);
      } else {
        PhaseTwoLocal(w, step, tracked);
        assert tracked' == tracked;
      }
    }
    forall k <- tracked' ensures k in w'.owner && (k in w'.provider ==> Named(w', k) || InHand(w', k)) {
      if k in tracked {
        KeyKept(w, step, tracked, k);
      }
    }
  }

  ghost predicate Quiet(w: World) { forall s :: w.JobOf(s).Idle? }

  ghost predicate WholeRun(run: seq<Step>) { forall step <- run :: InRun(step) }

  lemma {:induction false} ConservedThrough(w: World, run: seq<Step>, tracked: set<KeyId>)
    requires Conserved(w, tracked) && Possible(w, run) && WholeRun(run)
    ensures After(w, run).known >= w.known
    ensures Conserved(After(w, run), tracked + (After(w, run).known - w.known))
    decreases |run|
  {
    if run == [] {
      assert tracked + (w.known - w.known) == tracked;
    } else {
      var w1 := Do(w, run[0]);
      ConservedKept(w, run[0], tracked);
      assert w1.known == w.known + NewKey(run[0]);
      ConservedThrough(w1, run[1..], tracked + NewKey(run[0]));
      ConservedSubset(After(w, run), tracked + NewKey(run[0]) + (After(w, run).known - w1.known),
                      tracked + (After(w, run).known - w.known));
    }
  }

  lemma ConservedSubset(w: World, tracked: set<KeyId>, fewer: set<KeyId>)
    requires Conserved(w, tracked) && fewer <= tracked
    ensures Conserved(w, fewer)
  {
    forall s ensures Local(w, s, fewer) {
      assert Local(w, s, tracked);
    }
  }

  /**
   No key is forgotten: when a handler that no crash interrupted has finished with every server,
   each key Dash was told it made, and each key Dash could already name, is gone from the provider,
   named by its server's record, or listed for a person, whichever way mints, probes, stops and pushes
   turned out.
   */
  lemma NoKeyForgotten(w: World, run: seq<Step>)
    requires Inv(w) && Quiet(w) && Possible(w, run) && WholeRun(run) && Quiet(After(w, run))
    ensures forall k | k in After(w, run).provider
              && ((k in w.owner && Named(w, k)) || k in After(w, run).known - w.known) ::
              k in After(w, run).owner && Named(After(w, run), k)
  {
    var tracked := set k | k in w.owner && Named(w, k);
    forall s ensures Local(w, s, tracked) {
      assert s in w.mem.keys ==> RecordSound(w, s, w.mem.keys[s]);
    }
    ConservedThrough(w, run, tracked);
    assert Conserved(After(w, run), tracked + (After(w, run).known - w.known));
  }

  /**
   The manual form points the server elsewhere and takes its record away. The record's own key is listed for
   a person; the older ones it named are the keys that are named no more.
   */
  lemma FormListsOnlyTheNewestKey(w: World, s: ServerName, place: Place, landed: bool, k: KeyId)
    requires Enabled(w, ManualForm(s, place, landed)) && k in w.owner && w.owner[k] == s && Named(w, k)
    ensures var w' := Do(w, ManualForm(s, place, landed));
      && w'.TargetOf(s) == Foreign(place) && RecordOf(w', s).None? && w'.provider == w.provider && w'.owner == w.owner
      && (!Named(w', k) <==> k !in w.mem.leftovers && s in w.mem.keys && k in w.mem.keys[s].older && w.mem.keys[s].keyId != Some(k))
  {
    var w' := Do(w, ManualForm(s, place, landed));
    assert w'.mem.leftovers == w.mem.leftovers + if s in w.mem.keys && w.mem.keys[s].keyId.Some? then [w.mem.keys[s].keyId.value] else [];
    hide Do;
  }

  // ---------------------------------------------------------------- a mint whose answer was lost

  /** What is said of `s` names only keys there were at the start, or that Dash was told of. */
  ghost predicate HeardLocal(w: World, s: ServerName, start: set<KeyId>) {
    RefsOf(RecordOf(w, s)) + JobRefs(w.JobOf(s)) <= start + w.known
  }

  ghost predicate Heard(w: World, start: set<KeyId>) {
    && (forall s :: HeardLocal(w, s, start))
    && (forall i | 0 <= i < |w.mem.leftovers| :: w.mem.leftovers[i] in start + w.known)
  }

  lemma HeardElsewhere(w: World, step: Step, start: set<KeyId>, t: ServerName)
    requires Heard(w, start) && Enabled(w, step) && InRun(step) && t != step.s
    ensures HeardLocal(Do(w, step), t, start)
  {
    assert HeardLocal(w, t, start);
    StepFrame(w, step, t);
    KnownGrows(w, step);
    hide Do, Enabled, Heard;
  }

  lemma KnownGrows(w: World, step: Step)
    requires Enabled(w, step)
    ensures Do(w, step).known == w.known + NewKey(step)
  {}

  lemma HeardThroughStale(w: World, step: Step, start: set<KeyId>)
    requires Heard(w, start) && Enabled(w, step) && step.DropStale?
    ensures HeardLocal(Do(w, step), step.s, start)
  {
    assert HeardLocal(w, step.s, start);
    assert w.JobOf(step.s).Stale?;
    DropMoves(w, step);
    hide Heard, Do, Enabled;
  }

  lemma HeardThroughMint(w: World, step: Step, start: set<KeyId>)
    requires Heard(w, start) && Enabled(w, step) && step.SaveMinted?
    ensures HeardLocal(Do(w, step), step.s, start)
  {
    assert HeardLocal(w, step.s, start);
    hide Heard;
  }

  lemma HeardInPhaseOne(w: World, step: Step, start: set<KeyId>)
    requires Heard(w, start) && Enabled(w, step) && PhaseOne(step) && !step.DropStale? && !step.SaveMinted?
    ensures HeardLocal(Do(w, step), step.s, start)
  {
    assert HeardLocal(w, step.s, start);
    hide Heard;
  }

  lemma HeardThroughDrop(w: World, step: Step, start: set<KeyId>)
    requires Heard(w, start) && Enabled(w, step) && (step.DropNew? || step.DropOld?)
    ensures HeardLocal(Do(w, step), step.s, start)
  {
    assert HeardLocal(w, step.s, start);
    assert step.DropNew? ==> w.JobOf(step.s).Undo?;
    assert step.DropOld? ==> w.JobOf(step.s).Retiring?;
    DropMoves(w, step);
    hide Heard, Do, Enabled;
  }

  lemma HeardThroughVerified(w: World, step: Step, start: set<KeyId>)
    requires Heard(w, start) && Enabled(w, step) && step.RecordVerified?
    ensures HeardLocal(Do(w, step), step.s, start)
  {
    assert HeardLocal(w, step.s, start);
    hide Heard;
  }

  lemma HeardInPhaseTwo(w: World, step: Step, start: set<KeyId>)
    requires Heard(w, start) && Enabled(w, step) && InRun(step) && !PhaseOne(step) && !step.DropNew? && !step.DropOld? && !step.RecordVerified?
    ensures HeardLocal(Do(w, step), step.s, start)
  {
    assert HeardLocal(w, step.s, start);
    hide Heard;
  }

  /** The list grows only by keys the handler names. */
  lemma ListedAreHeard(w: World, step: Step, start: set<KeyId>)
    requires Heard(w, start) && Enabled(w, step) && InRun(step)
    ensures forall i | 0 <= i < |Do(w, step).mem.leftovers| :: Do(w, step).mem.leftovers[i] in start + w.known
  {
    assert HeardLocal(w, step.s, start);
  }

  lemma HeardKept(w: World, step: Step, start: set<KeyId>)
    requires Heard(w, start) && Enabled(w, step) && InRun(step)
    ensures Heard(Do(w, step), start)
  {
    ListedAreHeard(w, step, start);
    KnownGrows(w, step);
    hide Do, Enabled, HeardLocal, Heard;
    var w' := Do(w, step);
    forall s ensures HeardLocal(w', s, start) {
      if s != step.s {
        HeardElsewhere(w, step, start, s);
      } else if step.DropStale? {
        HeardThroughStale(w, step, start);
      } else if step.SaveMinted? {
        HeardThroughMint(w, step, start);
      } else if PhaseOne(step) {
        HeardInPhaseOne(w, step, start);
      } else if step.DropNew? || step.DropOld? {
        HeardThroughDrop(w, step, start);
      } else if step.RecordVerified? {
        HeardThroughVerified(w, step, start);
      } else {
        HeardInPhaseTwo(w, step, start);
      }
    }
  }

  lemma {:induction false} HeardThrough(w: World, run: seq<Step>, start: set<KeyId>)
    requires Heard(w, start) && Possible(w, run) && WholeRun(run)
    ensures Heard(After(w, run), start)
    decreases |run|
  {
    if run != [] {
      HeardKept(w, run[0], start);
      hide Heard, Do, Enabled;
      HeardThrough(Do(w, run[0]), run[1..], start);
    }
  }

  lemma HeardAtStart(w: World)
    requires Inv(w) && Quiet(w) && forall i | 0 <= i < |w.mem.leftovers| :: w.mem.leftovers[i] in w.owner
    ensures Heard(w, w.owner.Keys)
  {
    forall s ensures HeardLocal(w, s, w.owner.Keys) {
      assert w.JobOf(s).Idle?;
      assert s in w.mem.keys ==> RecordSound(w, s, w.mem.keys[s]);
    }
  }

  /**
   Exactly which keys are remembered: when a handler that no crash interrupted has finished, a key made
   in the run that still exists is on its server's record or listed for a person if and only if the
   provider's answer to the mint reached Dash.
   */
  lemma RememberedExactlyWhenHeard(w: World, run: seq<Step>, k: KeyId)
    requires Inv(w) && Quiet(w) && Possible(w, run) && WholeRun(run) && Quiet(After(w, run))
    requires forall i | 0 <= i < |w.mem.leftovers| :: w.mem.leftovers[i] in w.owner
    requires k in After(w, run).owner && k !in w.owner && k in After(w, run).provider
    ensures Named(After(w, run), k) <==> k in After(w, run).known
  {
    NoKeyForgotten(w, run);
    HeardAtStart(w);
    HeardThrough(w, run, w.owner.Keys);
    var end := After(w, run);
    assert HeardLocal(end, end.owner[k], w.owner.Keys);
    assert k !in w.known by { assert w.known <= w.owner.Keys; }
    hide Inv, Possible, After, Quiet, WholeRun, HeardLocal;
    if Named(end, k) && k !in end.known {
      HeardNames(end, k, w.owner.Keys);
    }
  }

  lemma HeardNames(w: World, k: KeyId, start: set<KeyId>)
    requires Heard(w, start) && k in w.owner && Named(w, k)
    ensures k in start + w.known
  {
    assert HeardLocal(w, w.owner[k], start);
  }

  /** A first run whose one mint is made and not answered: the key exists and nothing of Dash's names it. */
  lemma UnheardKeyIsForgotten(w: World, s: ServerName, place: Place, k: KeyId)
    requires NoKeysYet(w) && w.mem.leftovers == []
    ensures var run := [Begin(s, place, false), MintUnheard(s, k)];
      && Possible(w, run) && WholeRun(run) && Quiet(After(w, run))
      && k in After(w, run).provider && k in After(w, run).owner && !Named(After(w, run), k)
  {
    var begin, mint := Begin(s, place, false), MintUnheard(s, k);
    var w1 := Do(w, begin);
    assert w1 == w.At(s, ToMint(place, None));
    var w2 := Do(w1, mint);
    assert forall t :: w2.JobOf(t).Idle?;
    assert !Named(w2, k) && k in w2.provider && Quiet(w2);
    hide Do, Enabled, Named, Quiet;
    Nowhere(w2);
    Leads(w1, mint, []);
    Leads(w, begin, [mint]);
    assert [mint] + [] == [mint] && [begin] + [mint] == [begin, mint];
    hide Possible, After;
  }
}
