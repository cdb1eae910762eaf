/**
 What a record marked verified promises: its server holds that key at that place, unless a person has set
 the server's target since. A run skips such servers, so the promise has to survive crashes and lost saves;
 it does exactly as long as no push lands over a saved record that still says verified of another key.
 */
module KeyTruth {
  import opened Wrappers
  import opened KeyRotation
  import opened KeySafety

  /** If this record says verified, the server holds its key there, or has a target Dash did not set. */
  predicate Says(w: World, s: ServerName, rec: Option<KeyRecord>) {
    rec.Some? && rec.value.state.Verified? ==>
      w.TargetOf(s).Foreign? || (rec.value.keyId.Some? && w.TargetOf(s) == Own(rec.value.keyId.value, rec.value.place))
  }

  predicate Unverified(rec: Option<KeyRecord>) { rec.Some? ==> !rec.value.state.Verified? }

  /** The record of a key on its way to the server. */
  predicate Working(rec: Option<KeyRecord>, key: KeyId, place: Place) {
    rec.Some? && rec.value.keyId == Some(key) && rec.value.place == place && !rec.value.state.Verified?
  }

  function Saved(w: World, s: ServerName): Option<KeyRecord> { if s in w.disk.keys then Some(w.disk.keys[s]) else None }

  predicate JobTrue(w: World, s: ServerName, job: Job) {
    match job
    case Idle => true
    case Retiring(_, _) => true
    case Stale(_, _) => true
    case ToMint(_, prev) => Says(w, s, prev)
    case ToSave(_, _, prev) => Says(w, s, prev)
    case Probing(place, key, prev) => Says(w, s, prev) && Working(RecordOf(w, s), key, place)
    case Pending(place, key, prev) => Says(w, s, prev) && Working(RecordOf(w, s), key, place)
    case AtPush(place, key, prev) => Says(w, s, prev) && Working(RecordOf(w, s), key, place)
    case Replied(place, key, prev, acked) =>
      && Working(RecordOf(w, s), key, place)
      && (acked ==> w.TargetOf(s).Foreign? || w.TargetOf(s) == Own(key, place))
      && (Says(w, s, prev) || w.TargetOf(s) == Own(key, place))
    case Undo(_, prev) => Says(w, s, prev) && Unverified(RecordOf(w, s))
    case Restoring(prev) => Says(w, s, prev) && Unverified(RecordOf(w, s))
  }

  /** What is said of `s`, by the record in memory, the saved one, and the handler. */
  predicate TrueOf(w: World, s: ServerName) {
    Says(w, s, RecordOf(w, s)) && Says(w, s, Saved(w, s)) && JobTrue(w, s, w.JobOf(s))
  }

  ghost predicate True(w: World) { forall s :: TrueOf(w, s) }

  /** The saved record of the server does not say verified of another key or place. */
  predicate Honest(w: World, s: ServerName)
    requires w.JobOf(s).AtPush?
  {
    var rec := Saved(w, s);
    rec.Some? && rec.value.state.Verified? ==> rec.value.keyId == Some(w.JobOf(s).key) && rec.value.place == w.JobOf(s).place
  }

  predicate HonestStep(w: World, step: Step)
    requires Enabled(w, step)
  {
    step.PushCall? && step.applied ==> Honest(w, step.s)
  }

  /** The step of one server leaves another's record, job and target, and its saved record is as saved before or as in memory. */
  ghost predicate LeftThere(w: World, w': World, t: ServerName) {
    && RecordOf(w', t) == RecordOf(w, t) && w'.JobOf(t) == w.JobOf(t) && w'.TargetOf(t) == w.TargetOf(t)
    && (Saved(w', t) == Saved(w, t) || Saved(w', t) == RecordOf(w, t))
  }

  lemma LeavesThere(w: World, step: Step, t: ServerName)
    requires Enabled(w, step) && !step.Crash? && t != step.s
    ensures LeftThere(w, Do(w, step), t)
  {
    hide LeftThere;
    if step.DropStale? || step.DropNew? || step.DropOld? {
      DropsLeave(w, step, t);
    } else if PhaseOne(step) {
      PhaseOneLeaves(w, step, t);
    } else {
      PhaseTwoLeaves(w, step, t);
    }
  }

  lemma PhaseOneLeaves(w: World, step: Step, t: ServerName)
    requires Enabled(w, step) && PhaseOne(step) && !step.DropStale? && t != step.s
    ensures LeftThere(w, Do(w, step), t)
  {
    hide Dropped;
  }

  lemma PhaseTwoLeaves(w: World, step: Step, t: ServerName)
    requires Enabled(w, step) && !step.Crash? && !PhaseOne(step) && !step.DropNew? && !step.DropOld? && t != step.s
    ensures LeftThere(w, Do(w, step), t)
  {
    if Records(step) {
      RecordsLeave(w, step, t);
    } else {
      hide Dropped;
    }
  }

  predicate Records(step: Step) {
    step.Restore? || step.MarkPushing? || step.RecordVerified? || step.RecordPushed? || step.RecordAmbiguous?
  }

  lemma RecordsLeave(w: World, step: Step, t: ServerName)
    requires Enabled(w, step) && Records(step) && t != step.s
    ensures LeftThere(w, Do(w, step), t)
  {
    var job := w.JobOf(step.s);
    hide Dropped, LeftThere;
    match step
    case Restore(s, landed) => RecordedLeaves(w, s, job.prev, landed, Idle, t);
    case MarkPushing(s, landed) => RecordedLeaves(w, s, Some(w.mem.keys[s].(state := Pushing)), landed, AtPush(job.place, job.key, job.prev), t);
    case RecordVerified(s, landed) =>
      RecordedLeaves(w, s, Some(w.mem.keys[s].(state := Verified, older := [])), landed, Retiring(job.key, w.mem.keys[s].older), t);
    case RecordPushed(s, landed) => RecordedLeaves(w, s, Some(w.mem.keys[s].(state := Pushed)), landed, Idle, t);
    case RecordAmbiguous(s, landed) => RecordedLeaves(w, s, Some(w.mem.keys[s].(state := Ambiguous)), landed, Idle, t);
  }

  lemma RecordedLeaves(w: World, s: ServerName, rec: Option<KeyRecord>, landed: bool, job: Job, t: ServerName)
    requires t != s
    ensures LeftThere(w, w.WithRecord(s, rec).Saved(landed).At(s, job), t)
  {}

  lemma DroppedLeaves(w: World, k: KeyId, reply: Delete, landed: bool)
    ensures var w' := Dropped(w, k, reply, landed);
      w'.mem.keys == w.mem.keys && w'.jobs == w.jobs && w'.targets == w.targets && (w'.disk == w.disk || w'.disk.keys == w.mem.keys)
  {}

  lemma DropsLeave(w: World, step: Step, t: ServerName)
    requires Enabled(w, step) && (step.DropStale? || step.DropNew? || step.DropOld?) && t != step.s
    ensures LeftThere(w, Do(w, step), t)
  {
    var job := w.JobOf(step.s);
    if step.DropNew? {
      DroppedLeaves(w, job.key, step.reply, step.landed);
    } else if step.DropStale? {
      if job.stale.keyId.Some? { DroppedLeaves(w, job.stale.keyId.value, step.reply, step.landed); }
    } else if job.due != [] {
      DroppedLeaves(w, job.due[0], step.reply, step.landed);
    }
    hide Dropped;
  }

  lemma TrueThere(w: World, w': World, t: ServerName)
    requires TrueOf(w, t) && LeftThere(w, w', t)
    ensures TrueOf(w', t)
  {}

  lemma DropsTell(w: World, step: Step)
    requires Enabled(w, step) && (step.DropStale? || step.DropNew? || step.DropOld?) && TrueOf(w, step.s)
    ensures TrueOf(Do(w, step), step.s)
  {
    var job := w.JobOf(step.s);
    if step.DropNew? {
      DroppedLeaves(w, job.key, step.reply, step.landed);
    } else if step.DropStale? {
      if job.stale.keyId.Some? { DroppedLeaves(w, job.stale.keyId.value, step.reply, step.landed); }
    } else if job.due != [] {
      DroppedLeaves(w, job.due[0], step.reply, step.landed);
    }
    hide Dropped;
  }

  lemma PhaseOneTells(w: World, step: Step)
    requires Enabled(w, step) && !step.Crash? && PhaseOne(step) && !step.DropStale? && TrueOf(w, step.s)
    ensures TrueOf(Do(w, step), step.s)
  {
    hide Dropped;
  }

  lemma PhaseTwoTells(w: World, step: Step)
    requires Enabled(w, step) && !step.Crash? && !PhaseOne(step) && !step.DropNew? && !step.DropOld?
    requires HonestStep(w, step) && TrueOf(w, step.s)
    ensures TrueOf(Do(w, step), step.s)
  {
    hide Dropped;
  }

  lemma TruthKept(w: World, step: Step)
    requires True(w) && Enabled(w, step) && HonestStep(w, step)
    ensures True(Do(w, step))
  {
    var w' := Do(w, step);
    forall s ensures TrueOf(w', s) {
      assert TrueOf(w, s);
      hide True;
      if step.Crash? {
        hide JobTrue;
        assert RecordOf(w', s) == Saved(w, s) && Saved(w', s) == Saved(w, s) && w'.TargetOf(s) == w.TargetOf(s) && w'.JobOf(s).Idle?;
        hide Do, Enabled;
        assert JobTrue(w', s, Idle) by { JobIdle(w', s); }
      } else {
        hide Do, Enabled, TrueOf;
        if s != step.s {
          LeavesThere(w, step, s);
          TrueThere(w, w', s);
        } else if step.DropStale? || step.DropNew? || step.DropOld? {
          DropsTell(w, step);
        } else if PhaseOne(step) {
          PhaseOneTells(w, step);
        } else {
          PhaseTwoTells(w, step);
        }
      }
    }
  }

  lemma JobIdle(w: World, s: ServerName)
    ensures JobTrue(w, s, Idle)
  {}

  /** Every push that lands in the run lands over a saved record that does not say verified of another key. */
  ghost predicate AllHonest(w: World, run: seq<Step>)
    requires Possible(w, run)
    decreases |run|
  {
    run == [] || (HonestStep(w, run[0]) && AllHonest(Do(w, run[0]), run[1..]))
  }

  lemma {:induction false} TruthThroughout(w: World, run: seq<Step>)
    requires True(w) && Possible(w, run) && AllHonest(w, run)
    ensures True(After(w, run))
    decreases |run|
  {
    if run != [] {
      TruthKept(w, run[0]);
      hide True, Do, Enabled, HonestStep;
      TruthThroughout(Do(w, run[0]), run[1..]);
    }
  }

  /**
   Verified is true: over any run from a Dash that has made no key, with servers interleaved, saves lost
   and crashes anywhere, a record that says verified names the key and place its server holds, or the
   server has a target Dash did not set; provided no push lands over a saved record that says verified.
   */
  lemma VerifiedIsTrue(w: World, run: seq<Step>, s: ServerName)
    requires NoKeysYet(w) && Possible(w, run) && AllHonest(w, run)
    ensures var end := After(w, run);
      s in end.mem.keys && end.mem.keys[s].state.Verified? ==>
        end.TargetOf(s).Foreign?
        || (end.mem.keys[s].keyId.Some? && end.TargetOf(s) == Own(end.mem.keys[s].keyId.value, end.mem.keys[s].place))
  {
    assert True(w);
    TruthThroughout(w, run);
    assert TrueOf(After(w, run), s);
    hide Possible, After, AllHonest, True, JobTrue;
  }

  /**
   The condition is exact: a push that lands, followed by a restart, leaves the truth told of its server if
   and only if the saved record did not say verified of another key or place. Otherwise later runs skip the
   server, whose key is on no record.
   */
  lemma TruthSurvivesRestartExactlyWhen(w: World, s: ServerName, acked: bool)
    requires True(w) && w.JobOf(s).AtPush?
    ensures Enabled(w, PushCall(s, acked, true)) && Enabled(Do(w, PushCall(s, acked, true)), Crash)
    ensures var end := Do(Do(w, PushCall(s, acked, true)), Crash);
      Says(end, s, RecordOf(end, s)) <==> Honest(w, s)
  {
    var w1 := Do(w, PushCall(s, acked, true));
    var end := Do(w1, Crash);
    assert RecordOf(end, s) == Saved(w, s) && end.TargetOf(s) == Own(w.JobOf(s).key, w.JobOf(s).place);
  }

  // ---------------------------------------------------------------- a run in which it is lost

  /** The server holds a verified key, and everything is saved. */
  predicate AtRest(w: World, s: ServerName, place: Place, k: KeyId) {
    && w.JobOf(s).Idle? && RecordOf(w, s) == Some(KeyRecord(Some(k), place, Verified, [])) && w.disk == w.mem
    && w.TargetOf(s) == Own(k, place) && w.owner.Keys == {k}
  }

  /** At its push with the key proved; `saved` is what the saved record says of the server. */
  predicate AboutToPush(w: World, s: ServerName, place: Place, k: KeyId, saved: Option<KeyRecord>) {
    && w.JobOf(s).AtPush? && w.JobOf(s).key == k && w.JobOf(s).place == place && Saved(w, s) == saved
    && s in w.mem.keys && w.mem.keys[s].keyId == Some(k) && w.mem.keys[s].place == place && w.mem.keys[s].state.Pushing?
  }

  /** Making, proving and marking a key; either both of its saves land or neither does. */
  function Making(s: ServerName, place: Place, k: KeyId, landed: bool): seq<Step> {
    [Begin(s, place, true)] + ([MintOk(s, k)] + ([SaveMinted(s, landed)] + ([ProbePassed(s)] + ([MarkPushing(s, landed)] + []))))
  }

  function Verifying(s: ServerName): seq<Step> {
    [PushCall(s, true, true)] + ([RecordVerified(s, true)] + ([DropOld(s, Delete(false, false), true)] + []))
  }

  function Losing(s: ServerName): seq<Step> { [PushCall(s, true, true)] + ([Crash] + []) }

  lemma {:induction false} Joins(w: World, a: seq<Step>, b: seq<Step>)
    requires Possible(w, a) && Possible(After(w, a), b)
    ensures Possible(w, a + b) && After(w, a + b) == After(After(w, a), b)
    decreases |a|
  {
    hide Do, Enabled;
    if a == [] {
      assert a + b == b;
    } else {
      Joins(Do(w, a[0]), a[1..], b);
      assert (a + b)[1..] == a[1..] + b;
    }
  }

  /** Minted, recorded and proved. */
  predicate Proved(w: World, s: ServerName, place: Place, k: KeyId, prev: Option<KeyRecord>) {
    w.JobOf(s) == Pending(place, k, prev) && RecordOf(w, s) == Some(MintedRecord(place, k, prev))
  }

  lemma ProvingSteps(w: World, s: ServerName, place: Place, k: KeyId, landed: bool) returns (w1: World, w2: World, w3: World, w4: World)
    requires w.JobOf(s).Idle? && k !in w.owner && w.disk == w.mem && (s in w.mem.keys ==> w.mem.keys[s].state.Verified?)
    ensures Taken(w, Begin(s, place, true)) == Some(w1) && Taken(w1, MintOk(s, k)) == Some(w2)
    ensures Taken(w2, SaveMinted(s, landed)) == Some(w3) && Taken(w3, ProbePassed(s)) == Some(w4)
    ensures Proved(w4, s, place, k, RecordOf(w, s)) && w4.disk == (if landed then w4.mem else w.disk)
    ensures w4.owner == w.owner[k := s]
  {
    var prev := RecordOf(w, s);
    w1 := Do(w, Begin(s, place, true));
    assert w1 == w.At(s, ToMint(place, prev));
    w2 := Do(w1, MintOk(s, k));
    assert w2.JobOf(s) == ToSave(place, k, prev) && w2.mem == w.mem && w2.disk == w.disk;
    w3 := Do(w2, SaveMinted(s, landed));
    assert w3.JobOf(s) == Probing(place, k, prev);
    w4 := w3.At(s, Pending(place, k, prev));
  }

  lemma MarkingStep(w: World, s: ServerName, place: Place, k: KeyId, prev: Option<KeyRecord>, landed: bool) returns (w1: World)
    requires Proved(w, s, place, k, prev)
    ensures Taken(w, MarkPushing(s, landed)) == Some(w1)
    ensures AboutToPush(w1, s, place, k, if landed then RecordOf(w1, s) else Saved(w, s)) && w1.owner == w.owner
    ensures landed && prev.None? ==> w1.mem.keys[s].older == [] && w1.disk == w1.mem
  {
    w1 := Do(w, MarkPushing(s, landed));
  }

  lemma SavedAs(w: World, w': World, s: ServerName)
    ensures w'.disk == w.disk ==> Saved(w', s) == Saved(w, s)
  {}

  lemma Makes(w: World, s: ServerName, place: Place, k: KeyId, landed: bool)
    requires w.JobOf(s).Idle? && k !in w.owner && w.disk == w.mem && (s in w.mem.keys ==> w.mem.keys[s].state.Verified?)
    ensures Possible(w, Making(s, place, k, landed))
    ensures var w' := After(w, Making(s, place, k, landed));
      && AboutToPush(w', s, place, k, if landed then RecordOf(w', s) else Saved(w, s))
      && w'.owner == w.owner[k := s] && (landed && s !in w.mem.keys ==> w'.mem.keys[s].older == [] && w'.disk == w'.mem)
  {
    var a, b, c, d, e := Begin(s, place, true), MintOk(s, k), SaveMinted(s, landed), ProbePassed(s), MarkPushing(s, landed);
    assert Making(s, place, k, landed) == [a] + ([b] + ([c] + ([d] + ([e] + []))));
    var prev := RecordOf(w, s);
    var w1, w2, w3, w4 := ProvingSteps(w, s, place, k, landed);
    var w5 := MarkingStep(w4, s, place, k, prev, landed);
    SavedAs(w, w4, s);
    assert s !in w.mem.keys ==> prev.None?;
    hide *;
    Nowhere(w5);
    LeadsTo(w4, e, w5, []);
    LeadsTo(w3, d, w4, [e] + []);
    LeadsTo(w2, c, w3, [d] + ([e] + []));
    LeadsTo(w1, b, w2, [c] + ([d] + ([e] + [])));
    LeadsTo(w, a, w1, [b] + ([c] + ([d] + ([e] + []))));
  }

  lemma PushAndRecord(w: World, s: ServerName, place: Place, k: KeyId) returns (w1: World, w2: World)
    requires AboutToPush(w, s, place, k, RecordOf(w, s)) && w.mem.keys[s].older == [] && w.owner.Keys == {k}
    ensures Taken(w, PushCall(s, true, true)) == Some(w1) && Taken(w1, RecordVerified(s, true)) == Some(w2)
    ensures w2.JobOf(s) == Retiring(k, []) && RecordOf(w2, s) == Some(KeyRecord(Some(k), place, Verified, [])) && w2.disk == w2.mem
    ensures w2.TargetOf(s) == Own(k, place) && w2.owner.Keys == {k}
  {
    w1 := Do(w, PushCall(s, true, true));
    assert w1.JobOf(s).Replied? && w1.JobOf(s).acked && w1.JobOf(s).key == k && w1.mem == w.mem && w1.TargetOf(s) == Own(k, place);
    w2 := Do(w1, RecordVerified(s, true));
  }

  lemma Rests(w: World, s: ServerName, place: Place, k: KeyId) returns (w1: World)
    requires w.JobOf(s) == Retiring(k, []) && RecordOf(w, s) == Some(KeyRecord(Some(k), place, Verified, [])) && w.disk == w.mem
    requires w.TargetOf(s) == Own(k, place) && w.owner.Keys == {k}
    ensures Taken(w, DropOld(s, Delete(false, false), true)) == Some(w1) && AtRest(w1, s, place, k)
  {
    w1 := w.At(s, Idle);
  }

  lemma Verifies(w: World, s: ServerName, place: Place, k: KeyId)
    requires AboutToPush(w, s, place, k, RecordOf(w, s)) && w.mem.keys[s].older == [] && w.owner.Keys == {k}
    ensures Possible(w, Verifying(s)) && AtRest(After(w, Verifying(s)), s, place, k)
  {
    var a, b, c := PushCall(s, true, true), RecordVerified(s, true), DropOld(s, Delete(false, false), true);
    assert Verifying(s) == [a] + ([b] + ([c] + []));
    var w1, w2 := PushAndRecord(w, s, place, k);
    var w3 := Rests(w2, s, place, k);
    hide *;
    Nowhere(w3);
    LeadsTo(w2, c, w3, []);
    LeadsTo(w1, b, w2, [c] + []);
    LeadsTo(w, a, w1, [b] + ([c] + []));
  }

  lemma Loses(w: World, s: ServerName, place: Place, k: KeyId, saved: Option<KeyRecord>)
    requires AboutToPush(w, s, place, k, saved)
    ensures Possible(w, Losing(s))
    ensures var end := After(w, Losing(s)); RecordOf(end, s) == saved && end.TargetOf(s) == Own(k, place) && end.JobOf(s).Idle?
  {
    var a, b := PushCall(s, true, true), Crash;
    assert Losing(s) == [a] + ([b] + []);
    var w1 := Do(w, a);
    var w2 := Do(w1, b);
    hide Possible, After;
    Nowhere(w2);
    Leads(w1, b, []);
    Leads(w, a, [b] + []);
  }

  /**
   A run that loses it: a key is rotated in, verified and saved; the next rotation's saves are lost, its push
   lands, and Dash restarts. The record says verified of the first key, and the server holds the second.
   */
  lemma LostSavesMislead(w: World, s: ServerName, place: Place, first: KeyId, second: KeyId)
    requires NoKeysYet(w) && w.mem.leftovers == w.disk.leftovers && first != second
    ensures var run := Making(s, place, first, true) + Verifying(s) + Making(s, place, second, false) + Losing(s);
      && Possible(w, run)
      && RecordOf(After(w, run), s) == Some(KeyRecord(Some(first), place, Verified, []))
      && After(w, run).TargetOf(s) == Own(second, place) && After(w, run).JobOf(s).Idle?
  {
    var a, b, c, d := Making(s, place, first, true), Verifying(s), Making(s, place, second, false), Losing(s);
    assert w.disk == w.mem && w.JobOf(s).Idle? && s !in w.mem.keys && w.owner == map[];
    hide Making, Verifying, Losing, Possible, After, NoKeysYet, Do, Enabled;
    Makes(w, s, place, first, true);
    Verifies(After(w, a), s, place, first);
    Joins(w, a, b);
    Makes(After(w, a + b), s, place, second, false);
    Joins(w, a + b, c);
    Loses(After(w, a + b + c), s, place, second, Saved(After(w, a + b), s));
    Joins(w, a + b + c, d);
  }
}
