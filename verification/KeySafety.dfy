/**
 Key rotation is safe over whole runs: what is deleted, why, and exactly which lost save can cost a server
 its key.
 */
module KeySafety {
  import opened Wrappers
  import opened KeyRotation

  /** Each step can be taken where the run has got to. */
  ghost predicate Possible(w: World, run: seq<Step>)
    decreases |run|
  {
    run == [] || (Enabled(w, run[0]) && Possible(Do(w, run[0]), run[1..]))
  }

  ghost function After(w: World, run: seq<Step>): World
    requires Possible(w, run)
    decreases |run|
  {
    if run == [] then w else After(Do(w, run[0]), run[1..])
  }

  lemma Nowhere(w: World)
    ensures Possible(w, []) && After(w, []) == w
  {}

  /** A run with one more step before it. */
  lemma Leads(w: World, step: Step, rest: seq<Step>)
    requires Enabled(w, step) && Possible(Do(w, step), rest)
    ensures Possible(w, [step] + rest) && After(w, [step] + rest) == After(Do(w, step), rest)
  {
    assert ([step] + rest)[1..] == rest;
  }

  /** Every landed push in the run follows a save that landed. */
  ghost predicate AllDurable(w: World, run: seq<Step>)
    requires Possible(w, run)
    decreases |run|
  {
    run == [] || (Durable(w, run[0]) && AllDurable(Do(w, run[0]), run[1..]))
  }

  /** Some server's live key goes at the provider while that server holds it. */
  ghost predicate CutsOff(w: World, step: Step)
    requires Enabled(w, step)
  {
    exists s, k :: w.Holds(s, k) && k in w.provider && k !in Do(w, step).provider
  }

  ghost predicate NeverCutsOff(w: World, run: seq<Step>)
    requires Possible(w, run)
    decreases |run|
  {
    run == [] || (!CutsOff(w, run[0]) && NeverCutsOff(Do(w, run[0]), run[1..]))
  }

  /** Why a key may go: it never landed, or a person has pointed the server elsewhere since, or
      the server holds a newer key whose push this operation saw succeed and verify. */
  ghost predicate Justified(w: World, k: KeyId) {
    && k in w.owner
    && var s := w.owner[k];
    || k !in w.reached
    || w.TargetOf(s).Foreign?
    || (&& w.JobOf(s).Retiring? && k in w.JobOf(s).due
        && w.Holds(s, w.JobOf(s).key) && w.JobOf(s).key != k
        && s in w.mem.keys && w.mem.keys[s].keyId == Some(w.JobOf(s).key) && w.mem.keys[s].state.Verified?)
  }

  /** Only three steps delete, and each one key of its job's. */
  lemma WhatGoes(w: World, step: Step, k: KeyId)
    requires Enabled(w, step) && k in w.provider && k !in Do(w, step).provider
    ensures step.DropStale? || step.DropNew? || step.DropOld?
    ensures step.DropStale? ==> w.JobOf(step.s).Stale? && w.JobOf(step.s).stale.keyId == Some(k)
    ensures step.DropNew? ==> w.JobOf(step.s).Undo? && w.JobOf(step.s).key == k
    ensures step.DropOld? ==> w.JobOf(step.s).Retiring? && w.JobOf(step.s).due != [] && w.JobOf(step.s).due[0] == k
  {}

  lemma DeletionsJustified(w: World, step: Step)
    requires Inv(w) && Enabled(w, step)
    ensures forall k | k in w.provider && k !in Do(w, step).provider :: Justified(w, k) && forall t :: !w.Holds(t, k)
  {
    forall k | k in w.provider && k !in Do(w, step).provider
      ensures Justified(w, k) && forall t :: !w.Holds(t, k)
    {
      WhatGoes(w, step, k);
      hide Do, Enabled;
      var s := step.s;
      assert JobSound(w, s, w.JobOf(s));
      assert step.DropStale? ==> k in Refs(w.JobOf(s).stale);
      assert k in w.owner && w.owner[k] == s;
      assert s in w.targets ==> TargetSound(w, s);
      forall t ensures !w.Holds(t, k) {
        assert t in w.targets ==> TargetSound(w, t);
      }
    }
  }

  /**
   Key rotation is safe: over any number of runs and rotations, with servers interleaved in any
   way, every outcome of mint, probe, push and verify, any other save lost, and crashes between
   any two steps, no server's current key is ever deleted.
   */
  lemma {:induction false} HeldKeysSurvive(w: World, run: seq<Step>)
    requires Inv(w) && Possible(w, run) && AllDurable(w, run)
    ensures NeverCutsOff(w, run)
    ensures Inv(After(w, run))
    ensures forall s, k :: After(w, run).Holds(s, k) ==> k in After(w, run).provider
    decreases |run|
  {
    if run == [] {
      forall s, k | w.Holds(s, k) ensures k in w.provider {
        assert TargetSound(w, s);
      }
    } else {
      DeletionsJustified(w, run[0]);
      InvKept(w, run[0]);
      HeldKeysSurvive(Do(w, run[0]), run[1..]);
    }
  }

  /** Dash has made no key yet; servers may hold targets it did not make. */
  ghost predicate NoKeysYet(w: World) {
    && w.mem.keys == map[] && w.disk.keys == map[] && w.jobs == map[]
    && w.owner == map[] && w.provider == {} && w.known == {} && w.reached == {}
    && forall s <- w.targets :: !w.targets[s].Own?
  }

  lemma SafeFromTheStart(w: World, run: seq<Step>)
    requires NoKeysYet(w) && Possible(w, run) && AllDurable(w, run)
    ensures NeverCutsOff(w, run)
  {
    assert Inv(w);
    hide NoKeysYet, Inv, Possible, AllDurable, NeverCutsOff;
    HeldKeysSurvive(w, run);
  }

  /** Where a push that lands without a saved "pushing" record leads: restart, and begin again. */
  function RestartRun(s: ServerName, acked: bool, place: Place): seq<Step> {
    [PushCall(s, acked, true), Crash, Begin(s, place, false), DropStale(s, Delete(true, true), true)]
  }

  /**
   Exactly when a landing push is safe: whatever follows it keeps every held key, if and only if
   the saved record no longer calls the pushed key merely minted. The code does not check that the
   save before the push landed, so a lost save there can cost a server its key.
   */
  lemma PushSafeExactlyWhenSaved(w: World, s: ServerName, acked: bool)
    requires Inv(w) && w.JobOf(s).AtPush?
    ensures PushDurable(w, s) <==>
      (forall run | Possible(w, [PushCall(s, acked, true)] + run)
         && AllDurable(Do(w, PushCall(s, acked, true)), run) ::
         NeverCutsOff(w, [PushCall(s, acked, true)] + run))
  {
    var push := PushCall(s, acked, true);
    if PushDurable(w, s) {
      forall run | Possible(w, [push] + run) && AllDurable(Do(w, push), run)
        ensures NeverCutsOff(w, [push] + run)
      {
        assert ([push] + run)[1..] == run;
        HeldKeysSurvive(w, [push] + run);
      }
    } else {
      LostSaveCutsOff(w, s, acked, w.JobOf(s).place);
      var whole := RestartRun(s, acked, w.JobOf(s).place);
      assert whole == [push] + whole[1..];
      assert AllDurable(Do(w, push), whole[1..]);
    }
  }

  /** A run that cuts a server off still does with a step before it. */
  lemma Prefixed(w: World, step: Step, run: seq<Step>)
    requires Enabled(w, step) && Possible(Do(w, step), run)
    requires CutsOff(w, step) || !NeverCutsOff(Do(w, step), run)
    ensures Possible(w, [step] + run) && !NeverCutsOff(w, [step] + run)
    ensures Durable(w, step) && AllDurable(Do(w, step), run) ==> AllDurable(w, [step] + run)
  {
    assert ([step] + run)[1..] == run;
  }

  function Restarted(w: World, s: ServerName, acked: bool): World
    requires w.JobOf(s).AtPush?
  {
    Do(Do(w, PushCall(s, acked, true)), Crash)
  }

  /** After the restart, the next run takes the pushed key for one that never left Dash. */
  lemma RestartReaches(w: World, s: ServerName, acked: bool, place: Place)
    requires w.JobOf(s).AtPush? && !PushDurable(w, s) && w.JobOf(s).key in w.provider
    ensures Enabled(w, RestartRun(s, acked, place)[0])
    ensures Enabled(Do(w, RestartRun(s, acked, place)[0]), Crash)
    ensures Enabled(Restarted(w, s, acked), RestartRun(s, acked, place)[2])
    ensures Enabled(Do(Restarted(w, s, acked), RestartRun(s, acked, place)[2]), RestartRun(s, acked, place)[3])
    ensures CutsOff(Do(Restarted(w, s, acked), RestartRun(s, acked, place)[2]), RestartRun(s, acked, place)[3])
  {
    var run, k := RestartRun(s, acked, place), w.JobOf(s).key;
    var w1 := Do(w, run[0]);
    var w2 := Do(w1, run[1]);
    assert w2.JobOf(s).Idle? && w2.mem == w.disk && w2.Holds(s, k);
    var w3 := Do(w2, run[2]);
    assert w3.JobOf(s).Stale? && w3.JobOf(s).stale.keyId == Some(k) && w3.Holds(s, k);
    assert k !in Do(w3, run[3]).provider;
  }

  /** The witness for the other half: the restarted run deletes the key the server now holds. */
  lemma LostSaveCutsOff(w: World, s: ServerName, acked: bool, place: Place)
    requires Inv(w) && w.JobOf(s).AtPush? && !PushDurable(w, s)
    ensures Possible(w, RestartRun(s, acked, place))
    ensures AllDurable(Do(w, PushCall(s, acked, true)), RestartRun(s, acked, place)[1..])
    ensures !NeverCutsOff(w, RestartRun(s, acked, place))
  {
    var run := RestartRun(s, acked, place);
    assert JobSound(w, s, w.JobOf(s));
    RestartReaches(w, s, acked, place);
    hide Inv, Do, Enabled, CutsOff, JobSound;
    var w1 := Do(w, run[0]);
    var w2 := Do(w1, run[1]);
    assert w2 == Restarted(w, s, acked);
    var w3 := Do(w2, run[2]);
    var t3 := [run[3]] + [];
    var t2 := [run[2]] + t3;
    var t1 := [run[1]] + t2;
    assert run == [run[0]] + t1 && run[1..] == t1;
    Prefixed(w3, run[3], []);
    Prefixed(w2, run[2], t3);
    Prefixed(w1, run[1], t2);
    Prefixed(w, run[0], t1);
  }

  /** A first run in which the save before the push is lost. */
  function UnsavedRun(s: ServerName, place: Place, k: KeyId): seq<Step> {
    [Begin(s, place, false), MintOk(s, k), SaveMinted(s, true), ProbePassed(s), MarkPushing(s, false)]
  }

  /** Minted, saved and at its test. */
  predicate AtTest(w: World, s: ServerName, place: Place, k: KeyId) {
    w.JobOf(s) == Probing(place, k, None) && RecordOf(w, s) == Some(MintedRecord(place, k, None)) && w.disk == w.mem
  }

  lemma TestIsReached(w: World, s: ServerName, place: Place, k: KeyId) returns (w1: World, w2: World, w3: World)
    requires NoKeysYet(w)
    ensures Taken(w, Begin(s, place, false)) == Some(w1) && Taken(w1, MintOk(s, k)) == Some(w2)
    ensures Taken(w2, SaveMinted(s, true)) == Some(w3) && AtTest(w3, s, place, k)
  {
    w1 := w.At(s, ToMint(place, None));
    w2 := Do(w1, MintOk(s, k));
    assert w2.JobOf(s) == ToSave(place, k, None);
    w3 := Do(w2, SaveMinted(s, true));
  }

  lemma PushIsReached(w: World, s: ServerName, place: Place, k: KeyId) returns (w4: World, w5: World)
    requires AtTest(w, s, place, k)
    ensures Taken(w, ProbePassed(s)) == Some(w4) && Taken(w4, MarkPushing(s, false)) == Some(w5)
    ensures w5.JobOf(s).AtPush? && !PushDurable(w5, s)
  {
    w4 := w.At(s, Pending(place, k, None));
    w5 := Do(w4, MarkPushing(s, false));
    assert w5.JobOf(s) == AtPush(place, k, None) && w5.disk == w.disk;
  }

  /** Where a step leads, if it can be taken. */
  function Taken(w: World, step: Step): Option<World> {
    if Enabled(w, step) then Some(Do(w, step)) else None
  }

  /** The state `LostSaveCutsOff` is about is reached from a Dash that has made no key. */
  lemma UnsavedPushIsReached(w: World, s: ServerName, place: Place, k: KeyId)
    requires NoKeysYet(w)
    ensures Possible(w, UnsavedRun(s, place, k))
    ensures var w' := After(w, UnsavedRun(s, place, k)); Inv(w') && w'.JobOf(s).AtPush? && !PushDurable(w', s)
  {
    var a, b, c, d, e := Begin(s, place, false), MintOk(s, k), SaveMinted(s, true), ProbePassed(s), MarkPushing(s, false);
    assert Inv(w);
    assert UnsavedRun(s, place, k) == [a] + ([b] + ([c] + ([d] + ([e] + []))));
    hide *;
    var w1, w2, w3 := TestIsReached(w, s, place, k);
    var w4, w5 := PushIsReached(w3, s, place, k);
    Nowhere(w5);
    LeadsTo(w4, e, w5, []);
    LeadsTo(w3, d, w4, [e] + []);
    LeadsTo(w2, c, w3, [d] + ([e] + []));
    LeadsTo(w1, b, w2, [c] + ([d] + ([e] + [])));
    LeadsTo(w, a, w1, [b] + ([c] + ([d] + ([e] + []))));
    ReachedIsSound(w, UnsavedRun(s, place, k));
  }

  lemma LeadsTo(w: World, step: Step, w': World, rest: seq<Step>)
    requires Taken(w, step) == Some(w') && Possible(w', rest)
    ensures Possible(w, [step] + rest) && After(w, [step] + rest) == After(w', rest)
  {
    Leads(w, step, rest);
    hide Do, Enabled;
  }

  lemma ReachedIsSound(w: World, run: seq<Step>)
    requires Inv(w) && Possible(w, run) && forall step <- run :: !step.PushCall?
    ensures Inv(After(w, run))
  {
    NoPushIsDurable(w, run);
    HeldKeysSurvive(w, run);
  }

  lemma {:induction false} NoPushIsDurable(w: World, run: seq<Step>)
    requires Possible(w, run) && forall step <- run :: !step.PushCall?
    ensures AllDurable(w, run)
    decreases |run|
  {
    if run != [] {
      NoPushIsDurable(Do(w, run[0]), run[1..]);
    }
  }
}
