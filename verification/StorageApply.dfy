/**
 The handler that runs one storage step over the ticked servers: phase one mints and proves
 every key, phase two pushes, verifies and retires. The handler updates Dash's record in place;
 every update is one step of the rotation protocol, so the protocol's theorems hold of each run.
 */
module StorageApply {
  import opened Wrappers
  import opened KeyRotation
  import opened KeySafety
  import opened KeyConservation
  import opened StoragePlan

  /** The provider's reply to deleting `k`, as the session can act and as Dash hears it. */
  function DeleteReply(w: World, k: KeyId, canDelete: bool, a: Answers): (reply: Delete)
    ensures PlausibleDelete(w, k, reply)
  {
    if !canDelete then Delete(false, false)
    else Delete(a.deletes(k), a.deletesHeard(k) && (a.deletes(k) || k !in w.provider))
  }

  function MintStep(s: ServerName, a: Answers): Step {
    match a.mint
    case Made => Step.MintOk(s, a.newKey)
    case MadeUnheard => Step.MintUnheard(s, a.newKey)
    case _ => Step.MintRefused(s)
  }

  /** The world after a mint: a key that was made exists whether or not Dash heard of it. */
  function AfterMint(w: World, s: ServerName, a: Answers): World {
    var job := w.JobOf(s);
    w.(provider := if a.mint.Made? || a.mint.MadeUnheard? then w.provider + {a.newKey} else w.provider,
       owner := if a.mint.Made? || a.mint.MadeUnheard? then w.owner[a.newKey := s] else w.owner,
       known := if a.mint.Made? then w.known + {a.newKey} else w.known,
       jobs := w.jobs[s := if a.mint.Made? && job.ToMint? then ToSave(job.place, a.newKey, job.prev) else Idle])
  }

  lemma MintLeads(w: World, s: ServerName, a: Answers)
    requires w.JobOf(s).ToMint? && a.newKey !in w.owner
    ensures Taken(w, MintStep(s, a)) == Some(AfterMint(w, s, a))
  {}

  /** Between the two worlds only `s` moved, and only `minted` can be a new key. */
  ghost predicate OnlyMoved(w: World, w': World, s: ServerName, minted: set<KeyId>) {
    && (forall t | t != s :: RecordOf(w', t) == RecordOf(w, t) && w'.JobOf(t) == w.JobOf(t) && w'.TargetOf(t) == w.TargetOf(t))
    && w'.owner.Keys <= w.owner.Keys + minted
  }

  lemma StepOnlyMoves(w: World, step: Step, w': World)
    requires Taken(w, step) == Some(w') && InRun(step)
    ensures OnlyMoved(w, w', step.s, MadeKeys(step))
    ensures step.PushCall? || step.HandPush? || w'.targets == w.targets
  {
    hide Do, Enabled;
    forall t ensures t != step.s ==> RecordOf(w', t) == RecordOf(w, t) && w'.JobOf(t) == w.JobOf(t) && w'.TargetOf(t) == w.TargetOf(t)
    {
      StepFrame(w, step, t);
    }
    StepFrame(w, step, step.s);
  }

  lemma OnlyMovedAgain(w: World, w1: World, w2: World, s: ServerName, minted: set<KeyId>)
    requires OnlyMoved(w, w1, s, minted) && OnlyMoved(w1, w2, s, {})
    ensures OnlyMoved(w, w2, s, minted)
  {
  }

  lemma OnlyMovedThen(w: World, w1: World, w2: World, s: ServerName, minted: set<KeyId>)
    requires OnlyMoved(w, w1, s, {}) && OnlyMoved(w1, w2, s, minted)
    ensures OnlyMoved(w, w2, s, minted)
  {
  }

  /** Distinct positions in the plan. */
  ghost predicate Group(plan: Plan, group: seq<nat>) {
    && (forall i | 0 <= i < |group| :: group[i] < |plan.names|)
    && (forall i, j | 0 <= i < j < |group| :: group[i] != group[j])
  }

  /** The server has a proved key and a record naming it, and awaits its push. */
  ghost predicate Ready(w: World, plan: Plan, j: nat)
    requires plan.Valid() && j < |plan.names|
  {
    var s := plan.names[j];
    && w.JobOf(s).Pending? && w.JobOf(s).key == plan.answers[j].newKey && w.JobOf(s).place == plan.places[j]
    && s in w.mem.keys && w.mem.keys[s].keyId == Some(plan.answers[j].newKey) && w.mem.keys[s].place == plan.places[j]
  }

  /** All of the group from position `n` on is ready. */
  ghost predicate Waiting(w: World, plan: Plan, group: seq<nat>, n: nat)
    requires plan.Valid()
  {
    Group(plan, group) && forall i | n <= i < |group| :: Ready(w, plan, group[i])
  }

  /** The first `n` of the group are finished with. */
  ghost predicate Finished(w: World, plan: Plan, group: seq<nat>, n: nat)
    requires plan.Valid() && Group(plan, group)
  {
    forall i | 0 <= i < n <= |group| :: w.JobOf(plan.names[group[i]]).Idle?
  }

  /** Servers outside the first `n` of the group are as they were, and no key is new. */
  ghost predicate LeftAlone(w: World, w': World, plan: Plan, group: seq<nat>, n: nat)
    requires plan.Valid() && Group(plan, group)
  {
    && (forall t | (forall i | 0 <= i < n <= |group| :: plan.names[group[i]] != t) ::
          RecordOf(w', t) == RecordOf(w, t) && w'.JobOf(t) == w.JobOf(t) && w'.TargetOf(t) == w.TargetOf(t))
    && w'.owner.Keys <= w.owner.Keys
  }

  /** A verified result means the server holds this run's key, and its record says so with nothing left to replace. */
  ghost predicate Outcome(w: World, plan: Plan, j: nat, res: ServerResult)
    requires plan.Valid() && j < |plan.names|
  {
    res.verified && !res.done ==>
      var s, k := plan.names[j], plan.answers[j].newKey;
      && w.TargetOf(s) == Own(k, plan.places[j])
      && RecordOf(w, s) == Some(KeyRecord(Some(k), plan.places[j], Verified, []))
  }

  ghost predicate Kept(w: World, w': World, s: ServerName) { w'.TargetOf(s) == w.TargetOf(s) }

  /** Only the group's servers are still being worked on. */
  ghost predicate IdleBut(w: World, plan: Plan, group: seq<nat>)
    requires plan.Valid() && Group(plan, group)
  {
    forall t | (forall i | 0 <= i < |group| :: plan.names[group[i]] != t) :: w.JobOf(t).Idle?
  }

  ghost predicate SameThere(w: World, w': World, s: ServerName) {
    RecordOf(w', s) == RecordOf(w, s) && w'.TargetOf(s) == w.TargetOf(s)
  }

  lemma NotYet(w: World, plan: Plan, pending: seq<nat>, i: nat)
    requires plan.Valid() && i < |plan.names| && Waiting(w, plan, pending, 0) && IdleBut(w, plan, pending)
    requires forall x | 0 <= x < |pending| :: pending[x] < i
    ensures w.JobOf(plan.names[i]).Idle? && forall x | 0 <= x < |pending| :: plan.names[pending[x]] != plan.names[i]
  {
  }

  lemma ProvedOne(w: World, w': World, plan: Plan, pending: seq<nat>, i: nat, proven: bool)
    requires plan.Valid() && i < |plan.names| && Waiting(w, plan, pending, 0) && IdleBut(w, plan, pending)
    requires forall x | 0 <= x < |pending| :: pending[x] < i
    requires OnlyMoved(w, w', plan.names[i], {plan.answers[i].newKey})
    requires if proven then Ready(w', plan, i) else w'.JobOf(plan.names[i]).Idle?
    ensures var next := if proven then pending + [i] else pending;
      Waiting(w', plan, next, 0) && IdleBut(w', plan, next)
  {
    var next := if proven then pending + [i] else pending;
    forall x | 0 <= x < |pending| ensures Ready(w', plan, pending[x]) && next[x] == pending[x] {
      assert Ready(w, plan, pending[x]);
    }
    forall t | forall x | 0 <= x < |next| :: plan.names[next[x]] != t ensures w'.JobOf(t).Idle? {
      assert proven ==> next[|pending|] == i;
      assert forall x | 0 <= x < |pending| :: plan.names[next[x]] != t;
    }
  }

  lemma NamesDiffer(plan: Plan, group: seq<nat>, i: nat, n: nat)
    requires plan.Valid() && Group(plan, group) && i < |group| && n < |group| && i != n
    ensures plan.names[group[i]] != plan.names[group[n]]
  {
  }

  lemma OneDone(w0: World, w: World, w': World, plan: Plan, group: seq<nat>, n: nat)
    requires plan.Valid() && n < |group| && Waiting(w, plan, group, n)
    requires LeftAlone(w0, w, plan, group, n) && Finished(w, plan, group, n)
    requires OnlyMoved(w, w', plan.names[group[n]], {}) && w'.JobOf(plan.names[group[n]]).Idle?
    ensures LeftAlone(w0, w', plan, group, n + 1) && Waiting(w', plan, group, n + 1)
    ensures Finished(w', plan, group, n + 1)
    ensures forall i | 0 <= i < n :: SameThere(w, w', plan.names[group[i]])
  {
    forall i | 0 <= i < |group| && i != n
      ensures plan.names[group[i]] != plan.names[group[n]]
    {
      NamesDiffer(plan, group, i, n);
    }
  }

  /** The push went to the server as reported, and its target is where the push left it. */
  ghost predicate AsAnswered(w: World, w': World, plan: Plan, j: nat, res: ServerResult)
    requires plan.Valid() && j < |plan.names|
  {
    Reports(w, plan, j, res) && w'.TargetOf(plan.names[j]) == TargetAfter(w, plan, j)
  }

  /** The first `n` of the group have been pushed to. */
  ghost predicate Settled(w0: World, w: World, plan: Plan, group: seq<nat>, n: nat, results: seq<ServerResult>)
    requires plan.Valid() && Group(plan, group) && n <= |group| && |results| == |plan.names|
  {
    forall i | 0 <= i < n :: Outcome(w, plan, group[i], results[group[i]]) && AsAnswered(w0, w, plan, group[i], results[group[i]])
  }

  lemma OneMoreSettled(w0: World, w: World, w': World, plan: Plan, group: seq<nat>, n: nat, before: seq<ServerResult>, res: ServerResult)
    requires plan.Valid() && Group(plan, group) && n < |group| && |before| == |plan.names|
    requires Settled(w0, w, plan, group, n, before) && LeftAlone(w0, w, plan, group, n)
    requires forall i | 0 <= i < n :: SameThere(w, w', plan.names[group[i]])
    requires Outcome(w', plan, group[n], res) && AsAnswered(w, w', plan, group[n], res)
    ensures Settled(w0, w', plan, group, n + 1, before[group[n] := res])
  {
    forall i | 0 <= i < n
      ensures Outcome(w', plan, group[i], before[group[n] := res][group[i]]) && AsAnswered(w0, w', plan, group[i], before[group[n] := res][group[i]])
    {
      assert group[i] != group[n];
      assert SameThere(w, w', plan.names[group[i]]);
    }
    assert w.TargetOf(plan.names[group[n]]) == w0.TargetOf(plan.names[group[n]]);
  }

  class Handler {
    var keys: map<ServerName, KeyRecord>
    var leftovers: seq<KeyId>
    var disk: Setup
    // The world outside Dash.
    var provider: set<KeyId>
    var targets: map<ServerName, Target>
    var owner: map<KeyId, ServerName>
    var known: set<KeyId>
    var reached: set<KeyId>
    // How far the handler is, and how it got there.
    var jobs: map<ServerName, Job>
    // Whether every save of this run lands.
    var saving: bool
    ghost var start: World
    ghost var trace: seq<Step>

    function View(): World
      reads this
    {
      World(Setup(keys, leftovers), disk, jobs, provider, targets, owner, known, reached)
    }

    /** What the fields say now is what the steps taken so far lead to. */
    ghost predicate Traced()
      reads this
    {
      && Possible(start, trace)
      && After(start, trace) == View()
      && WholeRun(trace)
      && (saving ==> AllDurable(start, trace))
    }

    ghost method Note(was: World, step: Step)
      requires Possible(start, trace) && After(start, trace) == was && WholeRun(trace)
      requires saving ==> AllDurable(start, trace) && Durable(was, step)
      requires Taken(was, step) == Some(View()) && InRun(step)
      modifies this`trace
      ensures Traced() && trace == old(trace) + [step]
    {
      Extended(start, trace, step);
      trace := trace + [step];
    }

    method Save(landed: bool)
      modifies this`disk
      ensures View() == old(View()).Saved(landed)
    {
      if landed { disk := Setup(keys, leftovers); }
    }

    method Rewrite(s: ServerName, rec: Option<KeyRecord>, landed: bool)
      modifies this`keys, this`disk
      ensures View() == old(View()).WithRecord(s, rec).Saved(landed)
    {
      if rec.Some? {
        keys := keys[s := rec.value];
      } else {
        keys := keys - {s};
      }
      Save(landed);
    }

    /** Deletes the key if it can; otherwise lists it for a person. */
    method DropKey(k: KeyId, canDelete: bool, a: Answers) returns (dropped: bool)
      modifies this`provider, this`leftovers, this`disk
      ensures View() == Dropped(old(View()), k, DeleteReply(old(View()), k, canDelete, a), a.saves(OnDrop(k)))
      ensures dropped ==> k !in provider
      ensures !dropped ==> k in leftovers
      ensures LetGo({k})
    {
      var reply := DeleteReply(View(), k, canDelete, a);
      if reply.gone { provider := provider - {k}; }
      if reply.acked {
        return true;
      }
      leftovers := leftovers + [k];
      Save(a.saves(OnDrop(k)));
      return false;
    }

    /** Of the provider's keys only these may have gone, and each has gone or is listed for a person. */
    twostate predicate LetGo(ks: set<KeyId>)
      reads this
    {
      && old(provider) - ks <= provider <= old(provider) && old(leftovers) <= leftovers
      && forall k <- ks :: k !in provider || k in leftovers
    }

    twostate predicate SameKeys()
      reads this
    {
      provider == old(provider) && leftovers == old(leftovers)
    }

    /** The fields moved by exactly this step of the protocol. */
    twostate predicate Stepped(step: Step)
      reads this
    {
      && Traced() && start == old(start) && saving == old(saving)
      && Taken(old(View()), step) == Some(View())
      && trace == old(trace) + [step]
    }

    method Begin(s: ServerName, place: Place, rotate: bool) returns (skip: bool)
      requires Traced() && View().JobOf(s).Idle?
      modifies this
      ensures Stepped(Step.Begin(s, place, rotate))
      ensures skip ==> View() == old(View()) && s in keys && keys[s].state.Verified?
      ensures !skip ==> (View().JobOf(s).Stale? || View().JobOf(s).ToMint?) && View().JobOf(s).place == place
      ensures owner == old(owner)
      ensures skip <==> old(s in keys && keys[s].place == place && !rotate && keys[s].state.Verified?)
    {
      hide Possible, After, AllDurable;
      ghost var was := View();
      skip := s in keys && keys[s].place == place && !rotate && keys[s].state.Verified?;
      if !skip {
        if s in keys && keys[s].state.Minted? {
          jobs := jobs[s := Stale(place, keys[s])];
        } else {
          jobs := jobs[s := ToMint(place, if s in keys then Some(keys[s]) else None)];
        }
      }
      assert Taken(was, Step.Begin(s, place, rotate)) == Some(View());
      hide Do, Enabled;
      Note(was, Step.Begin(s, place, rotate));
    }

    /** A key left at minted never reached a server: it goes, and what it replaced stays on. */
    method DropStale(s: ServerName, canDelete: bool, a: Answers)
      requires Traced() && View().JobOf(s).Stale?
      modifies this
      ensures var stale := old(View()).JobOf(s).stale;
        Stepped(Step.DropStale(s, if stale.keyId.None? then Delete(false, false)
                                  else DeleteReply(old(View()), stale.keyId.value, canDelete, a), a.DropSaved(stale.keyId)))
      ensures View().JobOf(s) == ToMint(old(View()).JobOf(s).place, ChainRecord(old(View()).JobOf(s).stale))
      ensures owner == old(owner)
    {
      hide Possible, After, AllDurable;
      ghost var was := View();
      var job := jobs[s];
      ghost var reply := Delete(false, false);
      if job.stale.keyId.Some? {
        reply := DeleteReply(was, job.stale.keyId.value, canDelete, a);
        var dropped := DropKey(job.stale.keyId.value, canDelete, a);
      }
      jobs := jobs[s := ToMint(job.place, ChainRecord(job.stale))];
      assert Taken(was, Step.DropStale(s, reply, a.DropSaved(job.stale.keyId))) == Some(View());
      hide Do, Enabled;
      Note(was, Step.DropStale(s, reply, a.DropSaved(job.stale.keyId)));
    }

    /** Asks the provider for the server's new key. */
    method MintKey(s: ServerName, a: Answers) returns (made: bool)
      requires Traced() && View().JobOf(s).ToMint? && a.newKey !in owner
      modifies this
      ensures made <==> a.mint.Made?
      ensures Stepped(MintStep(s, a))
      ensures View().JobOf(s) == if made then ToSave(old(View()).JobOf(s).place, a.newKey, old(View()).JobOf(s).prev) else Idle
    {
      hide Possible, After, AllDurable;
      ghost var was := View();
      MintLeads(was, s, a);
      hide Do, Enabled, MintStep;
      made := CreateKey(s, a);
      Note(was, MintStep(s, a));
    }

    method CreateKey(s: ServerName, a: Answers) returns (made: bool)
      requires View().JobOf(s).ToMint?
      modifies this`provider, this`owner, this`known, this`jobs
      ensures made == a.mint.Made? && View() == AfterMint(old(View()), s, a)
    {
      var job := jobs[s];
      made := a.mint.Made?;
      if made || a.mint.MadeUnheard? {
        provider, owner := provider + {a.newKey}, owner[a.newKey := s];
      }
      if made {
        known := known + {a.newKey};
      }
      jobs := jobs[s := if made then ToSave(job.place, a.newKey, job.prev) else Idle];
    }

    /** Saves the new key's record before the key is used. */
    method SaveMinted(s: ServerName, a: Answers)
      requires Traced() && View().JobOf(s).ToSave?
      modifies this
      ensures Stepped(Step.SaveMinted(s, a.saves(OnMint)))
      ensures var job := old(View()).JobOf(s);
        && View().JobOf(s) == Probing(job.place, job.key, job.prev)
        && RecordOf(View(), s) == Some(MintedRecord(job.place, job.key, job.prev))
    {
      hide Possible, After, AllDurable;
      ghost var was := View();
      var job := jobs[s];
      Rewrite(s, Some(MintedRecord(job.place, job.key, job.prev)), a.saves(OnMint));
      jobs := jobs[s := Probing(job.place, job.key, job.prev)];
      assert Taken(was, Step.SaveMinted(s, a.saves(OnMint))) == Some(View());
      hide Do, Enabled;
      Note(was, Step.SaveMinted(s, a.saves(OnMint)));
    }

    method Probe(s: ServerName, a: Answers) returns (passed: bool)
      requires Traced() && View().JobOf(s).Probing?
      modifies this
      ensures passed <==> a.probe.Passes?
      ensures Stepped(if passed then Step.ProbePassed(s) else Step.ProbeFailed(s))
      ensures var job := old(View()).JobOf(s);
        View().JobOf(s) == if passed then Pending(job.place, job.key, job.prev) else Undo(job.key, job.prev)
      ensures keys == old(keys)
    {
      hide Possible, After, AllDurable;
      ghost var was := View();
      var job := jobs[s];
      passed := a.probe.Passes?;
      if passed {
        jobs := jobs[s := Pending(job.place, job.key, job.prev)];
        assert Taken(was, Step.ProbePassed(s)) == Some(View());
        hide Do, Enabled;
        Note(was, Step.ProbePassed(s));
      } else {
        jobs := jobs[s := Undo(job.key, job.prev)];
        assert Taken(was, Step.ProbeFailed(s)) == Some(View());
        hide Do, Enabled;
        Note(was, Step.ProbeFailed(s));
      }
    }

    method DropNew(s: ServerName, canDelete: bool, a: Answers)
      requires Traced() && View().JobOf(s).Undo?
      modifies this
      ensures Stepped(Step.DropNew(s, DeleteReply(old(View()), old(View()).JobOf(s).key, canDelete, a), a.saves(OnDrop(old(View()).JobOf(s).key))))
      ensures View().JobOf(s) == Restoring(old(View()).JobOf(s).prev) && LetGo({old(View()).JobOf(s).key})
    {
      hide Possible, After, AllDurable;
      ghost var was := View();
      var job := jobs[s];
      ghost var reply := DeleteReply(was, job.key, canDelete, a);
      var dropped := DropKey(job.key, canDelete, a);
      jobs := jobs[s := Restoring(job.prev)];
      assert Taken(was, Step.DropNew(s, reply, a.saves(OnDrop(job.key)))) == Some(View());
      hide Do, Enabled;
      Note(was, Step.DropNew(s, reply, a.saves(OnDrop(job.key))));
    }

    /** Puts the record back as it was before this run touched the server. */
    method Restore(s: ServerName, a: Answers)
      requires Traced() && View().JobOf(s).Restoring?
      modifies this
      ensures Stepped(Step.Restore(s, a.saves(OnRestore)))
      ensures View().JobOf(s).Idle? && RecordOf(View(), s) == old(View()).JobOf(s).prev && SameKeys()
    {
      hide Possible, After, AllDurable;
      ghost var was := View();
      var prev := jobs[s].prev;
      Rewrite(s, prev, a.saves(OnRestore));
      jobs := jobs[s := Idle];
      assert Taken(was, Step.Restore(s, a.saves(OnRestore))) == Some(View());
      hide Do, Enabled;
      Note(was, Step.Restore(s, a.saves(OnRestore)));
    }

    method MarkPushing(s: ServerName, a: Answers)
      requires Traced() && View().JobOf(s).Pending? && s in keys && (saving ==> a.saves(OnMark))
      modifies this
      ensures Stepped(Step.MarkPushing(s, a.saves(OnMark)))
      ensures var job := old(View()).JobOf(s);
        && View().JobOf(s) == AtPush(job.place, job.key, job.prev)
        && RecordOf(View(), s) == Some(old(keys[s]).(state := Pushing))
      ensures saving ==> PushDurable(View(), s)
      ensures SameKeys()
    {
      hide Possible, After, AllDurable;
      ghost var was := View();
      var job := jobs[s];
      Rewrite(s, Some(keys[s].(state := Pushing)), a.saves(OnMark));
      jobs := jobs[s := AtPush(job.place, job.key, job.prev)];
      assert Taken(was, Step.MarkPushing(s, a.saves(OnMark))) == Some(View());
      hide Do, Enabled;
      Note(was, Step.MarkPushing(s, a.saves(OnMark)));
    }

    /** Sets the server's target. A call that fails may have landed all the same. */
    method Push(s: ServerName, a: Answers) returns (acked: bool)
      requires Traced() && View().JobOf(s).AtPush? && (saving ==> PushDurable(View(), s))
      modifies this
      ensures acked == (a.pushApplied && a.pushHeard)
      ensures Stepped(Step.PushCall(s, acked, a.pushApplied))
      ensures var job := old(View()).JobOf(s);
        && View().JobOf(s) == Replied(job.place, job.key, job.prev, acked)
        && View().TargetOf(s) == if a.pushApplied then Own(job.key, job.place) else old(View()).TargetOf(s)
      ensures keys == old(keys) && SameKeys()
    {
      hide Possible, After, AllDurable;
      ghost var was := View();
      var job := jobs[s];
      acked := a.pushApplied && a.pushHeard;
      if a.pushApplied {
        targets, reached := targets[s := Own(job.key, job.place)], reached + {job.key};
      }
      jobs := jobs[s := Replied(job.place, job.key, job.prev, acked)];
      assert Taken(was, Step.PushCall(s, acked, a.pushApplied)) == Some(View());
      hide Do, Enabled;
      Note(was, Step.PushCall(s, acked, a.pushApplied));
    }

    method RecordVerified(s: ServerName, a: Answers)
      requires Traced() && View().JobOf(s).Replied? && View().JobOf(s).acked && s in keys
      modifies this
      ensures Stepped(Step.RecordVerified(s, a.saves(OnSettle)))
      ensures View().JobOf(s) == Retiring(old(View()).JobOf(s).key, old(keys[s]).older)
      ensures RecordOf(View(), s) == Some(old(keys[s]).(state := Verified, older := [])) && SameKeys()
    {
      hide Possible, After, AllDurable;
      ghost var was := View();
      var job, rec := jobs[s], keys[s];
      Rewrite(s, Some(rec.(state := Verified, older := [])), a.saves(OnSettle));
      jobs := jobs[s := Retiring(job.key, rec.older)];
      assert Taken(was, Step.RecordVerified(s, a.saves(OnSettle))) == Some(View());
      hide Do, Enabled;
      Note(was, Step.RecordVerified(s, a.saves(OnSettle)));
    }

    method RecordPushed(s: ServerName, a: Answers)
      requires Traced() && View().JobOf(s).Replied? && View().JobOf(s).acked && s in keys
      modifies this
      ensures Stepped(Step.RecordPushed(s, a.saves(OnSettle)))
      ensures View().JobOf(s).Idle? && RecordOf(View(), s) == Some(old(keys[s]).(state := Pushed)) && SameKeys()
    {
      hide Possible, After, AllDurable;
      ghost var was := View();
      Rewrite(s, Some(keys[s].(state := Pushed)), a.saves(OnSettle));
      jobs := jobs[s := Idle];
      assert Taken(was, Step.RecordPushed(s, a.saves(OnSettle))) == Some(View());
      hide Do, Enabled;
      Note(was, Step.RecordPushed(s, a.saves(OnSettle)));
    }

    method RecordAmbiguous(s: ServerName, a: Answers)
      requires Traced() && View().JobOf(s).Replied? && !View().JobOf(s).acked && s in keys
      modifies this
      ensures Stepped(Step.RecordAmbiguous(s, a.saves(OnSettle)))
      ensures View().JobOf(s).Idle? && RecordOf(View(), s) == Some(old(keys[s]).(state := Ambiguous)) && SameKeys()
    {
      hide Possible, After, AllDurable;
      ghost var was := View();
      Rewrite(s, Some(keys[s].(state := Ambiguous)), a.saves(OnSettle));
      jobs := jobs[s := Idle];
      assert Taken(was, Step.RecordAmbiguous(s, a.saves(OnSettle))) == Some(View());
      hide Do, Enabled;
      Note(was, Step.RecordAmbiguous(s, a.saves(OnSettle)));
    }

    /** The server answered, and stores something other than what was being pushed. */
    method ProvablyMissed(s: ServerName, a: Answers) returns (missed: bool)
      requires Traced() && View().JobOf(s).Replied? && !View().JobOf(s).acked
      modifies this
      ensures missed ==> View().JobOf(s) == Undo(old(View()).JobOf(s).key, old(View()).JobOf(s).prev)
      ensures keys == old(keys) && SameKeys()
      ensures if missed then Stepped(Step.FoundMissed(s)) else View() == old(View()) && trace == old(trace) && start == old(start) && saving == old(saving)
      ensures missed <==> a.showAnswers && old(View().TargetOf(s).Nothing? || View().TargetOf(s).place != View().JobOf(s).place)
    {
      hide Possible, After, AllDurable;
      ghost var was := View();
      var job, target := jobs[s], View().TargetOf(s);
      missed := a.showAnswers && (target.Nothing? || target.place != job.place);
      if missed {
        jobs := jobs[s := Undo(job.key, job.prev)];
        assert Taken(was, Step.FoundMissed(s)) == Some(View());
        hide Do, Enabled;
        Note(was, Step.FoundMissed(s));
      }
    }

    method DropOld(s: ServerName, canDelete: bool, a: Answers)
      requires Traced() && View().JobOf(s).Retiring? && View().JobOf(s).due != []
      modifies this
      ensures Stepped(Step.DropOld(s, DeleteReply(old(View()), old(View()).JobOf(s).due[0], canDelete, a), a.saves(OnDrop(old(View()).JobOf(s).due[0]))))
      ensures View().JobOf(s) == Retiring(old(View()).JobOf(s).key, old(View()).JobOf(s).due[1..])
      ensures keys == old(keys) && LetGo({old(View()).JobOf(s).due[0]})
    {
      hide Possible, After, AllDurable;
      ghost var was := View();
      var job := jobs[s];
      ghost var reply := DeleteReply(was, job.due[0], canDelete, a);
      var dropped := DropKey(job.due[0], canDelete, a);
      jobs := jobs[s := Retiring(job.key, job.due[1..])];
      assert Taken(was, Step.DropOld(s, reply, a.saves(OnDrop(job.due[0])))) == Some(View());
      hide Do, Enabled;
      Note(was, Step.DropOld(s, reply, a.saves(OnDrop(job.due[0]))));
    }

    method EndRetiring(s: ServerName, a: Answers)
      requires Traced() && View().JobOf(s).Retiring? && View().JobOf(s).due == []
      modifies this
      ensures Stepped(Step.DropOld(s, Delete(false, false), false))
      ensures View().JobOf(s).Idle? && keys == old(keys) && SameKeys()
    {
      hide Possible, After, AllDurable;
      ghost var was := View();
      jobs := jobs[s := Idle];
      assert Taken(was, Step.DropOld(s, Delete(false, false), false)) == Some(View());
      hide Do, Enabled;
      Note(was, Step.DropOld(s, Delete(false, false), false));
    }

    /** Steps were added to the run, and all of them concern `s`. */
    twostate predicate Advanced(s: ServerName, minted: set<KeyId>)
      reads this
    {
      && Traced() && start == old(start) && saving == old(saving)
      && old(trace) <= trace
      && OnlyMoved(old(View()), View(), s, minted)
    }

    /** Drops what was made for `s` and puts its record back. */
    method GoBack(s: ServerName, canDelete: bool, a: Answers)
      requires Traced() && View().JobOf(s).Undo?
      modifies this
      ensures Advanced(s, {}) && View().JobOf(s).Idle? && targets == old(targets)
      ensures RecordOf(View(), s) == old(View()).JobOf(s).prev && LetGo({old(View()).JobOf(s).key})
    {
      hide Possible, After, AllDurable, WholeRun, Do, Enabled, Taken, OnlyMoved;
      ghost var w0 := View();
      DropNew(s, canDelete, a);
      ghost var w1 := View();
      StepOnlyMoves(w0, trace[|trace| - 1], w1);
      Restore(s, a);
      StepOnlyMoves(w1, trace[|trace| - 1], View());
      OnlyMovedAgain(w0, w1, View(), s, {});
    }

    /** Drops a key an earlier run left unused, makes the new one and saves its record. */
    method MakeKey(s: ServerName, canDelete: bool, a: Answers) returns (made: bool)
      requires Traced() && (View().JobOf(s).Stale? || View().JobOf(s).ToMint?) && a.newKey !in owner
      modifies this
      ensures Advanced(s, {a.newKey}) && targets == old(targets)
      ensures owner.Keys <= old(owner.Keys) + {a.newKey}
      ensures made <==> a.mint.Made?
      ensures if made then
          && View().JobOf(s).Probing? && View().JobOf(s).key == a.newKey && View().JobOf(s).place == old(View()).JobOf(s).place
          && s in keys && keys[s].keyId == Some(a.newKey) && keys[s].place == View().JobOf(s).place
        else View().JobOf(s).Idle?
    {
      hide Possible, After, AllDurable, WholeRun, Do, Enabled, Taken, OnlyMoved;
      ghost var w0 := View();
      if jobs[s].Stale? {
        DropStale(s, canDelete, a);
        StepOnlyMoves(w0, trace[|trace| - 1], View());
      } else {
        NothingMoved(w0, s);
      }
      ghost var w1 := View();
      made := MintAndSave(s, a);
      OnlyMovedThen(w0, w1, View(), s, if a.mint.Made? || a.mint.MadeUnheard? then {a.newKey} else {});
      OnlyMovedWider(w0, View(), s, if a.mint.Made? || a.mint.MadeUnheard? then {a.newKey} else {}, {a.newKey});
    }

    method MintAndSave(s: ServerName, a: Answers) returns (made: bool)
      requires Traced() && View().JobOf(s).ToMint? && a.newKey !in owner
      modifies this
      ensures Advanced(s, if a.mint.Made? || a.mint.MadeUnheard? then {a.newKey} else {}) && targets == old(targets)
      ensures made <==> a.mint.Made?
      ensures if made then
          && View().JobOf(s).Probing? && View().JobOf(s).key == a.newKey && View().JobOf(s).place == old(View()).JobOf(s).place
          && s in keys && keys[s].keyId == Some(a.newKey) && keys[s].place == View().JobOf(s).place
        else View().JobOf(s).Idle?
    {
      hide Possible, After, AllDurable, WholeRun, Do, Enabled, Taken, OnlyMoved;
      ghost var w1 := View();
      made := MintKey(s, a);
      ghost var w2 := View();
      StepOnlyMoves(w1, trace[|trace| - 1], w2);
      if made {
        SaveMinted(s, a);
        StepOnlyMoves(w2, trace[|trace| - 1], View());
        OnlyMovedAgain(w1, w2, View(), s, {a.newKey});
      }
    }

    /** Phase one for one server: mint and prove its key. Nothing reaches the server. */
    method Prove(s: ServerName, place: Place, rotate: bool, canDelete: bool, a: Answers) returns (r: Proved)
      requires Traced() && View().JobOf(s).Idle? && a.newKey !in owner
      modifies this
      ensures Advanced(s, {a.newKey}) && targets == old(targets)
      ensures owner.Keys <= old(owner.Keys) + {a.newKey}
      ensures if r.Proven? then
          && View().JobOf(s).Pending? && View().JobOf(s).key == a.newKey && View().JobOf(s).place == place
          && s in keys && keys[s].keyId == Some(a.newKey) && keys[s].place == View().JobOf(s).place
        else View().JobOf(s).Idle?
      ensures r.AlreadyVerified? ==> View() == old(View()) && s in keys && keys[s].state.Verified?
      ensures r.AlreadyVerified? <==> old(s in keys && keys[s].place == place && !rotate && keys[s].state.Verified?)
      ensures r.StopsRun? <==> !r.AlreadyVerified? && (a.mint.Capped? || (a.mint.Made? && a.probe.CannotHide?))
      ensures r.Proven? <==> !r.AlreadyVerified? && a.mint.Made? && a.probe.Passes?
    {
      hide Possible, After, AllDurable, WholeRun, Do, Enabled, Taken, OnlyMoved;
      ghost var w0 := View();
      var skip := Begin(s, place, rotate);
      ghost var w1 := View();
      StepOnlyMoves(w0, trace[|trace| - 1], w1);
      if skip {
        OnlyMovedWider(w0, w1, s, {}, {a.newKey});
        return AlreadyVerified;
      }
      r := ProveNew(s, canDelete, a);
      OnlyMovedThen(w0, w1, View(), s, {a.newKey});
    }

    method ProveNew(s: ServerName, canDelete: bool, a: Answers) returns (r: Proved)
      requires Traced() && (View().JobOf(s).Stale? || View().JobOf(s).ToMint?) && a.newKey !in owner
      modifies this
      ensures Advanced(s, {a.newKey}) && targets == old(targets)
      ensures owner.Keys <= old(owner.Keys) + {a.newKey}
      ensures if r.Proven? then
          && View().JobOf(s).Pending? && View().JobOf(s).key == a.newKey && View().JobOf(s).place == old(View()).JobOf(s).place
          && s in keys && keys[s].keyId == Some(a.newKey) && keys[s].place == View().JobOf(s).place
        else View().JobOf(s).Idle?
      ensures !r.AlreadyVerified? && (r.StopsRun? <==> a.mint.Capped? || (a.mint.Made? && a.probe.CannotHide?))
      ensures r.Proven? <==> a.mint.Made? && a.probe.Passes?
    {
      hide Possible, After, AllDurable, WholeRun, Do, Enabled, Taken, OnlyMoved;
      ghost var w0 := View();
      var made := MakeKey(s, canDelete, a);
      if !made {
        return if a.mint.Capped? then StopsRun else Failed;
      }
      ghost var w1 := View();
      var passed := Probe(s, a);
      ghost var w2 := View();
      StepOnlyMoves(w1, trace[|trace| - 1], w2);
      OnlyMovedAgain(w0, w1, w2, s, {a.newKey});
      if passed {
        return Proven;
      }
      GoBack(s, canDelete, a);
      OnlyMovedAgain(w0, w2, View(), s, {a.newKey});
      return if a.probe.CannotHide? then StopsRun else Failed;
    }

    method DropNext(s: ServerName, canDelete: bool, a: Answers)
      requires Traced() && View().JobOf(s).Retiring? && View().JobOf(s).due != []
      modifies this
      ensures Advanced(s, {}) && targets == old(targets) && keys == old(keys) && LetGo({old(View()).JobOf(s).due[0]})
      ensures View().JobOf(s) == Retiring(old(View()).JobOf(s).key, old(View()).JobOf(s).due[1..])
    {
      hide Possible, After, AllDurable, WholeRun, Do, Enabled, Taken, OnlyMoved;
      ghost var was := View();
      DropOld(s, canDelete, a);
      StepOnlyMoves(was, trace[|trace| - 1], View());
    }

    /** Retires what a verified push replaced, one key after another. */
    method RetireOld(s: ServerName, canDelete: bool, a: Answers)
      requires Traced() && View().JobOf(s).Retiring?
      modifies this
      ensures Advanced(s, {}) && View().JobOf(s).Idle? && targets == old(targets) && keys == old(keys)
      ensures LetGo(set k | k in old(View()).JobOf(s).due)
    {
      hide Possible, After, AllDurable, WholeRun, Do, Enabled, Taken, OnlyMoved;
      ghost var w0 := View();
      NothingMoved(w0, s);
      ghost var due := set k | k in jobs[s].due;
      while jobs[s].due != []
        invariant Traced() && start == old(start) && saving == old(saving) && old(trace) <= trace
        invariant s in jobs && jobs[s].Retiring? && OnlyMoved(w0, View(), s, {})
        invariant targets == old(targets) && keys == old(keys)
        invariant forall k <- jobs[s].due :: k in due
        invariant old(provider) - due <= provider <= old(provider) && old(leftovers) <= leftovers
        invariant forall k <- due :: k in jobs[s].due || k !in provider || k in leftovers
        decreases |jobs[s].due|
      {
        ghost var w1 := View();
        FirstAndRest(jobs[s].due);
        DropNext(s, canDelete, a);
        OnlyMovedAgain(w0, w1, View(), s, {});
      }
      ghost var w1 := View();
      EndRetiring(s, a);
      StepOnlyMoves(w1, trace[|trace| - 1], View());
      OnlyMovedAgain(w0, w1, View(), s, {});
    }

    /** Phase two for one server: push its key, verify, and retire what it replaced. */
    method PushOne(s: ServerName, canDelete: bool, a: Answers) returns (res: ServerResult)
      requires Traced() && View().JobOf(s).Pending? && s in keys && (saving ==> a.saves(OnMark))
      modifies this
      ensures Advanced(s, {}) && View().JobOf(s).Idle?
      ensures res.verified ==> View().TargetOf(s) == Own(old(View()).JobOf(s).key, old(View()).JobOf(s).place)
      ensures res.verified ==> s in keys && keys[s] == old(keys[s]).(state := Verified, older := [])
      ensures res.verified <==> a.pushApplied && a.pushHeard && a.verifies
      ensures res.authError <==> !res.verified && a.authClass
      ensures !res.done && !res.skipped
      ensures res.pushed <==> a.pushApplied && a.pushHeard
      ensures View().TargetOf(s)
           == if a.pushApplied then Own(old(View()).JobOf(s).key, old(View()).JobOf(s).place) else old(View()).TargetOf(s)
      ensures var target := View().TargetOf(s);
        res.keyKept <==> (!res.verified
          && (res.pushed || !a.showAnswers || (!target.Nothing? && target.place == old(View()).JobOf(s).place)))
      ensures res.verified ==> LetGo(set k | k in old(keys[s]).older)
      ensures !res.verified ==> if res.keyKept then SameKeys() else LetGo({old(View()).JobOf(s).key})
    {
      hide Possible, After, AllDurable, WholeRun, Do, Enabled, Taken, OnlyMoved;
      ghost var w0 := View();
      var acked := MarkAndPush(s, a);
      ghost var w1 := View();
      res := Untouched.(pushed := acked);
      if acked && a.verifies {
        VerifyAndRetire(s, canDelete, a);
        OnlyMovedAgain(w0, w1, View(), s, {});
        res := res.(verified := true);
      } else {
        var kept := Unverified(s, canDelete, a);
        OnlyMovedAgain(w0, w1, View(), s, {});
        res := res.(keyKept := kept, authError := a.authClass);
      }
    }

    method VerifyAndRetire(s: ServerName, canDelete: bool, a: Answers)
      requires Traced() && View().JobOf(s).Replied? && View().JobOf(s).acked && s in keys
      modifies this
      ensures Advanced(s, {}) && View().JobOf(s).Idle? && targets == old(targets)
      ensures s in keys && keys[s] == old(keys[s]).(state := Verified, older := []) && LetGo(set k | k in old(keys[s]).older)
    {
      hide Possible, After, AllDurable, WholeRun, Do, Enabled, Taken, OnlyMoved;
      ghost var w0 := View();
      RecordVerified(s, a);
      ghost var w1 := View();
      StepOnlyMoves(w0, trace[|trace| - 1], w1);
      RetireOld(s, canDelete, a);
      OnlyMovedAgain(w0, w1, View(), s, {});
    }

    method MarkAndPush(s: ServerName, a: Answers) returns (acked: bool)
      requires Traced() && View().JobOf(s).Pending? && s in keys && (saving ==> a.saves(OnMark))
      modifies this
      ensures Advanced(s, {}) && acked == (a.pushApplied && a.pushHeard)
      ensures var job := old(View()).JobOf(s);
        && View().JobOf(s) == Replied(job.place, job.key, job.prev, acked)
        && View().TargetOf(s) == (if a.pushApplied then Own(job.key, job.place) else old(View()).TargetOf(s))
        && RecordOf(View(), s) == Some(old(keys[s]).(state := Pushing))
      ensures SameKeys()
    {
      hide Possible, After, AllDurable, WholeRun, Do, Enabled, Taken, OnlyMoved;
      ghost var w0 := View();
      MarkPushing(s, a);
      ghost var w1 := View();
      StepOnlyMoves(w0, trace[|trace| - 1], w1);
      acked := Push(s, a);
      StepOnlyMoves(w1, trace[|trace| - 1], View());
      OnlyMovedAgain(w0, w1, View(), s, {});
    }

    /** The push did not verify: every key stays, unless the server provably holds another target, and then only the new one goes. */
    method Unverified(s: ServerName, canDelete: bool, a: Answers) returns (kept: bool)
      requires Traced() && View().JobOf(s).Replied? && s in keys
      modifies this
      ensures Advanced(s, {}) && View().JobOf(s).Idle? && targets == old(targets)
      ensures var w, job := old(View()), old(View()).JobOf(s);
        && (kept <==> job.acked || !a.showAnswers || (!w.TargetOf(s).Nothing? && w.TargetOf(s).place == job.place))
        && (if kept then SameKeys() && RecordOf(View(), s) == Some(old(keys[s]).(state := if job.acked then Pushed else Ambiguous))
            else LetGo({job.key}) && RecordOf(View(), s) == job.prev)
    {
      hide Possible, After, AllDurable, WholeRun, Do, Enabled, Taken, OnlyMoved;
      ghost var w0 := View();
      if jobs[s].acked {
        RecordPushed(s, a);
        StepOnlyMoves(w0, trace[|trace| - 1], View());
        return true;
      }
      var missed := ProvablyMissed(s, a);
      if missed {
        ghost var w1 := View();
        StepOnlyMoves(w0, trace[|trace| - 1], w1);
        GoBack(s, canDelete, a);
        OnlyMovedAgain(w0, w1, View(), s, {});
        return false;
      }
      RecordAmbiguous(s, a);
      StepOnlyMoves(w0, trace[|trace| - 1], View());
      return true;
    }

    /** Drops what this run made for servers it will not push to after all. */
    method StopAll(plan: Plan, group: seq<nat>, canDelete: bool, was: seq<ServerResult>) returns (results: seq<ServerResult>)
      requires Traced() && plan.Valid() && Waiting(View(), plan, group, 0) && |was| == |plan.names|
      modifies this
      ensures Traced() && start == old(start) && saving == old(saving) && old(trace) <= trace
      ensures targets == old(targets)
      ensures |results| == |was| && forall j | 0 <= j < |was| :: results[j] == if j in group then was[j].(skipped := true) else was[j]
      ensures LeftAlone(old(View()), View(), plan, group, |group|)
      ensures Finished(View(), plan, group, |group|)
    {
      hide Possible, After, AllDurable, WholeRun, Do, Enabled, Taken, OnlyMoved;
      results := was;
      for n := 0 to |group|
        invariant Traced() && start == old(start) && saving == old(saving) && old(trace) <= trace
        invariant targets == old(targets)
        invariant LeftAlone(old(View()), View(), plan, group, n)
        invariant Waiting(View(), plan, group, n)
        invariant Finished(View(), plan, group, n)
        invariant |results| == |was|
        invariant forall j | 0 <= j < |was| :: results[j] == if j in group[..n] then was[j].(skipped := true) else was[j]
      {
        ghost var w := View();
        var j := group[n];
        assert Ready(w, plan, j);
        Stop(plan.names[j], canDelete, plan.answers[j]);
        OneDone(old(View()), w, View(), plan, group, n);
        results := results[j := results[j].(skipped := true)];
        assert group[..n + 1] == group[..n] + [j];
      }
      assert group[..|group|] == group;
    }

    method Stop(s: ServerName, canDelete: bool, a: Answers)
      requires Traced() && View().JobOf(s).Pending?
      modifies this
      ensures Advanced(s, {}) && View().JobOf(s).Idle? && targets == old(targets)
    {
      hide Possible, After, AllDurable, WholeRun, OnlyMoved;
      ghost var w0 := View();
      jobs := jobs[s := Undo(jobs[s].key, jobs[s].prev)];
      assert Taken(w0, Step.StopBeforePush(s)) == Some(View());
      hide Do, Enabled;
      Note(w0, Step.StopBeforePush(s));
      ghost var w1 := View();
      StepOnlyMoves(w0, Step.StopBeforePush(s), w1);
      GoBack(s, canDelete, a);
      OnlyMovedAgain(w0, w1, View(), s, {});
    }

    method PushNext(plan: Plan, j: nat, canDelete: bool) returns (res: ServerResult)
      requires Traced() && plan.Valid() && j < |plan.names| && Ready(View(), plan, j)
      requires saving ==> forall a <- plan.answers :: a.saves(OnMark)
      modifies this
      ensures Advanced(plan.names[j], {}) && View().JobOf(plan.names[j]).Idle?
      ensures Outcome(View(), plan, j, res) && AsAnswered(old(View()), View(), plan, j, res)
    {
      hide Possible, After, AllDurable, WholeRun, Do, Enabled, Taken, OnlyMoved;
      res := PushOne(plan.names[j], canDelete, plan.answers[j]);
    }

    /** Pushes to one group of servers. */
    method PushGroup(plan: Plan, group: seq<nat>, canDelete: bool, was: seq<ServerResult>) returns (results: seq<ServerResult>)
      requires Traced() && plan.Valid() && Waiting(View(), plan, group, 0) && |was| == |plan.names|
      requires saving ==> forall a <- plan.answers :: a.saves(OnMark)
      modifies this
      ensures Traced() && start == old(start) && saving == old(saving) && old(trace) <= trace
      ensures LeftAlone(old(View()), View(), plan, group, |group|)
      ensures Finished(View(), plan, group, |group|)
      ensures |results| == |was| && forall j | 0 <= j < |was| && j !in group :: results[j] == was[j]
      ensures forall i | 0 <= i < |group| :: Outcome(View(), plan, group[i], results[group[i]])
      ensures forall i | 0 <= i < |group| :: AsAnswered(old(View()), View(), plan, group[i], results[group[i]])
    {
      hide Possible, After, AllDurable, WholeRun, Do, Enabled, Taken, OnlyMoved, Outcome, AsAnswered;
      results := was;
      for n := 0 to |group|
        invariant Traced() && start == old(start) && saving == old(saving) && old(trace) <= trace
        invariant LeftAlone(old(View()), View(), plan, group, n)
        invariant Waiting(View(), plan, group, n)
        invariant Finished(View(), plan, group, n)
        invariant |results| == |was| && forall j | 0 <= j < |was| && j !in group :: results[j] == was[j]
        invariant Settled(old(View()), View(), plan, group, n, results)
      {
        ghost var w, before := View(), results;
        assert Ready(w, plan, group[n]);
        var j := group[n];
        var res := PushNext(plan, j, canDelete);
        OneDone(old(View()), w, View(), plan, group, n);
        results := results[j := res];
        OneMoreSettled(old(View()), w, View(), plan, group, n, before, res);
      }
    }

    method ProveNext(ghost w0: World, plan: Plan, rotate: bool, canDelete: bool, i: nat, ghost pending: seq<nat>) returns (r: Proved)
      requires Traced() && plan.Valid() && i < |plan.names| && SameRecords(w0, View(), plan, i)
      requires Waiting(View(), plan, pending, 0) && IdleBut(View(), plan, pending) && forall x | 0 <= x < |pending| :: pending[x] < i
      requires forall j | i <= j < |plan.names| :: plan.answers[j].newKey !in owner
      modifies this
      ensures Traced() && start == old(start) && saving == old(saving) && old(trace) <= trace
      ensures targets == old(targets)
      ensures var next := if r.Proven? then pending + [i] else pending;
        Waiting(View(), plan, next, 0) && IdleBut(View(), plan, next)
      ensures forall j | i < j < |plan.names| :: plan.answers[j].newKey !in owner
      ensures SameRecords(w0, View(), plan, i + 1)
      ensures r.AlreadyVerified? <==> Already(w0, plan, rotate, i)
      ensures r.StopsRun? <==> Halts(w0, plan, rotate, i)
      ensures r.Proven? <==> Proves(w0, plan, rotate, i)
    {
      hide Possible, After, AllDurable, WholeRun, Do, Enabled, Taken, OnlyMoved;
      ghost var w := View();
      NotYet(w, plan, pending, i);
      assert RecordOf(w, plan.names[i]) == RecordOf(w0, plan.names[i]);
      r := Prove(plan.names[i], plan.places[i], rotate, canDelete, plan.answers[i]);
      ProvedOne(w, View(), plan, pending, i, r.Proven?);
      RecordsElsewhere(w0, w, View(), plan, i);
    }

    /** Phase one over every server, until a capped provider or a key that cannot hide stops it. */
    method ProveAll(plan: Plan, rotate: bool, canDelete: bool)
      returns (results: seq<ServerResult>, pending: seq<nat>, stopped: bool)
      requires Traced() && plan.Valid() && Quiet(View())
      requires forall a <- plan.answers :: a.newKey !in owner
      modifies this
      ensures Traced() && start == old(start) && saving == old(saving) && old(trace) <= trace
      ensures targets == old(targets)
      ensures Waiting(View(), plan, pending, 0) && IdleBut(View(), plan, pending)
      ensures |results| == |plan.names| && ProvedSoFar(old(View()), plan, rotate, |plan.names|, results, pending, stopped)
    {
      hide Possible, After, AllDurable, WholeRun, Do, Enabled, Taken, OnlyMoved, Ready, IdleBut, ProvedSoFar, SameRecords, Already, Halts, Proves;
      results, pending, stopped := seq(|plan.names|, i => Untouched), [], false;
      NothingProved(View(), plan, rotate, results);
      NoneWaiting(View(), plan);
      for i := 0 to |plan.names|
        invariant Traced() && start == old(start) && saving == old(saving) && old(trace) <= trace
        invariant targets == old(targets)
        invariant forall x | 0 <= x < |pending| :: pending[x] < i
        invariant Waiting(View(), plan, pending, 0) && IdleBut(View(), plan, pending)
        invariant forall j | i <= j < |plan.names| :: plan.answers[j].newKey !in owner
        invariant SameRecords(old(View()), View(), plan, i)
        invariant |results| == |plan.names| && ProvedSoFar(old(View()), plan, rotate, i, results, pending, stopped)
      {
        if stopped {
          SkippedOn(old(View()), plan, rotate, i, results, pending);
          SameRecordsOn(old(View()), View(), plan, i);
          results := results[i := Skipped];
        } else {
          ghost var w := View();
          var r := ProveNext(old(View()), plan, rotate, canDelete, i, pending);
          ProvedOn(old(View()), plan, rotate, i, results, pending, r);
          match r {
            case AlreadyVerified => results := results[i := AlreadyDone];
            case StopsRun => stopped := true;
            case Proven => pending := pending + [i];
            case Failed =>
          }
        }
      }
    }

    /** Servers with no target go first; with none of those, one configured server goes alone. */
    method Split(plan: Plan, pending: seq<nat>) returns (first: seq<nat>, rest: seq<nat>)
      requires plan.Valid() && Group(plan, pending) && Increasing(pending)
      ensures Group(plan, first) && Group(plan, rest) && Apart(first, rest)
      ensures forall x: nat :: x in first <==> GoesFirst(plan, All(pending), x)
      ensures forall x: nat :: x in rest <==> x in pending && !GoesFirst(plan, All(pending), x)
    {
      first, rest := [], [];
      for n := 0 to |pending|
        invariant Sorted(plan, pending[..n], first, rest)
      {
        assert pending[..n + 1] == pending[..n] + [pending[n]];
        assert pending[n] !in pending[..n];
        SortedNext(plan, pending[..n], first, rest, pending[n]);
        hide Sorted;
        if plan.configured[pending[n]] {
          rest := rest + [pending[n]];
        } else {
          first := first + [pending[n]];
        }
      }
      assert pending[..|pending|] == pending;
      if first == [] && rest != [] {
        OneAlone(plan, pending, rest);
        first, rest := rest[..1], rest[1..];
      } else {
        UnconfiguredFirst(plan, pending, first, rest);
      }
    }

    /** Phase two: the first group, then the rest unless a key was refused in the first. */
    method PushAll(plan: Plan, pending: seq<nat>, canDelete: bool, was: seq<ServerResult>)
      returns (results: seq<ServerResult>, authStopped: bool)
      requires Traced() && plan.Valid() && Waiting(View(), plan, pending, 0) && IdleBut(View(), plan, pending) && Increasing(pending)
      requires |was| == |plan.names| && forall j | 0 <= j < |was| :: was[j].verified ==> was[j].done
      requires saving ==> forall a <- plan.answers :: a.saves(OnMark)
      modifies this
      ensures Traced() && start == old(start) && saving == old(saving) && old(trace) <= trace
      ensures Quiet(View())
      ensures |results| == |plan.names| && forall j | 0 <= j < |results| :: Outcome(View(), plan, j, results[j])
      ensures authStopped <==> RefusedFirst(plan, All(pending)) && SomeWait(plan, All(pending))
      ensures ResultsAre(old(View()), plan, All(pending), was, results)
      ensures TargetsAre(old(View()), View(), plan, Served(plan, All(pending)))
      ensures RefusedFirst(plan, All(pending)) ==> AtMostOneMoved(old(View()), View(), plan)
    {
      hide Possible, After, AllDurable, WholeRun, Do, Enabled, Taken, OnlyMoved, Ready, ResultsAre, TargetsAre, Served;
      var first, rest := Split(plan, pending);
      ghost var w0 := View();
      Subgroups(w0, plan, pending, first, rest);
      results := PushGroup(plan, first, canDelete, was);
      ghost var w1 := View();
      StillWaiting(w0, w1, plan, first, rest);
      var refused := false;
      for n := 0 to |first|
        invariant refused <==> exists i :: 0 <= i < n && results[first[i]].authError
      {
        refused := refused || results[first[n]].authError;
      }
      RefusedIs(w0, w1, plan, pending, first, rest, results, refused);
      authStopped := refused && rest != [];
      ghost var before := results;
      if authStopped {
        results := StopAll(plan, rest, canDelete, results);
      } else {
        results := PushGroup(plan, rest, canDelete, results);
      }
      AllSettled(w0, w1, View(), plan, pending, first, rest, was, before, results, authStopped);
      AllAnswered(w0, w1, View(), plan, pending, first, rest, was, before, results, authStopped);
      RefusalMovesOne(w0, View(), plan, All(pending));
    }

    method RunBoth(plan: Plan, rotate: bool, canDelete: bool) returns (results: seq<ServerResult>, stopped: bool, authStopped: bool)
      requires Traced() && plan.Valid() && Quiet(View()) && forall a <- plan.answers :: a.newKey !in owner
      requires saving ==> forall a <- plan.answers :: a.saves(OnMark)
      modifies this
      ensures Traced() && start == old(start) && saving == old(saving) && Quiet(View())
      ensures |results| == |plan.names| && forall j | 0 <= j < |results| :: Outcome(View(), plan, j, results[j])
      ensures stopped <==> Halted(old(View()), plan, rotate)
      ensures stopped ==> targets == old(targets)
      ensures var passing := Passing(old(View()), plan, rotate);
        && (authStopped <==> RefusedFirst(plan, passing) && SomeWait(plan, passing))
        && ResultsAre(old(View()), plan, passing, ProofResults(old(View()), plan, rotate), results)
        && TargetsAre(old(View()), View(), plan, Served(plan, passing))
        && (RefusedFirst(plan, passing) ==> AtMostOneMoved(old(View()), View(), plan))
    {
      hide Possible, After, AllDurable, WholeRun, Do, Enabled, Taken, OnlyMoved, Ready, ProvedSoFar, AtMostOneMoved, Outcome;
      hide Halted, RefusedFirst, SomeWait, ResultsAre, TargetsAre, Served;
      ghost var w0 := View();
      var pending;
      results, pending, stopped := ProveAll(plan, rotate, canDelete);
      authStopped := false;
      if stopped {
        ghost var w1, before := View(), results;
        results := StopAll(plan, pending, canDelete, results);
        NonePassing(w0, View(), plan, rotate, before, pending, results);
        AllIdle(w1, View(), plan, pending);
      } else {
        AllPassing(w0, plan, rotate, results, pending);
        ghost var w1 := View();
        results, authStopped := PushAll(plan, pending, canDelete, results);
        FromPhaseOne(w0, w1, View(), plan, All(pending), ProofResults(w0, plan, rotate), results);
      }
    }

    /**
     One run of the storage step. When it returns, no key Dash could name or was told of is
     forgotten, no server was cut off from its key, and every newly verified server holds this run's key
     with nothing left to replace. Its plan tells whether it was stopped and why, every server's result,
     and where every server's target ends.
     */
    method Apply(plan: Plan, rotate: bool, canDelete: bool)
      returns (results: seq<ServerResult>, stopped: bool, authStopped: bool)
      requires start == View() && trace == [] && Inv(View()) && Quiet(View())
      requires plan.Valid() && forall a <- plan.answers :: a.newKey !in owner
      requires saving ==> forall a <- plan.answers :: a.saves(OnMark)
      modifies this
      ensures Quiet(View())
      ensures forall k | k in provider && ((k in old(owner) && Named(old(View()), k)) || k in known - old(known)) ::
                k in owner && Named(View(), k)
      ensures saving ==> Inv(View()) && forall s, k | View().Holds(s, k) :: k in provider
      ensures |results| == |plan.names| && forall j | 0 <= j < |results| :: Outcome(View(), plan, j, results[j])
      ensures stopped <==> Halted(old(View()), plan, rotate)
      ensures stopped ==> targets == old(targets)
      ensures var passing := Passing(old(View()), plan, rotate);
        && (authStopped <==> RefusedFirst(plan, passing) && SomeWait(plan, passing))
        && ResultsAre(old(View()), plan, passing, ProofResults(old(View()), plan, rotate), results)
        && TargetsAre(old(View()), View(), plan, Served(plan, passing))
        && (RefusedFirst(plan, passing) ==> AtMostOneMoved(old(View()), View(), plan))
    {
      hide Possible, After, AllDurable, WholeRun, Do, Enabled, Taken, OnlyMoved, Inv, Named;
      hide Halted, Passing, RefusedFirst, SomeWait, ResultsAre, TargetsAre, Served, Outcome, AtMostOneMoved, ProofResults;
      ghost var w0 := View();
      EmptyRun(w0);
      results, stopped, authStopped := RunBoth(plan, rotate, canDelete);
      NoKeyForgotten(w0, trace);
      if saving {
        HeldKeysSurvive(w0, trace);
      }
    }
  }

  // ---------------------------------------------------------------- phase one, server by server

  ghost predicate Increasing(order: seq<nat>) { forall i, j | 0 <= i < j < |order| :: order[i] < order[j] }

  ghost function All(order: seq<nat>): set<nat> { set j | j in order }

  /** Of the first `n` servers: whether one halted the run, which passed before that, and what is reported of each. */
  ghost predicate ProvedSoFar(w: World, plan: Plan, rotate: bool, n: nat, results: seq<ServerResult>, pending: seq<nat>, stopped: bool)
    requires plan.Valid() && n <= |plan.names| == |results|
  {
    && stopped == HaltedBefore(w, plan, rotate, n)
    && Increasing(pending)
    && (forall j: nat :: j in pending <==> j < n && Proves(w, plan, rotate, j) && !HaltedBefore(w, plan, rotate, j))
    && (forall j | 0 <= j < |results| ::
          results[j] == if j < n && HaltedBefore(w, plan, rotate, j) then Skipped
                        else if j < n && Already(w, plan, rotate, j) then AlreadyDone
                        else Untouched)
  }

  lemma NoneWaiting(w: World, plan: Plan)
    requires plan.Valid() && Quiet(w)
    ensures Waiting(w, plan, [], 0) && IdleBut(w, plan, []) && SameRecords(w, w, plan, 0)
  {}

  lemma NothingProved(w: World, plan: Plan, rotate: bool, results: seq<ServerResult>)
    requires plan.Valid() && |results| == |plan.names| && forall j | 0 <= j < |results| :: results[j] == Untouched
    ensures ProvedSoFar(w, plan, rotate, 0, results, [], false)
  {}

  lemma HaltedNext(w: World, plan: Plan, rotate: bool, i: nat)
    requires plan.Valid() && i < |plan.names|
    ensures HaltedBefore(w, plan, rotate, i + 1) <==> HaltedBefore(w, plan, rotate, i) || Halts(w, plan, rotate, i)
  {
    hide Halts;
  }

  lemma SkippedOn(w: World, plan: Plan, rotate: bool, i: nat, results: seq<ServerResult>, pending: seq<nat>)
    requires plan.Valid() && i < |plan.names| == |results| && ProvedSoFar(w, plan, rotate, i, results, pending, true)
    ensures ProvedSoFar(w, plan, rotate, i + 1, results[i := Skipped], pending, true)
  {
    HaltedNext(w, plan, rotate, i);
    hide HaltedBefore, Already, Proves, Increasing;
  }

  lemma ProvedOn(w: World, plan: Plan, rotate: bool, i: nat, results: seq<ServerResult>, pending: seq<nat>, r: Proved)
    requires plan.Valid() && i < |plan.names| == |results| && ProvedSoFar(w, plan, rotate, i, results, pending, false)
    requires r.AlreadyVerified? <==> Already(w, plan, rotate, i)
    requires r.StopsRun? <==> Halts(w, plan, rotate, i)
    requires r.Proven? <==> Proves(w, plan, rotate, i)
    ensures ProvedSoFar(w, plan, rotate, i + 1, if r.AlreadyVerified? then results[i := AlreadyDone] else results,
                        if r.Proven? then pending + [i] else pending, r.StopsRun?)
  {
    HaltedNext(w, plan, rotate, i);
    hide HaltedBefore, Already, Proves, Halts, Increasing;
    OneMorePending(pending, i);
  }

  lemma OneMorePending(pending: seq<nat>, i: nat)
    requires Increasing(pending) && forall j <- pending :: j < i
    ensures Increasing(pending + [i]) && forall j: nat :: j in pending + [i] <==> j in pending || j == i
  {
    assert forall x | 0 <= x < |pending| :: pending[x] in pending;
  }

  /** Servers from `i` on have the records they began with. */
  ghost predicate SameRecords(w0: World, w: World, plan: Plan, i: nat)
    requires plan.Valid()
  {
    forall j | i <= j < |plan.names| :: RecordOf(w, plan.names[j]) == RecordOf(w0, plan.names[j])
  }

  lemma SameRecordsOn(w0: World, w: World, plan: Plan, i: nat)
    requires plan.Valid() && SameRecords(w0, w, plan, i)
    ensures SameRecords(w0, w, plan, i + 1)
  {}

  lemma RecordsElsewhere(w0: World, w: World, w': World, plan: Plan, i: nat)
    requires plan.Valid() && i < |plan.names| && SameRecords(w0, w, plan, i)
    requires OnlyMoved(w, w', plan.names[i], {plan.answers[i].newKey})
    ensures SameRecords(w0, w', plan, i + 1)
  {}

  lemma AllPassing(w: World, plan: Plan, rotate: bool, results: seq<ServerResult>, pending: seq<nat>)
    requires plan.Valid() && |plan.names| == |results| && ProvedSoFar(w, plan, rotate, |plan.names|, results, pending, false)
    ensures Increasing(pending) && All(pending) == Passing(w, plan, rotate) && !Halted(w, plan, rotate)
    ensures results == ProofResults(w, plan, rotate)
    ensures forall j | 0 <= j < |results| :: results[j].verified ==> results[j].done
  {
    NotHaltedBefore(w, plan, rotate);
    hide HaltedBefore, Already, Proves, Increasing;
    assert forall j | 0 <= j < |results| :: results[j] == ProofResult(w, plan, rotate, j);
  }

  lemma NotHaltedBefore(w: World, plan: Plan, rotate: bool)
    requires plan.Valid()
    ensures !Halted(w, plan, rotate) ==> forall j: nat | j <= |plan.names| :: !HaltedBefore(w, plan, rotate, j)
  {
    hide Halts;
  }

  /** A run halted in phase one reports each server's proof, and nothing is pushed. */
  lemma NonePassing(w: World, w': World, plan: Plan, rotate: bool, before: seq<ServerResult>, pending: seq<nat>, results: seq<ServerResult>)
    requires plan.Valid() && |plan.names| == |before| == |results|
    requires ProvedSoFar(w, plan, rotate, |plan.names|, before, pending, true) && w'.targets == w.targets
    requires forall j | 0 <= j < |results| :: results[j] == if j in pending then before[j].(skipped := true) else before[j]
    ensures Halted(w, plan, rotate) && Passing(w, plan, rotate) == {}
    ensures ResultsAre(w, plan, {}, ProofResults(w, plan, rotate), results) && TargetsAre(w, w', plan, Served(plan, {}))
    ensures !RefusedFirst(plan, {}) && forall j | 0 <= j < |results| :: Outcome(w', plan, j, results[j])
  {
    hide HaltedBefore, Already, Proves, Increasing;
  }

  /** Phase one moves no target, so what phase two promises from its start it promises from the run's. */
  lemma FromPhaseOne(w0: World, w1: World, w2: World, plan: Plan, passing: set<nat>, was: seq<ServerResult>, results: seq<ServerResult>)
    requires plan.Valid() && (forall i <- passing :: i < |plan.names|) && w1.targets == w0.targets
    ensures ResultsAre(w1, plan, passing, was, results) ==> ResultsAre(w0, plan, passing, was, results)
    ensures TargetsAre(w1, w2, plan, Served(plan, passing)) ==> TargetsAre(w0, w2, plan, Served(plan, passing))
    ensures AtMostOneMoved(w1, w2, plan) ==> AtMostOneMoved(w0, w2, plan)
  {
    hide Served;
    assert forall t :: w1.TargetOf(t) == w0.TargetOf(t);
  }

  lemma AllIdle(w: World, w': World, plan: Plan, group: seq<nat>)
    requires plan.Valid() && Group(plan, group) && IdleBut(w, plan, group)
    requires LeftAlone(w, w', plan, group, |group|) && Finished(w', plan, group, |group|)
    ensures Quiet(w')
  {}

  // ---------------------------------------------------------------- the two groups

  /** So far, servers without a target are in the first group and the others in the rest, each once and in order. */
  ghost predicate Sorted(plan: Plan, seen: seq<nat>, first: seq<nat>, rest: seq<nat>)
    requires plan.Valid()
  {
    && Group(plan, first) && Group(plan, rest)
    && (forall x :: x in seen <==> x in first || x in rest)
    && (forall i | 0 <= i < |first| :: !plan.configured[first[i]])
    && (forall i | 0 <= i < |rest| :: plan.configured[rest[i]])
    && (first == [] ==> rest == seen)
  }

  lemma SortedNext(plan: Plan, seen: seq<nat>, first: seq<nat>, rest: seq<nat>, j: nat)
    requires plan.Valid() && Sorted(plan, seen, first, rest) && j < |plan.names| && j !in seen
    ensures if plan.configured[j] then Sorted(plan, seen + [j], first, rest + [j]) else Sorted(plan, seen + [j], first + [j], rest)
  {}

  /** With only configured servers, the first of them goes alone. */
  lemma OneAlone(plan: Plan, pending: seq<nat>, rest: seq<nat>)
    requires plan.Valid() && Increasing(pending) && Sorted(plan, pending, [], rest) && rest != []
    ensures Group(plan, rest[..1]) && Group(plan, rest[1..]) && Apart(rest[..1], rest[1..])
    ensures forall x: nat :: x in rest[..1] <==> GoesFirst(plan, All(pending), x)
    ensures forall x: nat :: x in rest[1..] <==> x in pending && !GoesFirst(plan, All(pending), x)
  {
    assert rest == pending && pending == pending[..1] + pending[1..];
    assert forall x :: x in pending <==> x == pending[0] || x in pending[1..];
    assert forall x <- pending :: plan.configured[x] && pending[0] <= x;
    assert pending[0] !in pending[1..];
  }

  lemma UnconfiguredFirst(plan: Plan, pending: seq<nat>, first: seq<nat>, rest: seq<nat>)
    requires plan.Valid() && Sorted(plan, pending, first, rest) && (first != [] || rest == [])
    ensures Apart(first, rest)
    ensures forall x: nat :: x in first <==> GoesFirst(plan, All(pending), x)
    ensures forall x: nat :: x in rest <==> x in pending && !GoesFirst(plan, All(pending), x)
  {
    if first != [] {
      assert first[0] in All(pending) && !plan.configured[first[0]];
    }
  }

  ghost predicate Apart(first: seq<nat>, rest: seq<nat>) {
    forall i, j | 0 <= i < |first| && 0 <= j < |rest| :: first[i] != rest[j]
  }

  lemma Subgroups(w: World, plan: Plan, pending: seq<nat>, first: seq<nat>, rest: seq<nat>)
    requires plan.Valid() && Waiting(w, plan, pending, 0) && Group(plan, first) && Group(plan, rest)
    requires forall x :: x in pending <==> x in first || x in rest
    ensures Waiting(w, plan, first, 0) && Waiting(w, plan, rest, 0)
  {
    forall i | 0 <= i < |first| ensures Ready(w, plan, first[i]) {
      assert first[i] in pending;
    }
    forall i | 0 <= i < |rest| ensures Ready(w, plan, rest[i]) {
      assert rest[i] in pending;
    }
  }

  /** Working on one group leaves the other as it was. */
  lemma StillWaiting(w: World, w': World, plan: Plan, first: seq<nat>, rest: seq<nat>)
    requires plan.Valid() && Waiting(w, plan, rest, 0) && Group(plan, first) && Apart(first, rest)
    requires LeftAlone(w, w', plan, first, |first|)
    ensures Waiting(w', plan, rest, 0)
  {
    forall j | 0 <= j < |rest| ensures Ready(w', plan, rest[j]) {
      assert forall i | 0 <= i < |first| :: plan.names[first[i]] != plan.names[rest[j]];
      assert Ready(w, plan, rest[j]);
    }
  }

  /** What phase two leaves, put together from its two groups. */
  lemma AllSettled(w0: World, w1: World, w2: World, plan: Plan, pending: seq<nat>, first: seq<nat>, rest: seq<nat>,
                   was: seq<ServerResult>, before: seq<ServerResult>, results: seq<ServerResult>, stopped: bool)
    requires plan.Valid() && Group(plan, pending) && Group(plan, first) && Group(plan, rest) && Apart(first, rest)
    requires IdleBut(w0, plan, pending) && forall x :: x in pending <==> x in first || x in rest
    requires LeftAlone(w0, w1, plan, first, |first|) && LeftAlone(w1, w2, plan, rest, |rest|)
    requires Finished(w1, plan, first, |first|) && Finished(w2, plan, rest, |rest|)
    requires |was| == |before| == |results| == |plan.names| && forall j | 0 <= j < |was| :: was[j].verified ==> was[j].done
    requires forall j | 0 <= j < |was| && j !in first :: before[j] == was[j]
    requires forall i | 0 <= i < |first| :: Outcome(w1, plan, first[i], before[first[i]])
    requires if stopped then
        w2.targets == w1.targets && forall j | 0 <= j < |results| :: results[j] == if j in rest then before[j].(skipped := true) else before[j]
      else
      && (forall j | 0 <= j < |was| && j !in rest :: results[j] == before[j])
      && (forall i | 0 <= i < |rest| :: Outcome(w2, plan, rest[i], results[rest[i]]))
    ensures Quiet(w2)
    ensures forall j | 0 <= j < |results| :: Outcome(w2, plan, j, results[j])
  {
    forall t ensures w2.JobOf(t).Idle? {
      SettledAt(w0, w1, w2, plan, pending, first, rest, t);
    }
    forall j | 0 <= j < |results| ensures Outcome(w2, plan, j, results[j]) {
      if j in rest {
        var i :| 0 <= i < |rest| && rest[i] == j;
        assert j !in first;
        assert before[j] == was[j];
      } else if j in first {
        var i :| 0 <= i < |first| && first[i] == j;
        NotTouched(plan, rest, j);
      }
    }
  }

  /** An error in the first group is a key refused to a server that goes first. */
  lemma RefusedIs(w0: World, w1: World, plan: Plan, pending: seq<nat>, first: seq<nat>, rest: seq<nat>, results: seq<ServerResult>, refused: bool)
    requires plan.Valid() && Group(plan, pending) && Group(plan, first) && |results| == |plan.names|
    requires forall x: nat :: x in first <==> GoesFirst(plan, All(pending), x)
    requires forall x: nat :: x in rest <==> x in pending && !GoesFirst(plan, All(pending), x)
    requires forall i | 0 <= i < |first| :: AsAnswered(w0, w1, plan, first[i], results[first[i]])
    requires refused <==> exists i :: 0 <= i < |first| && results[first[i]].authError
    ensures refused <==> RefusedFirst(plan, All(pending))
    ensures rest != [] <==> SomeWait(plan, All(pending))
  {
    hide GoesFirst;
    if j: nat :| GoesFirst(plan, All(pending), j) && KeyRefused(plan.answers[j]) {
      var i :| 0 <= i < |first| && first[i] == j;
    }
    if rest != [] { assert rest[0] in rest; }
  }

  /** What phase two reports, and where it leaves targets, put together from its two groups. */
  lemma AllAnswered(w0: World, w1: World, w2: World, plan: Plan, pending: seq<nat>, first: seq<nat>, rest: seq<nat>,
                    was: seq<ServerResult>, before: seq<ServerResult>, results: seq<ServerResult>, stopped: bool)
    requires plan.Valid() && Group(plan, pending) && Group(plan, first) && Group(plan, rest) && Apart(first, rest)
    requires forall x: nat :: x in first <==> GoesFirst(plan, All(pending), x)
    requires forall x: nat :: x in rest <==> x in pending && !GoesFirst(plan, All(pending), x)
    requires LeftAlone(w0, w1, plan, first, |first|) && LeftAlone(w1, w2, plan, rest, |rest|)
    requires |was| == |before| == |results| == |plan.names|
    requires forall j | 0 <= j < |was| && j !in first :: before[j] == was[j]
    requires forall i | 0 <= i < |first| :: AsAnswered(w0, w1, plan, first[i], before[first[i]])
    requires stopped <==> RefusedFirst(plan, All(pending)) && rest != []
    requires if stopped then
        w2.targets == w1.targets && forall j | 0 <= j < |results| :: results[j] == if j in rest then before[j].(skipped := true) else before[j]
      else
        && (forall j | 0 <= j < |was| && j !in rest :: results[j] == before[j])
        && (forall i | 0 <= i < |rest| :: AsAnswered(w1, w2, plan, rest[i], results[rest[i]]))
    ensures ResultsAre(w0, plan, All(pending), was, results)
    ensures TargetsAre(w0, w2, plan, Served(plan, All(pending)))
  {
    ServedAre(plan, pending, first, rest, stopped);
    hide GoesFirst, Reports, RefusedFirst, Served, TargetAfter, AsAnswered, LeftAlone;
    forall j | 0 <= j < |plan.names|
      ensures w2.TargetOf(plan.names[j]) == if j in Served(plan, All(pending)) then TargetAfter(w0, plan, j) else w0.TargetOf(plan.names[j])
      ensures if j in Served(plan, All(pending)) then Reports(w0, plan, j, results[j])
              else if j in pending then results[j] == was[j].(skipped := true)
              else results[j] == was[j]
    {
      AnsweredAt(w0, w1, w2, plan, first, rest, was, before, results, stopped, j);
    }
    forall t | t !in plan.names ensures w2.TargetOf(t) == w0.TargetOf(t) {
      Unnamed(w0, w1, plan, first, t);
      Unnamed(w1, w2, plan, rest, t);
    }
  }

  lemma Unnamed(w: World, w': World, plan: Plan, group: seq<nat>, t: ServerName)
    requires plan.Valid() && Group(plan, group) && t !in plan.names && LeftAlone(w, w', plan, group, |group|)
    ensures w'.TargetOf(t) == w.TargetOf(t)
  {
    assert forall i | 0 <= i < |group| :: plan.names[group[i]] in plan.names;
  }

  lemma ServedAre(plan: Plan, pending: seq<nat>, first: seq<nat>, rest: seq<nat>, stopped: bool)
    requires plan.Valid() && Group(plan, pending)
    requires forall x: nat :: x in first <==> GoesFirst(plan, All(pending), x)
    requires forall x: nat :: x in rest <==> x in pending && !GoesFirst(plan, All(pending), x)
    requires stopped <==> RefusedFirst(plan, All(pending)) && rest != []
    ensures forall j: nat :: j in Served(plan, All(pending)) <==> j in first || (j in rest && !stopped)
    ensures forall j: nat :: j in pending <==> j in first || j in rest
  {
    hide RefusedFirst;
    forall j: nat ensures j in Served(plan, All(pending)) <==> j in first || (j in rest && !stopped) {
      assert GoesFirst(plan, All(pending), j) ==> j in pending;
      assert j in rest ==> rest != [];
    }
  }

  lemma AnsweredAt(w0: World, w1: World, w2: World, plan: Plan, first: seq<nat>, rest: seq<nat>,
                   was: seq<ServerResult>, before: seq<ServerResult>, results: seq<ServerResult>, stopped: bool, j: nat)
    requires plan.Valid() && Group(plan, first) && Group(plan, rest) && Apart(first, rest) && j < |plan.names|
    requires LeftAlone(w0, w1, plan, first, |first|) && LeftAlone(w1, w2, plan, rest, |rest|)
    requires |was| == |before| == |results| == |plan.names|
    requires j !in first ==> before[j] == was[j]
    requires forall i | 0 <= i < |first| :: AsAnswered(w0, w1, plan, first[i], before[first[i]])
    requires if stopped then w2.targets == w1.targets && results[j] == if j in rest then before[j].(skipped := true) else before[j]
      else (j !in rest ==> results[j] == before[j]) && forall i | 0 <= i < |rest| :: AsAnswered(w1, w2, plan, rest[i], results[rest[i]])
    ensures w2.TargetOf(plan.names[j]) == if j in first || (j in rest && !stopped) then TargetAfter(w0, plan, j) else w0.TargetOf(plan.names[j])
    ensures if j in first || (j in rest && !stopped) then Reports(w0, plan, j, results[j])
            else if j in rest then results[j] == was[j].(skipped := true)
            else results[j] == was[j]
  {
    if j in first {
      var i :| 0 <= i < |first| && first[i] == j;
      assert j !in rest;
      NotTouched(plan, rest, j);
    } else {
      NotTouched(plan, first, j);
      if j in rest {
        var i :| 0 <= i < |rest| && rest[i] == j;
      } else {
        NotTouched(plan, rest, j);
      }
    }
  }

  /** Of the configured servers, at most one has another target than before. */
  ghost predicate AtMostOneMoved(w: World, w': World, plan: Plan)
    requires plan.Valid()
  {
    forall i, j | 0 <= i < j < |plan.names| && plan.configured[i] && plan.configured[j] ::
      Kept(w, w', plan.names[i]) || Kept(w, w', plan.names[j])
  }

  lemma RefusalMovesOne(w: World, w': World, plan: Plan, passing: set<nat>)
    requires plan.Valid() && (forall i <- passing :: i < |plan.names|) && TargetsAre(w, w', plan, Served(plan, passing))
    ensures RefusedFirst(plan, passing) ==> AtMostOneMoved(w, w', plan)
  {
    if RefusedFirst(plan, passing) {
      forall i, j | 0 <= i < j < |plan.names| && plan.configured[i] && plan.configured[j]
        ensures Kept(w, w', plan.names[i]) || Kept(w, w', plan.names[j])
      {
        if i in Served(plan, passing) && j in Served(plan, passing) {
          RefusalSparesTheRest(plan, passing, i, j);
        }
      }
    }
  }

  lemma NotTouched(plan: Plan, group: seq<nat>, j: nat)
    requires plan.Valid() && Group(plan, group) && j < |plan.names| && j !in group
    ensures forall i | 0 <= i < |group| :: plan.names[group[i]] != plan.names[j]
  {
  }

  lemma SettledAt(w0: World, w1: World, w2: World, plan: Plan, pending: seq<nat>, first: seq<nat>, rest: seq<nat>, t: ServerName)
    requires plan.Valid() && Group(plan, pending) && Group(plan, first) && Group(plan, rest)
    requires IdleBut(w0, plan, pending) && forall x :: x in pending <==> x in first || x in rest
    requires LeftAlone(w0, w1, plan, first, |first|) && LeftAlone(w1, w2, plan, rest, |rest|)
    requires Finished(w1, plan, first, |first|) && Finished(w2, plan, rest, |rest|)
    ensures w2.JobOf(t).Idle?
  {
    if i :| 0 <= i < |rest| && plan.names[rest[i]] == t {
    } else if i :| 0 <= i < |first| && plan.names[first[i]] == t {
    } else {
      forall i | 0 <= i < |pending| ensures plan.names[pending[i]] != t {
        assert pending[i] in first || pending[i] in rest;
      }
    }
  }

  lemma FirstAndRest(ks: seq<KeyId>)
    requires ks != []
    ensures forall k :: k in ks <==> k == ks[0] || k in ks[1..]
  {}

  lemma EmptyRun(w: World)
    ensures Possible(w, []) && After(w, []) == w && AllDurable(w, []) && WholeRun([])
  {
  }

  lemma NothingMoved(w: World, s: ServerName)
    ensures OnlyMoved(w, w, s, {})
  {
  }

  lemma OnlyMovedWider(w: World, w': World, s: ServerName, minted: set<KeyId>, more: set<KeyId>)
    requires OnlyMoved(w, w', s, minted) && minted <= more
    ensures OnlyMoved(w, w', s, more)
  {
  }

  lemma {:induction false} Extended(w: World, run: seq<Step>, step: Step)
    requires Possible(w, run) && Enabled(After(w, run), step)
    ensures Possible(w, run + [step]) && After(w, run + [step]) == Do(After(w, run), step)
    ensures AllDurable(w, run) && Durable(After(w, run), step) ==> AllDurable(w, run + [step])
    decreases |run|
  {
    if run == [] {
      assert [step][1..] == [];
      assert [] + [step] == [step];
    } else {
      Extended(Do(w, run[0]), run[1..], step);
      assert (run + [step])[1..] == run[1..] + [step];
    }
  }
}
