/**
 The server-key rotation protocol behind "Protect my data": one run of the storage step
 mints a key for each server, proves it, pushes it, and retires the keys it replaces.

 Three parties hold state that can disagree: Dash's record (in memory, and as last saved),
 the provider's set of live keys, and the target each server really stores. Every provider
 call, save and push is a step of its own, so servers interleave freely and a crash can
 fall between any two steps.
 */
module KeyRotation {
  import opened Wrappers

  type ServerName = string
  type KeyId = nat

  datatype KeyState = Minted | Pushing | Pushed | Verified | Ambiguous

  /** The bucket and prefix a key is limited to, and a server's target names. */
  datatype Place = Place(bucket: string, prefix: string)

  /** Dash's record for one server. `older` are previous keys the server may still use. */
  datatype KeyRecord = KeyRecord(keyId: Option<KeyId>, place: Place, state: KeyState, older: seq<KeyId>)

  /** What a server stores. `Foreign` is a target whose key Dash did not make. */
  datatype Target = Nothing | Foreign(place: Place) | Own(key: KeyId, place: Place)

  /** How far the running handler is with one server. `prev` is its copy of the old record. */
  datatype Job =
    | Idle
    | Stale(place: Place, stale: KeyRecord)
    | ToMint(place: Place, prev: Option<KeyRecord>)
    | ToSave(place: Place, key: KeyId, prev: Option<KeyRecord>)
    | Probing(place: Place, key: KeyId, prev: Option<KeyRecord>)
    | Pending(place: Place, key: KeyId, prev: Option<KeyRecord>)
    | AtPush(place: Place, key: KeyId, prev: Option<KeyRecord>)
    | Replied(place: Place, key: KeyId, prev: Option<KeyRecord>, acked: bool)
    | Undo(key: KeyId, prev: Option<KeyRecord>)
    | Restoring(prev: Option<KeyRecord>)
    | Retiring(key: KeyId, due: seq<KeyId>)

  /** Dash's own record: what it keeps per server and the keys it could not delete. */
  datatype Setup = Setup(keys: map<ServerName, KeyRecord>, leftovers: seq<KeyId>)

  /**
   `disk` is the record as last saved. `owner` says which server each key was made for, its
   domain being every key ever made; `known` are those whose creation Dash was told about;
   `reached` are those that ever landed on a server.
   */
  datatype World = World(
    mem: Setup,
    disk: Setup,
    jobs: map<ServerName, Job>,
    provider: set<KeyId>,
    targets: map<ServerName, Target>,
    owner: map<KeyId, ServerName>,
    known: set<KeyId>,
    reached: set<KeyId>)
  {
    function JobOf(s: ServerName): Job { if s in jobs then jobs[s] else Idle }

    function TargetOf(s: ServerName): Target { if s in targets then targets[s] else Nothing }

    function At(s: ServerName, job: Job): World { this.(jobs := jobs[s := job]) }

    function Saved(landed: bool): World { if landed then this.(disk := mem) else this }

    function WithRecord(s: ServerName, rec: Option<KeyRecord>): World {
      this.(mem := mem.(keys := if rec.Some? then mem.keys[s := rec.value] else mem.keys - {s}))
    }

    predicate Holds(s: ServerName, k: KeyId) { TargetOf(s).Own? && TargetOf(s).key == k }
  }

  /** A provider delete: `gone` is whether it took effect, `acked` whether Dash was told so. */
  datatype Delete = Delete(gone: bool, acked: bool)

  datatype Step =
    | Begin(s: ServerName, place: Place, rotate: bool)
    | DropStale(s: ServerName, reply: Delete, landed: bool)
    | MintRefused(s: ServerName)
    | MintUnheard(s: ServerName, key: KeyId)
    | MintOk(s: ServerName, key: KeyId)
    | SaveMinted(s: ServerName, landed: bool)
    | ProbeFailed(s: ServerName)
    | ProbePassed(s: ServerName)
    | StopBeforePush(s: ServerName)
    | DropNew(s: ServerName, reply: Delete, landed: bool)
    | Restore(s: ServerName, landed: bool)
    | MarkPushing(s: ServerName, landed: bool)
    | PushCall(s: ServerName, acked: bool, applied: bool)
    | RecordVerified(s: ServerName, landed: bool)
    | RecordPushed(s: ServerName, landed: bool)
    | FoundMissed(s: ServerName)
    | RecordAmbiguous(s: ServerName, landed: bool)
    | DropOld(s: ServerName, reply: Delete, landed: bool)
    | HandPush(s: ServerName, place: Place)
    | ManualForm(s: ServerName, place: Place, landed: bool)
    | Crash

  /** What is left of a record once its newest key has gone: the key it replaced. */
  function ChainRecord(rec: KeyRecord): Option<KeyRecord> {
    var n := |rec.older|;
    if n == 0 then None
    else Some(KeyRecord(Some(rec.older[n - 1]), rec.place, Ambiguous, rec.older[..n - 1]))
  }

  function Refs(rec: KeyRecord): set<KeyId> {
    (set k | k in rec.older) + (if rec.keyId.Some? then {rec.keyId.value} else {})
  }

  function RefsOf(rec: Option<KeyRecord>): set<KeyId> {
    if rec.Some? then Refs(rec.value) else {}
  }

  function RecordOf(w: World, s: ServerName): Option<KeyRecord> {
    if s in w.mem.keys then Some(w.mem.keys[s]) else None
  }

  /** The record saved once a key exists, naming everything it may be replacing. */
  function MintedRecord(place: Place, key: KeyId, prev: Option<KeyRecord>): KeyRecord {
    var older := match prev
      case None => []
      case Some(p) => p.older + (if p.keyId.Some? then [p.keyId.value] else []);
    KeyRecord(Some(key), place, Minted, older)
  }

  /** dropKey: a delete the provider did not confirm leaves the key listed for a person. */
  function Dropped(w: World, k: KeyId, reply: Delete, landed: bool): World {
    var w1 := if reply.gone then w.(provider := w.provider - {k}) else w;
    if reply.acked then w1
    else w1.(mem := w1.mem.(leftovers := w1.mem.leftovers + [k])).Saved(landed)
  }

  /** A delete is only ever acknowledged when the key is gone (deleted now, or missing already). */
  predicate PlausibleDelete(w: World, k: KeyId, reply: Delete) {
    reply.acked ==> reply.gone || k !in w.provider
  }

  predicate Enabled(w: World, step: Step) {
    match step
    case Begin(s, _, _) => w.JobOf(s).Idle?
    case DropStale(s, reply, _) =>
      && w.JobOf(s).Stale?
      && (w.JobOf(s).stale.keyId.Some? ==> PlausibleDelete(w, w.JobOf(s).stale.keyId.value, reply))
    case MintRefused(s) => w.JobOf(s).ToMint?
    case MintUnheard(s, k) => w.JobOf(s).ToMint? && k !in w.owner
    case MintOk(s, k) => w.JobOf(s).ToMint? && k !in w.owner
    case SaveMinted(s, _) => w.JobOf(s).ToSave?
    case ProbeFailed(s) => w.JobOf(s).Probing?
    case ProbePassed(s) => w.JobOf(s).Probing?
    case StopBeforePush(s) => w.JobOf(s).Pending?
    case DropNew(s, reply, _) => w.JobOf(s).Undo? && PlausibleDelete(w, w.JobOf(s).key, reply)
    case Restore(s, _) => w.JobOf(s).Restoring?
    case MarkPushing(s, _) => w.JobOf(s).Pending? && s in w.mem.keys
    case PushCall(s, acked, applied) => w.JobOf(s).AtPush? && (acked ==> applied)
    case RecordVerified(s, _) => w.JobOf(s).Replied? && w.JobOf(s).acked && s in w.mem.keys
    case RecordPushed(s, _) => w.JobOf(s).Replied? && w.JobOf(s).acked && s in w.mem.keys
    case FoundMissed(s) =>
      // The server answered, and stores something other than this bucket and prefix.
      && w.JobOf(s).Replied? && !w.JobOf(s).acked
      && (w.TargetOf(s).Nothing? || w.TargetOf(s).place != w.JobOf(s).place)
    case RecordAmbiguous(s, _) => w.JobOf(s).Replied? && !w.JobOf(s).acked && s in w.mem.keys
    case DropOld(s, reply, _) =>
      && w.JobOf(s).Retiring?
      && (w.JobOf(s).due != [] ==> PlausibleDelete(w, w.JobOf(s).due[0], reply))
    case HandPush(_, _) => true
    case ManualForm(s, _, _) => w.JobOf(s).Idle?
    case Crash => true
  }

  function Do(w: World, step: Step): World
    requires Enabled(w, step)
  {
    match step
    case Begin(s, place, rotate) =>
      var prev := RecordOf(w, s);
      if prev.Some? && prev.value.place == place && !rotate && prev.value.state.Verified? then w
      else if prev.Some? && prev.value.state.Minted? then w.At(s, Stale(place, prev.value))
      else w.At(s, ToMint(place, prev))
    case DropStale(s, reply, landed) =>
      var job := w.JobOf(s);
      var w1 := if job.stale.keyId.Some? then Dropped(w, job.stale.keyId.value, reply, landed) else w;
      w1.At(s, ToMint(job.place, ChainRecord(job.stale)))
    case MintRefused(s) => w.At(s, Idle)
    case MintUnheard(s, k) =>
      w.(provider := w.provider + {k}, owner := w.owner[k := s]).At(s, Idle)
    case MintOk(s, k) =>
      w.(provider := w.provider + {k}, owner := w.owner[k := s], known := w.known + {k})
       .At(s, ToSave(w.JobOf(s).place, k, w.JobOf(s).prev))
    case SaveMinted(s, landed) =>
      var job := w.JobOf(s);
      w.WithRecord(s, Some(MintedRecord(job.place, job.key, job.prev))).Saved(landed)
       .At(s, Probing(job.place, job.key, job.prev))
    case ProbeFailed(s) => w.At(s, Undo(w.JobOf(s).key, w.JobOf(s).prev))
    case ProbePassed(s) => w.At(s, Pending(w.JobOf(s).place, w.JobOf(s).key, w.JobOf(s).prev))
    case StopBeforePush(s) => w.At(s, Undo(w.JobOf(s).key, w.JobOf(s).prev))
    case DropNew(s, reply, landed) =>
      Dropped(w, w.JobOf(s).key, reply, landed).At(s, Restoring(w.JobOf(s).prev))
    case Restore(s, landed) => w.WithRecord(s, w.JobOf(s).prev).Saved(landed).At(s, Idle)
    case MarkPushing(s, landed) =>
      var job := w.JobOf(s);
      w.WithRecord(s, Some(w.mem.keys[s].(state := Pushing))).Saved(landed).At(s, AtPush(job.place, job.key, job.prev))
    case PushCall(s, acked, applied) =>
      var job := w.JobOf(s);
      var w1 := if applied then w.(targets := w.targets[s := Own(job.key, job.place)], reached := w.reached + {job.key}) else w;
      w1.At(s, Replied(job.place, job.key, job.prev, acked))
    case RecordVerified(s, landed) =>
      var rec := w.mem.keys[s];
      w.WithRecord(s, Some(rec.(state := Verified, older := []))).Saved(landed)
       .At(s, Retiring(w.JobOf(s).key, rec.older))
    case RecordPushed(s, landed) =>
      w.WithRecord(s, Some(w.mem.keys[s].(state := Pushed))).Saved(landed).At(s, Idle)
    case FoundMissed(s) => w.At(s, Undo(w.JobOf(s).key, w.JobOf(s).prev))
    case RecordAmbiguous(s, landed) =>
      w.WithRecord(s, Some(w.mem.keys[s].(state := Ambiguous))).Saved(landed).At(s, Idle)
    case DropOld(s, reply, landed) =>
      var job := w.JobOf(s);
      if job.due == [] then w.At(s, Idle)
      else Dropped(w, job.due[0], reply, landed).At(s, Retiring(job.key, job.due[1..]))
    case HandPush(s, place) => w.(targets := w.targets[s := Foreign(place)])
    case ManualForm(s, place, landed) =>
      // The key of a record the form replaces becomes a leftover; its older keys are forgotten.
      var w1 := w.(targets := w.targets[s := Foreign(place)]);
      var lost := if s in w.mem.keys && w.mem.keys[s].keyId.Some? then [w.mem.keys[s].keyId.value] else [];
      w1.(mem := w1.mem.(leftovers := w1.mem.leftovers + lost)).WithRecord(s, None).Saved(landed).At(s, Idle)
    case Crash => w.(mem := w.disk, jobs := map[])
  }

  // ---------------------------------------------------------------- safety

  /** A record is sound for `s`: it names only keys made for `s`, and a key left at minted never landed. */
  ghost predicate RecordSound(w: World, s: ServerName, rec: KeyRecord) {
    && (forall k <- Refs(rec) :: k in w.owner && w.owner[k] == s)
    && (rec.state.Minted? && rec.keyId.Some? ==> rec.keyId.value !in w.reached)
  }

  ghost predicate PrevSound(w: World, s: ServerName, prev: Option<KeyRecord>) {
    prev.Some? ==> RecordSound(w, s, prev.value) && !prev.value.state.Minted?
  }

  /** The key is made for `s`, live, and on no server yet. */
  ghost predicate FreshKey(w: World, s: ServerName, k: KeyId) {
    k in w.owner && w.owner[k] == s && k in w.provider && k !in w.reached
  }

  ghost predicate InRecord(w: World, s: ServerName, k: KeyId) {
    s in w.mem.keys && w.mem.keys[s].keyId == Some(k) && k !in w.mem.keys[s].older
  }

  ghost predicate JobSound(w: World, s: ServerName, job: Job) {
    match job
    case Idle => true
    case Stale(_, rec) => RecordSound(w, s, rec) && rec.state.Minted?
    case ToMint(_, prev) => PrevSound(w, s, prev)
    case ToSave(_, k, prev) => FreshKey(w, s, k) && PrevSound(w, s, prev) && k !in RefsOf(prev)
    case Probing(_, k, prev) => FreshKey(w, s, k) && PrevSound(w, s, prev) && InRecord(w, s, k)
    case Pending(_, k, prev) => FreshKey(w, s, k) && PrevSound(w, s, prev) && InRecord(w, s, k)
    case AtPush(_, k, prev) =>
      && FreshKey(w, s, k) && PrevSound(w, s, prev) && InRecord(w, s, k)
      && w.mem.keys[s].state.Pushing?
    case Replied(place, k, prev, acked) =>
      && k in w.owner && w.owner[k] == s && PrevSound(w, s, prev) && InRecord(w, s, k)
      && w.mem.keys[s].state.Pushing?
      && (acked ==> w.Holds(s, k) || w.TargetOf(s).Foreign?)
      && (w.Holds(s, k) ==> w.TargetOf(s).place == place)
      && (k in w.reached ==> w.Holds(s, k) || w.TargetOf(s).Foreign?)
    case Undo(k, prev) =>
      && k in w.owner && w.owner[k] == s && PrevSound(w, s, prev)
      && !w.Holds(s, k) && (k in w.reached ==> w.TargetOf(s).Foreign?)
    case Restoring(prev) => PrevSound(w, s, prev)
    case Retiring(k, due) =>
      && InRecord(w, s, k) && w.mem.keys[s].state.Verified? && k !in due
      && (w.TargetOf(s).Own? ==> w.TargetOf(s).key == k)
      && (w.TargetOf(s).Own? || w.TargetOf(s).Foreign?)
      && (forall x <- due :: x in w.owner && w.owner[x] == s)
  }

  /** A key a server holds is live, was made for that server and is on record as having reached it. */
  ghost predicate TargetSound(w: World, s: ServerName) {
    w.TargetOf(s).Own? ==>
      var k := w.TargetOf(s).key;
      k in w.owner && w.owner[k] == s && k in w.provider && k in w.reached
  }

  ghost predicate Inv(w: World) {
    && w.reached <= w.owner.Keys
    && w.provider <= w.owner.Keys
    && w.known <= w.owner.Keys
    && (forall s <- w.mem.keys :: RecordSound(w, s, w.mem.keys[s]))
    && (forall s <- w.disk.keys :: RecordSound(w, s, w.disk.keys[s]))
    && (forall s <- w.jobs :: JobSound(w, s, w.jobs[s]))
    && (forall s <- w.targets :: TargetSound(w, s))
  }

  /** The saved record does not still call the key being pushed merely minted. */
  predicate PushDurable(w: World, s: ServerName) {
    w.JobOf(s).AtPush? && s in w.disk.keys && w.disk.keys[s].state.Minted? ==>
      w.disk.keys[s].keyId != Some(w.JobOf(s).key)
  }

  /** Every push that lands was preceded by a save that landed; other saves may be lost. */
  predicate Durable(w: World, step: Step) {
    step.PushCall? && step.applied ==> PushDurable(w, step.s)
  }

  /** What a job's soundness depends on. */
  ghost predicate SameFor(w: World, w': World, t: ServerName) {
    && w'.owner == w.owner && w'.reached == w.reached && w'.provider == w.provider
    && w'.TargetOf(t) == w.TargetOf(t)
    && RecordOf(w', t) == RecordOf(w, t)
  }

  lemma JobFrame(w: World, w': World, t: ServerName, job: Job)
    requires JobSound(w, t, job) && SameFor(w, w', t)
    ensures JobSound(w', t, job)
  {
  }

  /** Only what belongs to `s` changes, and that stays sound. */
  lemma LocalMoves(w: World, w': World, s: ServerName)
    requires Inv(w)
    requires w'.owner == w.owner && w'.reached == w.reached && w'.provider == w.provider && w'.targets == w.targets
    requires w'.known == w.known
    requires forall t | t != s :: RecordOf(w', t) == RecordOf(w, t) && w'.JobOf(t) == w.JobOf(t)
    requires s in w'.mem.keys ==> RecordSound(w', s, w'.mem.keys[s])
    requires w'.disk == w.disk && JobSound(w', s, w'.JobOf(s))
    ensures Inv(w')
  {
    hide JobSound;
    forall t <- w'.mem.keys ensures RecordSound(w', t, w'.mem.keys[t]) {
      assert t != s ==> RecordOf(w', t) == RecordOf(w, t);
    }
    forall t <- w'.jobs ensures JobSound(w', t, w'.jobs[t]) {
      if t != s {
        assert w'.JobOf(t) == w.JobOf(t);
        if t in w.jobs {
          JobFrame(w, w', t, w.jobs[t]);
        } else {
          IdleSound(w', t);
        }
      }
    }
    forall t <- w'.targets ensures TargetSound(w', t) {
      assert TargetSound(w, t);
    }
  }

  lemma IdleSound(w: World, t: ServerName)
    ensures JobSound(w, t, Idle)
  {
  }

  /** Only the job of `s` moves on. */
  lemma JobMoves(w: World, s: ServerName, job: Job)
    requires Inv(w) && JobSound(w, s, job)
    ensures Inv(w.At(s, job))
  {
    hide JobSound, TargetSound;
    JobFrame(w, w.At(s, job), s, job);
    LocalMoves(w, w.At(s, job), s);
  }

  lemma IdleMoves(w: World, s: ServerName)
    requires Inv(w)
    ensures Inv(w.At(s, Idle))
  {
    hide Inv;
    IdleSound(w, s);
    JobMoves(w, s, Idle);
  }

  /** Saving, and listing a key for a person, change nothing the invariant reads beyond sound records. */
  lemma SaveMoves(w: World, leftovers: seq<KeyId>, landed: bool)
    requires Inv(w)
    ensures Inv(w.(mem := w.mem.(leftovers := leftovers)).Saved(landed))
  {
    hide JobSound;
    var w' := w.(mem := w.mem.(leftovers := leftovers)).Saved(landed);
    forall t <- w'.jobs ensures JobSound(w', t, w'.jobs[t]) {
      JobFrame(w, w', t, w.jobs[t]);
    }
    forall t <- w'.targets ensures TargetSound(w', t) {
      assert TargetSound(w, t);
    }
  }

  /** The record of `s` is rewritten (and perhaps saved), and its job moves on. */
  lemma RecordMoves(w: World, s: ServerName, rec: Option<KeyRecord>, landed: bool, job: Job)
    requires Inv(w) && (rec.Some? ==> RecordSound(w, s, rec.value))
    requires JobSound(w.WithRecord(s, rec), s, job)
    ensures Inv(w.WithRecord(s, rec).Saved(landed).At(s, job))
  {
    hide JobSound, TargetSound;
    var w1 := w.WithRecord(s, rec).At(s, job);
    JobFrame(w.WithRecord(s, rec), w1, s, job);
    LocalMoves(w, w1, s);
    SaveMoves(w1, w1.mem.leftovers, landed);
  }

  lemma DeleteFrame(w: World, w': World, s: ServerName, k: KeyId, t: ServerName, job: Job)
    requires JobSound(w, t, job) && k in w.owner && w.owner[k] == s
    requires t != s || job.ToMint? || job.Restoring? || job.Retiring?
    requires SameFor(w.(provider := w'.provider), w', t) && w'.provider == w.provider - {k}
    ensures JobSound(w', t, job)
  {
  }

  lemma DeleteMoves(w: World, s: ServerName, k: KeyId, job: Job)
    requires Inv(w) && k in w.owner && w.owner[k] == s && !w.Holds(s, k)
    requires job.ToMint? || job.Restoring? || job.Retiring?
    requires JobSound(w, s, job)
    ensures Inv(w.(provider := w.provider - {k}).At(s, job))
  {
    hide JobSound;
    var w' := w.(provider := w.provider - {k}).At(s, job);
    forall t <- w'.targets ensures TargetSound(w', t) {
      assert TargetSound(w, t);
    }
    forall t <- w'.jobs ensures JobSound(w', t, w'.jobs[t]) {
      DeleteFrame(w, w', s, k, t, if t == s then job else w.jobs[t]);
    }
  }

  /** A key made for `s` that `s` does not hold is held nowhere, so dropping it harms no server. */
  lemma DropMoves(w: World, s: ServerName, k: KeyId, reply: Delete, landed: bool, job: Job)
    requires Inv(w) && k in w.owner && w.owner[k] == s && !w.Holds(s, k)
    requires job.ToMint? || job.Restoring? || job.Retiring?
    requires JobSound(w, s, job)
    ensures Inv(Dropped(w, k, reply, landed).At(s, job))
  {
    hide JobSound, Inv;
    var w1 := if reply.gone then w.(provider := w.provider - {k}) else w;
    if reply.gone {
      DeleteMoves(w, s, k, job);
    } else {
      JobMoves(w, s, job);
    }
    if !reply.acked {
      SaveMoves(w1.At(s, job), w1.mem.leftovers + [k], landed);
    }
  }

  lemma MintFrame(w: World, w': World, s: ServerName, k: KeyId, t: ServerName, job: Job)
    requires JobSound(w, t, job) && k !in w.owner
    requires SameFor(w.(provider := w'.provider, owner := w'.owner), w', t)
    requires w'.provider == w.provider + {k} && w'.owner == w.owner[k := s]
    ensures JobSound(w', t, job)
  {
  }

  /** A new key disturbs nothing that was sound. */
  lemma MintMoves(w: World, s: ServerName, k: KeyId, heard: bool, job: Job)
    requires Inv(w) && k !in w.owner && w.JobOf(s).ToMint?
    requires job == if heard then ToSave(w.JobOf(s).place, k, w.JobOf(s).prev) else Idle
    ensures Inv(w.(provider := w.provider + {k}, owner := w.owner[k := s], known := w.known + if heard then {k} else {}).At(s, job))
  {
    var w' := w.(provider := w.provider + {k}, owner := w.owner[k := s], known := w.known + if heard then {k} else {}).At(s, job);
    assert JobSound(w', s, job) by {
      assert JobSound(w, s, w.JobOf(s));
    }
    hide JobSound;
    forall t <- w'.mem.keys ensures RecordSound(w', t, w'.mem.keys[t]) {
      assert RecordSound(w, t, w.mem.keys[t]);
    }
    forall t <- w'.disk.keys ensures RecordSound(w', t, w'.disk.keys[t]) {
      assert RecordSound(w, t, w.disk.keys[t]);
    }
    forall t <- w'.jobs ensures JobSound(w', t, w'.jobs[t]) {
      if t != s {
        MintFrame(w, w', s, k, t, w.jobs[t]);
      }
    }
    forall t <- w'.targets ensures TargetSound(w', t) {
      assert TargetSound(w, t);
    }
  }

  lemma PushFrame(w: World, w': World, s: ServerName, k: KeyId, t: ServerName, job: Job)
    requires JobSound(w, t, job) && t != s && k in w.owner && w.owner[k] == s
    requires SameFor(w.(reached := w'.reached), w', t) && w'.reached == w.reached + {k}
    ensures JobSound(w', t, job)
  {
    if job.Stale? {
      assert forall x <- Refs(job.stale) :: x != k;
    }
  }

  /** A key lands on its server. No record may still call it merely minted. */
  lemma PushMoves(w: World, s: ServerName, acked: bool)
    requires Inv(w) && w.JobOf(s).AtPush? && PushDurable(w, s)
    ensures Inv(Do(w, PushCall(s, acked, true)))
  {
    var job := w.JobOf(s);
    var w' := Do(w, PushCall(s, acked, true));
    assert JobSound(w, s, job);
    assert JobSound(w', s, w'.JobOf(s));
    hide JobSound;
    forall t <- w'.mem.keys ensures RecordSound(w', t, w'.mem.keys[t]) {
      assert RecordSound(w, t, w.mem.keys[t]);
      assert w.mem.keys[t].keyId == Some(job.key) ==> job.key in Refs(w.mem.keys[t]);
    }
    forall t <- w'.disk.keys ensures RecordSound(w', t, w'.disk.keys[t]) {
      assert RecordSound(w, t, w.disk.keys[t]);
      assert w.disk.keys[t].keyId == Some(job.key) ==> job.key in Refs(w.disk.keys[t]);
    }
    forall t <- w'.jobs ensures JobSound(w', t, w'.jobs[t]) {
      if t != s {
        PushFrame(w, w', s, job.key, t, w.jobs[t]);
      }
    }
    forall t <- w'.targets ensures TargetSound(w', t) {
      assert t in w.targets ==> TargetSound(w, t);
    }
  }

  lemma HandFrame(w: World, w': World, s: ServerName, t: ServerName, job: Job)
    requires JobSound(w, t, job) && w'.TargetOf(s).Foreign?
    requires SameFor(w.(targets := w'.targets), w', t) && (t != s ==> w'.TargetOf(t) == w.TargetOf(t))
    ensures JobSound(w', t, job)
  {
  }

  /** A person points a server at a target of their own. */
  lemma HandMoves(w: World, s: ServerName, place: Place)
    requires Inv(w)
    ensures Inv(w.(targets := w.targets[s := Foreign(place)]))
  {
    hide JobSound;
    var w' := w.(targets := w.targets[s := Foreign(place)]);
    forall t <- w'.jobs ensures JobSound(w', t, w'.jobs[t]) {
      HandFrame(w, w', s, t, w.jobs[t]);
    }
    forall t <- w'.targets ensures TargetSound(w', t) {
      assert t in w.targets ==> TargetSound(w, t);
    }
  }

  /** Phase one: mint and prove a key before anything reaches a server. */
  predicate PhaseOne(step: Step) {
    step.Begin? || step.DropStale? || step.MintRefused? || step.MintUnheard? || step.MintOk? ||
    step.SaveMinted? || step.ProbeFailed? || step.ProbePassed? || step.StopBeforePush?
  }

  lemma DropStaleKept(w: World, step: Step)
    requires Inv(w) && step.DropStale? && Enabled(w, step)
    ensures Inv(Do(w, step))
  {
    var s, reply, landed := step.s, step.reply, step.landed;
    assert JobSound(w, s, w.JobOf(s));
    var job := w.JobOf(s);
    var next := ToMint(job.place, ChainRecord(job.stale));
    assert job.stale.older != [] ==> Refs(ChainRecord(job.stale).value) <= Refs(job.stale);
    if job.stale.keyId.Some? {
      assert TargetSound(w, s);
      assert job.stale.keyId.value in Refs(job.stale);
      DropMoves(w, s, job.stale.keyId.value, reply, landed, next);
    } else {
      JobMoves(w, s, next);
    }
  }

  lemma SaveMintedKept(w: World, step: Step)
    requires Inv(w) && step.SaveMinted? && Enabled(w, step)
    ensures Inv(Do(w, step))
  {
    var s, landed := step.s, step.landed;
    assert JobSound(w, s, w.JobOf(s));
    var job := w.JobOf(s);
    var rec := MintedRecord(job.place, job.key, job.prev);
    assert Refs(rec) == RefsOf(job.prev) + {job.key};
    assert forall k <- rec.older :: k in RefsOf(job.prev);
    RecordMoves(w, s, Some(rec), landed, Probing(job.place, job.key, job.prev));
  }

  lemma BeginKept(w: World, step: Step)
    requires Inv(w) && step.Begin? && Enabled(w, step)
    ensures Inv(Do(w, step))
  {
    var s, place, prev := step.s, step.place, RecordOf(w, step.s);
    if prev.Some? && prev.value.state.Minted? {
      JobMoves(w, s, Stale(place, prev.value));
    } else {
      JobMoves(w, s, ToMint(place, prev));
    }
  }

  lemma MintKept(w: World, step: Step)
    requires Inv(w) && (step.MintRefused? || step.MintUnheard? || step.MintOk?) && Enabled(w, step)
    ensures Inv(Do(w, step))
  {
    hide JobSound, Inv;
    match step
    case MintRefused(s) => IdleMoves(w, s);
    case MintUnheard(s, k) =>
      MintMoves(w, s, k, false, Idle);
      assert w.known + {} == w.known;
    case MintOk(s, k) => MintMoves(w, s, k, true, ToSave(w.JobOf(s).place, k, w.JobOf(s).prev));
  }

  lemma ProbeKept(w: World, step: Step)
    requires Inv(w) && (step.ProbeFailed? || step.ProbePassed? || step.StopBeforePush?) && Enabled(w, step)
    ensures Inv(Do(w, step))
  {
    var s := step.s;
    assert JobSound(w, s, w.JobOf(s));
    assert TargetSound(w, s);
    if step.ProbePassed? {
      JobMoves(w, s, Pending(w.JobOf(s).place, w.JobOf(s).key, w.JobOf(s).prev));
    } else {
      JobMoves(w, s, Undo(w.JobOf(s).key, w.JobOf(s).prev));
    }
  }

  lemma PhaseOneKept(w: World, step: Step)
    requires Inv(w) && Enabled(w, step) && PhaseOne(step)
    ensures Inv(Do(w, step))
  {
    hide Inv, Enabled, Do;
    match step
    case Begin(_, _, _) => BeginKept(w, step);
    case DropStale(_, _, _) => DropStaleKept(w, step);
    case MintRefused(_) => MintKept(w, step);
    case MintUnheard(_, _) => MintKept(w, step);
    case MintOk(_, _) => MintKept(w, step);
    case SaveMinted(_, _) => SaveMintedKept(w, step);
    case ProbeFailed(_) => ProbeKept(w, step);
    case ProbePassed(_) => ProbeKept(w, step);
    case StopBeforePush(_) => ProbeKept(w, step);
  }

  lemma UndoKept(w: World, step: Step)
    requires Inv(w) && (step.DropNew? || step.Restore? || step.FoundMissed?) && Enabled(w, step)
    ensures Inv(Do(w, step))
  {
    assert JobSound(w, step.s, w.JobOf(step.s));
    match step
    case DropNew(s, reply, landed) => DropMoves(w, s, w.JobOf(s).key, reply, landed, Restoring(w.JobOf(s).prev));
    case Restore(s, landed) => RecordMoves(w, s, w.JobOf(s).prev, landed, Idle);
    case FoundMissed(s) => JobMoves(w, s, Undo(w.JobOf(s).key, w.JobOf(s).prev));
  }

  lemma PushKept(w: World, step: Step)
    requires Inv(w) && step.PushCall? && Enabled(w, step) && Durable(w, step)
    ensures Inv(Do(w, step))
  {
    var s, job := step.s, w.JobOf(step.s);
    if step.applied {
      PushMoves(w, s, step.acked);
    } else {
      assert JobSound(w, s, job);
      assert TargetSound(w, s);
      JobMoves(w, s, Replied(job.place, job.key, job.prev, step.acked));
    }
  }

  /** The record's state moves on; what it names stays. */
  lemma MarkKept(w: World, step: Step)
    requires Inv(w) && (step.MarkPushing? || step.RecordPushed? || step.RecordAmbiguous?) && Enabled(w, step)
    ensures Inv(Do(w, step))
  {
    var s, landed, job := step.s, step.landed, w.JobOf(step.s);
    assert JobSound(w, s, job);
    var state := if step.MarkPushing? then Pushing else if step.RecordPushed? then Pushed else Ambiguous;
    var rec := w.mem.keys[s].(state := state);
    assert Refs(rec) == Refs(w.mem.keys[s]);
    RecordMoves(w, s, Some(rec), landed, if step.MarkPushing? then AtPush(job.place, job.key, job.prev) else Idle);
  }

  /** A verified push hands the keys it replaced to be retired: the server holds none of them. */
  lemma VerifiedKept(w: World, step: Step)
    requires Inv(w) && step.RecordVerified? && Enabled(w, step)
    ensures Inv(Do(w, step))
  {
    var s, landed := step.s, step.landed;
    assert JobSound(w, s, w.JobOf(s));
    var rec := w.mem.keys[s];
    assert Refs(rec.(state := Verified, older := [])) <= Refs(rec);
    assert forall k <- rec.older :: k in Refs(rec);
    RecordMoves(w, s, Some(rec.(state := Verified, older := [])), landed, Retiring(w.JobOf(s).key, rec.older));
  }

  lemma DropOldKept(w: World, step: Step)
    requires Inv(w) && step.DropOld? && Enabled(w, step)
    ensures Inv(Do(w, step))
  {
    var s, reply, landed := step.s, step.reply, step.landed;
    assert JobSound(w, s, w.JobOf(s));
    var job := w.JobOf(s);
    if job.due == [] {
      JobMoves(w, s, Idle);
    } else {
      DropMoves(w, s, job.due[0], reply, landed, Retiring(job.key, job.due[1..]));
    }
  }

  lemma PhaseTwoKept(w: World, step: Step)
    requires Inv(w) && Enabled(w, step) && Durable(w, step)
    requires !PhaseOne(step) && !step.HandPush? && !step.ManualForm? && !step.Crash?
    ensures Inv(Do(w, step))
  {
    hide Inv, Enabled, Do, Durable;
    match step
    case DropNew(_, _, _) => UndoKept(w, step);
    case Restore(_, _) => UndoKept(w, step);
    case FoundMissed(_) => UndoKept(w, step);
    case PushCall(_, _, _) => PushKept(w, step);
    case MarkPushing(_, _) => MarkKept(w, step);
    case RecordPushed(_, _) => MarkKept(w, step);
    case RecordAmbiguous(_, _) => MarkKept(w, step);
    case RecordVerified(_, _) => VerifiedKept(w, step);
    case DropOld(_, _, _) => DropOldKept(w, step);
  }

  lemma ManualKept(w: World, step: Step)
    requires Inv(w) && step.ManualForm? && Enabled(w, step)
    ensures Inv(Do(w, step))
  {
    hide JobSound, TargetSound;
    var s, place, landed := step.s, step.place, step.landed;
    HandMoves(w, s, place);
    var w1 := w.(targets := w.targets[s := Foreign(place)]);
    var lost := if s in w.mem.keys && w.mem.keys[s].keyId.Some? then [w.mem.keys[s].keyId.value] else [];
    SaveMoves(w1, w1.mem.leftovers + lost, false);
    var w2 := w1.(mem := w1.mem.(leftovers := w1.mem.leftovers + lost));
    IdleSound(w2.WithRecord(s, None), s);
    RecordMoves(w2, s, None, landed, Idle);
  }

  /** Every step, from any server and at any point, keeps the invariant. */
  lemma InvKept(w: World, step: Step)
    requires Inv(w) && Enabled(w, step) && Durable(w, step)
    ensures Inv(Do(w, step))
  {
    hide JobSound, TargetSound, RecordSound, PushDurable;
    if PhaseOne(step) {
      PhaseOneKept(w, step);
    } else if step.HandPush? {
      HandMoves(w, step.s, step.place);
    } else if step.ManualForm? {
      ManualKept(w, step);
    } else if !step.Crash? {
      PhaseTwoKept(w, step);
    } else {
      CrashKept(w);
    }
  }

  lemma CrashKept(w: World)
    requires Inv(w)
    ensures Inv(Do(w, Crash))
  {
    var w' := Do(w, Crash);
    forall t <- w'.targets ensures TargetSound(w', t) {
      assert TargetSound(w, t);
    }
  }
}
