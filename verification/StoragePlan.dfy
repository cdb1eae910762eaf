/**
 What one run of the storage step comes to, told from its plan: which servers prove a key, what stops the
 run, which servers are pushed to, and where every server's target ends. Nothing here follows the run
 step by step.
 */
module StoragePlan {
  import opened Wrappers
  import opened KeyRotation

  datatype MintReply = Made | MadeUnheard | Refused | Capped

  /** `CannotHide` is a key that writes and reads but cannot hide: every other key would be the same. */
  datatype ProbeReply = Passes | Fails | CannotHide

  /** Where a run saves a server's record, or the list of leftovers. */
  datatype SavePoint = OnDrop(key: KeyId) | OnMint | OnMark | OnSettle | OnRestore

  /** What the outside world answers about one server during this run; each delete and each save has its own outcome. */
  datatype Answers = Answers(
    newKey: KeyId,
    mint: MintReply,
    probe: ProbeReply,
    pushApplied: bool,
    pushHeard: bool,
    verifies: bool,
    showAnswers: bool,
    authClass: bool,
    deletes: KeyId -> bool,
    deletesHeard: KeyId -> bool,
    saves: SavePoint -> bool)
  {
    /** Whether what came of dropping a record's key, if it has one, was saved. */
    function DropSaved(k: Option<KeyId>): bool { k.Some? && saves(OnDrop(k.value)) }
  }

  datatype ServerResult = ServerResult(
    done: bool, skipped: bool, pushed: bool, verified: bool, keyKept: bool, authError: bool)

  datatype Proved = AlreadyVerified | Failed | StopsRun | Proven

  const Untouched := ServerResult(false, false, false, false, false, false)

  /** One run's servers, in order, with what the outside world will answer about each. */
  datatype Plan = Plan(names: seq<ServerName>, places: seq<Place>, configured: seq<bool>, answers: seq<Answers>) {
    ghost predicate Valid() {
      && |names| == |places| == |configured| == |answers|
      && (forall i, j | 0 <= i < j < |names| :: names[i] != names[j] && answers[i].newKey != answers[j].newKey)
    }
  }

  const Skipped := Untouched.(skipped := true)
  const AlreadyDone := ServerResult(true, true, true, true, false, false)

  // ---------------------------------------------------------------- phase one

  /** The server's key was verified in place and is not being rotated. */
  ghost predicate Already(w: World, plan: Plan, rotate: bool, j: nat)
    requires plan.Valid() && j < |plan.names|
  {
    var rec := RecordOf(w, plan.names[j]);
    rec.Some? && rec.value.place == plan.places[j] && rec.value.state.Verified? && !rotate
  }

  /** A capped provider, or a key that works and cannot hide: the run ends before any push. */
  ghost predicate Halts(w: World, plan: Plan, rotate: bool, j: nat)
    requires plan.Valid() && j < |plan.names|
  {
    var a := plan.answers[j];
    !Already(w, plan, rotate, j) && (a.mint.Capped? || (a.mint.Made? && a.probe.CannotHide?))
  }

  /** Its key is made and passes its test. */
  ghost predicate Proves(w: World, plan: Plan, rotate: bool, j: nat)
    requires plan.Valid() && j < |plan.names|
  {
    !Already(w, plan, rotate, j) && plan.answers[j].mint.Made? && plan.answers[j].probe.Passes?
  }

  ghost predicate HaltedBefore(w: World, plan: Plan, rotate: bool, n: nat)
    requires plan.Valid() && n <= |plan.names|
  {
    exists i :: 0 <= i < n && Halts(w, plan, rotate, i)
  }

  ghost predicate Halted(w: World, plan: Plan, rotate: bool)
    requires plan.Valid()
  {
    HaltedBefore(w, plan, rotate, |plan.names|)
  }

  /** The servers whose key passed, unless the run was halted. */
  ghost function Passing(w: World, plan: Plan, rotate: bool): set<nat>
    requires plan.Valid()
  {
    set j | 0 <= j < |plan.names| && Proves(w, plan, rotate, j) && !Halted(w, plan, rotate)
  }

  /** What phase one reports of a server. */
  ghost function ProofResult(w: World, plan: Plan, rotate: bool, j: nat): ServerResult
    requires plan.Valid() && j < |plan.names|
  {
    if HaltedBefore(w, plan, rotate, j) then Skipped
    else if Already(w, plan, rotate, j) then AlreadyDone
    else if Proves(w, plan, rotate, j) && Halted(w, plan, rotate) then Skipped
    else Untouched
  }

  ghost function ProofResults(w: World, plan: Plan, rotate: bool): seq<ServerResult>
    requires plan.Valid()
  {
    seq(|plan.names|, j requires 0 <= j < |plan.names| => ProofResult(w, plan, rotate, j))
  }

  // ---------------------------------------------------------------- phase two

  /** A server with no target yet goes first; if all have one, the first of them does. */
  ghost predicate GoesFirst(plan: Plan, passing: set<nat>, j: nat)
    requires plan.Valid() && forall i <- passing :: i < |plan.names|
  {
    j in passing && (!plan.configured[j] || forall i <- passing :: plan.configured[i] && j <= i)
  }

  /** A new key did not verify, and the error is one of the key itself. */
  predicate KeyRefused(a: Answers) { a.authClass && !(a.pushApplied && a.pushHeard && a.verifies) }

  ghost predicate RefusedFirst(plan: Plan, passing: set<nat>)
    requires plan.Valid() && forall i <- passing :: i < |plan.names|
  {
    exists j: nat :: GoesFirst(plan, passing, j) && KeyRefused(plan.answers[j])
  }

  ghost predicate SomeWait(plan: Plan, passing: set<nat>)
    requires plan.Valid() && forall i <- passing :: i < |plan.names|
  {
    exists j: nat :: j in passing && !GoesFirst(plan, passing, j)
  }

  /** The servers pushed to: those that go first, and the others too unless a key was refused. */
  ghost function Served(plan: Plan, passing: set<nat>): set<nat>
    requires plan.Valid() && forall i <- passing :: i < |plan.names|
  {
    set j | j in passing && (GoesFirst(plan, passing, j) || !RefusedFirst(plan, passing))
  }

  /** Where a push leaves the server's target. */
  function TargetAfter(w: World, plan: Plan, j: nat): Target
    requires |plan.names| == |plan.places| == |plan.answers| && j < |plan.names|
  {
    if plan.answers[j].pushApplied then Own(plan.answers[j].newKey, plan.places[j]) else w.TargetOf(plan.names[j])
  }

  /** What a push is reported as. Unverified, its key is kept unless the server is seen to hold some other target. */
  predicate Reports(w: World, plan: Plan, j: nat, res: ServerResult)
    requires |plan.names| == |plan.places| == |plan.answers| && j < |plan.names|
  {
    var a, target := plan.answers[j], TargetAfter(w, plan, j);
    && !res.done && !res.skipped
    && (res.pushed <==> a.pushApplied && a.pushHeard)
    && (res.verified <==> a.pushApplied && a.pushHeard && a.verifies)
    && (res.authError <==> KeyRefused(a))
    && (res.keyKept <==> !res.verified && (res.pushed || !a.showAnswers || (!target.Nothing? && target.place == plan.places[j])))
  }

  /** The results of phase two: of those served what their push came to, of the other passing ones that they were skipped. */
  ghost predicate ResultsAre(w: World, plan: Plan, passing: set<nat>, was: seq<ServerResult>, results: seq<ServerResult>)
    requires plan.Valid() && forall i <- passing :: i < |plan.names|
  {
    && |was| == |results| == |plan.names|
    && forall j | 0 <= j < |results| ::
         if j in Served(plan, passing) then Reports(w, plan, j, results[j])
         else if j in passing then results[j] == was[j].(skipped := true)
         else results[j] == was[j]
  }

  /** Where every server's target ends. */
  ghost predicate TargetsAre(w: World, w': World, plan: Plan, served: set<nat>)
    requires plan.Valid()
  {
    && (forall j | 0 <= j < |plan.names| ::
          w'.TargetOf(plan.names[j]) == if j in served then TargetAfter(w, plan, j) else w.TargetOf(plan.names[j]))
    && (forall t | t !in plan.names :: w'.TargetOf(t) == w.TargetOf(t))
  }

  // ---------------------------------------------------------------- what a refused key costs

  /** When a server that goes first is refused its key, at most one configured server is pushed to. */
  lemma RefusalSparesTheRest(plan: Plan, passing: set<nat>, i: nat, j: nat)
    requires plan.Valid() && (forall i <- passing :: i < |plan.names|) && RefusedFirst(plan, passing)
    requires i in Served(plan, passing) && j in Served(plan, passing) && plan.configured[i] && plan.configured[j]
    ensures i == j
  {
  }

  /** When none is, every server whose key passed is pushed to. */
  lemma OtherwiseAllAreServed(plan: Plan, passing: set<nat>)
    requires plan.Valid() && (forall i <- passing :: i < |plan.names|) && !RefusedFirst(plan, passing)
    ensures Served(plan, passing) == passing
  {
  }
}
