/**
 The incident state machine as a function of its state: pass/fail observations per rule become
 incidents, and incidents become alerts. Alerts are handed over while the tracker's lock is held,
 so `alerts` is the order the outbox sees them in.
 */
module IncidentBook {
  import opened Wrappers

  type Key = string
  type Time = int
  type IncidentId = nat

  datatype Policy = Policy(failAfter: int, recoverAfter: int, repeatEvery: int, autoResolveAfter: int) {
    function Normalized(): Policy {
      this.(failAfter := if failAfter < 1 then 1 else failAfter,
            recoverAfter := if recoverAfter < 1 then 1 else recoverAfter)
    }
  }

  /** `severity` is its rank: 3 critical, 2 warning, 1 info, 0 anything else. */
  datatype Rule = Rule(key: Key, severity: nat, policy: Policy) {
    function Normalized(): Rule { this.(policy := policy.Normalized()) }
  }

  const NoRule := Rule("", 0, Policy(0, 0, 0, 0))

  /** `held` is whether an opening is being held back. */
  datatype RuleState = RuleState(fails: nat, oks: nat, firstFailAt: Time, held: bool, rule: Rule)

  datatype Incident = Incident(
    id: IncidentId, severity: nat, startedAt: Time, openedAt: Time,
    notified: bool, lastNotifiedAt: Time, fails: nat, autoResolveAt: Option<Time>)

  datatype Kind = Opened | Repeat | Recovered

  datatype Reason = NoReason | Healthy | Retired | SuppressedEnd

  /** `Journaled` is an opening recorded as held and never sent. */
  datatype Alert =
    | ForIncident(kind: Kind, id: IncidentId, reason: Reason, machineOnly: bool)
    | Summary(count: nat)
    | Journaled(key: Key)

  datatype Book = Book(
    states: map<Key, RuleState>,
    incidents: map<Key, Incident>,
    adopting: bool,
    alerts: seq<Alert>,
    nextId: IncidentId)
  {
    function StateOf(rule: Rule): RuleState {
      if rule.key in states then states[rule.key].(rule := rule) else RuleState(0, 0, 0, false, rule)
    }

    function WithState(key: Key, st: RuleState): Book { this.(states := states[key := st]) }

    function WithIncident(key: Key, inc: Incident): Book { this.(incidents := incidents[key := inc]) }

    function Told(alert: Alert): Book { this.(alerts := alerts + [alert]) }

    /** Opens an incident for a rule that has none, announced or not. */
    function Open(rule: Rule, startedAt: Time, now: Time, fails: nat, autoResolve: bool, announce: bool): Book {
      var inc := Incident(nextId, rule.severity, startedAt, now, announce, if announce then now else 0, fails,
                          if autoResolve && rule.policy.autoResolveAfter > 0 then Some(now + rule.policy.autoResolveAfter) else None);
      var b := this.(nextId := nextId + 1).WithIncident(rule.key, inc);
      if announce then b.Told(ForIncident(Opened, inc.id, NoReason, false)) else b
    }

    /** Closes an open incident, telling receivers only if they were told of it. */
    function Close(key: Key, reason: Reason): Book
      requires key in incidents
    {
      var inc := incidents[key];
      var b := this.(incidents := incidents - {key});
      if inc.notified then b.Told(ForIncident(Recovered, inc.id, reason, false)) else b
    }

    function Remind(key: Key, inc: Incident, at: Time): Book {
      WithIncident(key, inc.(lastNotifiedAt := at)).Told(ForIncident(Repeat, inc.id, NoReason, false))
    }
  }

  // ---------------------------------------------------------------- one observation

  /** A failure while the rule's incident is already open. */
  function StillFailing(b: Book, rule: Rule, inc: Incident, fails: nat, at: Time, held: bool, channels: bool): Book {
    var now := inc.(severity := rule.severity, fails := fails);
    if rule.severity > inc.severity && inc.notified && !held && channels then b.Remind(rule.key, now, at)
    else
      var p := rule.policy;
      var later := if p.autoResolveAfter > 0 then now.(autoResolveAt := Some(at + p.autoResolveAfter)) else now;
      if p.repeatEvery > 0 && inc.notified && at - inc.lastNotifiedAt >= p.repeatEvery && !held && channels
      then b.Remind(rule.key, later, at)
      else b.WithIncident(rule.key, later)
  }

  /** `held` is what the hold and silence checks answer for the rule now. */
  function Observe(b: Book, given: Rule, ok: bool, at: Time, held: bool, channels: bool): Book {
    var rule := given.Normalized();
    var key, st := rule.key, b.StateOf(rule);
    if !ok then
      var st1 := st.(oks := 0, fails := st.fails + 1, firstFailAt := if st.fails == 0 then at else st.firstFailAt);
      if key in b.incidents then
        StillFailing(b.WithState(key, st1), rule, b.incidents[key], st1.fails, at, held, channels)
      else if st1.fails < rule.policy.failAfter then b.WithState(key, st1)
      else if held then
        var b1 := b.WithState(key, st1.(held := true));
        if st.held then b1 else b1.Told(Journaled(key))
      else
        b.WithState(key, st1.(held := false)).Open(rule, st1.firstFailAt, at, st1.fails, true, !b.adopting && channels)
    else
      var b1 := b.WithState(key, st.(fails := 0, firstFailAt := 0, held := false, oks := st.oks + 1));
      if key in b.incidents && st.oks + 1 >= rule.policy.recoverAfter then b1.Close(key, Healthy) else b1
  }

  // ---------------------------------------------------------------- the other operations

  /** Which rules a pass finds held, and which incidents a sweep selects: any answer at all. */
  type Chosen = set<Key>

  function ReleaseOne(b: Book, key: Key, held: Chosen, channels: bool, now: Time): Book {
    if key !in b.states then b
    else
      var st := b.states[key];
      if !st.held || key in b.incidents || st.fails < st.rule.policy.Normalized().failAfter || key in held then b
      else b.WithState(key, st.(held := false))
            .Open(st.rule.(key := key), st.firstFailAt, now, st.fails, true, !b.adopting && channels)
  }

  function ReleaseHolds(b: Book, order: seq<Key>, held: Chosen, channels: bool, now: Time): Book {
    if order == [] then b
    else
      var n := |order| - 1;
      ReleaseOne(ReleaseHolds(b, order[..n], held, channels, now), order[n], held, channels, now)
  }

  function CloseOne(b: Book, key: Key, chosen: Chosen, reason: Reason): Book {
    if key in b.incidents && key in chosen then b.Close(key, reason) else b
  }

  function CloseMatching(b: Book, order: seq<Key>, chosen: Chosen, reason: Reason): Book {
    if order == [] then b
    else CloseOne(CloseMatching(b, order[..|order| - 1], chosen, reason), order[|order| - 1], chosen, reason)
  }

  function SweepOne(b: Book, key: Key, now: Time): Book {
    if key in b.incidents && b.incidents[key].autoResolveAt.Some? && now >= b.incidents[key].autoResolveAt.value
    then var b1 := b.Close(key, Retired); b1.(states := b1.states - {key})
    else b
  }

  function Sweep(b: Book, order: seq<Key>, now: Time): Book {
    if order == [] then b
    else SweepOne(Sweep(b, order[..|order| - 1], now), order[|order| - 1], now)
  }

  function Retire(b: Book, key: Key): Book {
    var b1 := b.(states := b.states - {key});
    if key in b1.incidents then b1.Close(key, Retired) else b1
  }

  function AdoptOpen(b: Book, given: Rule, startedAt: Time, fails: nat, now: Time): Book {
    var rule := given.Normalized();
    if !b.adopting || rule.key in b.incidents || fails < rule.policy.failAfter then b
    else b.Open(rule, startedAt, now, fails, false, false)
  }

  function AdoptFailing(b: Book, given: Rule, startedAt: Time, held: bool, now: Time): Book {
    var rule := given.Normalized();
    if rule.key in b.incidents || held then b
    else
      var st := b.StateOf(rule).(oks := 0, fails := rule.policy.failAfter, firstFailAt := startedAt);
      b.WithState(rule.key, st).Open(rule, startedAt, now, st.fails, false, false)
  }

  /** The announced incident's alert: machines alone get it when people get one summary. */
  function AnnounceOne(b: Book, key: Key, now: Time, machineOnly: bool): Book {
    if key in b.incidents && !b.incidents[key].notified then
      var inc := b.incidents[key];
      b.WithIncident(key, inc.(notified := true, lastNotifiedAt := now)).Told(ForIncident(Opened, inc.id, NoReason, machineOnly))
    else b
  }

  function AnnounceEach(b: Book, pending: seq<Key>, now: Time, machineOnly: bool): Book {
    if pending == [] then b
    else AnnounceOne(AnnounceEach(b, pending[..|pending| - 1], now, machineOnly), pending[|pending| - 1], now, machineOnly)
  }

  /** `pending` is every unannounced incident, oldest first. */
  function Announce(b: Book, pending: seq<Key>, channels: bool, now: Time): Book {
    if !channels || pending == [] then b
    else if |pending| == 1 then AnnounceEach(b, pending, now, false)
    else AnnounceEach(b.Told(Summary(|pending|)), pending, now, true)
  }

  function EndAdoption(b: Book, pending: seq<Key>, channels: bool, now: Time): Book {
    Announce(b.(adopting := false), pending, channels, now)
  }

  datatype Sample = Sample(ok: bool, at: Time)

  /** How many samples from the newest on agree with it. */
  function StreakLength(history: seq<Sample>): (n: nat)
    ensures n <= |history|
  {
    if history == [] then 0
    else if |history| > 1 && history[1].ok == history[0].ok then 1 + StreakLength(history[1..])
    else 1
  }

  /** Restores a rule's streak from its history, newest first. */
  function Seed(b: Book, rule: Rule, history: seq<Sample>): Book {
    var st := (if rule.key in b.states then b.states[rule.key] else RuleState(0, 0, 0, false, NoRule)).(fails := 0, oks := 0, firstFailAt := 0);
    var n := StreakLength(history);
    b.WithState(rule.key,
      if history == [] then st
      else if history[0].ok then st.(oks := n)
      else st.(fails := n, firstFailAt := history[n - 1].at))
  }
}
