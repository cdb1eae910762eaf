/**
 The monitor runner as it runs: its maps updated under the lock, one method for each critical section.
 What a check or a ping does between two of them takes any time at all. Each method is a step of the
 generation protocol.
 */
module MonitorRunner {
  import opened Wrappers
  import opened MonitorGenerations

  class Scheduler {
    var stopped: bool
    var generations: map<Id, nat>
    var pushTokens: map<Token, Entry>
    var lastStat: map<Id, bool>
    var lastResult: map<Id, Outcome>
    var lastPing: map<Id, Time>
    var tracked: set<Id>
    ghost var running: set<Entry>
    ghost var registered: map<Id, Monitor>
    ghost var known: set<Id>
    ghost var observed: seq<Observation>

    ghost function View(): Runner
      reads this
    {
      Runner(stopped, generations, pushTokens, lastStat, lastResult, lastPing, tracked, running, registered, known, observed)
    }

    constructor ()
      ensures View() == New
    {
      stopped, generations, pushTokens := false, map[], map[];
      lastStat, lastResult, lastPing, tracked := map[], map[], map[], {};
      running, registered, known, observed := {}, map[], {}, [];
    }

    function Generation(id: Id): (n: nat)
      reads this
      ensures n == View().Generation(id)
    {
      if id in generations then generations[id] else 0
    }

    /** Moves the generation on and drops the monitor's tokens. */
    method TeardownLocked(id: Id)
      modifies this
      ensures View() == TornDown(old(View()), id)
    {
      generations := generations[id := Generation(id) + 1];
      DropTokens(id);
      registered := registered - {id};
    }

    method DropTokens(id: Id)
      modifies this`pushTokens
      ensures pushTokens == map t | t in old(pushTokens) && old(pushTokens)[t].m.id != id :: old(pushTokens)[t]
    {
      var todo := pushTokens.Keys;
      ghost var before := pushTokens;
      while todo != {}
        invariant todo <= before.Keys
        invariant pushTokens == map t | t in before && (t in todo || before[t].m.id != id) :: before[t]
      {
        var t :| t in todo;
        todo := todo - {t};
        if pushTokens[t].m.id == id {
          pushTokens := pushTokens - {t};
        }
      }
    }

    /** Registers a monitor with what was read before the lock was taken, under a generation of its own. */
    method StartMonitor(m: Monitor, read: Baseline, now: Time)
      modifies this
      ensures View() == Started(old(View()), m, read, now)
    {
      if stopped {
        return;
      }
      TeardownLocked(m.id);
      hide TornDown, NewestResult, FirstDeadline;
      SetBaseline(m.id, read.newest);
      tracked := tracked + {m.id};
      var e := Entry(m, Generation(m.id));
      RegisterPush(e, read.lastUp, now);
      Register(e);
    }

    ghost method Register(e: Entry)
      modifies this`running, this`registered, this`known
      ensures running == old(running) + {e}
      ensures registered == old(registered)[e.m.id := e.m] && known == old(known) + {e.m.id}
    {
      running, registered, known := running + {e}, registered[e.m.id := e.m], known + {e.m.id};
    }

    method SetBaseline(id: Id, newest: Option<Outcome>)
      modifies this`lastStat, this`lastResult
      ensures lastStat == if newest.Some? then old(lastStat)[id := newest.value.up] else old(lastStat)
      ensures lastResult == NewestResult(old(lastResult), id, newest)
    {
      if newest.Some? {
        lastStat := lastStat[id := newest.value.up];
        if id !in lastResult || newest.value.at > lastResult[id].at {
          lastResult := lastResult[id := newest.value];
        }
      }
    }

    method RegisterPush(e: Entry, lastUp: Option<Time>, now: Time)
      modifies this`lastPing, this`pushTokens
      ensures lastPing == if e.m.push then FirstDeadline(old(lastPing), e.m.id, lastUp, now) else old(lastPing)
      ensures pushTokens == if e.m.push && e.m.token != "" then old(pushTokens)[e.m.token := e] else old(pushTokens)
    {
      if e.m.push {
        SetDeadline(e.m.id, lastUp, now);
        if e.m.token != "" {
          pushTokens := pushTokens[e.m.token := e];
        }
      }
    }

    method SetDeadline(id: Id, lastUp: Option<Time>, now: Time)
      modifies this`lastPing
      ensures lastPing == FirstDeadline(old(lastPing), id, lastUp, now)
    {
      if lastUp.Some? && (id !in lastPing || lastPing[id] < lastUp.value) {
        lastPing := lastPing[id := lastUp.value];
      } else if id !in lastPing {
        lastPing := lastPing[id := now];
      }
    }

    /** Stops a monitor and forgets all about it, its incident too. */
    method Remove(id: Id)
      modifies this
      ensures View() == Removed(old(View()), id)
    {
      TeardownLocked(id);
      lastStat := lastStat - {id};
      lastPing := lastPing - {id};
      lastResult := lastResult - {id};
      tracked := tracked - {id};
      known := known - {id};
    }

    /** Whether a result is still the current scheduler's; it is asked before a check is saved, too. */
    method Stale(e: Entry) returns (stale: bool)
      ensures stale == (View().Generation(e.m.id) != e.generation)
    {
      stale := Generation(e.m.id) != e.generation;
    }

    /** Publishes a result the store has taken, unless the monitor has moved on meanwhile. */
    method CommitSaved(e: Entry, outcome: Outcome) returns (committed: bool)
      modifies this
      ensures View() == Committed(old(View()), e, outcome)
      ensures committed == (old(View()).Generation(e.m.id) == e.generation)
    {
      if Generation(e.m.id) != e.generation {
        return false;
      }
      lastStat := lastStat[e.m.id := outcome.up];
      lastResult := lastResult[e.m.id := outcome];
      tracked := tracked + {e.m.id};
      observed := observed + [Observation(e, outcome)];
      committed := true;
    }

    /** The monitor a token belongs to, compared with every token there is. */
    method FindPushToken(token: Token) returns (found: Option<Entry>)
      modifies this`running
      ensures View() == Do(old(View()), FindToken(token))
      ensures found == if token in pushTokens then Some(pushTokens[token]) else None
    {
      found := None;
      var todo := pushTokens.Keys;
      while todo != {}
        invariant todo <= pushTokens.Keys
        invariant found == if token in pushTokens && token !in todo then Some(pushTokens[token]) else None
      {
        var t :| t in todo;
        todo := todo - {t};
        if t == token {
          found := Some(pushTokens[t]);
        }
      }
      if found.Some? {
        running := running + {found.value};
      }
    }

    method StampLastPing(e: Entry, now: Time)
      modifies this`lastPing
      ensures View() == PingStamped(old(View()), e, now)
    {
      if Generation(e.m.id) == e.generation {
        lastPing := lastPing[e.m.id := now];
      }
    }
  }
}
