/**
 Merging a second time: for which base, servers and window every bucket is left as the first merge made it.
 */
module LifecycleIdempotence {
  import opened Wrappers
  import opened LifecycleRules
  import opened LifecycleMerge

  /** Some server's pending uploads are kept under this very prefix. */
  predicate Collides(p: string, servers: seq<string>) { exists i :: 0 <= i < |servers| && p == IncomingPrefix(servers[i]) }

  /** A window's prefix that is also an incoming prefix ends at one day; any other keeps the window asked for. */
  predicate Settles(base: string, servers: seq<string>, days: int, strict: bool) {
    forall i | 0 <= i < |Wanted(base, servers)| ::
      if Collides(Wanted(base, servers)[i], servers) then strict ==> days == 1 else days > 0
  }

  ghost predicate InPlace(rules: seq<Rule>, wishes: seq<Wish>) { forall i | 0 <= i < |wishes| :: Satisfied(rules, wishes[i]) }

  lemma InPlaceStays(rules: seq<Rule>, wishes: seq<Wish>)
    requires InPlace(rules, wishes)
    ensures GrantedAll(rules, wishes) == rules
  {
    NothingToGrant(rules, wishes);
  }

  lemma {:induction false} UntouchedExactlyWhenInPlace(rules: seq<Rule>, wishes: seq<Wish>)
    ensures !Touched(rules, wishes) <==> InPlace(rules, wishes)
  {
    if wishes != [] {
      var n := |wishes| - 1;
      UntouchedExactlyWhenInPlace(rules, wishes[..n]);
      assert forall i | 0 <= i < n :: wishes[..n][i] == wishes[i];
      if forall i | 0 <= i < n :: Satisfied(rules, wishes[i]) {
        NothingToGrant(rules, wishes[..n]);
      }
      hide GrantedAll, Satisfied;
    }
  }

  // ---------------------------------------------------------------- what a prefix ends up with

  /** The rule that decides for a prefix. */
  function At(rules: seq<Rule>, p: string): Option<Rule> {
    var i := Find(rules, p); if i < |rules| then Some(rules[i]) else None
  }

  lemma GrantedElsewhere(rules: seq<Rule>, w: Wish, p: string)
    requires w.prefix != p
    ensures At(Granted(rules, w), p) == At(rules, p)
  {
    var i := Find(rules, p);
    FindIs(Granted(rules, w), p, if i < |rules| then i else |Granted(rules, w)|);
  }

  lemma GrantedHere(rules: seq<Rule>, w: Wish)
    ensures At(Granted(rules, w), w.prefix) == Some(if At(rules, w.prefix).Some? then Granting(At(rules, w.prefix).value, w) else NewRule(w))
  {
    FindIs(Granted(rules, w), w.prefix, Find(rules, w.prefix));
  }

  lemma {:induction false} GrantedAllElsewhere(rules: seq<Rule>, wishes: seq<Wish>, p: string)
    requires forall i | 0 <= i < |wishes| :: wishes[i].prefix != p
    ensures At(GrantedAll(rules, wishes), p) == At(rules, p)
  {
    if wishes != [] {
      var n := |wishes| - 1;
      GrantedAllElsewhere(rules, wishes[..n], p);
      hide Granted, At;
      GrantedElsewhere(GrantedAll(rules, wishes[..n]), wishes[n], p);
    }
  }

  predicate CancelsUploads(r: Option<Rule>) { r.Some? && IsSet(r.value.cancelUnfinished) }

  lemma CancelStays(rules: seq<Rule>, w: Wish, p: string)
    requires CancelsUploads(At(rules, p)) || (w.prefix == p && w.Window?)
    ensures CancelsUploads(At(Granted(rules, w), p))
  {
    if w.prefix == p { GrantedHere(rules, w); } else { GrantedElsewhere(rules, w, p); }
    hide At, Granted;
  }

  lemma {:induction false} CancelStaysThroughout(rules: seq<Rule>, wishes: seq<Wish>, p: string)
    requires CancelsUploads(At(rules, p)) || exists i :: 0 <= i < |wishes| && wishes[i].prefix == p && wishes[i].Window?
    ensures CancelsUploads(At(GrantedAll(rules, wishes), p))
  {
    hide At, Granted, CancelsUploads;
    if wishes != [] {
      var n := |wishes| - 1;
      if CancelsUploads(At(rules, p)) || (exists i :: 0 <= i < n && wishes[..n][i].prefix == p && wishes[..n][i].Window?) {
        CancelStaysThroughout(rules, wishes[..n], p);
      }
      assert forall i | 0 <= i < n :: wishes[..n][i] == wishes[i];
      CancelStays(GrantedAll(rules, wishes[..n]), wishes[n], p);
    }
  }

  lemma GrantedLast(rules: seq<Rule>, wishes: seq<Wish>)
    requires wishes != []
    ensures GrantedAll(rules, wishes) == Granted(GrantedAll(rules, wishes[..|wishes| - 1]), wishes[|wishes| - 1])
  {}

  lemma {:induction false} Concat(rules: seq<Rule>, a: seq<Wish>, b: seq<Wish>)
    ensures GrantedAll(rules, a + b) == GrantedAll(GrantedAll(rules, a), b)
  {
    if b == [] {
      assert a + b == a;
    } else {
      hide *;
      var n := |b| - 1;
      GrantedLast(rules, a + b);
      GrantedLast(GrantedAll(rules, a), b);
      Concat(rules, a, b[..n]);
      assert (a + b)[..|a| + n] == a + b[..n] && (a + b)[|a| + n] == b[n];
    }
  }

  /** Windows of one kind, then incoming prefixes: a window wish and what the merge leaves at its prefix. */
  lemma WindowAfterMerge(rules: seq<Rule>, windows: seq<Wish>, incomings: seq<Wish>, w: Wish, days: int, strict: bool)
    requires forall i | 0 <= i < |windows| :: windows[i] == Window(windows[i].prefix, days, strict)
    requires forall i | 0 <= i < |incomings| :: incomings[i].Incoming?
    requires w in windows
    ensures var out := GrantedAll(rules, windows + incomings);
      if Incoming(w.prefix) in incomings then Satisfied(out, w) <==> (strict ==> days == 1)
      else (days > 0 ==> Satisfied(out, w)) && (days <= 0 && rules == [] ==> !Satisfied(out, w))
  {
    var before := GrantedAll(rules, windows);
    var out := GrantedAll(rules, windows + incomings);
    Concat(rules, windows, incomings);
    hide GrantedAll;
    if Incoming(w.prefix) in incomings {
      AllSatisfied(before, incomings);
      CancelStaysThroughout(rules, windows, w.prefix);
      CancelStaysThroughout(before, incomings, w.prefix);
      assert Satisfied(out, Incoming(w.prefix));
    } else {
      GrantedAllElsewhere(before, incomings, w.prefix);
      assert Satisfied(out, w) == Satisfied(before, w);
      if days > 0 {
        AllSatisfied(rules, windows);
      } else if rules == [] {
        OnlyAsAsked(windows, w.prefix, days, strict);
      }
    }
  }

  /** Windows granted to a bucket with no rules are what was asked for. */
  lemma {:induction false} OnlyAsAsked(windows: seq<Wish>, p: string, days: int, strict: bool)
    requires forall i | 0 <= i < |windows| :: windows[i] == Window(windows[i].prefix, days, strict)
    ensures var r := At(GrantedAll([], windows), p); r.Some? ==> r.value.hideToDelete == Some(days)
  {
    if windows != [] {
      var n := |windows| - 1;
      OnlyAsAsked(windows[..n], p, days, strict);
      var before := GrantedAll([], windows[..n]);
      if windows[n].prefix == p { GrantedHere(before, windows[n]); } else { GrantedElsewhere(before, windows[n], p); }
      hide At, Granted;
    }
  }

  // ---------------------------------------------------------------- exactly when

  function WindowWishes(base: string, sorted: seq<string>, days: int, strict: bool): seq<Wish> {
    if base == "" then Windows(sorted, days, strict) else [Window(BasePrefix(base), days, strict)]
  }

  lemma SortedIsThese(servers: seq<string>, s: string)
    ensures s in Sort(servers) <==> s in servers
  {
    SortSorts(servers);
    hide Sort;
    assert s in multiset(Sort(servers)) <==> s in multiset(servers);
  }

  lemma WindowsAreWanted(base: string, servers: seq<string>, days: int, strict: bool, p: string)
    ensures Window(p, days, strict) in WindowWishes(base, Sort(servers), days, strict) <==> p in Wanted(base, servers)
  {
    var sorted := Sort(servers);
    hide Sort;
    if base == "" {
      if i :| 0 <= i < |servers| && p == servers[i] + "/" {
        SortedIsThese(servers, servers[i]);
        var k :| 0 <= k < |sorted| && sorted[k] == servers[i];
        assert Windows(sorted, days, strict)[k] == Window(p, days, strict);
      }
      if k :| 0 <= k < |sorted| && Windows(sorted, days, strict)[k] == Window(p, days, strict) {
        SortedIsThese(servers, sorted[k]);
        var i :| 0 <= i < |servers| && servers[i] == sorted[k];
        assert Wanted(base, servers)[i] == p;
      }
    }
  }

  lemma IncomingsAreServers(servers: seq<string>, p: string)
    ensures Incoming(p) in Incomings(Sort(servers)) <==> Collides(p, servers)
  {
    var sorted := Sort(servers);
    hide Sort;
    if i :| 0 <= i < |servers| && p == IncomingPrefix(servers[i]) {
      SortedIsThese(servers, servers[i]);
      var k :| 0 <= k < |sorted| && sorted[k] == servers[i];
      assert Incomings(sorted)[k] == Incoming(p);
    }
    if k :| 0 <= k < |sorted| && Incomings(sorted)[k] == Incoming(p) {
      SortedIsThese(servers, sorted[k]);
      var i :| 0 <= i < |servers| && servers[i] == sorted[k];
      assert p == IncomingPrefix(servers[i]);
    }
  }

  /** What the first merge leaves at each window's prefix, in terms of base and servers. */
  lemma WindowLeft(rules: seq<Rule>, base: string, servers: seq<string>, days: int, strict: bool, p: string)
    requires p in Wanted(base, servers)
    ensures var out, w := Merged(rules, base, servers, days, strict), Window(p, days, strict);
      if Collides(p, servers) then Satisfied(out, w) <==> (strict ==> days == 1)
      else (days > 0 ==> Satisfied(out, w)) && (days <= 0 && rules == [] ==> !Satisfied(out, w))
  {
    WindowsAreWanted(base, servers, days, strict, p);
    IncomingsAreServers(servers, p);
    WindowAfterMerge(rules, WindowWishes(base, Sort(servers), days, strict), Incomings(Sort(servers)), Window(p, days, strict), days, strict);
    hide GrantedAll, Sort, Satisfied;
  }

  lemma IncomingLeft(rules: seq<Rule>, base: string, servers: seq<string>, days: int, strict: bool)
    ensures forall w <- Incomings(Sort(servers)) :: Satisfied(Merged(rules, base, servers, days, strict), w)
  {
    var windows, incomings := WindowWishes(base, Sort(servers), days, strict), Incomings(Sort(servers));
    Concat(rules, windows, incomings);
    AllSatisfied(GrantedAll(rules, windows), incomings);
    hide GrantedAll, Sort, Satisfied;
  }

  lemma AllLeft(rules: seq<Rule>, base: string, servers: seq<string>, days: int, strict: bool)
    requires Settles(base, servers, days, strict)
    ensures InPlace(Merged(rules, base, servers, days, strict), Wishes(base, Sort(servers), days, strict))
  {
    var windows, incomings := WindowWishes(base, Sort(servers), days, strict), Incomings(Sort(servers));
    var wishes := Wishes(base, Sort(servers), days, strict);
    IncomingLeft(rules, base, servers, days, strict);
    hide Sort, Satisfied, Merged;
    assert wishes == windows + incomings;
    forall i | 0 <= i < |wishes| ensures Satisfied(Merged(rules, base, servers, days, strict), wishes[i]) {
      if i < |windows| {
        var p := windows[i].prefix;
        assert windows[i] == Window(p, days, strict);
        WindowsAreWanted(base, servers, days, strict, p);
        var k :| 0 <= k < |Wanted(base, servers)| && Wanted(base, servers)[k] == p;
        WindowLeft(rules, base, servers, days, strict, p);
      } else {
        assert wishes[i] in incomings;
      }
    }
  }

  /** Merging a second time gives the same rules. */
  lemma MergedTwice(rules: seq<Rule>, base: string, servers: seq<string>, days: int, strict: bool)
    requires Settles(base, servers, days, strict)
    ensures Merged(Merged(rules, base, servers, days, strict), base, servers, days, strict) == Merged(rules, base, servers, days, strict)
  {
    hide Settles, Wishes, InPlace;
    AllLeft(rules, base, servers, days, strict);
    InPlaceStays(Merged(rules, base, servers, days, strict), Wishes(base, Sort(servers), days, strict));
  }

  /**
   Merging is idempotent: whatever rules a bucket has, a second merge reports nothing changed, if and
   only if each window's prefix that no server uploads to is given a positive window, and one that is
   uploaded to is not held to a window other than one day.
   */
  lemma MergeIsIdempotent(base: string, servers: seq<string>, days: int, strict: bool)
    ensures Settles(base, servers, days, strict) <==>
      (forall rules :: !Touched(Merged(rules, base, servers, days, strict), Wishes(base, Sort(servers), days, strict)))
  {
    hide Settles, Wishes, Merged, InPlace;
    var wishes := Wishes(base, Sort(servers), days, strict);
    if Settles(base, servers, days, strict) {
      forall rules ensures !Touched(Merged(rules, base, servers, days, strict), wishes) {
        AllLeft(rules, base, servers, days, strict);
        UntouchedExactlyWhenInPlace(Merged(rules, base, servers, days, strict), wishes);
      }
    } else {
      Unsettled(base, servers, days, strict);
    }
  }

  lemma Unsettled(base: string, servers: seq<string>, days: int, strict: bool)
    requires !Settles(base, servers, days, strict)
    ensures Touched(Merged([], base, servers, days, strict), Wishes(base, Sort(servers), days, strict))
  {
    var wishes := Wishes(base, Sort(servers), days, strict);
    var out := Merged([], base, servers, days, strict);
    var k :| 0 <= k < |Wanted(base, servers)|
      && !(if Collides(Wanted(base, servers)[k], servers) then strict ==> days == 1 else days > 0);
    var p := Wanted(base, servers)[k];
    WindowLeft([], base, servers, days, strict, p);
    WindowsAreWanted(base, servers, days, strict, p);
    UntouchedExactlyWhenInPlace(out, wishes);
    hide Merged, Sort, Satisfied, Touched;
    var windows := WindowWishes(base, Sort(servers), days, strict);
    var i :| 0 <= i < |windows| && windows[i] == Window(p, days, strict);
    assert wishes == windows + Incomings(Sort(servers));
    assert wishes[i] == windows[i];
  }
}
