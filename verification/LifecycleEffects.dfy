/**
 What a merge leaves at each prefix it owns, value by value, and which rules are found to endanger backups.
 */
module LifecycleEffects {
  import opened Wrappers
  import opened LifecycleRules
  import opened LifecycleMerge
  import opened LifecycleIdempotence

  /** A positive window stays unless a person chose another; unfinished uploads are canceled, by default after a week. */
  predicate WindowRule(was: Option<Rule>, p: string, days: int, strict: bool, r: Rule) {
    match was
    case None => r == Rule(p, Some(days), None, Some(7), false, None)
    case Some(o) =>
      && r.prefix == o.prefix && r.uploadToHide == o.uploadToHide && r.foreign == o.foreign
      && r.hideToDelete == (if o.hideToDelete.Some? && o.hideToDelete.value > 0 && !(strict && o.hideToDelete.value != days) then o.hideToDelete else Some(days))
      && r.cancelUnfinished == (if o.cancelUnfinished.Some? && o.cancelUnfinished.value > 0 then o.cancelUnfinished else Some(7))
      && (r.raw == o.raw || r.raw.None?)
      && (r.hideToDelete == o.hideToDelete && r.cancelUnfinished == o.cancelUnfinished && o.hideToDelete.Some? && o.hideToDelete.value > 0
          ==> r == o)
  }

  /** Pending uploads are hidden after a day and deleted after another. */
  predicate IncomingRule(was: Option<Rule>, p: string, r: Rule) {
    match was
    case None => r == Rule(p, Some(1), Some(1), None, false, None)
    case Some(o) =>
      && r.prefix == o.prefix && r.uploadToHide == Some(1) && r.hideToDelete == Some(1)
      && r.cancelUnfinished == o.cancelUnfinished && r.foreign == o.foreign
      && (r == o || r.raw.None?) && (o.uploadToHide == Some(1) && o.hideToDelete == Some(1) ==> r == o)
  }

  predicate Becomes(was: Option<Rule>, w: Wish, r: Option<Rule>) {
    r.Some? &&
    match w
    case Window(p, days, strict) => WindowRule(was, p, days, strict, r.value)
    case Incoming(p) => IncomingRule(was, p, r.value)
  }

  lemma GrantBecomes(rules: seq<Rule>, w: Wish)
    ensures Becomes(At(rules, w.prefix), w, At(Granted(rules, w), w.prefix))
  {
    GrantedHere(rules, w);
    hide At, Granted;
  }

  /** Granting the same wish again changes nothing of what it says. */
  lemma BecomesAgain(was: Option<Rule>, w: Wish, once: Option<Rule>, twice: Option<Rule>)
    requires Becomes(was, w, once) && Becomes(once, w, twice)
    ensures Becomes(was, w, twice)
  {}

  lemma {:induction false} AllBecome(rules: seq<Rule>, wishes: seq<Wish>, w: Wish)
    requires forall i | 0 <= i < |wishes| && wishes[i].prefix == w.prefix :: wishes[i] == w
    ensures if w in wishes then Becomes(At(rules, w.prefix), w, At(GrantedAll(rules, wishes), w.prefix))
            else At(GrantedAll(rules, wishes), w.prefix) == At(rules, w.prefix)
  {
    if wishes != [] {
      var n := |wishes| - 1;
      AllBecome(rules, wishes[..n], w);
      var before := GrantedAll(rules, wishes[..n]);
      GrantedLast(rules, wishes);
      assert wishes == wishes[..n] + [wishes[n]];
      hide GrantedAll, Granted, At, Becomes;
      if wishes[n].prefix == w.prefix {
        GrantBecomes(before, w);
        if w in wishes[..n] {
          BecomesAgain(At(rules, w.prefix), w, At(before, w.prefix), At(Granted(before, w), w.prefix));
        }
      } else {
        GrantedElsewhere(before, wishes[n], w.prefix);
      }
    }
  }

  /** After a merge, each window's prefix that no server uploads to has the window it should, whatever was there. */
  lemma WindowAsWanted(rules: seq<Rule>, base: string, servers: seq<string>, days: int, strict: bool, p: string)
    requires p in Wanted(base, servers) && !Collides(p, servers)
    ensures var r := At(Merged(rules, base, servers, days, strict), p);
      r.Some? && WindowRule(At(rules, p), p, days, strict, r.value)
  {
    var sorted := Sort(servers);
    var wishes := Wishes(base, sorted, days, strict);
    var w := Window(p, days, strict);
    WindowsAreWanted(base, servers, days, strict, p);
    IncomingsAreServers(servers, p);
    hide Sort;
    assert wishes == WindowWishes(base, sorted, days, strict) + Incomings(sorted);
    assert forall x <- Incomings(sorted) :: x == Incoming(x.prefix);
    assert forall x <- Incomings(sorted) :: x.prefix != p;
    assert forall x <- WindowWishes(base, sorted, days, strict) :: x == Window(x.prefix, days, strict);
    assert forall x <- wishes | x.prefix == p :: x == w;
    assert w in wishes;
    hide Wishes, WindowWishes;
    AllBecome(rules, wishes, w);
  }

  /** And each server's pending uploads are cleared after a day, unless its prefix is a window's too. */
  lemma IncomingAsWanted(rules: seq<Rule>, base: string, servers: seq<string>, days: int, strict: bool, server: string)
    requires server in servers && IncomingPrefix(server) !in Wanted(base, servers)
    ensures var p := IncomingPrefix(server);
      var r := At(Merged(rules, base, servers, days, strict), p);
      r.Some? && IncomingRule(At(rules, p), p, r.value)
  {
    var p := IncomingPrefix(server);
    var sorted := Sort(servers);
    var wishes := Wishes(base, sorted, days, strict);
    WindowsAreWanted(base, servers, days, strict, p);
    IncomingsAreServers(servers, p);
    assert Collides(p, servers);
    hide Sort;
    assert wishes == WindowWishes(base, sorted, days, strict) + Incomings(sorted);
    assert forall x <- WindowWishes(base, sorted, days, strict) :: x == Window(x.prefix, days, strict);
    assert forall x <- WindowWishes(base, sorted, days, strict) :: x.prefix != p;
    assert forall x <- Incomings(sorted) :: x == Incoming(x.prefix);
    assert forall x <- wishes | x.prefix == p :: x == Incoming(p);
    assert Incoming(p) in wishes;
    hide Wishes, WindowWishes;
    AllBecome(rules, wishes, Incoming(p));
  }

  // ---------------------------------------------------------------- findings

  /** The rule acts on something under the base, and is not the clearing of pending uploads. */
  ghost predicate ActsOnBackups(prefix: string, base: string) {
    && (base == "" || prefix <= base + "/" || base + "/" <= prefix)
    && prefix != ".incoming/" && !(exists t: string :: prefix == t + "/.incoming/")
  }

  lemma ActsIsCounts(r: Rule, base: string)
    ensures ActsOnBackups(r.prefix, base) <==> Counts(r, base)
  {
    if HasSuffix(r.prefix, IncomingSuffix) {
      assert r.prefix == r.prefix[..|r.prefix| - |IncomingSuffix|] + "/.incoming/";
    }
    if t: string :| r.prefix == t + "/.incoming/" {
      assert r.prefix[|r.prefix| - |IncomingSuffix|..] == IncomingSuffix;
    }
  }

  ghost predicate RefusesOf(r: Rule, base: string, x: Finding) {
    ActsOnBackups(r.prefix, base) && r.uploadToHide == Some(x.days) && x.days > 0 && r.prefix == x.prefix
  }

  /** Setup is refused over exactly the rules that hide backups some days after their upload. */
  lemma {:induction false} RefusedOver(rules: seq<Rule>, base: string, x: Finding)
    ensures x in Refusals(rules, base) <==>
      exists i :: 0 <= i < |rules| && RefusesOf(rules[i], base, x)
  {
    if rules != [] {
      var n := |rules| - 1;
      RefusedOver(rules[..n], base, x);
      RefusesIs(rules[n], base, x);
      assert Refusals(rules, base) == Refusals(rules[..n], base) + RefusalOf(rules[n], base);
      hide *;
      assert forall i | 0 <= i < n :: rules[..n][i] == rules[i];
      if i :| 0 <= i < n && RefusesOf(rules[i], base, x) { assert RefusesOf(rules[..n][i], base, x); }
    }
  }

  lemma RefusesIs(r: Rule, base: string, x: Finding)
    ensures x in RefusalOf(r, base) <==> RefusesOf(r, base, x)
  {
    ActsIsCounts(r, base);
    hide ActsOnBackups, Counts;
  }

  /** It hides nothing, and deletes what backups hid sooner than asked. */
  ghost predicate WarnsOf(r: Rule, base: string, days: int, x: Finding) {
    && ActsOnBackups(r.prefix, base) && (r.uploadToHide.Some? ==> r.uploadToHide.value <= 0)
    && r.hideToDelete == Some(x.days) && 0 < x.days < days && r.prefix == x.prefix
  }

  /** A warning is given over exactly the rules that delete hidden backups sooner than the window asked for. */
  lemma {:induction false} WarnedOver(rules: seq<Rule>, base: string, days: int, x: Finding)
    ensures x in Warnings(rules, base, days) <==>
      exists i :: 0 <= i < |rules| && WarnsOf(rules[i], base, days, x)
  {
    if rules != [] {
      var n := |rules| - 1;
      WarnedOver(rules[..n], base, days, x);
      WarnsIs(rules[n], base, days, x);
      assert Warnings(rules, base, days) == Warnings(rules[..n], base, days) + WarningOf(rules[n], base, days);
      hide *;
      assert forall i | 0 <= i < n :: rules[..n][i] == rules[i];
      if i :| 0 <= i < n && WarnsOf(rules[i], base, days, x) { assert WarnsOf(rules[..n][i], base, days, x); }
    }
  }

  lemma WarnsIs(r: Rule, base: string, days: int, x: Finding)
    ensures x in WarningOf(r, base, days) <==> WarnsOf(r, base, days, x)
  {
    ActsIsCounts(r, base);
    hide ActsOnBackups, Counts;
  }

  /** Taking prefixes out keeps every other rule as often as it was there, and none of these. */
  lemma {:induction false} WithoutKeepsTheRest(rules: seq<Rule>, prefixes: set<string>, r: Rule)
    ensures multiset(Without(rules, prefixes))[r] == if r.prefix in prefixes then 0 else multiset(rules)[r]
  {
    if rules != [] {
      var n := |rules| - 1;
      WithoutKeepsTheRest(rules[..n], prefixes, r);
      assert rules == rules[..n] + [rules[n]];
    }
  }
}
