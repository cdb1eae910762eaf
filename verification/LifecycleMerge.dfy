/**
 The lifecycle rule operations as they run, over lists updated step by step.
 */
module LifecycleMerge {
  import opened Wrappers
  import opened LifecycleRules

  /** Whether some wish is not granted when its turn comes. */
  function Touched(rules: seq<Rule>, wishes: seq<Wish>): bool {
    wishes != [] &&
    var n := |wishes| - 1;
    Touched(rules, wishes[..n]) || !Satisfied(GrantedAll(rules, wishes[..n]), wishes[n])
  }

  datatype TooMany = TooMany(needed: nat)

  datatype Plan = Plan(rules: seq<Rule>, changed: bool)

  /** Puts one wish in place, and says whether it had to. */
  method Grant(rules: seq<Rule>, w: Wish) returns (out: seq<Rule>, changed: bool)
    ensures out == Granted(rules, w) && changed == !Satisfied(rules, w)
  {
    var i := 0;
    while i < |rules| && rules[i].prefix != w.prefix
      invariant i <= |rules| && forall k | 0 <= k < i :: rules[k].prefix != w.prefix
    {
      i := i + 1;
    }
    FindIs(rules, w.prefix, i);
    if i == |rules| {
      return rules + [NewRule(w)], true;
    }
    if Grants(rules[i], w) {
      return rules, false;
    }
    var r := rules[i];
    match w {
      case Window(_, days, strict) =>
        if !IsSet(r.hideToDelete) || (strict && r.hideToDelete.value != days) {
          r := r.(hideToDelete := Some(days));
        }
        if !IsSet(r.cancelUnfinished) {
          r := r.(cancelUnfinished := Some(7));
        }
        r := r.(raw := None);
      case Incoming(_) =>
        r := r.(uploadToHide := Some(1), hideToDelete := Some(1), raw := None);
    }
    out := rules[i := r];
    changed := true;
  }

  /** The bucket's rules with what backups need in place, or how many it would take. */
  method Merge(existing: seq<Rule>, base: string, servers: seq<string>, days: int, strict: bool) returns (plan: Result<Plan, TooMany>)
    ensures var out := Merged(existing, base, servers, days, strict);
      var changed := Touched(existing, Wishes(base, Sort(servers), days, strict));
      plan == if changed && |out| > MaxRules then Err(TooMany(|out|)) else Ok(Plan(out, changed))
  {
    var wishes := Wishes(base, Sort(servers), days, strict);
    var out, changed := existing, false;
    for i := 0 to |wishes|
      invariant out == GrantedAll(existing, wishes[..i]) && changed == Touched(existing, wishes[..i])
    {
      assert wishes[..i + 1][..i] == wishes[..i];
      var touched;
      out, touched := Grant(out, wishes[i]);
      changed := changed || touched;
    }
    assert wishes[..|wishes|] == wishes;
    if changed && |out| > MaxRules {
      return Err(TooMany(|out|));
    }
    plan := Ok(Plan(out, changed));
  }

  /** Something is sent exactly when the rules differ. */
  lemma {:induction false} ChangedExactlyWhenDifferent(rules: seq<Rule>, wishes: seq<Wish>)
    requires Apart(wishes) && forall i | 0 <= i < |wishes| :: Positive(wishes[i])
    ensures Touched(rules, wishes) <==> GrantedAll(rules, wishes) != rules
  {
    if wishes != [] {
      var n := |wishes| - 1;
      ChangedExactlyWhenDifferent(rules, wishes[..n]);
      var before := GrantedAll(rules, wishes[..n]);
      if GrantedAll(rules, wishes) == rules {
        AllSatisfied(rules, wishes);
        assert forall i | 0 <= i < n :: wishes[..n][i] == wishes[i];
        NothingToGrant(rules, wishes[..n]);
      } else if Satisfied(before, wishes[n]) {
        assert Granted(before, wishes[n]) == before;
      }
    }
  }

  /** Drops the rules with these exact prefixes. */
  method WithoutPrefixes(rules: seq<Rule>, prefixes: seq<string>) returns (out: seq<Rule>, removed: bool)
    ensures out == Without(rules, set p | p in prefixes)
    ensures removed <==> exists i :: 0 <= i < |rules| && rules[i].prefix in prefixes
  {
    out, removed := [], false;
    for i := 0 to |rules|
      invariant out == Without(rules[..i], set p | p in prefixes)
      invariant removed <==> exists k :: 0 <= k < i && rules[k].prefix in prefixes
    {
      assert rules[..i + 1][..i] == rules[..i];
      var drop := false;
      for j := 0 to |prefixes|
        invariant drop <==> exists k :: 0 <= k < j && rules[i].prefix == prefixes[k]
      {
        drop := drop || rules[i].prefix == prefixes[j];
      }
      if drop {
        removed := true;
      } else {
        out := out + [rules[i]];
      }
    }
    assert rules[..|rules|] == rules;
  }

  datatype Analysis = Analysis(refusals: seq<Finding>, warnings: seq<Finding>, s3Managed: bool)

  /** What the rules mean for backups under a base. */
  method Analyze(rules: seq<Rule>, base: string, days: int) returns (found: Analysis)
    ensures found.refusals == Refusals(rules, base) && found.warnings == Warnings(rules, base, days)
    ensures found.s3Managed <==> exists i :: 0 <= i < |rules| && rules[i].foreign
  {
    found := Analysis([], [], false);
    NothingFound(base, days);
    assert rules[..0] == [];
    hide Finds;
    for i := 0 to |rules|
      invariant Finds(found, rules[..i], base, days)
    {
      ghost var before := found;
      found := AnalyzeOne(found, rules[i], base, days);
      FindsNext(before, found, rules[..i], rules[i], base, days);
      assert rules[..i + 1] == rules[..i] + [rules[i]];
    }
    assert rules[..|rules|] == rules;
    WhatIsFound(found, rules, base, days);
  }

  ghost predicate Finds(found: Analysis, rules: seq<Rule>, base: string, days: int) {
    && found.refusals == Refusals(rules, base) && found.warnings == Warnings(rules, base, days)
    && found.s3Managed == AnyForeign(rules)
  }

  predicate AnyForeign(rules: seq<Rule>) { exists i :: 0 <= i < |rules| && rules[i].foreign }

  lemma NothingFound(base: string, days: int)
    ensures Finds(Analysis([], [], false), [], base, days)
  {}

  lemma WhatIsFound(found: Analysis, rules: seq<Rule>, base: string, days: int)
    requires Finds(found, rules, base, days)
    ensures found.refusals == Refusals(rules, base) && found.warnings == Warnings(rules, base, days)
    ensures found.s3Managed <==> exists i :: 0 <= i < |rules| && rules[i].foreign
  {}

  lemma FindsNext(before: Analysis, found: Analysis, seen: seq<Rule>, r: Rule, base: string, days: int)
    requires Finds(before, seen, base, days)
    requires found.refusals == before.refusals + RefusalOf(r, base) && found.warnings == before.warnings + WarningOf(r, base, days)
    requires found.s3Managed == (before.s3Managed || r.foreign)
    ensures Finds(found, seen + [r], base, days)
  {
    OneMoreFinding(seen, r, base, days);
    OneMoreForeign(seen, r);
    hide RefusalOf, WarningOf, Refusals, Warnings, AnyForeign;
  }

  lemma OneMoreFinding(seen: seq<Rule>, r: Rule, base: string, days: int)
    ensures Refusals(seen + [r], base) == Refusals(seen, base) + RefusalOf(r, base)
    ensures Warnings(seen + [r], base, days) == Warnings(seen, base, days) + WarningOf(r, base, days)
  {
    assert (seen + [r])[..|seen|] == seen;
    hide RefusalOf, WarningOf;
  }

  lemma OneMoreForeign(seen: seq<Rule>, r: Rule)
    ensures AnyForeign(seen + [r]) <==> AnyForeign(seen) || r.foreign
  {
    var more := seen + [r];
    assert more[|seen|] == r;
    assert forall k | 0 <= k < |seen| :: more[k] == seen[k];
  }

  method AnalyzeOne(before: Analysis, r: Rule, base: string, days: int) returns (found: Analysis)
    ensures found.refusals == before.refusals + RefusalOf(r, base)
    ensures found.warnings == before.warnings + WarningOf(r, base, days)
    ensures found.s3Managed == (before.s3Managed || r.foreign)
  {
    found := before.(s3Managed := before.s3Managed || r.foreign);
    hide Overlaps, IsIncoming;
    if !Overlaps(r.prefix, BasePrefix(base)) || IsIncoming(r.prefix) {
      return;
    }
    if IsSet(r.uploadToHide) {
      found := found.(refusals := found.refusals + [Finding(r.prefix, r.uploadToHide.value)]);
      return;
    }
    if IsSet(r.hideToDelete) && r.hideToDelete.value < days {
      found := found.(warnings := found.warnings + [Finding(r.prefix, r.hideToDelete.value)]);
    }
  }

  /** The rules whose window counts: a positive one on a wanted prefix. */
  predicate Keeps(r: Rule, wanted: seq<string>) { r.prefix in wanted && IsSet(r.hideToDelete) }

  /** The shortest window in force, or the one asked for if there is none. */
  ghost predicate IsWindow(rules: seq<Rule>, wanted: seq<string>, asked: int, window: int) {
    if exists i :: 0 <= i < |rules| && Keeps(rules[i], wanted) then
      && (exists i :: 0 <= i < |rules| && Keeps(rules[i], wanted) && rules[i].hideToDelete.value == window)
      && (forall i | 0 <= i < |rules| && Keeps(rules[i], wanted) :: window <= rules[i].hideToDelete.value)
    else window == asked
  }

  function Wanted(base: string, servers: seq<string>): seq<string> {
    if base == "" then seq(|servers|, i requires 0 <= i < |servers| => servers[i] + "/") else [BasePrefix(base)]
  }

  method EffectiveWindow(rules: seq<Rule>, base: string, servers: seq<string>, asked: int) returns (window: int)
    ensures IsWindow(rules, Wanted(base, servers), asked, window)
  {
    var wanted := Wanted(base, servers);
    var found := 0;
    for i := 0 to |rules|
      invariant found >= 0
      invariant found == 0 ==> forall k | 0 <= k < i :: !Keeps(rules[k], wanted)
      invariant found > 0 ==> exists k :: 0 <= k < i && Keeps(rules[k], wanted) && rules[k].hideToDelete.value == found
      invariant forall k | 0 <= k < i && Keeps(rules[k], wanted) :: found <= rules[k].hideToDelete.value
    {
      ghost var before := found;
      for j := 0 to |wanted|
        invariant found == if (exists k :: 0 <= k < j && rules[i].prefix == wanted[k]) && IsSet(rules[i].hideToDelete)
                              && (before == 0 || rules[i].hideToDelete.value < before)
                           then rules[i].hideToDelete.value else before
      {
        var r := rules[i];
        if r.prefix == wanted[j] && IsSet(r.hideToDelete) && (found == 0 || r.hideToDelete.value < found) {
          found := r.hideToDelete.value;
        }
      }
      assert rules[i].prefix in wanted <==> exists k :: 0 <= k < |wanted| && rules[i].prefix == wanted[k];
    }
    window := if found == 0 then asked else found;
  }

  ghost predicate OnePerPrefix(rules: seq<Rule>) {
    forall i, j | 0 <= i < j < |rules| :: rules[i].prefix != rules[j].prefix
  }

  lemma {:induction false} StaysOnePerPrefix(rules: seq<Rule>, wishes: seq<Wish>)
    requires OnePerPrefix(rules)
    ensures OnePerPrefix(GrantedAll(rules, wishes))
  {
    if wishes != [] {
      StaysOnePerPrefix(rules, wishes[..|wishes| - 1]);
    }
  }

  /** A window a person chose is the window in force once it is merged. */
  lemma ChosenWindowHolds(rules: seq<Rule>, base: string, servers: seq<string>, days: int, asked: int, window: int)
    requires OnePerPrefix(rules) && days > 0 && (base == "" ==> servers != [])
    requires Apart(Wishes(base, Sort(servers), days, true))
    requires IsWindow(Merged(rules, base, servers, days, true), Wanted(base, servers), asked, window)
    ensures window == days
  {
    var wishes := Wishes(base, Sort(servers), days, true);
    var out := GrantedAll(rules, wishes);
    forall i | 0 <= i < |wishes| ensures Positive(wishes[i]) {}
    AllSatisfied(rules, wishes);
    StaysOnePerPrefix(rules, wishes);
    forall p | p in Wanted(base, servers) ensures Window(p, days, true) in wishes {
      WantedIsWished(base, servers, p, days);
    }
    hide GrantedAll, Wishes, Sort, Apart;
    forall i | 0 <= i < |out| && Keeps(out[i], Wanted(base, servers)) ensures out[i].hideToDelete.value == days {
      assert Satisfied(out, Window(out[i].prefix, days, true));
      var k := Find(out, out[i].prefix);
      assert k == i;
    }
    assert Wanted(base, servers)[0] in Wanted(base, servers);
    var p := Wanted(base, servers)[0];
    assert Satisfied(out, Window(p, days, true));
    assert Keeps(out[Find(out, p)], Wanted(base, servers));
  }

  lemma WantedIsWished(base: string, servers: seq<string>, p: string, days: int)
    requires p in Wanted(base, servers)
    ensures Window(p, days, true) in Wishes(base, Sort(servers), days, true)
  {
    var sorted := Sort(servers);
    var wishes := Wishes(base, sorted, days, true);
    if base == "" {
      var i :| 0 <= i < |servers| && p == servers[i] + "/";
      SortSorts(servers);
      assert servers[i] in multiset(sorted);
      var k :| 0 <= k < |sorted| && sorted[k] == servers[i];
      assert wishes[k] == Window(p, days, true);
    } else {
      assert wishes[0] == Window(p, days, true);
    }
  }
}
