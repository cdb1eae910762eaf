/**
 A bucket's lifecycle rules: the rules backups need are put in place beside whatever rules are there,
 matched by prefix. A list keeps its order, and a rule that is not owned keeps its bytes.
 */
module LifecycleRules {
  import opened Wrappers

  const MaxRules := 100
  const IncomingSuffix := "/.incoming/"

  /** `raw` is the rule as it came; a rule that was changed has none. */
  datatype Rule = Rule(
    prefix: string, hideToDelete: Option<int>, uploadToHide: Option<int>, cancelUnfinished: Option<int>,
    foreign: bool, raw: Option<string>)

  predicate IsSet(v: Option<int>) { v.Some? && v.value > 0 }

  function BasePrefix(base: string): string { if base == "" then "" else base + "/" }

  function IncomingPrefix(server: string): string { server + IncomingSuffix }

  predicate Overlaps(a: string, b: string) { a <= b || b <= a }

  predicate HasSuffix(s: string, suffix: string) { |suffix| <= |s| && s[|s| - |suffix|..] == suffix }

  predicate IsIncoming(prefix: string) { HasSuffix(prefix, IncomingSuffix) || prefix == ".incoming/" }

  // ---------------------------------------------------------------- merging

  /** A rule wanted: the recovery window on a prefix, or the clearing of a pending-upload tree. */
  datatype Wish = Window(prefix: string, days: int, strict: bool) | Incoming(prefix: string)

  /** A person's own window overrides the one in place; otherwise any positive window stays. */
  predicate Grants(r: Rule, w: Wish) {
    match w
    case Window(_, days, strict) => IsSet(r.hideToDelete) && (strict ==> r.hideToDelete.value == days) && IsSet(r.cancelUnfinished)
    case Incoming(_) => r.uploadToHide == Some(1) && r.hideToDelete == Some(1)
  }

  function NewRule(w: Wish): Rule {
    match w
    case Window(prefix, days, _) => Rule(prefix, Some(days), None, Some(7), false, None)
    case Incoming(prefix) => Rule(prefix, Some(1), Some(1), None, false, None)
  }

  function Granting(r: Rule, w: Wish): Rule {
    if Grants(r, w) then r
    else match w
      case Window(_, days, strict) =>
        r.(hideToDelete := if !IsSet(r.hideToDelete) || (strict && r.hideToDelete.value != days) then Some(days) else r.hideToDelete,
           cancelUnfinished := if IsSet(r.cancelUnfinished) then r.cancelUnfinished else Some(7), raw := None)
      case Incoming(_) => r.(uploadToHide := Some(1), hideToDelete := Some(1), raw := None)
  }

  /** The first rule with the prefix, or the length. */
  function Find(rules: seq<Rule>, prefix: string): (i: nat)
    ensures i <= |rules| && (i < |rules| ==> rules[i].prefix == prefix)
    ensures forall k | 0 <= k < i :: rules[k].prefix != prefix
  {
    if rules == [] || rules[0].prefix == prefix then 0 else 1 + Find(rules[1..], prefix)
  }

  function Granted(rules: seq<Rule>, w: Wish): seq<Rule> {
    var i := Find(rules, w.prefix);
    if i == |rules| then rules + [NewRule(w)] else rules[i := Granting(rules[i], w)]
  }

  function GrantedAll(rules: seq<Rule>, wishes: seq<Wish>): seq<Rule> {
    if wishes == [] then rules
    else Granted(GrantedAll(rules, wishes[..|wishes| - 1]), wishes[|wishes| - 1])
  }

  function Windows(servers: seq<string>, days: int, strict: bool): seq<Wish> {
    seq(|servers|, i requires 0 <= i < |servers| => Window(servers[i] + "/", days, strict))
  }

  function Incomings(servers: seq<string>): seq<Wish> {
    seq(|servers|, i requires 0 <= i < |servers| => Incoming(IncomingPrefix(servers[i])))
  }

  /** With no base each server has a window of its own, since a rule on "" would act on the whole bucket. */
  function Wishes(base: string, sorted: seq<string>, days: int, strict: bool): seq<Wish> {
    (if base == "" then Windows(sorted, days, strict) else [Window(BasePrefix(base), days, strict)]) + Incomings(sorted)
  }

  // ---------------------------------------------------------------- wishes in place

  /** Owned prefixes are apart: no wish of one kind is on a prefix of the other. */
  ghost predicate Apart(wishes: seq<Wish>) {
    forall i, j | 0 <= i < |wishes| && 0 <= j < |wishes| && wishes[i].prefix == wishes[j].prefix :: wishes[i] == wishes[j]
  }

  ghost predicate Positive(w: Wish) { w.Window? ==> w.days > 0 }

  predicate Satisfied(rules: seq<Rule>, w: Wish) {
    var i := Find(rules, w.prefix); i < |rules| && Grants(rules[i], w)
  }

  lemma FindIs(rules: seq<Rule>, prefix: string, i: nat)
    requires i <= |rules| && (i < |rules| ==> rules[i].prefix == prefix) && forall k | 0 <= k < i :: rules[k].prefix != prefix
    ensures Find(rules, prefix) == i
  {}

  lemma GrantedSatisfies(rules: seq<Rule>, w: Wish)
    requires Positive(w)
    ensures Satisfied(Granted(rules, w), w)
  {
    FindIs(Granted(rules, w), w.prefix, Find(rules, w.prefix));
  }

  lemma OtherWishesStay(rules: seq<Rule>, w: Wish, v: Wish)
    requires Satisfied(rules, v) && v.prefix != w.prefix
    ensures Satisfied(Granted(rules, w), v)
  {
    FindIs(Granted(rules, w), v.prefix, Find(rules, v.prefix));
  }

  lemma {:induction false} AllSatisfied(rules: seq<Rule>, wishes: seq<Wish>)
    requires Apart(wishes) && forall i | 0 <= i < |wishes| :: Positive(wishes[i])
    ensures forall i | 0 <= i < |wishes| :: Satisfied(GrantedAll(rules, wishes), wishes[i])
  {
    if wishes != [] {
      var n := |wishes| - 1;
      var before := GrantedAll(rules, wishes[..n]);
      assert GrantedAll(rules, wishes) == Granted(before, wishes[n]);
      AllSatisfied(rules, wishes[..n]);
      hide GrantedAll, Granted, Satisfied;
      GrantedSatisfies(before, wishes[n]);
      forall i | 0 <= i < n ensures Satisfied(GrantedAll(rules, wishes), wishes[i]) {
        assert wishes[..n][i] == wishes[i];
        if wishes[i].prefix != wishes[n].prefix {
          OtherWishesStay(before, wishes[n], wishes[i]);
        }
      }
    }
  }

  lemma {:induction false} NothingToGrant(rules: seq<Rule>, wishes: seq<Wish>)
    requires forall i | 0 <= i < |wishes| :: Satisfied(rules, wishes[i])
    ensures GrantedAll(rules, wishes) == rules
  {
    if wishes != [] {
      NothingToGrant(rules, wishes[..|wishes| - 1]);
    }
  }

  // ---------------------------------------------------------------- what is not owned

  lemma {:induction false} OthersUntouched(rules: seq<Rule>, wishes: seq<Wish>)
    ensures var out := GrantedAll(rules, wishes);
      && |rules| <= |out|
      && (forall i | 0 <= i < |rules| :: out[i].prefix == rules[i].prefix && out[i].foreign == rules[i].foreign)
      && (forall i | 0 <= i < |rules| && (forall w <- wishes :: w.prefix != rules[i].prefix) :: out[i] == rules[i])
      && (forall i | |rules| <= i < |out| :: exists w :: w in wishes && out[i].prefix == w.prefix)
  {
    if wishes != [] {
      var n := |wishes| - 1;
      OthersUntouched(rules, wishes[..n]);
      var before := GrantedAll(rules, wishes[..n]);
      var out := GrantedAll(rules, wishes);
      assert wishes == wishes[..n] + [wishes[n]];
      forall i | |rules| <= i < |out| ensures exists w :: w in wishes && out[i].prefix == w.prefix {
        if i < |before| {
          var w :| w in wishes[..n] && before[i].prefix == w.prefix;
          assert w in wishes && out[i].prefix == w.prefix;
        } else {
          assert wishes[n] in wishes;
        }
      }
    }
  }

  // ---------------------------------------------------------------- taking a server's rules out again

  function Without(rules: seq<Rule>, prefixes: set<string>): seq<Rule> {
    if rules == [] then []
    else Without(rules[..|rules| - 1], prefixes) + if rules[|rules| - 1].prefix in prefixes then [] else [rules[|rules| - 1]]
  }

  function WishesWithout(wishes: seq<Wish>, prefixes: set<string>): seq<Wish> {
    if wishes == [] then []
    else WishesWithout(wishes[..|wishes| - 1], prefixes) + if wishes[|wishes| - 1].prefix in prefixes then [] else [wishes[|wishes| - 1]]
  }

  lemma {:induction false} WithoutConcat(a: seq<Rule>, b: seq<Rule>, prefixes: set<string>)
    ensures Without(a + b, prefixes) == Without(a, prefixes) + Without(b, prefixes)
  {
    if b == [] {
      assert a + b == a;
    } else {
      var n := |b| - 1;
      WithoutConcat(a, b[..n], prefixes);
      assert (a + b)[..|a| + n] == a + b[..n];
    }
  }

  lemma WithoutOne(r: Rule, prefixes: set<string>)
    ensures Without([r], prefixes) == if r.prefix in prefixes then [] else [r]
  {
    assert [r][..0] == [];
  }

  lemma {:induction false} WithoutHasNot(rules: seq<Rule>, prefixes: set<string>)
    ensures forall i | 0 <= i < |Without(rules, prefixes)| ::
      Without(rules, prefixes)[i] in rules && Without(rules, prefixes)[i].prefix !in prefixes
  {
    if rules != [] {
      WithoutHasNot(rules[..|rules| - 1], prefixes);
    }
  }

  lemma WithoutAppended(rules: seq<Rule>, w: Wish, prefixes: set<string>)
    requires Find(rules, w.prefix) == |rules|
    ensures Without(rules + [NewRule(w)], prefixes) ==
      if w.prefix in prefixes then Without(rules, prefixes) else Granted(Without(rules, prefixes), w)
  {
    WithoutConcat(rules, [NewRule(w)], prefixes);
    WithoutOne(NewRule(w), prefixes);
    WithoutHasNot(rules, prefixes);
    hide Without;
    FindIs(Without(rules, prefixes), w.prefix, |Without(rules, prefixes)|);
  }

  lemma WithoutUpdated(front: seq<Rule>, r: Rule, back: seq<Rule>, w: Wish, prefixes: set<string>)
    requires r.prefix == w.prefix && forall k | 0 <= k < |front| :: front[k].prefix != w.prefix
    ensures Without(front + [Granting(r, w)] + back, prefixes) ==
      if w.prefix in prefixes then Without(front + [r] + back, prefixes) else Granted(Without(front + [r] + back, prefixes), w)
  {
    WithoutThree(front, r, back, prefixes);
    WithoutThree(front, Granting(r, w), back, prefixes);
    WithoutHasNot(front, prefixes);
    hide Without;
    var kept, rest := Without(front, prefixes), Without(back, prefixes);
    assert forall k | 0 <= k < |kept| :: kept[k] in front && kept[k].prefix != w.prefix;
    FindIs(kept + [r] + rest, w.prefix, |kept|);
    assert (kept + [r] + rest)[|kept| := Granting(r, w)] == kept + [Granting(r, w)] + rest;
  }

  /** Granting a wish and taking prefixes out can be done in either order. */
  lemma WithoutGranted(rules: seq<Rule>, w: Wish, prefixes: set<string>)
    ensures Without(Granted(rules, w), prefixes) ==
      if w.prefix in prefixes then Without(rules, prefixes) else Granted(Without(rules, prefixes), w)
  {
    hide Without, Granting;
    var i := Find(rules, w.prefix);
    if i == |rules| {
      WithoutAppended(rules, w, prefixes);
    } else {
      assert rules == rules[..i] + [rules[i]] + rules[i + 1..];
      assert Granted(rules, w) == rules[..i] + [Granting(rules[i], w)] + rules[i + 1..];
      hide Granted;
      WithoutUpdated(rules[..i], rules[i], rules[i + 1..], w, prefixes);
    }
  }

  lemma WithoutThree(front: seq<Rule>, r: Rule, back: seq<Rule>, prefixes: set<string>)
    ensures Without(front + [r] + back, prefixes)
      == Without(front, prefixes) + (if r.prefix in prefixes then [] else [r]) + Without(back, prefixes)
  {
    WithoutConcat(front + [r], back, prefixes);
    WithoutConcat(front, [r], prefixes);
    WithoutOne(r, prefixes);
  }

  /** Merging, then taking prefixes out, is merging without them into the rules without them. */
  lemma {:induction false} WithoutUndoes(rules: seq<Rule>, wishes: seq<Wish>, prefixes: set<string>)
    ensures Without(GrantedAll(rules, wishes), prefixes)
      == GrantedAll(Without(rules, prefixes), WishesWithout(wishes, prefixes))
  {
    if wishes != [] {
      var n := |wishes| - 1;
      var kept := WishesWithout(wishes[..n], prefixes);
      assert GrantedAll(rules, wishes) == Granted(GrantedAll(rules, wishes[..n]), wishes[n]);
      WishesWithoutLast(wishes, prefixes);
      GrantedAfter(Without(rules, prefixes), kept, wishes[n]);
      hide *;
      WithoutUndoes(rules, wishes[..n], prefixes);
      WithoutGranted(GrantedAll(rules, wishes[..n]), wishes[n], prefixes);
    }
  }

  lemma WishesWithoutLast(wishes: seq<Wish>, prefixes: set<string>)
    requires wishes != []
    ensures var n := |wishes| - 1;
      WishesWithout(wishes, prefixes) ==
        if wishes[n].prefix in prefixes then WishesWithout(wishes[..n], prefixes) else WishesWithout(wishes[..n], prefixes) + [wishes[n]]
  {}

  lemma GrantedAfter(rules: seq<Rule>, wishes: seq<Wish>, w: Wish)
    ensures GrantedAll(rules, wishes + [w]) == Granted(GrantedAll(rules, wishes), w)
  {
    assert (wishes + [w])[..|wishes|] == wishes;
  }

  // ---------------------------------------------------------------- servers in any order

  /** Strings compared byte by byte. */
  predicate Leq(a: string, b: string) {
    a == [] || (b != [] && (a[0] < b[0] || (a[0] == b[0] && Leq(a[1..], b[1..]))))
  }

  lemma {:induction false} LeqTotal(a: string, b: string)
    ensures Leq(a, b) || Leq(b, a)
  {
    if a != [] && b != [] && a[0] == b[0] { LeqTotal(a[1..], b[1..]); }
  }

  lemma {:induction false} LeqAntisymmetric(a: string, b: string)
    requires Leq(a, b) && Leq(b, a)
    ensures a == b
  {
    if a != [] && b != [] {
      LeqAntisymmetric(a[1..], b[1..]);
      assert a == [a[0]] + a[1..] && b == [b[0]] + b[1..];
    }
  }

  lemma {:induction false} LeqTransitive(a: string, b: string, c: string)
    requires Leq(a, b) && Leq(b, c)
    ensures Leq(a, c)
  {
    if a != [] && a[0] == b[0] == c[0] { LeqTransitive(a[1..], b[1..], c[1..]); }
  }

  ghost predicate Sorted(names: seq<string>) { forall i, j | 0 <= i < j < |names| :: Leq(names[i], names[j]) }

  function Inserted(names: seq<string>, name: string): seq<string> {
    if names == [] || Leq(name, names[0]) then [name] + names else [names[0]] + Inserted(names[1..], name)
  }

  function Sort(names: seq<string>): seq<string> {
    if names == [] then [] else Inserted(Sort(names[..|names| - 1]), names[|names| - 1])
  }

  lemma {:induction false} InsertedSorted(names: seq<string>, name: string)
    requires Sorted(names)
    ensures Sorted(Inserted(names, name)) && multiset(Inserted(names, name)) == multiset(names) + multiset{name}
    ensures forall x <- Inserted(names, name) :: x in names || x == name
  {
    if names == [] || Leq(name, names[0]) {
      forall i | 0 <= i < |names| ensures Leq(name, names[i]) {
        if i > 0 { LeqTransitive(name, names[0], names[i]); }
      }
      hide Leq;
    } else {
      LeqTotal(name, names[0]);
      InsertedSorted(names[1..], name);
      hide Leq, Inserted;
      ThenInserted(names, name, Inserted(names[1..], name));
    }
  }

  lemma ThenInserted(names: seq<string>, name: string, rest: seq<string>)
    requires names != [] && Sorted(names) && Leq(names[0], name) && Sorted(rest)
    requires multiset(rest) == multiset(names[1..]) + multiset{name} && forall x <- rest :: x in names[1..] || x == name
    ensures Sorted([names[0]] + rest) && multiset([names[0]] + rest) == multiset(names) + multiset{name}
    ensures forall x <- [names[0]] + rest :: x in names || x == name
  {
    hide Leq;
    assert names == [names[0]] + names[1..];
    forall i | 0 <= i < |rest| ensures Leq(names[0], rest[i]) {
      assert rest[i] in rest;
    }
    hide Sorted;
    PutFirst(names[0], rest);
  }

  lemma PutFirst(first: string, rest: seq<string>)
    requires Sorted(rest) && forall i | 0 <= i < |rest| :: Leq(first, rest[i])
    ensures Sorted([first] + rest)
  {
    hide Leq;
    forall i, j | 0 <= i < j < |[first] + rest| ensures Leq(([first] + rest)[i], ([first] + rest)[j]) {
      assert ([first] + rest)[j] == rest[j - 1];
    }
  }

  lemma {:induction false} SortSorts(names: seq<string>)
    ensures Sorted(Sort(names)) && multiset(Sort(names)) == multiset(names)
  {
    if names != [] {
      var n := |names| - 1;
      SortSorts(names[..n]);
      InsertedSorted(Sort(names[..n]), names[n]);
      assert names == names[..n] + [names[n]];
    }
  }

  lemma {:induction false} SortedIsUnique(a: seq<string>, b: seq<string>)
    requires Sorted(a) && Sorted(b) && multiset(a) == multiset(b)
    ensures a == b
  {
    hide Leq, Sorted;
    assert |a| == |multiset(a)| == |multiset(b)| == |b|;
    if a != [] {
      SameFirst(a, b);
      SortedTail(a);
      SortedTail(b);
      SortedIsUnique(a[1..], b[1..]);
    }
  }

  lemma SameFirst(a: seq<string>, b: seq<string>)
    requires Sorted(a) && Sorted(b) && multiset(a) == multiset(b) && a != [] && b != []
    ensures a[0] == b[0]
  {
    hide Leq, Sorted;
    assert a[0] in multiset(b) && b[0] in multiset(a);
    FirstIsLeast(a, b[0]);
    FirstIsLeast(b, a[0]);
    LeqAntisymmetric(a[0], b[0]);
  }

  lemma SortedTail(names: seq<string>)
    requires Sorted(names) && names != []
    ensures Sorted(names[1..]) && multiset(names[1..]) == multiset(names) - multiset{names[0]} && names == [names[0]] + names[1..]
  {
    hide Leq;
    assert names == [names[0]] + names[1..];
  }

  lemma FirstIsLeast(names: seq<string>, x: string)
    requires Sorted(names) && x in names
    ensures Leq(names[0], x)
  {
    LeqTotal(x, x);
  }

  function Merged(rules: seq<Rule>, base: string, servers: seq<string>, days: int, strict: bool): seq<Rule> {
    GrantedAll(rules, Wishes(base, Sort(servers), days, strict))
  }

  /** The servers' order does not matter. */
  lemma OrderDoesNotMatter(rules: seq<Rule>, base: string, a: seq<string>, b: seq<string>, days: int, strict: bool)
    requires multiset(a) == multiset(b)
    ensures Merged(rules, base, a, days, strict) == Merged(rules, base, b, days, strict)
  {
    SortSorts(a);
    SortSorts(b);
    SortedIsUnique(Sort(a), Sort(b));
  }

  // ---------------------------------------------------------------- removing a server again

  function OwnedBy(base: string, server: string): set<string> {
    {IncomingPrefix(server)} + if base == "" then {server + "/"} else {}
  }

  lemma {:induction false} WishesWithoutConcat(a: seq<Wish>, b: seq<Wish>, prefixes: set<string>)
    ensures WishesWithout(a + b, prefixes) == WishesWithout(a, prefixes) + WishesWithout(b, prefixes)
  {
    if b == [] {
      assert a + b == a;
    } else {
      var n := |b| - 1;
      WishesWithoutConcat(a, b[..n], prefixes);
      assert (a + b)[..|a| + n] == a + b[..n];
    }
  }

  lemma {:induction false} NoWishGone(wishes: seq<Wish>, prefixes: set<string>)
    requires forall i | 0 <= i < |wishes| :: wishes[i].prefix !in prefixes
    ensures WishesWithout(wishes, prefixes) == wishes
  {
    if wishes != [] {
      NoWishGone(wishes[..|wishes| - 1], prefixes);
    }
  }

  lemma {:induction false} NoRuleGone(rules: seq<Rule>, prefixes: set<string>)
    requires forall i | 0 <= i < |rules| :: rules[i].prefix !in prefixes
    ensures Without(rules, prefixes) == rules
  {
    if rules != [] {
      NoRuleGone(rules[..|rules| - 1], prefixes);
    }
  }

  /** One wish among others, put in anywhere, is all that goes. */
  lemma OneWishGone(a: seq<Wish>, w: Wish, b: seq<Wish>, prefixes: set<string>)
    requires w.prefix in prefixes
    requires forall i | 0 <= i < |a| :: a[i].prefix !in prefixes
    requires forall i | 0 <= i < |b| :: b[i].prefix !in prefixes
    ensures WishesWithout(a + [w] + b, prefixes) == a + b
  {
    WishesWithoutConcat(a + [w], b, prefixes);
    WishesWithoutConcat(a, [w], prefixes);
    assert [w][..0] == [];
    NoWishGone(a, prefixes);
    NoWishGone(b, prefixes);
    assert a + [] == a;
  }

  lemma {:induction false} InsertedWhere(names: seq<string>, name: string) returns (k: nat)
    ensures k <= |names| && Inserted(names, name) == names[..k] + [name] + names[k..]
  {
    k := 0;
    if names != [] && !Leq(name, names[0]) {
      k := InsertedWhere(names[1..], name);
      assert names == [names[0]] + names[1..];
      k := k + 1;
    }
  }

  ghost predicate ApartFrom(base: string, servers: seq<string>, days: int, strict: bool, prefixes: set<string>) {
    var sorted := Sort(servers);
    && (forall i | 0 <= i < |Incomings(sorted)| :: Incomings(sorted)[i].prefix !in prefixes)
    && (base == "" ==> forall i | 0 <= i < |Windows(sorted, days, strict)| :: Windows(sorted, days, strict)[i].prefix !in prefixes)
    && (base != "" ==> BasePrefix(base) !in prefixes)
  }

  lemma IncomingGone(sorted: seq<string>, server: string, k: nat, owned: set<string>)
    requires k <= |sorted| && IncomingPrefix(server) in owned
    requires forall i | 0 <= i < |Incomings(sorted)| :: Incomings(sorted)[i].prefix !in owned
    ensures WishesWithout(Incomings(sorted[..k] + [server] + sorted[k..]), owned) == Incomings(sorted)
  {
    var more := sorted[..k] + [server] + sorted[k..];
    var inc := Incomings(sorted);
    assert Incomings(more) == inc[..k] + [Incoming(IncomingPrefix(server))] + inc[k..];
    assert inc == inc[..k] + inc[k..];
    hide Incomings, IncomingPrefix;
    OneWishGone(inc[..k], Incoming(IncomingPrefix(server)), inc[k..], owned);
  }

  lemma WindowGone(sorted: seq<string>, server: string, k: nat, days: int, strict: bool, owned: set<string>)
    requires k <= |sorted| && server + "/" in owned
    requires forall i | 0 <= i < |Windows(sorted, days, strict)| :: Windows(sorted, days, strict)[i].prefix !in owned
    ensures WishesWithout(Windows(sorted[..k] + [server] + sorted[k..], days, strict), owned) == Windows(sorted, days, strict)
  {
    var more := sorted[..k] + [server] + sorted[k..];
    var win := Windows(sorted, days, strict);
    assert Windows(more, days, strict) == win[..k] + [Window(server + "/", days, strict)] + win[k..];
    assert win == win[..k] + win[k..];
    hide Windows;
    OneWishGone(win[..k], Window(server + "/", days, strict), win[k..], owned);
  }

  lemma ServerWishesGone(base: string, servers: seq<string>, server: string, days: int, strict: bool)
    requires ApartFrom(base, servers, days, strict, OwnedBy(base, server))
    ensures WishesWithout(Wishes(base, Sort(servers + [server]), days, strict), OwnedBy(base, server))
      == Wishes(base, Sort(servers), days, strict)
  {
    var sorted, owned := Sort(servers), OwnedBy(base, server);
    assert (servers + [server])[..|servers|] == servers;
    var k := InsertedWhere(sorted, server);
    var more := sorted[..k] + [server] + sorted[k..];
    assert Sort(servers + [server]) == more;
    hide Sort, Inserted, Incomings, Windows, WishesWithout;
    IncomingGone(sorted, server, k, owned);
    if base == "" {
      WindowGone(sorted, server, k, days, strict, owned);
      WishesWithoutConcat(Windows(more, days, strict), Incomings(more), owned);
    } else {
      NoWishGone([Window(BasePrefix(base), days, strict)], owned);
      WishesWithoutConcat([Window(BasePrefix(base), days, strict)], Incomings(more), owned);
    }
  }

  /** Taking a newly added server's prefixes out again leaves exactly the merge without that server. */
  lemma RemovingUndoesAdding(rules: seq<Rule>, base: string, servers: seq<string>, server: string, days: int, strict: bool)
    requires ApartFrom(base, servers, days, strict, OwnedBy(base, server))
    requires forall i | 0 <= i < |rules| :: rules[i].prefix !in OwnedBy(base, server)
    ensures Without(Merged(rules, base, servers + [server], days, strict), OwnedBy(base, server))
      == Merged(rules, base, servers, days, strict)
  {
    hide OwnedBy, Wishes;
    var owned := OwnedBy(base, server);
    WithoutUndoes(rules, Wishes(base, Sort(servers + [server]), days, strict), owned);
    NoRuleGone(rules, owned);
    ServerWishesGone(base, servers, server, days, strict);
  }

  // ---------------------------------------------------------------- what a merge does to the analysis

  datatype Finding = Finding(prefix: string, days: int)

  predicate Counts(r: Rule, base: string) { Overlaps(r.prefix, BasePrefix(base)) && !IsIncoming(r.prefix) }

  function RefusalOf(r: Rule, base: string): seq<Finding> {
    if Counts(r, base) && IsSet(r.uploadToHide) then [Finding(r.prefix, r.uploadToHide.value)] else []
  }

  function WarningOf(r: Rule, base: string, days: int): seq<Finding> {
    if Counts(r, base) && !IsSet(r.uploadToHide) && IsSet(r.hideToDelete) && r.hideToDelete.value < days
    then [Finding(r.prefix, r.hideToDelete.value)] else []
  }

  /** Rules that would hide live backups. */
  function Refusals(rules: seq<Rule>, base: string): seq<Finding> {
    if rules == [] then [] else Refusals(rules[..|rules| - 1], base) + RefusalOf(rules[|rules| - 1], base)
  }

  /** Rules that shorten the recovery window. */
  function Warnings(rules: seq<Rule>, base: string, days: int): seq<Finding> {
    if rules == [] then [] else Warnings(rules[..|rules| - 1], base, days) + WarningOf(rules[|rules| - 1], base, days)
  }

  lemma {:induction false} RefusalsConcat(a: seq<Rule>, b: seq<Rule>, base: string)
    ensures Refusals(a + b, base) == Refusals(a, base) + Refusals(b, base)
  {
    hide RefusalOf;
    if b == [] {
      assert a + b == a;
    } else {
      var n := |b| - 1;
      RefusalsConcat(a, b[..n], base);
      assert (a + b)[..|a| + n] == a + b[..n];
    }
  }

  lemma {:induction false} WarningsConcat(a: seq<Rule>, b: seq<Rule>, base: string, days: int)
    ensures Warnings(a + b, base, days) == Warnings(a, base, days) + Warnings(b, base, days)
  {
    hide WarningOf;
    if b == [] {
      assert a + b == a;
    } else {
      var n := |b| - 1;
      WarningsConcat(a, b[..n], base, days);
      assert (a + b)[..|a| + n] == a + b[..n];
    }
  }

  predicate Honest(w: Wish, days: int) { if w.Window? then w.days == days else IsIncoming(w.prefix) }

  lemma RuleFindings(r: Rule, w: Wish, base: string, days: int)
    requires r.prefix == w.prefix && Honest(w, days)
    ensures RefusalOf(Granting(r, w), base) == RefusalOf(r, base)
    ensures WarningOf(Granting(r, w), base, days) == WarningOf(r, base, days)
      || (w.Window? && w.strict && WarningOf(Granting(r, w), base, days) == [])
    ensures RefusalOf(NewRule(w), base) == [] && WarningOf(NewRule(w), base, days) == []
  {}

  lemma OneFinding(r: Rule, base: string, days: int)
    ensures Refusals([r], base) == RefusalOf(r, base) && Warnings([r], base, days) == WarningOf(r, base, days)
  {
    assert [r][..0] == [];
  }

  lemma GrantedFindings(rules: seq<Rule>, w: Wish, base: string, days: int)
    requires Honest(w, days)
    ensures Refusals(Granted(rules, w), base) == Refusals(rules, base)
    ensures forall x <- Warnings(Granted(rules, w), base, days) :: x in Warnings(rules, base, days)
    ensures !(w.Window? && w.strict) ==> Warnings(Granted(rules, w), base, days) == Warnings(rules, base, days)
  {
    var i := Find(rules, w.prefix);
    if i == |rules| {
      hide Refusals, Warnings, RefusalOf, WarningOf;
      RefusalsConcat(rules, [NewRule(w)], base);
      WarningsConcat(rules, [NewRule(w)], base, days);
      OneFinding(NewRule(w), base, days);
      RuleFindings(NewRule(w), w, base, days);
    } else {
      hide Refusals, Warnings, RefusalOf, WarningOf, Granting;
      var front, r, back := rules[..i], rules[i], rules[i + 1..];
      assert rules == front + [r] + back;
      assert Granted(rules, w) == front + [Granting(r, w)] + back;
      hide Granted;
      RuleFindings(r, w, base, days);
      ThreeFindings(front, r, back, base, days);
      ThreeFindings(front, Granting(r, w), back, base, days);
    }
  }

  lemma ThreeFindings(front: seq<Rule>, r: Rule, back: seq<Rule>, base: string, days: int)
    ensures Refusals(front + [r] + back, base) == Refusals(front, base) + RefusalOf(r, base) + Refusals(back, base)
    ensures Warnings(front + [r] + back, base, days) == Warnings(front, base, days) + WarningOf(r, base, days) + Warnings(back, base, days)
  {
    RefusalsConcat(front + [r], back, base);
    RefusalsConcat(front, [r], base);
    WarningsConcat(front + [r], back, base, days);
    WarningsConcat(front, [r], base, days);
    OneFinding(r, base, days);
  }

  lemma {:induction false} GrantedAllFindings(rules: seq<Rule>, wishes: seq<Wish>, base: string, days: int, strict: bool)
    requires forall i | 0 <= i < |wishes| :: Honest(wishes[i], days) && (wishes[i].Window? ==> wishes[i].strict == strict)
    ensures var out := GrantedAll(rules, wishes);
      && Refusals(out, base) == Refusals(rules, base)
      && (forall x <- Warnings(out, base, days) :: x in Warnings(rules, base, days))
      && (!strict ==> Warnings(out, base, days) == Warnings(rules, base, days))
  {
    if wishes != [] {
      var n := |wishes| - 1;
      GrantedAllFindings(rules, wishes[..n], base, days, strict);
      GrantedFindings(GrantedAll(rules, wishes[..n]), wishes[n], base, days);
      hide Refusals, Warnings, Granted;
    }
  }

  lemma WishesAreHonest(base: string, sorted: seq<string>, days: int, strict: bool)
    ensures var wishes := Wishes(base, sorted, days, strict);
      forall i | 0 <= i < |wishes| :: Honest(wishes[i], days) && (wishes[i].Window? ==> wishes[i].strict == strict)
  {
    forall i | 0 <= i < |sorted| ensures IsIncoming(IncomingPrefix(sorted[i])) {
      var p := IncomingPrefix(sorted[i]);
      assert p[|p| - |IncomingSuffix|..] == IncomingSuffix;
    }
    hide IsIncoming;
  }

  /**
   A merge gives no new reason to refuse a bucket and takes none away, and adds no warning; unless a
   person chose the window, it takes none away either.
   */
  lemma MergeAddsNoTrouble(rules: seq<Rule>, base: string, servers: seq<string>, days: int, strict: bool)
    ensures var out := Merged(rules, base, servers, days, strict);
      && Refusals(out, base) == Refusals(rules, base)
      && (forall x <- Warnings(out, base, days) :: x in Warnings(rules, base, days))
      && (!strict ==> Warnings(out, base, days) == Warnings(rules, base, days))
  {
    WishesAreHonest(base, Sort(servers), days, strict);
    GrantedAllFindings(rules, Wishes(base, Sort(servers), days, strict), base, days, strict);
    hide Wishes, Refusals, Warnings;
  }
}
