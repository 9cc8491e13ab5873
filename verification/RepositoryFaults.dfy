// Which of the repository checks fails first, and what is reported then.
module RepositoryFaults {
  import opened DecodedJson
  import opened ReleaseManifest
  import opened ReleaseGuard
  import opened ReleaseGuarantees

  // Whether a check is met, and how the gate ends if it is not.
  type Check = (bool, Outcome<()>)

  predicate Met(checks: seq<Check>) { forall i | 0 <= i < |checks| :: checks[i].0 }

  predicate FirstUnmet(checks: seq<Check>, i: nat) { i < |checks| && !checks[i].0 && Met(checks[..i]) }

  // The checks end like this: as the first one that is not met says, if any.
  ghost predicate Decide(checks: seq<Check>, outcome: Outcome<()>) {
    if Met(checks) then outcome == Done(())
    else exists i: nat :: FirstUnmet(checks, i) && outcome == checks[i].1
  }

  // ---- The checks, in sequence ----

  function Answer(world: World, command: seq<string>): string {
    if world.git(command).Some? then world.git(command).value else ""
  }

  function Asks(world: World, command: seq<string>): Check {
    (world.git(command).Some?, Refused(GitFailed(command)))
  }

  function OriginChecks(world: World, canonical: Object): seq<Check> {
    var urls, origin := Get(canonical, "origin_urls"), Answer(world, ["remote", "get-url", "origin"]);
    [Asks(world, ["remote", "get-url", "origin"]),
     (urls.List? || urls.Str? || urls.Dict?, Crashed),
     (Lists(urls, origin), Refused(WrongOrigin(origin)))]
  }

  function StateChecks(world: World): seq<Check> {
    [Asks(world, ["rev-parse", "HEAD"]), Asks(world, ["rev-parse", "HEAD^{tree}"]),
     Asks(world, ["branch", "--show-current"]), Asks(world, ["status", "--porcelain"])]
  }

  function BranchCommand(world: World, canonical: Object): seq<string> {
    var branch := Get(canonical, "branch");
    ["rev-parse", "origin/" + if branch.Str? then branch.s else world.show(branch)]
  }

  function ReleaseChecks(world: World, canonical: Object): seq<Check> {
    var branch := Answer(world, ["branch", "--show-current"]);
    var head, atOrigin := Answer(world, ["rev-parse", "HEAD"]), Answer(world, BranchCommand(world, canonical));
    [(Answer(world, ["status", "--porcelain"]) == "", Refused(DirtyTree)),
     (Lookup(canonical, "branch").Some?, Crashed),
     (branch == "" || Get(canonical, "branch") == Str(branch), Refused(WrongBranch(branch))),
     Asks(world, BranchCommand(world, canonical)),
     (head == atOrigin, Refused(NotAtOrigin(head, atOrigin)))]
  }

  function CommitCheck(world: World, commit: Value, head: string): Check {
    if commit.Str? then (world.ancestor(commit.s, head), Refused(NotAnAncestor(commit.s))) else (false, Crashed)
  }

  function CommitChecks(world: World, commits: seq<Value>, head: string): (checks: seq<Check>)
    ensures |checks| == |commits|
  {
    seq(|commits|, i requires 0 <= i < |commits| => CommitCheck(world, commits[i], head))
  }

  function LineageChecks(world: World, canonical: Object): seq<Check> {
    var head := Answer(world, ["rev-parse", "HEAD"]);
    var ancestors := Elements(Get(canonical, "protected_ancestors"));
    [(Lookup(canonical, "upstream_commit").Some? && Lookup(canonical, "upstream_release").Some?, Crashed),
     CommitCheck(world, Get(canonical, "upstream_commit"), head),
     (ancestors.Some?, Crashed)]
    + CommitChecks(world, if ancestors.Some? then ancestors.value else [], head)
  }

  function PathCheck(world: World, id: string, path: Value): Check {
    if path.Str? then (world.path(path.s), Refused(MissingPath(id, path.s))) else (false, Crashed)
  }

  function PathChecks(world: World, id: string, paths: seq<Value>): (checks: seq<Check>)
    ensures |checks| == |paths|
  {
    seq(|paths|, k requires 0 <= k < |paths| => PathCheck(world, id, paths[k]))
  }

  function FileChecks(world: World, item: Value): seq<Check>
    requires HasId(item)
  {
    var paths := Elements(GetOr(item.entries, "required_paths", List([])));
    if paths.None? then [(false, Crashed)]
    else PathChecks(world, Get(item.entries, "id").s, paths.value)
  }

  function AllFileChecks(world: World, items: seq<Value>, n: nat): seq<Check>
    requires n <= |items| && AllHaveIds(items)
  {
    if n == 0 then [] else AllFileChecks(world, items, n - 1) + FileChecks(world, items[n - 1])
  }

  function RepositoryChecks(world: World, data: Object, development: bool): seq<Check>
    requires ValidManifest(data)
  {
    var canonical, items := Canonical(data), Customizations(data);
    OriginChecks(world, canonical) + StateChecks(world)
    + (if development then [] else ReleaseChecks(world, canonical))
    + LineageChecks(world, canonical) + AllFileChecks(world, items, |items|)
  }

  // ---- Combining checks ----

  lemma MetAppend(a: seq<Check>, b: seq<Check>)
    ensures Met(a + b) <==> Met(a) && Met(b)
  {
    assert forall i | 0 <= i < |a| :: (a + b)[i] == a[i];
    assert forall i | 0 <= i < |b| :: (a + b)[|a| + i] == b[i];
  }

  // Checks after others are looked at if those are met.
  lemma DecideAppend(a: seq<Check>, x: Outcome<()>, b: seq<Check>, y: Outcome<()>)
    requires Decide(a, x) && (Met(a) ==> Decide(b, y))
    ensures Decide(a + b, if Met(a) then y else x)
  {
    hide Met;
    MetAppend(a, b);
    if !Met(a) {
      var i: nat :| FirstUnmet(a, i) && x == a[i].1;
      assert (a + b)[..i] == a[..i] && (a + b)[i] == a[i];
      assert FirstUnmet(a + b, i);
    } else if !Met(b) {
      var i: nat :| FirstUnmet(b, i) && y == b[i].1;
      MetAppend(a, b[..i]);
      assert (a + b)[..|a| + i] == a + b[..i] && (a + b)[|a| + i] == b[i];
      assert FirstUnmet(a + b, |a| + i);
    }
  }

  lemma NoChecks()
    ensures Met([]) && Decide([], Done(()))
  {
  }

  lemma FirstCheck(check: Check, rest: seq<Check>, y: Outcome<()>)
    requires check.0 ==> Decide(rest, y)
    ensures Decide([check] + rest, if check.0 then y else check.1)
    ensures Met([check] + rest) <==> check.0 && Met(rest)
  {
    hide Decide;
    OneCheck(check);
    DecideAppend([check], if check.0 then Done(()) else check.1, rest, y);
    MetAppend([check], rest);
  }

  lemma OneCheck(check: Check)
    ensures Decide([check], if check.0 then Done(()) else check.1)
    ensures Met([check]) <==> check.0
  {
    var one := [check];
    assert one[0] == check && one[..0] == [];
    if !check.0 {
      assert FirstUnmet(one, 0);
    }
  }

  lemma ThreeChecks(a: Check, b: Check, c: Check)
    ensures Decide([a, b, c], if !a.0 then a.1 else if !b.0 then b.1 else if !c.0 then c.1 else Done(()))
    ensures Met([a, b, c]) <==> a.0 && b.0 && c.0
  {
    hide Decide, Met;
    OneCheck(c);
    var last := if c.0 then Done(()) else c.1;
    FirstCheck(b, [c], last);
    FirstCheck(a, [b] + [c], if b.0 then last else b.1);
    assert [a] + ([b] + [c]) == [a, b, c];
  }

  // ---- The stages ----

  lemma OriginDecides(world: World, canonical: Object)
    ensures Decide(OriginChecks(world, canonical), Bare(OriginOutcome(world, canonical)))
    ensures Met(OriginChecks(world, canonical)) <==> OriginOutcome(world, canonical).Done?
  {
    hide Decide, Met, Contains, Lists, Lookup;
    var checks := OriginChecks(world, canonical);
    var urls, origin := Get(canonical, "origin_urls"), Answer(world, ["remote", "get-url", "origin"]);
    CommandsOfGit();
    ContainsExact(urls, origin);
    ContainsDefined(urls, origin);
    EitherWay(Contains(urls, origin));
    ThreeChecks(checks[0], checks[1], checks[2]);
    assert checks == [checks[0], checks[1], checks[2]];
  }

  // The outcome without its value.
  function Bare<T>(outcome: Outcome<T>): Outcome<()> {
    match outcome
    case Done(_) => Done(())
    case Refused(reason) => Refused(reason)
    case Crashed => Crashed
  }

  lemma BareUnit(outcome: Outcome<()>)
    ensures Bare(outcome) == outcome
  {
    if outcome.Done? {
      assert outcome.value == ();
    }
  }

  lemma ContainsDefined(v: Value, s: string)
    ensures Contains(v, s).Some? <==> v.List? || v.Str? || v.Dict?
  {
  }

  lemma FactsDecide(world: World, canonical: Object)
    ensures var checks := OriginChecks(world, canonical) + StateChecks(world);
      && Decide(checks, Bare(FactsOutcome(world, canonical)))
      && (Met(checks) <==> FactsOutcome(world, canonical).Done?)
  {
    hide Decide, Met, OriginOutcome, OriginChecks;
    var checks := StateChecks(world);
    CommandsOfGit();
    OriginDecides(world, canonical);
    ThreeChecks(checks[1], checks[2], checks[3]);
    var rest := if !checks[1].0 then checks[1].1 else if !checks[2].0 then checks[2].1 else
      if !checks[3].0 then checks[3].1 else Done(());
    FirstCheck(checks[0], [checks[1], checks[2], checks[3]], rest);
    assert [checks[0]] + [checks[1], checks[2], checks[3]] == checks;
    var origin := Bare(OriginOutcome(world, canonical));
    DecideAppend(OriginChecks(world, canonical), origin, checks, if checks[0].0 then rest else checks[0].1);
    MetAppend(OriginChecks(world, canonical), checks);
  }

  lemma ReleaseDecides(world: World, canonical: Object, facts: Facts)
    requires FactsOutcome(world, canonical) == Done(facts)
    ensures var outcome := CleanOutcome(world, canonical, facts.head, facts.branch, facts.status);
      && Decide(ReleaseChecks(world, canonical), outcome)
      && (Met(ReleaseChecks(world, canonical)) <==> outcome.Done?)
  {
    hide Decide, Met, OriginOutcome, Lookup;
    var checks := ReleaseChecks(world, canonical);
    CommandsOfGit();
    ThreeChecks(checks[2], checks[3], checks[4]);
    var rest := if !checks[2].0 then checks[2].1 else if !checks[3].0 then checks[3].1 else
      if !checks[4].0 then checks[4].1 else Done(());
    FirstCheck(checks[1], [checks[2], checks[3], checks[4]], rest);
    FirstCheck(checks[0], [checks[1]] + [checks[2], checks[3], checks[4]], if checks[1].0 then rest else checks[1].1);
    assert [checks[0]] + ([checks[1]] + [checks[2], checks[3], checks[4]]) == checks;
    var branch := Get(canonical, "branch");
    assert GitOriginHead(world, branch) == BranchCommand(world, canonical);
  }

  lemma {:induction false} CommitsDecide(world: World, commits: seq<Value>, n: nat, head: string)
    requires n <= |commits|
    ensures var outcome := AncestorsOutcome(world, commits, n, head);
      && Decide(CommitChecks(world, commits, head)[..n], outcome)
      && (Met(CommitChecks(world, commits, head)[..n]) <==> outcome.Done?)
  {
    hide Decide, Met, CommitChecks;
    var checks := CommitChecks(world, commits, head);
    if n == 0 {
      NoChecks();
      assert checks[..0] == [];
    } else {
      var before, check := AncestorsOutcome(world, commits, n - 1, head), CommitCheck(world, commits[n - 1], head);
      CommitsDecide(world, commits, n - 1, head);
      CommitAt(world, commits, head, n - 1);
      OneCheck(check);
      DecideAppend(checks[..n - 1], before, [check], if check.0 then Done(()) else check.1);
      MetAppend(checks[..n - 1], [check]);
      assert checks[..n] == checks[..n - 1] + [check];
    }
  }

  lemma CommitAt(world: World, commits: seq<Value>, head: string, i: nat)
    requires i < |commits|
    ensures CommitChecks(world, commits, head)[i] == CommitCheck(world, commits[i], head)
  {
  }

  lemma LineageDecides(world: World, canonical: Object, head: string)
    requires Answer(world, ["rev-parse", "HEAD"]) == head
    ensures var outcome := LineageOutcome(world, canonical, head);
      && Decide(LineageChecks(world, canonical), outcome)
      && (Met(LineageChecks(world, canonical)) <==> outcome.Done?)
  {
    hide Decide, Met, Lookup, CommitChecks;
    var ancestors := Elements(Get(canonical, "protected_ancestors"));
    var commits := if ancestors.Some? then ancestors.value else [];
    var checks := LineageChecks(world, canonical)[..3];
    CommitsDecide(world, commits, |commits|, head);
    ThreeChecks(checks[0], checks[1], checks[2]);
    var all := CommitChecks(world, commits, head);
    assert all[..|commits|] == all;
    var first := if !checks[0].0 then checks[0].1 else if !checks[1].0 then checks[1].1 else
      if !checks[2].0 then checks[2].1 else Done(());
    assert checks == [checks[0], checks[1], checks[2]];
    DecideAppend(checks, first, all, AncestorsOutcome(world, commits, |commits|, head));
    MetAppend(checks, all);
    assert LineageChecks(world, canonical) == checks + all;
  }

  lemma PathAt(world: World, id: string, paths: seq<Value>, k: nat)
    requires k < |paths|
    ensures PathChecks(world, id, paths)[k] == PathCheck(world, id, paths[k])
  {
  }

  lemma {:induction false} PathsDecide(world: World, id: string, paths: seq<Value>, n: nat)
    requires n <= |paths|
    ensures var outcome := PathsOutcome(world, id, paths, n);
      && Decide(PathChecks(world, id, paths)[..n], outcome)
      && (Met(PathChecks(world, id, paths)[..n]) <==> outcome.Done?)
  {
    hide Decide, Met, PathChecks;
    var checks := PathChecks(world, id, paths);
    if n == 0 {
      NoChecks();
      assert checks[..0] == [];
    } else {
      var before, check := PathsOutcome(world, id, paths, n - 1), PathCheck(world, id, paths[n - 1]);
      PathsDecide(world, id, paths, n - 1);
      PathAt(world, id, paths, n - 1);
      OneCheck(check);
      DecideAppend(checks[..n - 1], before, [check], if check.0 then Done(()) else check.1);
      MetAppend(checks[..n - 1], [check]);
      assert checks[..n] == checks[..n - 1] + [check];
    }
  }

  lemma FileDecides(world: World, item: Value)
    requires HasId(item)
    ensures var paths := Required(item);
      var outcome := if paths.None? then Crashed else PathsOutcome(world, IdOf(item), paths.value, |paths.value|);
      && Decide(FileChecks(world, item), outcome) && (Met(FileChecks(world, item)) <==> outcome.Done?)
  {
    hide Decide, Met, Lookup;
    var paths := Required(item);
    if paths.None? {
      OneCheck((false, Crashed));
    } else {
      PathsDecide(world, IdOf(item), paths.value, |paths.value|);
      var all := PathChecks(world, IdOf(item), paths.value);
      assert all[..|paths.value|] == all == FileChecks(world, item);
    }
  }

  lemma {:induction false} FilesDecide(world: World, items: seq<Value>, n: nat)
    requires n <= |items| && AllHaveIds(items)
    ensures var outcome := FilesOutcome(world, items, n);
      Decide(AllFileChecks(world, items, n), outcome) && (Met(AllFileChecks(world, items, n)) <==> outcome.Done?)
  {
    hide Decide, Met, FileChecks, Required;
    if n == 0 {
      NoChecks();
    } else {
      var item := items[n - 1];
      FilesDecide(world, items, n - 1);
      FileDecides(world, item);
      var paths, before := Required(item), AllFileChecks(world, items, n - 1);
      var outcome := if paths.None? then Crashed else PathsOutcome(world, IdOf(item), paths.value, |paths.value|);
      DecideAppend(before, FilesOutcome(world, items, n - 1), FileChecks(world, item), outcome);
      MetAppend(before, FileChecks(world, item));
    }
  }

  lemma HeadKnown(world: World, canonical: Object, facts: Facts)
    requires FactsOutcome(world, canonical) == Done(facts)
    ensures Answer(world, ["rev-parse", "HEAD"]) == facts.head
  {
    hide OriginOutcome;
    CommandsOfGit();
  }

  lemma LaterDecide(world: World, data: Object, development: bool, facts: Facts)
    requires ValidManifest(data) && FactsOutcome(world, Canonical(data)) == Done(facts)
    ensures var canonical, items := Canonical(data), Customizations(data);
      var checks := (if development then [] else ReleaseChecks(world, canonical))
        + (LineageChecks(world, canonical) + AllFileChecks(world, items, |items|));
      Decide(checks, Bare(RepositoryOutcome(world, data, development)))
  {
    hide Decide, Met, ReleaseChecks, LineageChecks, AllFileChecks, FactsOutcome, CleanOutcome, LineageOutcome,
      FilesOutcome, ValidManifest, HasObjects, HasArrays, AllHaveIds;
    Parts(data);
    var canonical, items := Canonical(data), Customizations(data);
    var a := if development then [] else ReleaseChecks(world, canonical);
    var b, c := LineageChecks(world, canonical), AllFileChecks(world, items, |items|);
    var x := if development then Done(())
      else CleanOutcome(world, canonical, facts.head, facts.branch, facts.status);
    var y, z := LineageOutcome(world, canonical, facts.head), FilesOutcome(world, items, |items|);
    NoChecks();
    HeadKnown(world, canonical, facts);
    ReleaseDecides(world, canonical, facts);
    LineageDecides(world, canonical, facts.head);
    FilesDecide(world, items, |items|);
    DecideAppend(b, y, c, z);
    DecideAppend(a, x, b + c, if Met(b) then z else y);
    assert Bare(z) == z && Bare(y) == y && Bare(x) == x by {
      BareUnit(x);
      BareUnit(y);
      BareUnit(z);
    }
  }

  // The repository checks end as the first of them that is not met says, and otherwise with a source record.
  lemma FirstFaultReported(world: World, data: Object, development: bool)
    requires ValidManifest(data)
    ensures Decide(RepositoryChecks(world, data, development), Bare(RepositoryOutcome(world, data, development)))
  {
    hide Decide, Met, OriginChecks, StateChecks, ReleaseChecks, LineageChecks, AllFileChecks, FactsOutcome,
      CleanOutcome, LineageOutcome, FilesOutcome, ValidManifest, HasObjects, HasArrays, AllHaveIds;
    Parts(data);
    var canonical, items := Canonical(data), Customizations(data);
    var facts, outcome := FactsOutcome(world, canonical), Bare(RepositoryOutcome(world, data, development));
    FactsDecide(world, canonical);
    if facts.Done? {
      LaterDecide(world, data, development, facts.value);
    }
    var a, b := OriginChecks(world, canonical) + StateChecks(world),
      if development then [] else ReleaseChecks(world, canonical);
    var c, d := LineageChecks(world, canonical), AllFileChecks(world, items, |items|);
    DecideAppend(a, Bare(facts), b + (c + d), outcome);
    assert a + (b + (c + d)) == RepositoryChecks(world, data, development);
  }
}
