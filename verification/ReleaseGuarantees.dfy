// What a written release manifest guarantees, and when one is written.
module ReleaseGuarantees {
  import opened Wrappers
  import opened DecodedJson
  import opened ReleaseManifest
  import opened ReleaseGuard
  import opened ChangedPaths

  // ---- The tests ----

  function Strings(words: seq<string>): (vs: seq<Value>)
    ensures |vs| == |words|
  {
    seq(|words|, i requires 0 <= i < |words| => Str(words[i]))
  }

  // The words of a test's command, and the directory it is run in.
  predicate Commanded(test: Value, words: seq<string>, directory: string) {
    && test.Dict? && Get(test.entries, "command") == List(Strings(words))
    && GetOr(test.entries, "working_directory", Str(".")) == Str(directory)
  }

  ghost predicate Passed(world: World, tests: seq<Value>, i: nat)
    requires i < |tests|
  {
    exists words, directory ::
      && Commanded(tests[i], words, directory)
      && world.run(i, words, directory).Exited? && world.run(i, words, directory).code == 0
  }

  ghost predicate Records(world: World, tests: seq<Value>, i: nat, result: TestResult)
    requires i < |tests|
  {
    && tests[i].Dict? && Get(tests[i].entries, "id") == Str(result.id)
    && result.status == "passed"
    && exists words, directory ::
         Commanded(tests[i], words, directory) && world.run(i, words, directory) == Exited(0, result.seconds)
  }

  // Recorded results are those of the tests in order; there are results exactly when every test passed.
  lemma {:induction false} TestsExact(world: World, tests: seq<Value>, n: nat)
    requires ValidTests(tests) && n <= |tests|
    ensures var outcome := TestsOutcome(world, tests, n);
      && (outcome.Done? <==> forall i | 0 <= i < n :: Passed(world, tests, i))
      && (outcome.Done? ==>
            |outcome.value| == n && forall i | 0 <= i < n :: Records(world, tests, i, outcome.value[i]))
  {
    hide ValidTests;
    if n > 0 {
      TestsExact(world, tests, n - 1);
      OneTestExact(world, tests, n - 1);
      hide Passed, Records, TestOutcome;
    }
  }

  // A valid test has one command.
  lemma CommandExact(test: Value, words: seq<string>, directory: string)
    requires test.Dict? && ValidCommand(Get(test.entries, "command"))
    ensures Commanded(test, words, directory) <==> words == CommandOf(test) && Directory(test) == Str(directory)
  {
    hide Lookup;
    var items := Get(test.entries, "command").items;
    if Commanded(test, words, directory) {
      assert forall i | 0 <= i < |items| :: items[i] == Strings(words)[i];
    }
    assert Strings(CommandOf(test)) == items;
  }

  lemma OneTestExact(world: World, tests: seq<Value>, i: nat)
    requires ValidTests(tests) && i < |tests|
    ensures var outcome := TestOutcome(world, tests, i);
      && (outcome.Done? <==> Passed(world, tests, i))
      && (outcome.Done? ==> Records(world, tests, i, outcome.value))
  {
    hide Lookup, CommandOf, Directory, Commanded, ValidCommand;
    assert HasId(tests[i]);
    var test := tests[i];
    forall words, directory
      ensures Commanded(test, words, directory) <==> words == CommandOf(test) && Directory(test) == Str(directory)
    {
      CommandExact(test, words, directory);
    }
  }

  // The first test that does not pass is reported with its exit code; one that cannot be started, or whose directory is
  // no string, crashes the gate.
  lemma FirstFailureReported(world: World, tests: seq<Value>, i: nat)
    requires ValidTests(tests) && i < |tests| && !Passed(world, tests, i)
    requires forall j: nat | j < i :: Passed(world, tests, j)
    ensures var outcome := TestsOutcome(world, tests, |tests|);
      && (forall words, directory | Commanded(tests[i], words, directory) ::
            var reply := world.run(i, words, directory);
            outcome ==
              if reply.Exited? then Refused(TestFailed(Get(tests[i].entries, "id").s, reply.code)) else Crashed)
      && ((forall words, directory :: !Commanded(tests[i], words, directory)) ==> outcome == Crashed)
  {
    hide Lookup, CommandOf, Directory, Commanded, ValidCommand;
    assert HasId(tests[i]);
    TestsExact(world, tests, i);
    forall words, directory
      ensures Commanded(tests[i], words, directory)
        <==> words == CommandOf(tests[i]) && Directory(tests[i]) == Str(directory)
    {
      CommandExact(tests[i], words, directory);
    }
    FirstTestFailure(world, tests, i + 1, |tests|);
    if Directory(tests[i]).Str? {
      assert Commanded(tests[i], CommandOf(tests[i]), Directory(tests[i]).s);
    }
  }

  // ---- The repository ----

  predicate Descends(world: World, head: string, commits: seq<Value>) {
    forall i | 0 <= i < |commits| :: commits[i].Str? && world.ancestor(commits[i].s, head)
  }

  lemma {:induction false} AncestorsExact(world: World, commits: seq<Value>, n: nat, head: string)
    requires n <= |commits|
    ensures AncestorsOutcome(world, commits, n, head).Done? <==> Descends(world, head, commits[..n])
  {
    if n > 0 {
      AncestorsExact(world, commits, n - 1, head);
      assert commits[..n] == commits[..n - 1] + [commits[n - 1]];
    }
  }

  // Upstream and every protected ancestor are in the history of the commit.
  predicate GoodLineage(world: World, canonical: Object, head: string) {
    && Lookup(canonical, "upstream_release").Some?
    && Lookup(canonical, "upstream_commit").Some?
    && Descends(world, head, [Get(canonical, "upstream_commit")])
    && Lookup(canonical, "protected_ancestors").Some?
    && Elements(Get(canonical, "protected_ancestors")).Some?
    && Descends(world, head, Elements(Get(canonical, "protected_ancestors")).value)
  }

  lemma LineageExact(world: World, canonical: Object, head: string)
    ensures LineageOutcome(world, canonical, head).Done? <==> GoodLineage(world, canonical, head)
  {
    hide Lookup;
    var upstream := Get(canonical, "upstream_commit");
    assert Descends(world, head, [upstream]) <==> upstream.Str? && world.ancestor(upstream.s, head) by {
      assert [upstream][0] == upstream;
    }
    var ancestors := Lookup(canonical, "protected_ancestors");
    if ancestors.Some? && Elements(ancestors.value).Some? {
      var commits := Elements(ancestors.value).value;
      AncestorsExact(world, commits, |commits|, head);
      assert commits[..|commits|] == commits;
    }
  }

  predicate AllPresent(world: World, paths: seq<Value>) {
    forall k | 0 <= k < |paths| :: paths[k].Str? && world.path(paths[k].s)
  }

  // The paths an item requires, if any, exist.
  predicate FilesPresent(world: World, item: Value) {
    item.Dict? &&
    var paths := Elements(GetOr(item.entries, "required_paths", List([])));
    paths.Some? && AllPresent(world, paths.value)
  }

  lemma {:induction false} PathsExact(world: World, id: string, paths: seq<Value>, n: nat)
    requires n <= |paths|
    ensures PathsOutcome(world, id, paths, n).Done? <==> AllPresent(world, paths[..n])
  {
    if n > 0 {
      PathsExact(world, id, paths, n - 1);
      assert paths[..n] == paths[..n - 1] + [paths[n - 1]];
    }
  }

  lemma PresentExact(world: World, item: Value)
    requires HasId(item)
    ensures FilesPresent(world, item) <==> Required(item).Some? && AllPresent(world, Required(item).value)
  {
    hide Lookup;
  }

  lemma {:induction false} FilesExact(world: World, items: seq<Value>, n: nat)
    requires n <= |items| && AllHaveIds(items)
    ensures FilesOutcome(world, items, n).Done? <==> forall i | 0 <= i < n :: FilesPresent(world, items[i])
  {
    hide Required, FilesPresent;
    if n > 0 {
      FilesExact(world, items, n - 1);
      PresentExact(world, items[n - 1]);
      if Required(items[n - 1]).Some? {
        var paths := Required(items[n - 1]).value;
        PathsExact(world, IdOf(items[n - 1]), paths, |paths|);
        assert paths[..|paths|] == paths;
      }
    }
  }

  predicate StandsAt(part: string, whole: string, i: nat) {
    i + |part| <= |whole| && whole[i..i + |part|] == part
  }

  // s in v, for a list, a string or the keys of an object.
  predicate Lists(v: Value, s: string) {
    || (v.List? && Str(s) in v.items)
    || (v.Str? && exists i | 0 <= i <= |v.s| :: StandsAt(s, v.s, i))
    || (v.Dict? && exists i | 0 <= i < |v.entries| :: v.entries[i].0 == s)
  }

  lemma ContainsExact(v: Value, s: string)
    ensures Contains(v, s) == Some(true) <==> Lists(v, s)
  {
    if v.Str? {
      forall i | 0 <= i <= |v.s| ensures StandsAt(s, v.s, i) <==> IsPrefix(s, v.s[i..]) {
        if |s| <= |v.s| - i {
          assert v.s[i..][..|s|] == v.s[i..i + |s|];
        }
      }
    }
  }

  predicate OriginListed(world: World, canonical: Object) {
    && world.git(["remote", "get-url", "origin"]).Some?
    && Lookup(canonical, "origin_urls").Some?
    && Lists(Get(canonical, "origin_urls"), world.git(["remote", "get-url", "origin"]).value)
  }

  // What git says about the canonical branch at the origin.
  function AtOrigin(world: World, canonical: Object): Option<string> {
    var branch := Get(canonical, "branch");
    world.git(["rev-parse", "origin/" + if branch.Str? then branch.s else world.show(branch)])
  }

  // Clean, on the canonical branch or detached, and at the commit of that branch at the origin.
  predicate ReadyToRelease(world: World, canonical: Object) {
    var branch := world.git(["branch", "--show-current"]);
    && world.git(["status", "--porcelain"]) == Some("")
    && Lookup(canonical, "branch").Some?
    && branch.Some? && (branch.value == "" || Get(canonical, "branch") == Str(branch.value))
    && AtOrigin(world, canonical) == world.git(["rev-parse", "HEAD"])
  }

  predicate GoodRepository(world: World, data: Object, development: bool) {
    Get(data, "canonical_repository").Dict? && Get(data, "customizations").List? &&
    var canonical, items := Get(data, "canonical_repository").entries, Get(data, "customizations").items;
    && OriginListed(world, canonical)
    && world.git(["rev-parse", "HEAD"]).Some? && world.git(["rev-parse", "HEAD^{tree}"]).Some?
    && world.git(["branch", "--show-current"]).Some? && world.git(["status", "--porcelain"]).Some?
    && (development || ReadyToRelease(world, canonical))
    && GoodLineage(world, canonical, world.git(["rev-parse", "HEAD"]).value)
    && forall i | 0 <= i < |items| :: FilesPresent(world, items[i])
  }

  // The source record: what git says, and what the manifest says about upstream.
  predicate Describes(world: World, data: Object, source: Source)
    requires GoodRepository(world, data, true)
  {
    var canonical, branch := Get(data, "canonical_repository").entries, world.git(["branch", "--show-current"]).value;
    && world.git(["remote", "get-url", "origin"]) == Some(source.origin)
    && source.branch == (if branch == "" then "detached" else branch)
    && world.git(["rev-parse", "HEAD"]) == Some(source.commit)
    && world.git(["rev-parse", "HEAD^{tree}"]) == Some(source.tree)
    && source.dirty == (world.git(["status", "--porcelain"]) != Some(""))
    && source.upstreamRelease == Get(canonical, "upstream_release")
    && Str(source.upstreamCommit) == Get(canonical, "upstream_commit")
  }

  lemma CommandsOfGit()
    ensures GIT_ORIGIN == ["remote", "get-url", "origin"] && GIT_HEAD == ["rev-parse", "HEAD"]
    ensures GIT_TREE == ["rev-parse", "HEAD^{tree}"] && GIT_BRANCH == ["branch", "--show-current"]
    ensures GIT_STATUS == ["status", "--porcelain"]
  {
  }

  lemma OriginExact(world: World, canonical: Object)
    ensures OriginOutcome(world, canonical).Done? <==> OriginListed(world, canonical)
    ensures OriginOutcome(world, canonical).Done? ==>
      OriginOutcome(world, canonical) == Done(world.git(["remote", "get-url", "origin"]).value)
  {
    hide Contains, Lists, Lookup;
    CommandsOfGit();
    var urls, origin := Lookup(canonical, "origin_urls"), world.git(GIT_ORIGIN);
    if urls.Some? && origin.Some? {
      ContainsExact(urls.value, origin.value);
      EitherWay(Contains(urls.value, origin.value));
    }
  }

  lemma EitherWay(o: Option<bool>)
    ensures o == None || o == Some(true) || o == Some(false)
  {
    if o.Some? {
      if o.value {
        assert o == Some(true);
      } else {
        assert o == Some(false);
      }
    }
  }

  lemma CleanExact(world: World, canonical: Object)
    requires world.git(GIT_HEAD).Some? && world.git(GIT_BRANCH).Some? && world.git(GIT_STATUS).Some?
    ensures CleanOutcome(
        world, canonical, world.git(GIT_HEAD).value, world.git(GIT_BRANCH).value, world.git(GIT_STATUS).value).Done?
      <==> ReadyToRelease(world, canonical)
  {
    hide Lookup;
    CommandsOfGit();
    OriginHead(world, canonical);
  }

  lemma OriginHead(world: World, canonical: Object)
    ensures world.git(GitOriginHead(world, Get(canonical, "branch"))) == AtOrigin(world, canonical)
  {
    hide Lookup;
    var branch := Get(canonical, "branch");
    assert GitOriginHead(world, branch)
      == ["rev-parse", "origin/" + if branch.Str? then branch.s else world.show(branch)];
  }

  lemma Parts(data: Object)
    requires ValidManifest(data)
    ensures HasObjects(data) && HasArrays(data)
    ensures Get(data, "canonical_repository") == Dict(Canonical(data))
    ensures Get(data, "customizations") == List(Customizations(data)) && Get(data, "release_tests") == List(Tests(data))
    ensures ValidTests(Tests(data)) && AllHaveIds(Customizations(data)) && Distinct(Ids(Customizations(data)))
  {
  }

  // The repository passes exactly if origin, state, history and required files are in order, and is then described.
  lemma RepositoryExact(world: World, data: Object, development: bool)
    requires ValidManifest(data)
    ensures var outcome := RepositoryOutcome(world, data, development);
      && (outcome.Done? <==> GoodRepository(world, data, development))
      && (outcome.Done? ==> GoodRepository(world, data, true) && Describes(world, data, outcome.value))
  {
    hide ValidManifest, HasObjects, HasArrays, AllHaveIds, OriginOutcome, OriginListed, CleanOutcome, ReadyToRelease,
      LineageOutcome, GoodLineage;
    hide FilesOutcome, FilesPresent, GIT_ORIGIN, GIT_HEAD, GIT_TREE, GIT_BRANCH, GIT_STATUS;
    Parts(data);
    CommandsOfGit();
    var canonical, items := Canonical(data), Customizations(data);
    OriginExact(world, canonical);
    FilesExact(world, items, |items|);
    if FactsOutcome(world, canonical).Done? || GoodRepository(world, data, development) {
      CleanExact(world, canonical);
      LineageExact(world, canonical, world.git(GIT_HEAD).value);
      UpstreamIsText(world, canonical, world.git(GIT_HEAD).value);
    }
    if RepositoryOutcome(world, data, development).Done? {
      assert GoodRepository(world, data, true);
      FactsDescribe(world, data, FactsOutcome(world, canonical).value);
    }
  }

  lemma FactsDescribe(world: World, data: Object, facts: Facts)
    requires GoodRepository(world, data, true)
    requires FactsOutcome(world, Get(data, "canonical_repository").entries) == Done(facts)
    ensures Describes(world, data, SourceOf(facts, Get(data, "canonical_repository").entries))
  {
    hide Lists, OriginOutcome, GoodLineage, FilesPresent, Lookup;
    var canonical := Get(data, "canonical_repository").entries;
    CommandsOfGit();
    OriginExact(world, canonical);
    UpstreamIsText(world, canonical, facts.head);
  }

  lemma UpstreamIsText(world: World, canonical: Object, head: string)
    ensures GoodLineage(world, canonical, head) ==> Get(canonical, "upstream_commit").Str?
  {
    var upstream := Get(canonical, "upstream_commit");
    assert [upstream][0] == upstream;
  }

  // ---- The release manifest ----

  // Every customization is checked: all its references are recorded tests, and there is one or a runtime path.
  predicate Checked(item: Object, tests: seq<TestResult>) {
    && TestRefs(item).Some?
    && (forall v | v in TestRefs(item).value :: exists i | 0 <= i < |tests| :: v == Str(tests[i].id))
    && (TestRefs(item).value != [] || Truthy(Get(item, "runtime_http_paths")))
  }

  ghost predicate RecordsAll(world: World, data: Object, recorded: seq<TestResult>)
    requires ValidManifest(data)
  {
    && |recorded| == |Tests(data)|
    && (forall i | 0 <= i < |recorded| :: Records(world, Tests(data), i, recorded[i]))
    && (forall i, j | 0 <= i < j < |recorded| :: recorded[i].id != recorded[j].id)
  }

  lemma RecordedCover(world: World, data: Object, recorded: seq<TestResult>)
    requires ValidManifest(data) && |recorded| == |Tests(data)|
    requires forall i | 0 <= i < |recorded| :: Records(world, Tests(data), i, recorded[i])
    ensures RecordsAll(world, data, recorded)
    ensures forall i | 0 <= i < |Customizations(data)| :: Checked(Customizations(data)[i].entries, recorded)
  {
    var tests, items := Tests(data), Customizations(data);
    RecordedDistinct(world, tests, recorded);
    forall i | 0 <= i < |items| ensures Checked(items[i].entries, recorded) {
      assert ValidItem(items[i].entries, IdSet(tests));
      forall v | v in TestRefs(items[i].entries).value
        ensures exists k | 0 <= k < |recorded| :: v == Str(recorded[k].id)
      {
        assert Known(v, IdSet(tests));
        RecordedId(world, tests, recorded, v.s);
      }
    }
  }

  lemma RecordedDistinct(world: World, tests: seq<Value>, recorded: seq<TestResult>)
    requires ValidTests(tests) && |recorded| == |tests|
    requires forall i | 0 <= i < |recorded| :: Records(world, tests, i, recorded[i])
    ensures forall i, j | 0 <= i < j < |recorded| :: recorded[i].id != recorded[j].id
  {
    hide HasId, IdOf, Commanded, ValidCommand;
    forall i, j | 0 <= i < j < |recorded| ensures recorded[i].id != recorded[j].id {
      assert Ids(tests)[i] != Ids(tests)[j];
      IdRead(tests[i], recorded[i].id);
      IdRead(tests[j], recorded[j].id);
    }
  }

  lemma IdRead(item: Value, id: string)
    requires item.Dict? && Get(item.entries, "id") == Str(id)
    ensures HasId(item) && IdOf(item) == id
  {
  }

  lemma RecordedId(world: World, tests: seq<Value>, recorded: seq<TestResult>, id: string)
    requires ValidTests(tests) && |recorded| == |tests| && id in IdSet(tests)
    requires forall i | 0 <= i < |recorded| :: Records(world, tests, i, recorded[i])
    ensures exists k | 0 <= k < |recorded| :: recorded[k].id == id
  {
    hide HasId, IdOf, Commanded, ValidCommand;
    var v :| v in tests && HasId(v) && IdOf(v) == id;
    var k :| 0 <= k < |tests| && tests[k] == v;
    IdRead(tests[k], recorded[k].id);
  }

  // What the gate finds out about the deployed version it is given: a commit in the history, and the changes since.
  ghost predicate GoodBase(world: World, args: Args, commit: string) {
    && args.baseRef != ""
    && var base := world.git(["rev-parse", args.baseRef + "^{commit}"]);
    && base.Some?
    && world.ancestor(base.value, commit)
    && (base.value != "" ==>
          && world.git(MigrationsCommand(base.value, commit)).Some?
          && world.git(DatabaseCommand(base.value, commit)).Some?)
  }

  lemma ChangesKnown(world: World, base: string, commit: string)
    ensures ChangedMigrations(world, base, commit).Done? && ChangedDatabasePaths(world, base, commit).Done?
      <==> (base != "" ==>
              world.git(MigrationsCommand(base, commit)).Some? && world.git(DatabaseCommand(base, commit)).Some?)
  {
    hide ChangedMigrations, ChangedDatabasePaths, MigrationsCommand, DatabaseCommand, Reports;
    if base != "" {
      ChangedExactly(world, base, commit);
    } else {
      NothingChanged(world, commit);
    }
  }

  ghost predicate Releasable(args: Args, world: World, manifest: Option<Value>) {
    && args.output && !args.development && !args.skipTests
    && manifest.Some? && manifest.value.Dict?
    && var data := manifest.value.entries;
    && ValidManifest(data)
    && GoodRepository(world, data, false)
    && GoodBase(world, args, world.git(["rev-parse", "HEAD"]).value)
    && forall i | 0 <= i < |Tests(data)| :: Passed(world, Tests(data), i)
  }

  lemma JudgedExact(args: Args, world: World, data: Object, source: Source)
    requires ValidManifest(data) && args.output && !args.skipTests && args.baseRef != ""
    ensures Judged(args, world, data, source).written.Some?
      <==> GoodBase(world, args, source.commit)
           && forall i | 0 <= i < |Tests(data)| :: Passed(world, Tests(data), i)
    ensures Judged(args, world, data, source).written.Some? ==>
      var release := Judged(args, world, data, source).written.value;
      && TestsOutcome(world, Tests(data), |Tests(data)|) == Done(release.tests)
      && release.source == source
      && release.customizations == Ids(Customizations(data))
      && Some(release.baseRef) == world.git(["rev-parse", args.baseRef + "^{commit}"])
      && Done(release.migrations) == ChangedMigrations(world, release.baseRef, source.commit)
      && Done(release.databasePaths) == ChangedDatabasePaths(world, release.baseRef, source.commit)
      && release.rollbackAllowed == (release.databasePaths == []) && release.generatedAt == world.now
  {
    hide ValidManifest, ValidTests, Passed, ChangedMigrations, ChangedDatabasePaths, MigrationsCommand,
      DatabaseCommand;
    Parts(data);
    TestsExact(world, Tests(data), |Tests(data)|);
    var base := Base(world, args, source.commit);
    if base.Done? {
      ChangesKnown(world, base.value, source.commit);
    }
  }

  // What the gate finds out after it has checked the repository.
  ghost predicate GoodRest(args: Args, world: World, data: Object, commit: string)
    requires ValidManifest(data)
  {
    && (args.baseRef != "" ==> GoodBase(world, args, commit))
    && (args.skipTests || forall i | 0 <= i < |Tests(data)| :: Passed(world, Tests(data), i))
  }

  lemma JudgedPasses(args: Args, world: World, data: Object, source: Source)
    requires ValidManifest(data)
    ensures var ending := Judged(args, world, data, source);
      && (ending.outcome.Done? <==> GoodRest(args, world, data, source.commit))
      && (ending.written.Some? <==> ending.outcome.Done? && args.output)
  {
    hide ValidManifest, ValidTests, Passed, ChangedMigrations, ChangedDatabasePaths, MigrationsCommand,
      DatabaseCommand;
    Parts(data);
    TestsExact(world, Tests(data), |Tests(data)|);
    var base := Base(world, args, source.commit);
    if base.Done? {
      ChangesKnown(world, base.value, source.commit);
    }
  }

  // The gate passes exactly if the manifest is valid, the repository in order, the base - if one is given - in its
  // history, and the tests - unless they are skipped - pass; a release manifest is asked for only without development
  // mode, with the tests, and against a base. It is written exactly if one is asked for and the gate passes.
  lemma PassesExactly(args: Args, world: World, manifest: Option<Value>)
    ensures var ending := Gate(args, world, manifest);
      && (ending.outcome.Done? <==>
            && manifest.Some? && manifest.value.Dict? && ValidManifest(manifest.value.entries)
            && GoodRepository(world, manifest.value.entries, args.development)
            && (args.output ==> !args.development && !args.skipTests && args.baseRef != "")
            && GoodRest(args, world, manifest.value.entries, world.git(["rev-parse", "HEAD"]).value))
      && (ending.written.Some? <==> ending.outcome.Done? && args.output)
  {
    hide ValidManifest, Judged, RepositoryOutcome, GoodRepository, GoodRest, Validation;
    if manifest.Some? && manifest.value.Dict? {
      var data := manifest.value.entries;
      ValidationExact(data);
      if ValidManifest(data) {
        RepositoryExact(world, data, args.development);
        var source := RepositoryOutcome(world, data, args.development);
        if source.Done? {
          CommitIsHead(world, data, source.value);
          JudgedPasses(args, world, data, source.value);
        }
      }
    }
  }

  lemma CommitIsHead(world: World, data: Object, source: Source)
    requires GoodRepository(world, data, true) && Describes(world, data, source)
    ensures world.git(["rev-parse", "HEAD"]) == Some(source.commit)
  {
  }

  predicate Staged(args: Args, world: World, manifest: Option<Value>) {
    && args.output && !args.development && !args.skipTests && args.baseRef != ""
    && manifest.Some? && manifest.value.Dict? && ValidManifest(manifest.value.entries)
    && RepositoryOutcome(world, manifest.value.entries, false).Done?
  }

  lemma GateStages(args: Args, world: World, manifest: Option<Value>)
    ensures Gate(args, world, manifest).written.Some? ==> Staged(args, world, manifest)
    ensures Staged(args, world, manifest) ==>
      var data := manifest.value.entries;
      Gate(args, world, manifest) == Judged(args, world, data, RepositoryOutcome(world, data, false).value)
  {
    hide ValidManifest, Validation, RepositoryOutcome, Base, TestsOutcome, ChangedMigrations, ChangedDatabasePaths;
    if manifest.Some? && manifest.value.Dict? {
      ValidationExact(manifest.value.entries);
    }
  }

  // A release manifest is written exactly for a valid manifest, a repository in order, a base in its history and
  // tests that all pass, when neither development mode nor skipping the tests is asked for.
  lemma WrittenExactly(args: Args, world: World, manifest: Option<Value>)
    ensures Gate(args, world, manifest).written.Some? <==> Releasable(args, world, manifest)
  {
    hide ValidManifest, Passed, Gate, Judged, RepositoryOutcome, GoodRepository, MigrationsCommand, DatabaseCommand;
    hide ChangedMigrations, ChangedDatabasePaths;
    GateStages(args, world, manifest);
    CommandsOfGit();
    if manifest.Some? && manifest.value.Dict? && ValidManifest(manifest.value.entries) {
      var data := manifest.value.entries;
      RepositoryExact(world, data, false);
      if Staged(args, world, manifest) {
        JudgedExact(args, world, data, RepositoryOutcome(world, data, false).value);
      }
    }
  }

  // What a release manifest says about the changes since its base.
  ghost predicate RecordsChanges(world: World, release: Release) {
    var base, commit := release.baseRef, release.source.commit;
    && (if base == "" then release.migrations == [] && release.databasePaths == []
        else
          && Reports(world, MigrationsCommand(base, commit), IsScript, release.migrations)
          && Reports(world, DatabaseCommand(base, commit), NotEmpty, release.databasePaths))
    && (release.rollbackAllowed <==>
          base == "" || forall c | c in world.git(DatabaseCommand(base, commit)).value :: EndsLine(c))
  }

  lemma ChangesRecorded(world: World, release: Release)
    requires Done(release.migrations) == ChangedMigrations(world, release.baseRef, release.source.commit)
    requires Done(release.databasePaths) == ChangedDatabasePaths(world, release.baseRef, release.source.commit)
    requires release.rollbackAllowed <==> release.databasePaths == []
    ensures RecordsChanges(world, release)
  {
    hide ChangedMigrations, ChangedDatabasePaths, MigrationsCommand, DatabaseCommand, Reports, EndsLine;
    var base, commit := release.baseRef, release.source.commit;
    if base == "" {
      NothingChanged(world, commit);
    } else {
      ChangedExactly(world, base, commit);
      NothingReported(world, DatabaseCommand(base, commit), release.databasePaths);
    }
  }

  // The recorded tests are those of the manifest in order, each once and passed; every test a customization refers to
  // is among them; the source is the clean tree at the commit of the origin; and the recorded changes are what git
  // reports since the base, a rollback being allowed exactly if it reports no database file.
  lemma WrittenGuarantees(args: Args, world: World, manifest: Option<Value>)
    requires Gate(args, world, manifest).written.Some?
    ensures manifest.Some? && manifest.value.Dict? && ValidManifest(manifest.value.entries)
    ensures var data, release := manifest.value.entries, Gate(args, world, manifest).written.value;
      && RecordsAll(world, data, release.tests)
      && (forall i | 0 <= i < |Customizations(data)| :: Checked(Customizations(data)[i].entries, release.tests))
      && release.customizations == Ids(Customizations(data)) && Distinct(release.customizations)
      && GoodRepository(world, data, true) && Describes(world, data, release.source) && !release.source.dirty
      && AtOrigin(world, Get(data, "canonical_repository").entries) == Some(release.source.commit)
      && world.git(["rev-parse", args.baseRef + "^{commit}"]) == Some(release.baseRef)
      && world.ancestor(release.baseRef, release.source.commit)
      && RecordsChanges(world, release) && release.generatedAt == world.now
  {
    hide ValidManifest, Gate, Judged, RepositoryOutcome, Checked, RecordsAll, Records, AtOrigin, RecordsChanges;
    hide ChangedMigrations, ChangedDatabasePaths, GoodLineage, OriginListed, FilesPresent;
    GateStages(args, world, manifest);
    var data := manifest.value.entries;
    Parts(data);
    var source := RepositoryOutcome(world, data, false).value;
    RepositoryExact(world, data, false);
    JudgedExact(args, world, data, source);
    TestsExact(world, Tests(data), |Tests(data)|);
    var release := Gate(args, world, manifest).written.value;
    RecordedCover(world, data, release.tests);
    ChangesRecorded(world, release);
  }
}
