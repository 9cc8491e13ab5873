// The release gate: repository checks, release tests, and the release manifest it writes.
module ReleaseGuard {
  import opened Wrappers
  import opened DecodedJson
  import opened ReleaseManifest

  datatype Reply = Exited(code: int, seconds: real) | NotStarted

  // What the gate asks of its surroundings. git answers with the stripped output, or None when the command
  // fails; run answers for the command at a position of the list of tests, in a directory.
  datatype World = World(
    git: seq<string> -> Option<string>,
    ancestor: (string, string) -> bool,
    path: string -> bool,
    run: (nat, seq<string>, string) -> Reply,
    show: Value -> string,
    now: string)

  datatype Source = Source(
    origin: string, branch: string, commit: string, tree: string, dirty: bool, upstreamRelease: Value,
    upstreamCommit: string)

  datatype TestResult = TestResult(id: string, status: string, seconds: real)

  datatype Release = Release(
    generatedAt: string, source: Source, baseRef: string, migrations: seq<string>, databasePaths: seq<string>,
    rollbackAllowed: bool, customizations: seq<string>, tests: seq<TestResult>)

  datatype Args = Args(development: bool, skipTests: bool, baseRef: string, output: bool)

  function GitReply(world: World, command: seq<string>): Outcome<string> {
    var reply := world.git(command);
    if reply.None? then Refused(GitFailed(command)) else Done(reply.value)
  }

  // ---- The repository ----

  // s in v, for a string, a list or an object; None is the error of any other value.
  predicate IsPart(part: string, whole: string) {
    exists i | 0 <= i <= |whole| :: IsPrefix(part, whole[i..])
  }

  predicate IsPrefix(part: string, whole: string) { |part| <= |whole| && whole[..|part|] == part }

  function Contains(v: Value, s: string): Option<bool> {
    match v
    case List(items) => Some(Str(s) in items)
    case Str(whole) => Some(IsPart(s, whole))
    case Dict(entries) => Some(exists i | 0 <= i < |entries| :: entries[i].0 == s)
    case _ => None
  }

  function ShownBranch(world: World, branch: Value): string { if branch.Str? then branch.s else world.show(branch) }

  const GIT_ORIGIN := ["remote", "get-url", "origin"]
  const GIT_HEAD := ["rev-parse", "HEAD"]
  const GIT_TREE := ["rev-parse", "HEAD^{tree}"]
  const GIT_BRANCH := ["branch", "--show-current"]
  const GIT_STATUS := ["status", "--porcelain"]

  function GitOriginHead(world: World, branch: Value): seq<string> {
    ["rev-parse", "origin/" + ShownBranch(world, branch)]
  }

  function OriginOutcome(world: World, canonical: Object): Outcome<string> {
    var origin := GitReply(world, GIT_ORIGIN);
    if !origin.Done? then origin
    else
      var urls := Lookup(canonical, "origin_urls");
      if urls.None? || Contains(urls.value, origin.value).None? then Crashed
      else if Contains(urls.value, origin.value) == Some(false) then Refused(WrongOrigin(origin.value))
      else origin
  }

  // A release is made from a clean tree, on the canonical branch or none, at the commit of the origin.
  function CleanOutcome(world: World, canonical: Object, head: string, branch: string, status: string): Outcome<()> {
    var expected := Lookup(canonical, "branch");
    if status != "" then Refused(DirtyTree)
    else if expected.None? then Crashed
    else if branch != "" && expected.value != Str(branch) then Refused(WrongBranch(branch))
    else
      var originHead := GitReply(world, GitOriginHead(world, expected.value));
      match originHead
      case Crashed => Crashed
      case Refused(reason) => Refused(reason)
      case Done(commit) => if head != commit then Refused(NotAtOrigin(head, commit)) else Done(())
  }

  function AncestorOutcome(world: World, commit: Value, head: string): Outcome<()> {
    if !commit.Str? then Crashed
    else if world.ancestor(commit.s, head) then Done(())
    else Refused(NotAnAncestor(commit.s))
  }

  function AncestorsOutcome(world: World, commits: seq<Value>, n: nat, head: string): Outcome<()>
    requires n <= |commits|
  {
    if n == 0 then Done(())
    else
      var before := AncestorsOutcome(world, commits, n - 1, head);
      if before.Done? then AncestorOutcome(world, commits[n - 1], head) else before
  }

  function PathOutcome(world: World, id: string, path: Value): Outcome<()> {
    if !path.Str? then Crashed
    else if world.path(path.s) then Done(())
    else Refused(MissingPath(id, path.s))
  }

  function PathsOutcome(world: World, id: string, paths: seq<Value>, n: nat): Outcome<()>
    requires n <= |paths|
  {
    if n == 0 then Done(())
    else
      var before := PathsOutcome(world, id, paths, n - 1);
      if before.Done? then PathOutcome(world, id, paths[n - 1]) else before
  }

  function Required(item: Value): Option<seq<Value>>
    requires HasId(item)
  {
    Elements(GetOr(item.entries, "required_paths", List([])))
  }

  function FilesOutcome(world: World, items: seq<Value>, n: nat): Outcome<()>
    requires n <= |items| && AllHaveIds(items)
  {
    if n == 0 then Done(())
    else
      var before, paths := FilesOutcome(world, items, n - 1), Required(items[n - 1]);
      if !before.Done? then before
      else if paths.None? then Crashed
      else PathsOutcome(world, IdOf(items[n - 1]), paths.value, |paths.value|)
  }

  lemma {:induction false} FirstAncestorFailure(world: World, commits: seq<Value>, n: nat, m: nat, head: string)
    requires n <= m <= |commits| && !AncestorsOutcome(world, commits, n, head).Done?
    ensures AncestorsOutcome(world, commits, m, head) == AncestorsOutcome(world, commits, n, head)
    decreases m
  {
    if n < m {
      FirstAncestorFailure(world, commits, n, m - 1, head);
    }
  }

  lemma {:induction false} FirstPathFailure(world: World, id: string, paths: seq<Value>, n: nat, m: nat)
    requires n <= m <= |paths| && !PathsOutcome(world, id, paths, n).Done?
    ensures PathsOutcome(world, id, paths, m) == PathsOutcome(world, id, paths, n)
    decreases m
  {
    if n < m {
      FirstPathFailure(world, id, paths, n, m - 1);
    }
  }

  lemma {:induction false} FirstFileFailure(world: World, items: seq<Value>, n: nat, m: nat)
    requires n <= m <= |items| && AllHaveIds(items) && !FilesOutcome(world, items, n).Done?
    ensures FilesOutcome(world, items, m) == FilesOutcome(world, items, n)
    decreases m
  {
    if n < m {
      FirstFileFailure(world, items, n, m - 1);
    }
  }

  method CheckAncestors(world: World, canonical: Object, head: string) returns (outcome: Outcome<()>)
    ensures outcome == LineageOutcome(world, canonical, head)
  {
    var upstream, release := Lookup(canonical, "upstream_commit"), Lookup(canonical, "upstream_release");
    if upstream.None? || release.None? {
      return Crashed;
    }
    outcome := AncestorOutcome(world, upstream.value, head);
    if !outcome.Done? {
      return;
    }
    var ancestors := Lookup(canonical, "protected_ancestors");
    if ancestors.None? || Elements(ancestors.value).None? {
      return Crashed;
    }
    var commits := Elements(ancestors.value).value;
    for i := 0 to |commits|
      invariant AncestorsOutcome(world, commits, i, head).Done?
    {
      outcome := AncestorOutcome(world, commits[i], head);
      if !outcome.Done? {
        FirstAncestorFailure(world, commits, i + 1, |commits|, head);
        return;
      }
    }
    return Done(());
  }

  function LineageOutcome(world: World, canonical: Object, head: string): Outcome<()> {
    var upstream, release := Lookup(canonical, "upstream_commit"), Lookup(canonical, "upstream_release");
    if upstream.None? || release.None? then Crashed
    else
      var first := AncestorOutcome(world, upstream.value, head);
      if !first.Done? then first
      else
        var ancestors := Lookup(canonical, "protected_ancestors");
        if ancestors.None? || Elements(ancestors.value).None? then Crashed
        else
          var commits := Elements(ancestors.value).value;
          AncestorsOutcome(world, commits, |commits|, head)
  }

  method CheckPaths(world: World, id: string, paths: seq<Value>) returns (outcome: Outcome<()>)
    ensures outcome == PathsOutcome(world, id, paths, |paths|)
  {
    for k := 0 to |paths|
      invariant PathsOutcome(world, id, paths, k).Done?
    {
      outcome := PathOutcome(world, id, paths[k]);
      if !outcome.Done? {
        FirstPathFailure(world, id, paths, k + 1, |paths|);
        return;
      }
    }
    return Done(());
  }

  method CheckFiles(world: World, items: seq<Value>) returns (outcome: Outcome<()>)
    requires AllHaveIds(items)
    ensures outcome == FilesOutcome(world, items, |items|)
  {
    for i := 0 to |items|
      invariant FilesOutcome(world, items, i).Done?
    {
      var required := Elements(GetOr(items[i].entries, "required_paths", List([])));
      if required.None? {
        FirstFileFailure(world, items, i + 1, |items|);
        return Crashed;
      }
      outcome := CheckPaths(world, IdOf(items[i]), required.value);
      if !outcome.Done? {
        FirstFileFailure(world, items, i + 1, |items|);
        return;
      }
    }
    return Done(());
  }

  function Canonical(data: Object): Object
    requires HasObjects(data)
  {
    Get(data, "canonical_repository").entries
  }

  // The replies of git about the state of the repository, in the order it is asked.
  datatype Facts = Facts(origin: string, head: string, tree: string, branch: string, status: string)

  function FactsOutcome(world: World, canonical: Object): Outcome<Facts> {
    match OriginOutcome(world, canonical)
    case Crashed => Crashed
    case Refused(reason) => Refused(reason)
    case Done(origin) =>
      var head, tree := world.git(GIT_HEAD), world.git(GIT_TREE);
      var branch, status := world.git(GIT_BRANCH), world.git(GIT_STATUS);
      if head.None? then Refused(GitFailed(GIT_HEAD))
      else if tree.None? then Refused(GitFailed(GIT_TREE))
      else if branch.None? then Refused(GitFailed(GIT_BRANCH))
      else if status.None? then Refused(GitFailed(GIT_STATUS))
      else Done(Facts(origin, head.value, tree.value, branch.value, status.value))
  }

  function SourceOf(facts: Facts, canonical: Object): Source {
    Source(
      facts.origin, if facts.branch != "" then facts.branch else "detached", facts.head, facts.tree,
      facts.status != "", Get(canonical, "upstream_release"),
      if Get(canonical, "upstream_commit").Str? then Get(canonical, "upstream_commit").s else "")
  }

  function RepositoryOutcome(world: World, data: Object, development: bool): Outcome<Source>
    requires ValidManifest(data)
  {
    var canonical, items := Canonical(data), Customizations(data);
    match FactsOutcome(world, canonical)
    case Crashed => Crashed
    case Refused(reason) => Refused(reason)
    case Done(facts) =>
      var clean := if development then Done(())
        else CleanOutcome(world, canonical, facts.head, facts.branch, facts.status);
      var lineage, files := LineageOutcome(world, canonical, facts.head), FilesOutcome(world, items, |items|);
      if clean.Crashed? || clean.Refused? then Failed(clean)
      else if lineage.Crashed? || lineage.Refused? then Failed(lineage)
      else if files.Crashed? || files.Refused? then Failed(files)
      else Done(SourceOf(facts, canonical))
  }

  function Failed<T, U>(outcome: Outcome<T>): Outcome<U>
    requires !outcome.Done?
  {
    if outcome.Crashed? then Crashed else Refused(outcome.reason)
  }

  method CheckClean(world: World, canonical: Object, head: string, branch: string, status: string)
    returns (outcome: Outcome<()>)
    ensures outcome == CleanOutcome(world, canonical, head, branch, status)
  {
    if status != "" {
      return Refused(DirtyTree);
    }
    var expected := Lookup(canonical, "branch");
    if expected.None? {
      return Crashed;
    }
    if branch != "" && expected.value != Str(branch) {
      return Refused(WrongBranch(branch));
    }
    var originHead := GitReply(world, GitOriginHead(world, expected.value));
    if !originHead.Done? {
      return Failed(originHead);
    }
    if head != originHead.value {
      return Refused(NotAtOrigin(head, originHead.value));
    }
    return Done(());
  }

  method VerifyRepository(world: World, data: Object, development: bool) returns (outcome: Outcome<Source>)
    requires ValidManifest(data)
    ensures outcome == RepositoryOutcome(world, data, development)
  {
    var canonical := Canonical(data);
    var origin := GitReply(world, GIT_ORIGIN);
    if !origin.Done? {
      return Failed(origin);
    }
    var urls := Lookup(canonical, "origin_urls");
    if urls.None? || Contains(urls.value, origin.value).None? {
      return Crashed;
    }
    if Contains(urls.value, origin.value) == Some(false) {
      return Refused(WrongOrigin(origin.value));
    }
    var head := GitReply(world, GIT_HEAD);
    if !head.Done? {
      return Failed(head);
    }
    var tree := GitReply(world, GIT_TREE);
    if !tree.Done? {
      return Failed(tree);
    }
    var branch := GitReply(world, GIT_BRANCH);
    if !branch.Done? {
      return Failed(branch);
    }
    var status := GitReply(world, GIT_STATUS);
    if !status.Done? {
      return Failed(status);
    }
    if !development {
      var clean := CheckClean(world, canonical, head.value, branch.value, status.value);
      if !clean.Done? {
        return Failed(clean);
      }
    }
    var lineage := CheckAncestors(world, canonical, head.value);
    if !lineage.Done? {
      return Failed(lineage);
    }
    var files := CheckFiles(world, Customizations(data));
    if !files.Done? {
      return Failed(files);
    }
    var facts := Facts(origin.value, head.value, tree.value, branch.value, status.value);
    return Done(SourceOf(facts, canonical));
  }

  // ---- Changes since the base ----

  predicate LineBreak(c: char) {
    || '\n' <= c <= '\r' || '\U{1c}' <= c <= '\U{1e}' || c == '\U{85}' || c == '\U{2028}' || c == '\U{2029}'
  }

  // str.splitlines
  function SplitLines(text: string): seq<string>
    decreases |text|
  {
    if text == "" then []
    else
      var i := BreakAt(text);
      if i == |text| then [text]
      else
        var width := if text[i] == '\r' && i + 1 < |text| && text[i + 1] == '\n' then 2 else 1;
        [text[..i]] + SplitLines(text[i + width..])
  }

  function BreakAt(text: string): (i: nat)
    ensures i <= |text| && (i < |text| ==> LineBreak(text[i]))
  {
    if text == "" || LineBreak(text[0]) then 0 else 1 + BreakAt(text[1..])
  }

  predicate EndsWith(s: string, end: string) { |end| <= |s| && s[|s| - |end|..] == end }

  function Where(lines: seq<string>, p: string -> bool): seq<string> {
    if lines == [] then []
    else if p(lines[0]) then [lines[0]] + Where(lines[1..], p)
    else Where(lines[1..], p)
  }

  const GIT_DIFF := ["diff", "--name-only"]
  const MIGRATIONS := ["--", "backend/migrations"]
  const DATABASE_PATHS := ["--", "backend/migrations", "backend/ent/schema"]

  function Diff(baseRef: string, head: string, paths: seq<string>): seq<string> {
    GIT_DIFF + [baseRef + ".." + head] + paths
  }

  function Changed(world: World, baseRef: string, head: string, paths: seq<string>, p: string -> bool)
    : Outcome<seq<string>>
  {
    if baseRef == "" then Done([])
    else
      match GitReply(world, Diff(baseRef, head, paths))
      case Crashed => Crashed
      case Refused(reason) => Refused(reason)
      case Done(output) => Done(Where(SplitLines(output), p))
  }

  function ChangedMigrations(world: World, baseRef: string, head: string): Outcome<seq<string>> {
    Changed(world, baseRef, head, MIGRATIONS, line => EndsWith(line, ".sql"))
  }

  function ChangedDatabasePaths(world: World, baseRef: string, head: string): Outcome<seq<string>> {
    Changed(world, baseRef, head, DATABASE_PATHS, line => line != "")
  }

  // ---- Release tests ----

  function CommandOf(test: Value): seq<string>
    requires test.Dict? && ValidCommand(Get(test.entries, "command"))
  {
    var words := Get(test.entries, "command").items;
    seq(|words|, i requires 0 <= i < |words| => words[i].s)
  }

  function Directory(test: Value): Value
    requires test.Dict?
  {
    GetOr(test.entries, "working_directory", Str("."))
  }

  function TestOutcome(world: World, tests: seq<Value>, i: nat): Outcome<TestResult>
    requires ValidTests(tests) && i < |tests|
  {
    assert HasId(tests[i]);
    if !Directory(tests[i]).Str? then Crashed
    else
      match world.run(i, CommandOf(tests[i]), Directory(tests[i]).s)
      case NotStarted => Crashed
      case Exited(code, seconds) =>
        if code != 0 then Refused(TestFailed(IdOf(tests[i]), code))
        else Done(TestResult(IdOf(tests[i]), "passed", seconds))
  }

  function TestsOutcome(world: World, tests: seq<Value>, n: nat): Outcome<seq<TestResult>>
    requires ValidTests(tests) && n <= |tests|
  {
    if n == 0 then Done([])
    else
      var before := TestsOutcome(world, tests, n - 1);
      if !before.Done? then before
      else
        match TestOutcome(world, tests, n - 1)
        case Crashed => Crashed
        case Refused(reason) => Refused(reason)
        case Done(result) => Done(before.value + [result])
  }

  lemma {:induction false} FirstTestFailure(world: World, tests: seq<Value>, n: nat, m: nat)
    requires ValidTests(tests) && n <= m <= |tests| && !TestsOutcome(world, tests, n).Done?
    ensures TestsOutcome(world, tests, m) == TestsOutcome(world, tests, n)
    decreases m
  {
    if n < m {
      FirstTestFailure(world, tests, n, m - 1);
    }
  }

  method RunTest(world: World, tests: seq<Value>, i: nat) returns (outcome: Outcome<TestResult>)
    requires ValidTests(tests) && i < |tests|
    ensures outcome == TestOutcome(world, tests, i)
  {
    assert HasId(tests[i]);
    var id, command, directory := IdOf(tests[i]), CommandOf(tests[i]), Directory(tests[i]);
    if !directory.Str? {
      return Crashed;
    }
    var reply := world.run(i, command, directory.s);
    if reply.NotStarted? {
      return Crashed;
    }
    if reply.code != 0 {
      return Refused(TestFailed(id, reply.code));
    }
    return Done(TestResult(id, "passed", reply.seconds));
  }

  // A validated manifest has an identifier and a command for every test; only the directory can be no string.
  method RunReleaseTests(world: World, data: Object) returns (outcome: Outcome<seq<TestResult>>)
    requires ValidManifest(data)
    ensures outcome == TestsOutcome(world, Tests(data), |Tests(data)|)
  {
    hide ValidTests, TestOutcome;
    var tests, results: seq<TestResult> := Tests(data), [];
    for i := 0 to |tests|
      invariant TestsOutcome(world, tests, i) == Done(results)
    {
      var result := RunTest(world, tests, i);
      if !result.Done? {
        FirstTestFailure(world, tests, i + 1, |tests|);
        return Failed(result);
      }
      results := results + [result.value];
    }
    return Done(results);
  }

  // ---- The gate ----

  // Outcome of a run, and the release manifest it wrote, if any.
  datatype Ending = Ending(outcome: Outcome<()>, written: Option<Release>)

  function Base(world: World, args: Args, commit: string): Outcome<string> {
    if args.baseRef == "" then Done("")
    else
      var resolved := GitReply(world, ["rev-parse", args.baseRef + "^{commit}"]);
      if resolved.Done? && !world.ancestor(resolved.value, commit) then Refused(NotAnAncestor(resolved.value))
      else resolved
  }

  function ReleaseOf(
    world: World, data: Object, source: Source, baseRef: string, migrations: seq<string>, paths: seq<string>,
    tests: seq<TestResult>): Release
    requires ValidManifest(data)
  {
    Release(world.now, source, baseRef, migrations, paths, paths == [], Ids(Customizations(data)), tests)
  }

  method WriteReleaseManifest(
    world: World, source: Source, data: Object, tests: seq<TestResult>, baseRef: string, migrations: seq<string>,
    paths: seq<string>)
    returns (release: Release)
    requires ValidManifest(data)
    ensures release == ReleaseOf(world, data, source, baseRef, migrations, paths, tests)
  {
    var items, ids: seq<string> := Customizations(data), [];
    for i := 0 to |items|
      invariant ids == Ids(items)[..i]
    {
      ids := ids + [IdOf(items[i])];
    }
    return Release(world.now, source, baseRef, migrations, paths, paths == [], ids, tests);
  }

  // None is a manifest file that cannot be read or decoded.
  method Run(args: Args, world: World, manifest: Option<Value>) returns (ending: Ending)
    ensures ending == Gate(args, world, manifest)
  {
    if manifest.None? {
      return Ending(Refused(Unreadable), None);
    }
    if !manifest.value.Dict? {
      return Ending(Refused(NotAnObject), None);
    }
    var data := manifest.value.entries;
    var valid := ValidateManifest(data);
    ValidationExact(data);
    if !valid.Done? {
      return Ending(valid, None);
    }
    var source := VerifyRepository(world, data, args.development);
    if !source.Done? {
      return Ending(Failed(source), None);
    }
    if args.output && (args.development || args.skipTests || args.baseRef == "") {
      return Ending(Refused(NotARelease), None);
    }
    var base := Base(world, args, source.value.commit);
    if !base.Done? {
      return Ending(Failed(base), None);
    }
    var migrations := ChangedMigrations(world, base.value, source.value.commit);
    if !migrations.Done? {
      return Ending(Failed(migrations), None);
    }
    var paths := ChangedDatabasePaths(world, base.value, source.value.commit);
    if !paths.Done? {
      return Ending(Failed(paths), None);
    }
    var tests: Outcome<seq<TestResult>> := Done([]);
    if !args.skipTests {
      tests := RunReleaseTests(world, data);
      if !tests.Done? {
        return Ending(Failed(tests), None);
      }
    }
    var written: Option<Release> := None;
    if args.output {
      var release := WriteReleaseManifest(
        world, source.value, data, tests.value, base.value, migrations.value, paths.value);
      written := Some(release);
    }
    return Ending(Done(()), written);
  }

  function Gate(args: Args, world: World, manifest: Option<Value>): Ending {
    if manifest.None? then Ending(Refused(Unreadable), None)
    else if !manifest.value.Dict? then Ending(Refused(NotAnObject), None)
    else
      var data := manifest.value.entries;
      ValidationExact(data);
      if !Validation(data).Done? then Ending(Validation(data), None)
      else
        match RepositoryOutcome(world, data, args.development)
        case Crashed => Ending(Crashed, None)
        case Refused(reason) => Ending(Refused(reason), None)
        case Done(source) =>
          if args.output && (args.development || args.skipTests || args.baseRef == "")
          then Ending(Refused(NotARelease), None)
          else Judged(args, world, data, source)
  }

  // The part of the run after the repository has been checked.
  function Judged(args: Args, world: World, data: Object, source: Source): Ending
    requires ValidManifest(data)
  {
    match Base(world, args, source.commit)
    case Crashed => Ending(Crashed, None)
    case Refused(reason) => Ending(Refused(reason), None)
    case Done(base) =>
      var migrations := ChangedMigrations(world, base, source.commit);
      var paths := ChangedDatabasePaths(world, base, source.commit);
      var tests := if args.skipTests then Done([]) else TestsOutcome(world, Tests(data), |Tests(data)|);
      if !migrations.Done? then Ending(Failed(migrations), None)
      else if !paths.Done? then Ending(Failed(paths), None)
      else if !tests.Done? then Ending(Failed(tests), None)
      else if !args.output then Ending(Done(()), None)
      else
        var release := ReleaseOf(world, data, source, base, migrations.value, paths.value, tests.value);
        Ending(Done(()), Some(release))
  }
}
