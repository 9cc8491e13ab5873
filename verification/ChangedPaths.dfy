// The files that git reports as changed since the deployed version, line by line.
module ChangedPaths {
  import opened ReleaseManifest
  import opened ReleaseGuard

  // ---- Lines ----

  predicate EndsLine(c: char) {
    c in ['\n', '\U{b}', '\U{c}', '\r', '\U{1c}', '\U{1d}', '\U{1e}', '\U{85}', '\U{2028}', '\U{2029}']
  }

  lemma LineBreaks(c: char)
    ensures LineBreak(c) <==> EndsLine(c)
  {
  }

  predicate WithoutEnd(line: string) { forall i | 0 <= i < |line| :: !EndsLine(line[i]) }

  // What stands between two lines: one of these characters, or "\r\n".
  predicate LineEnd(end: string) { end == "\r\n" || (|end| == 1 && EndsLine(end[0])) }

  // The text is the lines, each with its end; only the last one may be without, and then it is not empty. A "\n" after
  // a "\r" belongs to the same end.
  ghost predicate AreLines(text: string, lines: seq<string>)
    decreases |lines|
  {
    if lines == [] then text == ""
    else exists end: string, rest: string :: Opens(text, lines[0], end, rest) && AreLines(rest, lines[1..])
  }

  // The text starts with the line and its end.
  predicate Opens(text: string, line: string, end: string, rest: string) {
    && text == line + end + rest && WithoutEnd(line)
    && (if end == "" then line != "" && rest == "" else LineEnd(end))
    && (end == "\r" ==> rest == "" || rest[0] != '\n')
  }

  lemma {:induction false} BreakAtEnd(text: string)
    ensures WithoutEnd(text[..BreakAt(text)]) && (BreakAt(text) < |text| ==> EndsLine(text[BreakAt(text)]))
  {
    hide LineBreak, EndsLine;
    if text != "" {
      LineBreaks(text[0]);
      if !LineBreak(text[0]) {
        BreakAtEnd(text[1..]);
        assert text[..BreakAt(text)] == [text[0]] + text[1..][..BreakAt(text[1..])];
      }
    }
  }

  lemma FirstLine(text: string) returns (end: string, rest: string)
    requires text != ""
    ensures Opens(text, text[..BreakAt(text)], end, rest) && |rest| < |text|
    ensures SplitLines(text) == [text[..BreakAt(text)]] + SplitLines(rest)
  {
    hide LineBreak, BreakAt, WithoutEnd, EndsLine;
    var i := BreakAt(text);
    BreakAtEnd(text);
    if i == |text| {
      end, rest := "", "";
      assert text[..i] == text;
    } else {
      var width := if text[i] == '\r' && i + 1 < |text| && text[i + 1] == '\n' then 2 else 1;
      end, rest := text[i..i + width], text[i + width..];
      assert text == text[..i] + end + rest;
      assert width == 1 ==> end == [text[i]];
      assert width == 2 ==> end == "\r\n";
    }
  }

  lemma {:induction false} SplitLinesExact(text: string)
    ensures AreLines(text, SplitLines(text))
    decreases |text|
  {
    hide SplitLines, Opens, BreakAt;
    if text == "" {
      NoLines();
    } else {
      var end, rest := FirstLine(text);
      SplitLinesExact(rest);
      var lines := SplitLines(text);
      assert lines[0] == text[..BreakAt(text)] && lines[1..] == SplitLines(rest);
      assert Opens(text, lines[0], end, rest) && AreLines(rest, lines[1..]);
    }
  }

  lemma NoLines()
    ensures SplitLines("") == []
  {
  }

  lemma OpensOnce(text: string, a: string, endA: string, restA: string, b: string, endB: string, restB: string)
    requires Opens(text, a, endA, restA) && Opens(text, b, endB, restB)
    ensures a == b && endA == endB && restA == restB
  {
    hide EndsLine;
    OpensUpTo(text, a, endA, restA);
    OpensUpTo(text, b, endB, restB);
    assert a == text[..|a|] == b;
    assert endA == text[|a|..|a| + |endA|] == endB && restA == text[|a| + |endA|..] == restB;
  }

  // The line goes up to the first character that ends one, or to the end of the text.
  lemma OpensUpTo(text: string, line: string, end: string, rest: string)
    requires Opens(text, line, end, rest)
    ensures |line| <= |text| && text[..|line|] == line && (|line| == |text| || EndsLine(text[|line|]))
    ensures forall i | 0 <= i < |line| :: !EndsLine(text[i])
    ensures |end| == if |line| == |text| then 0
                     else if text[|line|] == '\r' && |line| + 1 < |text| && text[|line| + 1] == '\n' then 2
                     else 1
  {
    forall i | 0 <= i < |line| ensures text[i] == line[i] {
    }
    assert end != "" ==> text[|line|] == end[0];
    assert |end| == 2 ==> text[|line| + 1] == end[1];
    assert |end| == 1 && rest != "" ==> text[|line| + 1] == rest[0];
  }

  // So a text has these lines and no others.
  lemma {:induction false} LinesAreSplit(text: string, lines: seq<string>)
    requires AreLines(text, lines)
    ensures lines == SplitLines(text)
    decreases |lines|
  {
    hide Opens, SplitLines, BreakAt;
    if lines == [] {
      NoLines();
    } else {
      var end: string, rest: string :| Opens(text, lines[0], end, rest) && AreLines(rest, lines[1..]);
      SomeText(text, lines[0], end, rest);
      var end', rest' := FirstLine(text);
      OpensOnce(text, lines[0], end, rest, text[..BreakAt(text)], end', rest');
      LinesAreSplit(rest, lines[1..]);
      assert lines == [lines[0]] + lines[1..];
    }
  }

  lemma SomeText(text: string, line: string, end: string, rest: string)
    requires Opens(text, line, end, rest)
    ensures text != ""
  {
  }

  // ---- Lines that are kept ----

  predicate Ascending(at: seq<nat>) { forall k, l | 0 <= k < l < |at| :: at[k] < at[l] }

  // The positions and what stands there.
  predicate Located(all: seq<string>, some: seq<string>, at: seq<nat>) {
    |at| == |some| && Ascending(at) && forall k | 0 <= k < |at| :: at[k] < |all| && some[k] == all[at[k]]
  }

  // `some` are the elements of `all` at these positions, which are those that meet the condition.
  predicate KeptAt(all: seq<string>, some: seq<string>, p: string -> bool, at: seq<nat>) {
    && Located(all, some, at)
    && (forall i | 0 <= i < |all| :: p(all[i]) <==> i in at)
  }

  ghost predicate Keeps(all: seq<string>, some: seq<string>, p: string -> bool) {
    exists at: seq<nat> :: KeptAt(all, some, p, at)
  }

  function Later(at: seq<nat>): (later: seq<nat>)
    ensures |later| == |at|
  {
    seq(|at|, k requires 0 <= k < |at| => at[k] + 1)
  }

  lemma LaterMembers(at: seq<nat>, i: nat)
    ensures i + 1 in Later(at) <==> i in at
    ensures 0 !in Later(at)
  {
    if i in at {
      var k :| 0 <= k < |at| && at[k] == i;
      assert Later(at)[k] == i + 1;
    }
  }

  lemma KeptLater(all: seq<string>, some: seq<string>, p: string -> bool, at: seq<nat>)
    requires all != [] && KeptAt(all[1..], some, p, at)
    ensures KeptAt(all, if p(all[0]) then [all[0]] + some else some, p,
                   if p(all[0]) then [0] + Later(at) else Later(at))
  {
    hide Located, Later;
    LaterPositions(all, some, at);
    if p(all[0]) {
      FirstPosition(all, some, Later(at));
    }
    LaterExact(all, p, at);
  }

  lemma LaterPositions(all: seq<string>, some: seq<string>, at: seq<nat>)
    requires all != [] && Located(all[1..], some, at)
    ensures Located(all, some, Later(at)) && forall k | 0 <= k < |at| :: Later(at)[k] > 0
  {
  }

  lemma FirstPosition(all: seq<string>, some: seq<string>, at: seq<nat>)
    requires all != [] && Located(all, some, at) && forall k | 0 <= k < |at| :: at[k] > 0
    ensures Located(all, [all[0]] + some, [0] + at)
  {
  }

  lemma LaterExact(all: seq<string>, p: string -> bool, at: seq<nat>)
    requires all != [] && forall i | 0 <= i < |all| - 1 :: p(all[1..][i]) <==> i in at
    ensures forall i | 0 <= i < |all| :: p(all[i]) <==> i in (if p(all[0]) then [0] + Later(at) else Later(at))
  {
    hide Later;
    forall i | 0 <= i < |all| ensures p(all[i]) <==> i in (if p(all[0]) then [0] + Later(at) else Later(at)) {
      LaterMembers(at, if i > 0 then i - 1 else 0);
      if i > 0 {
        assert all[i] == all[1..][i - 1];
      }
    }
  }

  lemma {:induction false} WhereKeeps(lines: seq<string>, p: string -> bool) returns (at: seq<nat>)
    ensures KeptAt(lines, Where(lines, p), p, at)
  {
    hide KeptAt, Later;
    if lines == [] {
      at := [];
      NothingKept(p);
    } else {
      var rest := WhereKeeps(lines[1..], p);
      at := if p(lines[0]) then [0] + Later(rest) else Later(rest);
      KeptLater(lines, Where(lines[1..], p), p, rest);
    }
  }

  lemma NothingKept(p: string -> bool)
    ensures KeptAt([], [], p, [])
  {
  }

  lemma WhereExact(lines: seq<string>, p: string -> bool)
    ensures Keeps(lines, Where(lines, p), p)
  {
    hide Where, KeptAt;
    var at := WhereKeeps(lines, p);
  }

  // ---- The two questions to git ----

  // The reply to a command has these lines that meet a condition.
  ghost predicate Reports(world: World, command: seq<string>, p: string -> bool, paths: seq<string>) {
    world.git(command).Some? && exists lines :: AreLines(world.git(command).value, lines) && Keeps(lines, paths, p)
  }

  function MigrationsCommand(base: string, commit: string): seq<string> {
    ["diff", "--name-only", base + ".." + commit, "--", "backend/migrations"]
  }

  function DatabaseCommand(base: string, commit: string): seq<string> {
    ["diff", "--name-only", base + ".." + commit, "--", "backend/migrations", "backend/ent/schema"]
  }

  predicate IsScript(line: string) { |line| >= 4 && line[|line| - 4..] == ".sql" }

  predicate NotEmpty(line: string) { line != "" }

  lemma ChangedReports(world: World, base: string, commit: string, paths: seq<string>, p: string -> bool)
    requires base != ""
    ensures var command, outcome := Diff(base, commit, paths), Changed(world, base, commit, paths, p);
      && (world.git(command).None? ==> outcome == Refused(GitFailed(command)))
      && (world.git(command).Some? ==> outcome.Done? && Reports(world, command, p, outcome.value))
  {
    hide SplitLines, Where, AreLines, Keeps;
    var reply := world.git(Diff(base, commit, paths));
    if reply.Some? {
      SplitLinesExact(reply.value);
      WhereExact(SplitLines(reply.value), p);
    }
  }

  lemma SameReports(world: World, command: seq<string>, p: string -> bool, q: string -> bool, paths: seq<string>)
    requires Reports(world, command, p, paths) && forall line :: p(line) == q(line)
    ensures Reports(world, command, q, paths)
  {
    hide AreLines;
    var lines :| AreLines(world.git(command).value, lines) && Keeps(lines, paths, p);
    var at :| KeptAt(lines, paths, p, at);
    assert KeptAt(lines, paths, q, at);
  }

  // The migrations are the SQL files that git reports under the migrations, and the database paths everything it
  // reports there and under the schema; a git that fails is the failure.
  lemma ChangedExactly(world: World, base: string, commit: string)
    requires base != ""
    ensures var command, outcome := MigrationsCommand(base, commit), ChangedMigrations(world, base, commit);
      && (world.git(command).None? ==> outcome == Refused(GitFailed(command)))
      && (world.git(command).Some? ==> outcome.Done? && Reports(world, command, IsScript, outcome.value))
    ensures var command, outcome := DatabaseCommand(base, commit), ChangedDatabasePaths(world, base, commit);
      && (world.git(command).None? ==> outcome == Refused(GitFailed(command)))
      && (world.git(command).Some? ==> outcome.Done? && Reports(world, command, NotEmpty, outcome.value))
  {
    hide Reports, Changed;
    assert Diff(base, commit, MIGRATIONS) == MigrationsCommand(base, commit);
    assert Diff(base, commit, DATABASE_PATHS) == DatabaseCommand(base, commit);
    ChangedReports(world, base, commit, MIGRATIONS, line => EndsWith(line, ".sql"));
    ChangedReports(world, base, commit, DATABASE_PATHS, line => line != "");
    var migrations, paths := ChangedMigrations(world, base, commit), ChangedDatabasePaths(world, base, commit);
    if migrations.Done? {
      SameReports(world, MigrationsCommand(base, commit), line => EndsWith(line, ".sql"), IsScript, migrations.value);
    }
    if paths.Done? {
      SameReports(world, DatabaseCommand(base, commit), line => line != "", NotEmpty, paths.value);
    }
  }

  // Without a base nothing is asked.
  lemma NothingChanged(world: World, commit: string)
    ensures ChangedMigrations(world, "", commit) == ChangedDatabasePaths(world, "", commit) == Done([])
  {
  }

  lemma {:induction false} EmptyLines(text: string, lines: seq<string>)
    requires AreLines(text, lines)
    ensures (forall i | 0 <= i < |lines| :: lines[i] == "") <==> forall c | c in text :: EndsLine(c)
    decreases |lines|
  {
    hide EndsLine;
    if lines != [] {
      var end: string, rest: string :| Opens(text, lines[0], end, rest) && AreLines(rest, lines[1..]);
      EmptyLines(rest, lines[1..]);
      assert lines == [lines[0]] + lines[1..];
      assert forall c :: c in text <==> c in lines[0] || c in end || c in rest;
      LineOfNoEnd(lines[0]);
      EndOfEnds(end);
    }
  }

  lemma LineOfNoEnd(line: string)
    requires WithoutEnd(line)
    ensures line == "" <==> forall c | c in line :: EndsLine(c)
  {
    if line != "" {
      assert line[0] in line && !EndsLine(line[0]);
    }
  }

  lemma EndOfEnds(end: string)
    ensures end == "" || LineEnd(end) ==> forall c | c in end :: EndsLine(c)
  {
  }

  // Nothing is reported exactly if the reply has only line ends.
  lemma NothingReported(world: World, command: seq<string>, paths: seq<string>)
    requires Reports(world, command, NotEmpty, paths)
    ensures paths == [] <==> forall c | c in world.git(command).value :: EndsLine(c)
  {
    hide AreLines, EndsLine;
    var text := world.git(command).value;
    var lines :| AreLines(text, lines) && Keeps(lines, paths, NotEmpty);
    var at :| KeptAt(lines, paths, NotEmpty, at);
    EmptyLines(text, lines);
    assert paths == [] <==> at == [];
    assert at != [] ==> NotEmpty(lines[at[0]]);
  }
}
