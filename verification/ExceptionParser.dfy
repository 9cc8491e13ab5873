// The line parser for the list of accepted audit findings.
module ExceptionParser {
  import opened Wrappers

  // ---- str.strip ----

  predicate IsSpace(c: char) {
    || '\t' <= c <= '\r' || '\U{1c}' <= c <= ' ' || c == '\U{85}' || c == '\U{a0}' || c == '\U{1680}'
    || '\U{2000}' <= c <= '\U{200a}' || c == '\U{2028}' || c == '\U{2029}' || c == '\U{202f}' || c == '\U{205f}'
    || c == '\U{3000}'
  }

  // The blanks of a text file, and no printing ASCII character.
  lemma SpacesOfText()
    ensures forall c | c in [' ', '\t', '\n', '\r', '\U{b}', '\U{c}', '\U{a0}'] :: IsSpace(c)
    ensures forall c | '!' <= c <= '~' :: !IsSpace(c)
  {
  }

  predicate Blank(s: string) { forall i | 0 <= i < |s| :: IsSpace(s[i]) }

  function LStrip(s: string): string {
    if s != "" && IsSpace(s[0]) then LStrip(s[1..]) else s
  }

  function RStrip(s: string): string {
    if s != "" && IsSpace(s[|s| - 1]) then RStrip(s[..|s| - 1]) else s
  }

  function Strip(s: string): string { RStrip(LStrip(s)) }

  // Neither end is white space; true of the empty string.
  predicate Trimmed(s: string) { s != "" ==> !IsSpace(s[0]) && !IsSpace(s[|s| - 1]) }

  lemma {:induction false} LStripShape(s: string)
    ensures LStrip(s) != "" ==> !IsSpace(LStrip(s)[0]) && LStrip(s)[|LStrip(s)| - 1] == s[|s| - 1]
    ensures |LStrip(s)| <= |s| && s[|s| - |LStrip(s)|..] == LStrip(s) && Blank(s[..|s| - |LStrip(s)|])
  {
    hide IsSpace, Blank;
    if s != "" && IsSpace(s[0]) {
      var rest := s[1..];
      var r := LStrip(rest);
      LStripShape(rest);
      assert rest[|rest| - |r|..] == s[|s| - |r|..] && s[..|s| - |r|] == [s[0]] + rest[..|rest| - |r|];
      BlankGrows(s[0], rest[..|rest| - |r|]);
      assert r != "" ==> rest[|rest| - 1] == s[|s| - 1];
    } else {
      assert s[|s| - |s|..] == s && s[..0] == "";
      NothingBlank();
    }
  }

  lemma BlankGrows(c: char, s: string)
    requires IsSpace(c) && Blank(s)
    ensures Blank([c] + s)
  {
    hide IsSpace;
  }

  lemma NothingBlank()
    ensures Blank("")
  {
  }

  lemma {:induction false} RStripShape(s: string)
    ensures RStrip(s) != "" ==> !IsSpace(RStrip(s)[|RStrip(s)| - 1]) && RStrip(s)[0] == s[0]
    ensures |RStrip(s)| <= |s| && s[..|RStrip(s)|] == RStrip(s) && Blank(s[|RStrip(s)|..])
  {
    if s != "" && IsSpace(s[|s| - 1]) {
      var front := s[..|s| - 1];
      RStripShape(front);
      var r := RStrip(front);
      assert s[|r|..] == front[|r|..] + [s[|s| - 1]] && s[..|r|] == front[..|r|];
    }
  }

  lemma StripTrims(s: string)
    ensures Trimmed(Strip(s))
  {
    LStripShape(s);
    RStripShape(LStrip(s));
  }

  lemma {:induction false} LStripCore(left: string, core: string)
    requires Blank(left) && (core != "" ==> !IsSpace(core[0]))
    ensures LStrip(left + core) == core
  {
    if left == "" {
      assert left + core == core;
    } else {
      assert (left + core)[1..] == left[1..] + core;
      LStripCore(left[1..], core);
    }
  }

  lemma {:induction false} RStripCore(core: string, right: string)
    requires Blank(right) && (core != "" ==> !IsSpace(core[|core| - 1]))
    ensures RStrip(core + right) == core
  {
    if right == "" {
      assert core + right == core;
    } else {
      assert (core + right)[..|core + right| - 1] == core + right[..|right| - 1];
      RStripCore(core, right[..|right| - 1]);
    }
  }

  // Surrounding white space goes, the rest stays.
  lemma StripCore(left: string, core: string, right: string)
    requires Blank(left) && Blank(right) && core != "" && Trimmed(core)
    ensures Strip(left + core + right) == core
  {
    assert left + core + right == left + (core + right);
    LStripCore(left, core + right);
    RStripCore(core, right);
  }

  // ---- split_kv ----

  function IndexOf(s: string, c: char): (i: nat)
    ensures i <= |s| && (i < |s| <==> c in s) && (i < |s| ==> s[i] == c) && c !in s[..i]
  {
    if s == "" || s[0] == c then 0 else 1 + IndexOf(s[1..], c)
  }

  predicate Quoted(s: string, quote: char) { s != "" && s[0] == quote && s[|s| - 1] == quote }

  // Also a lone quotation mark counts as quoted; nothing is left of it.
  function Unquote(s: string): string {
    if Quoted(s, '"') || Quoted(s, '\'') then (if |s| == 1 then "" else s[1..|s| - 1]) else s
  }

  // None is the error of unpacking a line without a colon.
  function SplitKV(line: string): Option<(string, string)> {
    var i := IndexOf(line, ':');
    if i == |line| then None else Some((Strip(line[..i]), Unquote(Strip(line[i + 1..]))))
  }

  // ---- parse_exceptions ----

  type Record = map<string, string>

  predicate StartsWith(s: string, prefix: string) { |prefix| <= |s| && s[..|prefix|] == prefix }

  datatype State = State(done: seq<Record>, current: Option<Record>)

  function Closed(st: State): seq<Record> {
    if st.current.Some? && st.current.value != map[] then st.done + [st.current.value] else st.done
  }

  // Lines that no state takes notice of.
  predicate Skipped(line: string) {
    line == "" || StartsWith(line, "#") || StartsWith(line, "version:") || StartsWith(line, "exceptions:")
  }

  // One line; None is the error of an item without a colon.
  function Step(st: State, raw: string): Option<State> {
    var line := Strip(raw);
    if Skipped(line) then Some(st)
    else if StartsWith(line, "- ") then
      var rest := Strip(line[2..]);
      if rest == "" then Some(State(Closed(st), Some(map[])))
      else
        var kv := SplitKV(rest);
        if kv.None? then None else Some(State(Closed(st), Some(map[kv.value.0 := kv.value.1])))
    else if st.current.Some? && ':' in line then
      var kv := SplitKV(line);
      if kv.None? then None else Some(st.(current := Some(st.current.value[kv.value.0 := kv.value.1])))
    else Some(st)
  }

  function Feed(st: State, lines: seq<string>): Option<State>
    decreases |lines|
  {
    if lines == [] then Some(st)
    else
      var next := Step(st, lines[0]);
      if next.None? then None else Feed(next.value, lines[1..])
  }

  function ParseLines(lines: seq<string>): Option<seq<Record>> {
    var end := Feed(State([], None), lines);
    if end.None? then None else Some(Closed(end.value))
  }

  method ParseExceptions(lines: seq<string>) returns (exceptions: Option<seq<Record>>)
    ensures exceptions == ParseLines(lines)
  {
    var done: seq<Record>, current: Option<Record> := [], None;
    for i := 0 to |lines|
      invariant Feed(State([], None), lines) == Feed(State(done, current), lines[i..])
    {
      assert lines[i..][0] == lines[i] && lines[i..][1..] == lines[i + 1..];
      var line := Strip(lines[i]);
      if line == "" || StartsWith(line, "#") {
        continue;
      }
      if StartsWith(line, "version:") || StartsWith(line, "exceptions:") {
        continue;
      }
      if StartsWith(line, "- ") {
        if current.Some? && current.value != map[] {
          done := done + [current.value];
        }
        current := Some(map[]);
        line := Strip(line[2..]);
        if line != "" {
          var kv := SplitKV(line);
          if kv.None? {
            return None;
          }
          current := Some(map[][kv.value.0 := kv.value.1]);
        }
        continue;
      }
      if current.Some? && ':' in line {
        var kv := SplitKV(line);
        current := Some(current.value[kv.value.0 := kv.value.1]);
      }
    }
    if current.Some? && current.value != map[] {
      done := done + [current.value];
    }
    return Some(done);
  }

  // An item line always has content, so no record is ever dropped for being empty.
  lemma ItemHasContent(raw: string)
    requires StartsWith(Strip(raw), "- ")
    ensures Strip(Strip(raw)[2..]) != ""
  {
    var line := Strip(raw);
    StripTrims(raw);
    assert line[..2] == "- " && line[0] == '-' && line[1] == ' ';
    var rest := line[2..];
    assert IsSpace(line[1]) && !IsSpace(line[|line| - 1]);
    assert rest[|rest| - 1] == line[|line| - 1];
    LStripShape(rest);
    assert !Blank(rest[..|rest|]);
    RStripShape(LStrip(rest));
    assert !Blank(LStrip(rest)[0..]);
  }

  lemma StepNeverEmpty(st: State, raw: string)
    requires st.current != Some(map[]) && Step(st, raw).Some?
    ensures Step(st, raw).value.current != Some(map[])
  {
    var line := Strip(raw);
    if StartsWith(line, "- ") {
      ItemHasContent(raw);
      if SplitKV(Strip(line[2..])).Some? {
        var (k, v) := SplitKV(Strip(line[2..])).value;
        assert k in map[k := v];
      }
    } else if st.current.Some? && SplitKV(line).Some? {
      var (k, v) := SplitKV(line).value;
      assert k in st.current.value[k := v];
    }
  }

  lemma {:induction false} CurrentNeverEmpty(st: State, lines: seq<string>)
    requires st.current != Some(map[])
    ensures var end := Feed(st, lines); end.Some? ==> end.value.current != Some(map[])
    decreases |lines|
  {
    if lines != [] {
      var next := Step(st, lines[0]);
      if next.Some? {
        StepNeverEmpty(st, lines[0]);
        CurrentNeverEmpty(next.value, lines[1..]);
      }
    }
  }

  // ---- Parsing in parts ----

  // A line that leaves every state alone: it is skipped, or is neither an item nor a field.
  predicate Neutral(raw: string) {
    var line := Strip(raw);
    Skipped(line) || (!StartsWith(line, "- ") && ':' !in line)
  }

  predicate IsItem(raw: string) { !Skipped(Strip(raw)) && StartsWith(Strip(raw), "- ") }

  // The first line that matters, if there is one, starts an item.
  predicate OpensWithItem(lines: seq<string>) {
    lines == [] || IsItem(lines[0]) || (Neutral(lines[0]) && OpensWithItem(lines[1..]))
  }

  function Joined(a: Option<seq<Record>>, b: Option<seq<Record>>): Option<seq<Record>> {
    if a.Some? && b.Some? then Some(a.value + b.value) else None
  }

  function After(done: seq<Record>, st: State): State { st.(done := done + st.done) }

  lemma StepShifts(done: seq<Record>, st: State, raw: string)
    ensures Step(After(done, st), raw) == if Step(st, raw).None? then None else Some(After(done, Step(st, raw).value))
    ensures Closed(After(done, st)) == done + Closed(st)
  {
    assert Closed(After(done, st)) == done + Closed(st);
  }

  // Records that are complete do not influence the rest.
  lemma {:induction false} FeedShifts(done: seq<Record>, st: State, lines: seq<string>)
    ensures Feed(After(done, st), lines)
      == if Feed(st, lines).None? then None else Some(After(done, Feed(st, lines).value))
    decreases |lines|
  {
    if lines != [] {
      StepShifts(done, st, lines[0]);
      if Step(st, lines[0]).Some? {
        FeedShifts(done, Step(st, lines[0]).value, lines[1..]);
      }
    }
  }

  lemma {:induction false} FeedAppend(st: State, a: seq<string>, b: seq<string>)
    ensures Feed(st, a + b) == if Feed(st, a).None? then None else Feed(Feed(st, a).value, b)
    decreases |a|
  {
    if a == [] {
      assert a + b == b;
    } else {
      assert (a + b)[0] == a[0] && (a + b)[1..] == a[1..] + b;
      if Step(st, a[0]).Some? {
        FeedAppend(Step(st, a[0]).value, a[1..], b);
      }
    }
  }

  // From any state, lines that open with an item parse as they do on their own.
  lemma {:induction false} FeedFresh(st: State, lines: seq<string>)
    requires OpensWithItem(lines)
    ensures var alone, here := Feed(State([], None), lines), Feed(st, lines);
      && here.None? == alone.None?
      && (alone.Some? ==> Closed(here.value) == Closed(st) + Closed(alone.value))
  {
    if lines == [] {
      assert Closed(st) + [] == Closed(st);
    } else if IsItem(lines[0]) {
      var raw := lines[0];
      var alone := Step(State([], None), raw);
      assert Step(st, raw) == if alone.None? then None else Some(After(Closed(st), alone.value)) by {
        assert Closed(st) + [] == Closed(st);
      }
      if alone.Some? {
        FeedShifts(Closed(st), alone.value, lines[1..]);
        if Feed(alone.value, lines[1..]).Some? {
          StepShifts(Closed(st), Feed(alone.value, lines[1..]).value, "");
        }
      }
    } else {
      FeedFresh(st, lines[1..]);
    }
  }

  // Parsing two lists one after the other is parsing them together, errors included.
  lemma ParseAppend(a: seq<string>, b: seq<string>)
    requires OpensWithItem(b)
    ensures ParseLines(a + b) == Joined(ParseLines(a), ParseLines(b))
  {
    FeedAppend(State([], None), a, b);
    var end := Feed(State([], None), a);
    if end.Some? {
      FeedFresh(end.value, b);
    }
  }

  // ---- Lines without effect ----

  // Blank lines, comments, the two words that open the file, and lines that are neither an item nor a field.
  predicate Noise(raw: string) {
    var line := Strip(raw);
    || line == "" || line[0] == '#'
    || (|line| >= 8 && line[..8] == "version:") || (|line| >= 11 && line[..11] == "exceptions:")
    || (':' !in line && (|line| < 2 || line[..2] != "- "))
  }

  lemma NoiseSkips(st: State, raw: string)
    requires Noise(raw)
    ensures Step(st, raw) == Some(st)
  {
    hide Strip, SplitKV;
    var line := Strip(raw);
    if line != "" && line[0] == '#' {
      assert line[..1] == "#";
    }
    assert |"version:"| == 8 && |"exceptions:"| == 11 && |"- "| == 2;
  }

  // They can stand anywhere.
  lemma NoiseIgnored(a: seq<string>, raw: string, b: seq<string>)
    requires Noise(raw)
    ensures ParseLines(a + [raw] + b) == ParseLines(a + b)
  {
    hide Step, Noise, Closed;
    var start := State([], None);
    assert a + [raw] + b == a + ([raw] + b);
    FeedAppend(start, a, [raw] + b);
    FeedAppend(start, a, b);
    if Feed(start, a).Some? {
      var st := Feed(start, a).value;
      NoiseSkips(st, raw);
      assert ([raw] + b)[0] == raw && ([raw] + b)[1..] == b;
    }
  }

  // Fields before the first item belong to no record.
  lemma {:induction false} PreambleIgnored(a: seq<string>, b: seq<string>)
    requires forall i | 0 <= i < |a| :: |Strip(a[i])| < 2 || Strip(a[i])[..2] != "- "
    ensures ParseLines(a + b) == ParseLines(b)
  {
    hide Strip, SplitKV, Closed;
    if a == [] {
      assert a + b == b;
    } else {
      assert (a + b)[0] == a[0] && (a + b)[1..] == a[1..] + b;
      assert Step(State([], None), a[0]) == Some(State([], None));
      PreambleIgnored(a[1..], b);
    }
  }
}
