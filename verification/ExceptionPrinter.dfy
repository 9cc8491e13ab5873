// Writing the list of accepted findings as text, and reading it back.
module ExceptionPrinter {
  import opened Wrappers
  import opened ExceptionParser

  // ---- Lines of a text file ----

  function LineEnd(text: string): (i: nat)
    ensures i <= |text| && forall k | 0 <= k < i :: text[k] != '\n' && text[k] != '\r'
    ensures i < |text| ==> text[i] == '\n' || text[i] == '\r'
  {
    if text == "" || text[0] == '\n' || text[0] == '\r' then 0 else 1 + LineEnd(text[1..])
  }

  // Reading by lines with universal newlines: "\n", "\r" and "\r\n" end a line and are read as "\n".
  function Lines(text: string): seq<string>
    decreases |text|
  {
    if text == "" then []
    else
      var i := LineEnd(text);
      if i == |text| then [text]
      else
        var width := if text[i] == '\r' && i + 1 < |text| && text[i + 1] == '\n' then 2 else 1;
        [text[..i] + "\n"] + Lines(text[i + width..])
  }

  predicate OneLine(s: string) { forall i | 0 <= i < |s| :: s[i] != '\n' && s[i] != '\r' }

  function Text(lines: seq<string>): string {
    if lines == [] then "" else lines[0] + "\n" + Text(lines[1..])
  }

  function Ended(lines: seq<string>): (ended: seq<string>)
    ensures |ended| == |lines|
  {
    if lines == [] then [] else [lines[0] + "\n"] + Ended(lines[1..])
  }

  lemma {:induction false} LineEndOf(line: string, rest: string)
    requires OneLine(line)
    ensures LineEnd(line + "\n" + rest) == |line|
  {
    var text := line + "\n" + rest;
    if line != "" {
      assert text[1..] == line[1..] + "\n" + rest;
      LineEndOf(line[1..], rest);
    }
  }

  lemma {:induction false} LinesOfText(lines: seq<string>)
    requires forall i | 0 <= i < |lines| :: OneLine(lines[i])
    ensures Lines(Text(lines)) == Ended(lines)
  {
    if lines != [] {
      var rest := Text(lines[1..]);
      LineEndOf(lines[0], rest);
      assert Text(lines)[..|lines[0]|] == lines[0] && Text(lines)[|lines[0]| + 1..] == rest;
      LinesOfText(lines[1..]);
    }
  }

  // ---- Printing ----

  predicate NameChar(c: char) { 'a' <= c <= 'z' || 'A' <= c <= 'Z' || '0' <= c <= '9' || c == '_' }

  // Field names: identifiers other than the two words that open the file.
  predicate FieldName(key: string) {
    key != "" && (forall i | 0 <= i < |key| :: NameChar(key[i])) && key != "version" && key != "exceptions"
  }

  // How a value is written: as it is, in single or in double quotation marks.
  datatype Style = Bare | Single | Double

  // Name, value and style.
  type Printed = (string, string, Style)

  // A record to print: fields in sequence; a later field of one name replaces an earlier one.
  type Fields = seq<Printed>

  // A value can be written as it is unless it is empty, has white space at an end, or looks quoted.
  predicate Writable(value: string, style: Style) {
    OneLine(value) && (style.Bare? ==> value != "" && Trimmed(value) && !Quoted(value, '"') && !Quoted(value, '\''))
  }

  predicate Printable(fields: Fields) {
    fields != [] && forall i | 0 <= i < |fields| :: FieldName(fields[i].0) && Writable(fields[i].1, fields[i].2)
  }

  function RecordOf(fields: Fields): Record {
    if fields == [] then map[]
    else RecordOf(fields[..|fields| - 1])[fields[|fields| - 1].0 := fields[|fields| - 1].1]
  }

  function Styled(value: string, style: Style): string {
    match style
    case Bare => value
    case Single => "'" + value + "'"
    case Double => "\"" + value + "\""
  }

  function PrintField(field: Printed): string { field.0 + ": " + Styled(field.1, field.2) }

  function PrintRest(fields: Fields): seq<string> {
    if fields == [] then [] else PrintRest(fields[..|fields| - 1]) + ["    " + PrintField(fields[|fields| - 1])]
  }

  function PrintRecord(fields: Fields): seq<string>
    requires fields != []
  {
    ["  - " + PrintField(fields[0])] + PrintRest(fields[1..])
  }

  predicate NoneEmpty(records: seq<Fields>) { forall i | 0 <= i < |records| :: records[i] != [] }

  function PrintRecords(records: seq<Fields>): seq<string>
    requires NoneEmpty(records)
  {
    if records == [] then [] else PrintRecord(records[0]) + PrintRecords(records[1..])
  }

  const HEADER: seq<string> := ["version: 1", "exceptions:"]

  function Print(records: seq<Fields>): string
    requires NoneEmpty(records)
  {
    Text(HEADER + PrintRecords(records))
  }

  function Records(records: seq<Fields>): (rs: seq<Record>)
    ensures |rs| == |records|
  {
    if records == [] then [] else [RecordOf(records[0])] + Records(records[1..])
  }

  // ---- One field ----

  lemma {:induction false} FirstIndex(s: string, c: char, i: nat)
    requires i < |s| && s[i] == c && c !in s[..i]
    ensures IndexOf(s, c) == i
  {
  }

  lemma NoColon(key: string)
    requires FieldName(key)
    ensures ':' !in key && Trimmed(key)
  {
  }

  lemma StripsToItself(s: string)
    requires s != "" && Trimmed(s)
    ensures Strip(s) == s
  {
  }

  // An unquoted value is read as it is.
  lemma BareBack(value: string)
    requires value != "" && Trimmed(value) && !Quoted(value, '"') && !Quoted(value, '\'')
    ensures Strip(" " + value) == value && Unquote(value) == value
  {
    StripCore(" ", value, "");
    assert " " + value + "" == " " + value;
  }

  // Of a quoted one, in either kind of quotation marks, the inside is read.
  lemma QuotedBack(value: string, quote: char)
    requires quote == '"' || quote == '\''
    ensures var quoted := [quote] + value + [quote];
      Strip(" " + quoted) == quoted && Trimmed(quoted) && Unquote(quoted) == value
  {
    var quoted := [quote] + value + [quote];
    assert quoted[0] == quote && quoted[|quoted| - 1] == quote && quoted[1..|quoted| - 1] == value;
    StripCore(" ", quoted, "");
    assert " " + quoted + "" == " " + quoted;
  }

  lemma StyledBack(value: string, style: Style)
    requires Writable(value, style)
    ensures var styled := Styled(value, style);
      Strip(" " + styled) == styled && styled != "" && Trimmed(styled) && Unquote(styled) == value
  {
    match style {
      case Bare => BareBack(value);
      case Single => QuotedBack(value, '\'');
      case Double => QuotedBack(value, '"');
    }
  }

  // Key and value are what stands before and after the first colon, without white space around it.
  lemma SplitsAtColon(key: string, rest: string)
    requires ':' !in key
    ensures SplitKV(key + ":" + rest) == Some((Strip(key), Unquote(Strip(rest))))
  {
    hide Strip, Unquote, IndexOf;
    var line := key + ":" + rest;
    assert line[..|key|] == key && line[|key|] == ':' && line[|key| + 1..] == rest;
    FirstIndex(line, ':', |key|);
  }

  // An unquoted value splits back as it is.
  lemma PlainSplits(key: string, value: string)
    requires ':' !in key && key != "" && Trimmed(key)
    requires value != "" && Trimmed(value) && !Quoted(value, '"') && !Quoted(value, '\'')
    ensures SplitKV(key + ": " + value) == Some((key, value))
  {
    hide Strip, Unquote, Trimmed, IndexOf, Quoted, SplitKV;
    assert key + ": " + value == key + ":" + (" " + value);
    SplitsAtColon(key, " " + value);
    StripsToItself(key);
    BareBack(value);
  }

  // A quoted one splits back without its quotation marks, whatever it holds.
  lemma QuotedSplits(key: string, value: string, quote: char)
    requires ':' !in key && key != "" && Trimmed(key) && (quote == '"' || quote == '\'')
    ensures SplitKV(key + ": " + [quote] + value + [quote]) == Some((key, value))
  {
    hide Strip, Unquote, Trimmed, IndexOf, SplitKV;
    var quoted := [quote] + value + [quote];
    assert key + ": " + [quote] + value + [quote] == key + ":" + (" " + quoted);
    SplitsAtColon(key, " " + quoted);
    StripsToItself(key);
    QuotedBack(value, quote);
  }

  // A lone quotation mark is both ends of an empty value.
  lemma LoneMarkSplits(key: string, quote: char)
    requires ':' !in key && key != "" && Trimmed(key) && (quote == '"' || quote == '\'')
    ensures SplitKV(key + ": " + [quote]) == Some((key, ""))
  {
    hide IndexOf, SplitKV;
    assert key + ": " + [quote] == key + ":" + (" " + [quote]);
    SplitsAtColon(key, " " + [quote]);
    StripsToItself(key);
    StripCore(" ", [quote], "");
    assert " " + [quote] + "" == " " + [quote];
  }

  // Whatever the value holds - colons, hashes, quotation marks - the printed field splits back.
  lemma FieldSplits(field: Printed)
    requires FieldName(field.0) && Writable(field.1, field.2)
    ensures SplitKV(PrintField(field)) == Some((field.0, field.1))
  {
    hide Strip, Unquote, Trimmed, FieldName, IndexOf, SplitKV, Writable, Styled;
    var key, styled := field.0, Styled(field.1, field.2);
    NoColon(key);
    NameNotEmpty(key);
    assert PrintField(field) == key + ":" + (" " + styled);
    SplitsAtColon(key, " " + styled);
    StripsToItself(key);
    StyledBack(field.1, field.2);
  }

  lemma NameNotEmpty(key: string)
    requires FieldName(key)
    ensures key != "" && key != "version" && key != "exceptions" && NameChar(key[0])
  {
  }

  // The printed field is an ordinary line.
  lemma FieldLine(field: Printed)
    requires FieldName(field.0) && Writable(field.1, field.2)
    ensures var line := PrintField(field);
      && line != "" && Trimmed(line) && ':' in line && !Skipped(line) && !StartsWith(line, "- ")
  {
    hide FieldName, IndexOf, Writable, Styled, Unquote;
    var line, key, styled := PrintField(field), field.0, Styled(field.1, field.2);
    NameNotEmpty(key);
    NoColon(key);
    StyledBack(field.1, field.2);
    assert line[0] == key[0] && line[|line| - 1] == styled[|styled| - 1];
    assert line[|key|] == ':' && line[..|key|] == key;
    FirstIndex(line, ':', |key|);
    assert "version:" == "version" + ":" && "exceptions:" == "exceptions" + ":";
    if StartsWith(line, "version:") {
      HeaderDecides(line, key, "version");
    }
    if StartsWith(line, "exceptions:") {
      HeaderDecides(line, key, "exceptions");
    }
  }

  // The text before the first colon is determined by the line.
  lemma HeaderDecides(line: string, key: string, word: string)
    requires IndexOf(line, ':') == |key| < |line| && line[..|key|] == key && ':' !in word
    requires StartsWith(line, word + ":")
    ensures key == word
  {
    hide IndexOf;
    var header := word + ":";
    assert header[|word|] == ':' && header[..|word|] == word && line[..|header|] == header;
    assert line[..|word|] == line[..|header|][..|word|] && line[|word|] == header[|word|];
    FirstIndex(line, ':', |word|);
  }

  lemma StepField(st: State, field: Printed)
    requires FieldName(field.0) && Writable(field.1, field.2) && st.current.Some?
    ensures Step(st, "    " + PrintField(field) + "\n")
         == Some(st.(current := Some(st.current.value[field.0 := field.1])))
  {
    FieldLine(field);
    FieldSplits(field);
    hide SplitKV, PrintField;
    StripCore("    ", PrintField(field), "\n");
  }

  lemma StepItem(st: State, field: Printed)
    requires FieldName(field.0) && Writable(field.1, field.2)
    ensures Step(st, "  - " + PrintField(field) + "\n") == Some(State(Closed(st), Some(map[field.0 := field.1])))
  {
    hide SplitKV, PrintField, Closed, Skipped, FieldName, Strip;
    var line := PrintField(field);
    FieldLine(field);
    FieldSplits(field);
    var item := "- " + line;
    assert item[2..] == line && item[..2] == "- ";
    ItemLine(line);
    StripsToItself(line);
  }

  lemma ItemLine(line: string)
    requires line != "" && Trimmed(line)
    ensures Strip("  - " + line + "\n") == "- " + line && !Skipped("- " + line)
  {
    var item := "- " + line;
    assert item[0] == '-' && item[|item| - 1] == line[|line| - 1];
    assert "  - " + line + "\n" == "  " + item + "\n";
    StripCore("  ", item, "\n");
  }

  // ---- One record ----

  lemma {:induction false} FeedRest(st: State, first: Printed, rest: Fields)
    requires Printable([first] + rest) && st.current == Some(map[first.0 := first.1])
    ensures Feed(st, Ended(PrintRest(rest))) == Some(st.(current := Some(RecordOf([first] + rest))))
    decreases |rest|
  {
    if rest == [] {
      assert [first] + rest == [first];
      assert RecordOf([first]) == map[][first.0 := first.1];
    } else {
      var front, last := rest[..|rest| - 1], rest[|rest| - 1];
      var all := [first] + rest;
      assert all[..|all| - 1] == [first] + front && all[|all| - 1] == last;
      assert forall i | 0 <= i < |front| + 1 :: ([first] + front)[i] == all[i];
      FeedRest(st, first, front);
      EndedAppend(PrintRest(front), ["    " + PrintField(last)]);
      var line := "    " + PrintField(last) + "\n";
      assert Ended(["    " + PrintField(last)]) == [line];
      FeedAppend(st, Ended(PrintRest(front)), [line]);
      var mid := st.(current := Some(RecordOf([first] + front)));
      StepField(mid, last);
      assert Feed(mid, [line]) == Feed(Step(mid, line).value, [line][1..]);
    }
  }

  lemma {:induction false} EndedAppend(a: seq<string>, b: seq<string>)
    ensures Ended(a + b) == Ended(a) + Ended(b)
  {
    if a == [] {
      assert a + b == b;
    } else {
      assert (a + b)[1..] == a[1..] + b;
      EndedAppend(a[1..], b);
    }
  }

  // The printed record, whatever came before it.
  lemma FeedRecord(st: State, fields: Fields)
    requires Printable(fields)
    ensures Feed(st, Ended(PrintRecord(fields))) == Some(State(Closed(st), Some(RecordOf(fields))))
  {
    var first, rest := fields[0], fields[1..];
    assert fields == [first] + rest;
    var line := "  - " + PrintField(first) + "\n";
    StepItem(st, first);
    assert Ended(PrintRecord(fields)) == [line] + Ended(PrintRest(rest)) by {
      EndedAppend(["  - " + PrintField(first)], PrintRest(rest));
      assert Ended(["  - " + PrintField(first)]) == [line];
    }
    FeedRest(State(Closed(st), Some(map[first.0 := first.1])), first, rest);
  }

  lemma {:induction false} RecordNotEmpty(fields: Fields)
    requires fields != []
    ensures RecordOf(fields) != map[]
  {
    assert fields[|fields| - 1].0 in RecordOf(fields);
  }

  // ---- The whole list ----

  lemma {:induction false} FeedRecords(st: State, records: seq<Fields>)
    requires NoneEmpty(records) && forall i | 0 <= i < |records| :: Printable(records[i])
    ensures var end := Feed(st, Ended(PrintRecords(records)));
      end.Some? && Closed(end.value) == Closed(st) + Records(records)
    decreases |records|
  {
    hide Closed, Feed, PrintRecord, RecordOf, Printable, Ended;
    if records == [] {
      NothingFed(st);
      assert Closed(st) + [] == Closed(st);
    } else {
      var next := State(Closed(st), Some(RecordOf(records[0])));
      FeedRecord(st, records[0]);
      RecordNotEmpty(records[0]);
      var first, rest := Ended(PrintRecord(records[0])), Ended(PrintRecords(records[1..]));
      EndedAppend(PrintRecord(records[0]), PrintRecords(records[1..]));
      assert Ended(PrintRecords(records)) == first + rest;
      FeedAppend(st, first, rest);
      FeedRecords(next, records[1..]);
      ClosedOne(Closed(st), RecordOf(records[0]));
      assert Closed(st) + [RecordOf(records[0])] + Records(records[1..]) == Closed(st) + Records(records);
    }
  }

  lemma NothingFed(st: State)
    ensures Feed(st, []) == Some(st)
  {
  }

  lemma ClosedOne(done: seq<Record>, r: Record)
    requires r != map[]
    ensures Closed(State(done, Some(r))) == done + [r]
  {
  }

  lemma HeaderSkipped(st: State)
    ensures Feed(st, Ended(HEADER)) == Some(st) && forall i | 0 <= i < |HEADER| :: OneLine(HEADER[i])
  {
    hide Step, Strip, Skipped, StartsWith, OneLine, Ended;
    HeaderLines();
    HeaderLine(st, "version: 1");
    HeaderLine(st, "exceptions:");
    var lines := Ended(HEADER);
    assert lines[1..] == ["exceptions:" + "\n"] && lines[1..][1..] == [];
    assert Feed(st, lines[1..][1..]) == Some(st);
    assert Feed(st, lines[1..]) == Some(st);
  }

  lemma HeaderLines()
    ensures Ended(HEADER) == ["version: 1" + "\n", "exceptions:" + "\n"]
    ensures forall i | 0 <= i < |HEADER| :: OneLine(HEADER[i])
  {
    var header := HEADER;
    assert header[1..] == ["exceptions:"] && ["exceptions:"][1..] == [];
    assert Ended(["exceptions:"]) == ["exceptions:" + "\n"];
  }

  lemma HeaderLine(st: State, line: string)
    requires line == "version: 1" || line == "exceptions:"
    ensures Step(st, line + "\n") == Some(st)
  {
    assert "" + line + "\n" == line + "\n";
    StripCore("", line, "\n");
    assert "version: 1"[..8] == "version:";
  }

  lemma FieldOneLine(field: Printed)
    requires FieldName(field.0) && Writable(field.1, field.2)
    ensures OneLine("  - " + PrintField(field)) && OneLine("    " + PrintField(field))
  {
    assert OneLine(PrintField(field)) by {
      assert OneLine(field.0) by {
        hide Writable;
      }
      StyledOneLine(field.1, field.2);
      hide FieldName, Writable, Styled, OneLine;
      Together(field.0, ": ");
      Together(field.0 + ": ", Styled(field.1, field.2));
    }
    hide PrintField, FieldName, Writable, OneLine;
    Together("  - ", PrintField(field));
    Together("    ", PrintField(field));
  }

  lemma StyledOneLine(value: string, style: Style)
    requires Writable(value, style)
    ensures OneLine(Styled(value, style))
  {
    hide Trimmed, Quoted;
  }

  lemma Together(a: string, b: string)
    ensures OneLine(a + b) <==> OneLine(a) && OneLine(b)
  {
    assert forall i | 0 <= i < |a| :: (a + b)[i] == a[i];
    assert forall i | 0 <= i < |b| :: (a + b)[|a| + i] == b[i];
  }

  lemma {:induction false} RestOneLine(fields: Fields)
    requires forall i | 0 <= i < |fields| :: FieldName(fields[i].0) && Writable(fields[i].1, fields[i].2)
    ensures forall i | 0 <= i < |PrintRest(fields)| :: OneLine(PrintRest(fields)[i])
  {
    hide OneLine, FieldName, PrintField;
    if fields != [] {
      RestOneLine(fields[..|fields| - 1]);
      FieldOneLine(fields[|fields| - 1]);
    }
  }

  lemma {:induction false} PrintedOneLine(records: seq<Fields>)
    requires NoneEmpty(records) && forall i | 0 <= i < |records| :: Printable(records[i])
    ensures forall i | 0 <= i < |PrintRecords(records)| :: OneLine(PrintRecords(records)[i])
  {
    hide OneLine, FieldName, PrintField;
    if records != [] {
      var fields := records[0];
      assert Printable(fields);
      FieldOneLine(fields[0]);
      RestOneLine(fields[1..]);
      PrintedOneLine(records[1..]);
    }
  }

  lemma NothingClosed()
    ensures Closed(State([], None)) == []
  {
  }

  // Printing any list of records and parsing the text returns the list.
  lemma PrintThenParse(records: seq<Fields>)
    requires NoneEmpty(records) && forall i | 0 <= i < |records| :: Printable(records[i])
    ensures ParseLines(Lines(Print(records))) == Some(Records(records))
  {
    hide Feed, Closed, Ended, PrintRecords, Lines, Text, Records, Printable, OneLine, HEADER;
    var header, items := HEADER, PrintRecords(records);
    PrintedOneLine(records);
    var start := State([], None);
    HeaderSkipped(start);
    LinesOfText(header + items);
    EndedAppend(header, items);
    FeedAppend(start, Ended(header), Ended(items));
    FeedRecords(start, records);
    NothingClosed();
    assert [] + Records(records) == Records(records);
  }
}
