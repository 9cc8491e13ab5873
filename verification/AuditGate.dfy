// The gate: every high or critical finding needs an accepted, current exception.
module AuditGate {
  import opened Wrappers
  import opened DecodedJson
  import opened AuditFindings
  import opened ExceptionParser

  // Library functions of the script's run: str.lower, str, date.fromisoformat and date.today; days are numbered.
  datatype Env = Env(lower: string -> string, show: Show, fromIso: string -> Option<int>, today: int)

  datatype Field = Package | Advisory | Severity | Mitigation | ExpiresOn

  const REQUIRED: set<Field> := {Package, Advisory, Severity, Mitigation, ExpiresOn}

  function NameOf(f: Field): string {
    match f
    case Package => "package"
    case Advisory => "advisory"
    case Severity => "severity"
    case Mitigation => "mitigation"
    case ExpiresOn => "expires_on"
  }

  // One line of the error output.
  datatype Message =
    | MissingFields(fields: set<Field>, package: string)
    | InvalidDate(package: string)
    | BlankKey
    | Duplicate(package: string, id: string)
    | NoAdvisory(name: Value, severity: string)
    | SeverityMismatch(name: Value, advisory: Value, expected: string, got: string)
    | MissingHeader
    | MissingException(finding: Finding, severity: string)
    | ExpiredHeader
    | ExpiredException(finding: Finding, severity: string, expires: int)

  type Key = (string, string)

  datatype Entry = Entry(raw: Record, severity: string, expires: int)

  // ---- Normalizers ----

  // None is the error of a value that has content but is no string.
  function NormalizeSeverity(env: Env, v: Value): Option<string> {
    if !Truthy(v) then Some(env.lower(""))
    else if v.Str? then Some(env.lower(Strip(v.s)))
    else None
  }

  function NormalizePackage(env: Env, v: Value): string { if v.Null? then "" else Strip(Shown(env.show, v)) }

  function NormalizeAdvisory(env: Env, v: Value): string {
    if v.Null? then "" else env.lower(Strip(Shown(env.show, v)))
  }

  // ---- Exceptions ----

  function FieldOf(exc: Record, f: Field): string { if NameOf(f) in exc then exc[NameOf(f)] else "" }

  function MissingIn(exc: Record): set<Field> { set f | f in REQUIRED && FieldOf(exc, f) == "" }

  function KeyOf(env: Env, exc: Record): Key {
    (Strip(FieldOf(exc, Package)), env.lower(Strip(FieldOf(exc, Advisory))))
  }

  function PackageShown(exc: Record): string { if "package" in exc then exc["package"] else "<unknown>" }

  // What is wrong with an exception by itself, in the order of the checks.
  function Defect(env: Env, exc: Record): Option<Message> {
    if MissingIn(exc) != {} then Some(MissingFields(MissingIn(exc), PackageShown(exc)))
    else if env.fromIso(FieldOf(exc, ExpiresOn)).None? then Some(InvalidDate(PackageShown(exc)))
    else if KeyOf(env, exc).0 == "" || KeyOf(env, exc).1 == "" then Some(BlankKey)
    else None
  }

  function EntryOf(env: Env, exc: Record): Entry
    requires Defect(env, exc).None?
  {
    Entry(exc, env.lower(Strip(FieldOf(exc, Severity))), env.fromIso(FieldOf(exc, ExpiresOn)).value)
  }

  datatype Indexed = Indexed(index: map<Key, Entry>, errors: seq<Message>)

  function Index(env: Env, exceptions: seq<Record>): Indexed {
    if exceptions == [] then Indexed(map[], [])
    else
      var before, exc := Index(env, exceptions[..|exceptions| - 1]), exceptions[|exceptions| - 1];
      var defect, key := Defect(env, exc), KeyOf(env, exc);
      if defect.Some? then before.(errors := before.errors + [defect.value])
      else if key in before.index then
        before.(errors := before.errors + [Duplicate(key.0, FieldOf(exc, Advisory))])
      else before.(index := before.index[key := EntryOf(env, exc)])
  }

  lemma Complete(exc: Record)
    requires MissingIn(exc) == {}
    ensures "package" in exc && FieldOf(exc, Package) == exc["package"] != ""
    ensures "advisory" in exc && FieldOf(exc, Advisory) == exc["advisory"] != ""
    ensures "severity" in exc && FieldOf(exc, Severity) == exc["severity"] != ""
    ensures "expires_on" in exc && FieldOf(exc, ExpiresOn) == exc["expires_on"] != ""
  {
    assert NameOf(Package) == "package" && NameOf(Advisory) == "advisory";
    assert NameOf(Severity) == "severity" && NameOf(ExpiresOn) == "expires_on";
    forall f ensures FieldOf(exc, f) != "" {
      match f { case Package => case Advisory => case Severity => case Mitigation => case ExpiresOn => }
      assert f in REQUIRED;
      assert f !in MissingIn(exc);
    }
    assert FieldOf(exc, Package) != "" && FieldOf(exc, Advisory) != "";
    assert FieldOf(exc, Severity) != "" && FieldOf(exc, ExpiresOn) != "";
  }

  method IndexExceptions(env: Env, exceptions: seq<Record>) returns (index: map<Key, Entry>, errors: seq<Message>)
    ensures Indexed(index, errors) == Index(env, exceptions)
  {
    hide Strip, FieldOf, NameOf;
    index, errors := map[], [];
    for i := 0 to |exceptions|
      invariant Indexed(index, errors) == Index(env, exceptions[..i])
    {
      assert exceptions[..i + 1][..i] == exceptions[..i];
      var exc := exceptions[i];
      var missing := set f | f in REQUIRED && FieldOf(exc, f) == "";
      if missing != {} {
        errors := errors + [MissingFields(missing, PackageShown(exc))];
        continue;
      }
      Complete(exc);
      var severity := NormalizeSeverity(env, Str(exc["severity"])).value;
      var package := NormalizePackage(env, Str(exc["package"]));
      var advisory := NormalizeAdvisory(env, Str(exc["advisory"]));
      var expires := env.fromIso(exc["expires_on"]);
      if expires.None? {
        errors := errors + [InvalidDate(PackageShown(exc))];
        continue;
      }
      if package == "" || advisory == "" {
        errors := errors + [BlankKey];
        continue;
      }
      var key := (package, advisory);
      if key in index {
        errors := errors + [Duplicate(package, exc["advisory"])];
        continue;
      }
      index := index[key := Entry(exc, severity, expires.value)];
    }
    assert exceptions[..|exceptions|] == exceptions;
  }

  // ---- The scan ----

  datatype Scanned = Scanned(
    seen: set<Key>, errors: seq<Message>, missing: seq<(Finding, string)>, expired: seq<(Finding, string, int)>)

  function KeyOfFinding(env: Env, f: Finding): Key {
    (NormalizePackage(env, f.name), NormalizeAdvisory(env, f.advisory))
  }

  predicate High(severity: string) { severity == "high" || severity == "critical" }

  predicate HasSeverity(env: Env, f: Finding) { NormalizeSeverity(env, f.severity).Some? }

  function SeverityOf(env: Env, f: Finding): string
    requires HasSeverity(env, f)
  {
    NormalizeSeverity(env, f.severity).value
  }

  // The findings the gate looks at.
  predicate Concerns(env: Env, f: Finding)
    requires HasSeverity(env, f)
  {
    High(SeverityOf(env, f)) && Truthy(f.name)
  }

  predicate Mismatched(entry: Entry, severity: string) { entry.severity != "" && entry.severity != severity }

  function Mismatch(env: Env, f: Finding, entry: Entry): Message
    requires HasSeverity(env, f)
  {
    SeverityMismatch(f.name, f.advisory, SeverityOf(env, f), entry.severity)
  }

  function ScanStep(env: Env, index: map<Key, Entry>, s: Scanned, f: Finding): Scanned
    requires HasSeverity(env, f)
  {
    var sev, key := SeverityOf(env, f), KeyOfFinding(env, f);
    if !Concerns(env, f) then s
    else if key.1 == "" then s.(errors := s.errors + [NoAdvisory(f.name, sev)])
    else if key in s.seen then s
    else if key !in index then s.(seen := s.seen + {key}, missing := s.missing + [(f, sev)])
    else
      var entry := index[key];
      Scanned(
        s.seen + {key},
        if Mismatched(entry, sev) then s.errors + [Mismatch(env, f, entry)] else s.errors,
        s.missing,
        if entry.expires < env.today then s.expired + [(f, sev, entry.expires)] else s.expired)
  }

  predicate Severe(env: Env, findings: seq<Finding>) {
    forall i | 0 <= i < |findings| :: HasSeverity(env, findings[i])
  }

  function Scan(env: Env, index: map<Key, Entry>, findings: seq<Finding>): Scanned
    requires Severe(env, findings)
  {
    if findings == [] then Scanned({}, [], [], [])
    else
      ScanStep(env, index, Scan(env, index, findings[..|findings| - 1]), findings[|findings| - 1])
  }

  // None is the error of a severity that is no string.
  method ScanFindings(env: Env, index: map<Key, Entry>, findings: seq<Finding>) returns (scan: Option<Scanned>)
    ensures scan.Some? <==> Severe(env, findings)
    ensures scan.Some? ==> scan.value == Scan(env, index, findings)
  {
    var seen: set<Key>, errors: seq<Message> := {}, [];
    var missing: seq<(Finding, string)>, expired: seq<(Finding, string, int)> := [], [];
    for i := 0 to |findings|
      invariant Severe(env, findings[..i])
      invariant Scanned(seen, errors, missing, expired) == Scan(env, index, findings[..i])
    {
      assert findings[..i + 1][..i] == findings[..i];
      var f := findings[i];
      var severity := NormalizeSeverity(env, f.severity);
      if severity.None? {
        return None;
      }
      assert Severe(env, findings[..i + 1]);
      var sev := severity.value;
      if !(sev == "high" || sev == "critical") || !Truthy(f.name) {
        continue;
      }
      var advisory := NormalizeAdvisory(env, f.advisory);
      if advisory == "" {
        errors := errors + [NoAdvisory(f.name, sev)];
        continue;
      }
      var key := (NormalizePackage(env, f.name), advisory);
      if key in seen {
        continue;
      }
      seen := seen + {key};
      if key !in index {
        missing := missing + [(f, sev)];
        continue;
      }
      var entry := index[key];
      if entry.severity != "" && entry.severity != sev {
        errors := errors + [SeverityMismatch(f.name, f.advisory, sev, entry.severity)];
      }
      if entry.expires < env.today {
        expired := expired + [(f, sev, entry.expires)];
      }
    }
    assert findings[..|findings|] == findings;
    return Some(Scanned(seen, errors, missing, expired));
  }

  // ---- The verdict ----

  // Crashed is an exception that leaves the script.
  datatype Verdict = Crashed | Exit(code: int, errors: seq<Message>)

  function MissingItems(missing: seq<(Finding, string)>): seq<Message> {
    seq(|missing|, i requires 0 <= i < |missing| => MissingException(missing[i].0, missing[i].1))
  }

  function MissingLines(missing: seq<(Finding, string)>): seq<Message> {
    if missing == [] then [] else [MissingHeader] + MissingItems(missing)
  }

  function ExpiredItems(expired: seq<(Finding, string, int)>): seq<Message> {
    seq(|expired|, i requires 0 <= i < |expired| => ExpiredException(expired[i].0, expired[i].1, expired[i].2))
  }

  function ExpiredLines(expired: seq<(Finding, string, int)>): seq<Message> {
    if expired == [] then [] else [ExpiredHeader] + ExpiredItems(expired)
  }

  predicate Runs(env: Env, audit: Value, lines: seq<string>) {
    && ParseLines(lines).Some?
    && Findings(env.show, audit).Some?
    && Severe(env, Findings(env.show, audit).value)
  }

  function VerdictOf(env: Env, audit: Value, lines: seq<string>): Verdict {
    if !Runs(env, audit, lines) then Crashed
    else
      var indexed := Index(env, ParseLines(lines).value);
      var s := Scan(env, indexed.index, Findings(env.show, audit).value);
      var errors := indexed.errors + s.errors + MissingLines(s.missing) + ExpiredLines(s.expired);
      Exit(if errors == [] then 0 else 1, errors)
  }

  method ReportMissing(before: seq<Message>, missing: seq<(Finding, string)>) returns (errors: seq<Message>)
    ensures errors == before + MissingLines(missing)
  {
    errors := before;
    if missing != [] {
      errors := errors + [MissingHeader];
      for i := 0 to |missing|
        invariant errors == before + [MissingHeader] + MissingItems(missing[..i])
      {
        errors := errors + [MissingException(missing[i].0, missing[i].1)];
      }
      assert missing[..|missing|] == missing;
    }
  }

  method ReportExpired(before: seq<Message>, expired: seq<(Finding, string, int)>) returns (errors: seq<Message>)
    ensures errors == before + ExpiredLines(expired)
  {
    errors := before;
    if expired != [] {
      errors := errors + [ExpiredHeader];
      for i := 0 to |expired|
        invariant errors == before + [ExpiredHeader] + ExpiredItems(expired[..i])
      {
        errors := errors + [ExpiredException(expired[i].0, expired[i].1, expired[i].2)];
      }
      assert expired[..|expired|] == expired;
    }
  }

  // From the decoded report and the lines of the list of exceptions.
  method Run(env: Env, audit: Value, lines: seq<string>) returns (verdict: Verdict)
    ensures verdict == VerdictOf(env, audit, lines)
  {
    var exceptions := ParseExceptions(lines);
    if exceptions.None? {
      return Crashed;
    }
    var index, errors := IndexExceptions(env, exceptions.value);
    var findings := IterVulns(env.show, audit);
    if findings.None? {
      return Crashed;
    }
    var scan := ScanFindings(env, index, findings.value);
    if scan.None? {
      return Crashed;
    }
    var s := scan.value;
    errors := ReportMissing(errors + s.errors, s.missing);
    errors := ReportExpired(errors, s.expired);
    return Exit(if errors != [] then 1 else 0, errors);
  }
}
