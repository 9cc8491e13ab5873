// The error lines of the audit gate, exception by exception and finding by finding.
module AuditReports {
  import opened Wrappers
  import opened DecodedJson
  import opened AuditFindings
  import opened ExceptionParser
  import opened AuditGate
  import opened AuditGuarantees

  // ---- One exception ----

  function TextOf(exc: Record, name: string): string { if name in exc then exc[name] else "" }

  function Lacking(exc: Record): set<Field> {
    (if TextOf(exc, "package") == "" then {Package} else {})
    + (if TextOf(exc, "advisory") == "" then {Advisory} else {})
    + (if TextOf(exc, "severity") == "" then {Severity} else {})
    + (if TextOf(exc, "mitigation") == "" then {Mitigation} else {})
    + (if TextOf(exc, "expires_on") == "" then {ExpiresOn} else {})
  }

  function Titled(exc: Record): string { if "package" in exc then exc["package"] else "<unknown>" }

  function ExceptionKey(env: Env, exc: Record): Key {
    (Strip(TextOf(exc, "package")), env.lower(Strip(TextOf(exc, "advisory"))))
  }

  predicate Good(env: Env, exc: Record) {
    && Lacking(exc) == {} && env.fromIso(TextOf(exc, "expires_on")).Some?
    && ExceptionKey(env, exc).0 != "" && ExceptionKey(env, exc).1 != ""
  }

  // The line printed for the exception at `i`, if any.
  function ExceptionLine(env: Env, exceptions: seq<Record>, i: nat): Option<Message>
    requires i < |exceptions|
  {
    var exc, key := exceptions[i], ExceptionKey(env, exceptions[i]);
    if Lacking(exc) != {} then Some(MissingFields(Lacking(exc), Titled(exc)))
    else if env.fromIso(TextOf(exc, "expires_on")).None? then Some(InvalidDate(Titled(exc)))
    else if key.0 == "" || key.1 == "" then Some(BlankKey)
    else if exists j | 0 <= j < i :: Good(env, exceptions[j]) && ExceptionKey(env, exceptions[j]) == key then
      Some(Duplicate(key.0, TextOf(exc, "advisory")))
    else None
  }

  function ExceptionLines(env: Env, exceptions: seq<Record>, n: nat): seq<Message>
    requires n <= |exceptions|
  {
    if n == 0 then []
    else
      var before, line := ExceptionLines(env, exceptions, n - 1), ExceptionLine(env, exceptions, n - 1);
      if line.Some? then before + [line.value] else before
  }

  // ---- One finding ----

  // None is a severity that has content but is no string.
  function SeverityIn(env: Env, f: Finding): Option<string> {
    if !Truthy(f.severity) then Some(env.lower(""))
    else if f.severity.Str? then Some(env.lower(Strip(f.severity.s)))
    else None
  }

  predicate AllSevere(env: Env, findings: seq<Finding>) {
    forall i | 0 <= i < |findings| :: SeverityIn(env, findings[i]).Some?
  }

  // Named, and high or critical.
  predicate Urgent(env: Env, f: Finding) {
    Truthy(f.name) && (SeverityIn(env, f) == Some("high") || SeverityIn(env, f) == Some("critical"))
  }

  function Label(env: Env, v: Value): string {
    if v.Null? then "" else Strip(if v.Str? then v.s else env.show(v))
  }

  function FindingKey(env: Env, f: Finding): Key {
    (Label(env, f.name), if f.advisory.Null? then "" else env.lower(Label(env, f.advisory)))
  }

  // The first urgent finding with its key.
  predicate Leading(env: Env, findings: seq<Finding>, i: nat)
    requires i < |findings|
  {
    && Urgent(env, findings[i]) && FindingKey(env, findings[i]).1 != ""
    && forall j | 0 <= j < i && Urgent(env, findings[j]) :: FindingKey(env, findings[j]) != FindingKey(env, findings[i])
  }

  // The first good exception with a key.
  function Match(env: Env, exceptions: seq<Record>, key: Key): Option<Record> {
    if exceptions == [] then None
    else if Good(env, exceptions[0]) && ExceptionKey(env, exceptions[0]) == key then Some(exceptions[0])
    else Match(env, exceptions[1..], key)
  }

  function FindingLine(env: Env, exceptions: seq<Record>, findings: seq<Finding>, i: nat): Option<Message>
    requires i < |findings|
  {
    var f := findings[i];
    var sev, exc := SeverityIn(env, f), Match(env, exceptions, FindingKey(env, f));
    if !Urgent(env, f) then None
    else if FindingKey(env, f).1 == "" then Some(NoAdvisory(f.name, sev.value))
    else if !Leading(env, findings, i) || exc.None? then None
    else
      var agreed := env.lower(Strip(TextOf(exc.value, "severity")));
      if agreed == "" || agreed == sev.value then None
      else Some(SeverityMismatch(f.name, f.advisory, sev.value, agreed))
  }

  function MissingLine(env: Env, exceptions: seq<Record>, findings: seq<Finding>, i: nat): Option<Message>
    requires i < |findings|
  {
    if Leading(env, findings, i) && Match(env, exceptions, FindingKey(env, findings[i])).None? then
      Some(MissingException(findings[i], SeverityIn(env, findings[i]).value))
    else None
  }

  function ExpiredLine(env: Env, exceptions: seq<Record>, findings: seq<Finding>, i: nat): Option<Message>
    requires i < |findings|
  {
    var exc := Match(env, exceptions, FindingKey(env, findings[i]));
    if Leading(env, findings, i) && exc.Some? then
      var expires := env.fromIso(TextOf(exc.value, "expires_on"));
      if expires.Some? && expires.value < env.today then
        Some(ExpiredException(findings[i], SeverityIn(env, findings[i]).value, expires.value))
      else None
    else None
  }

  datatype Kind = OfFinding | OfMissing | OfExpired

  function LineOf(kind: Kind, env: Env, exceptions: seq<Record>, findings: seq<Finding>, i: nat): Option<Message>
    requires i < |findings|
  {
    match kind
    case OfFinding => FindingLine(env, exceptions, findings, i)
    case OfMissing => MissingLine(env, exceptions, findings, i)
    case OfExpired => ExpiredLine(env, exceptions, findings, i)
  }

  function LinesOf(kind: Kind, env: Env, exceptions: seq<Record>, findings: seq<Finding>, n: nat): seq<Message>
    requires n <= |findings|
  {
    if n == 0 then []
    else
      var before := LinesOf(kind, env, exceptions, findings, n - 1);
      var line := LineOf(kind, env, exceptions, findings, n - 1);
      if line.Some? then before + [line.value] else before
  }

  // A heading and what is under it, if there is anything.
  function Block(heading: Message, lines: seq<Message>): seq<Message> { if lines == [] then [] else [heading] + lines }

  function AllLines(env: Env, exceptions: seq<Record>, findings: seq<Finding>): seq<Message> {
    var n := |findings|;
    ExceptionLines(env, exceptions, |exceptions|) + LinesOf(OfFinding, env, exceptions, findings, n)
    + Block(MissingHeader, LinesOf(OfMissing, env, exceptions, findings, n))
    + Block(ExpiredHeader, LinesOf(OfExpired, env, exceptions, findings, n))
  }

  // ---- The index ----

  lemma FieldsRead(exc: Record)
    ensures FieldOf(exc, Package) == TextOf(exc, "package") && FieldOf(exc, Advisory) == TextOf(exc, "advisory")
    ensures FieldOf(exc, Severity) == TextOf(exc, "severity") && FieldOf(exc, Mitigation) == TextOf(exc, "mitigation")
    ensures FieldOf(exc, ExpiresOn) == TextOf(exc, "expires_on")
    ensures MissingIn(exc) == Lacking(exc)
  {
    assert MissingIn(exc) == Lacking(exc) by {
      hide TextOf;
      forall f ensures f in MissingIn(exc) <==> f in Lacking(exc) {
        match f { case Package => case Advisory => case Severity => case Mitigation => case ExpiresOn => }
      }
    }
  }

  lemma GoodIsAcceptable(env: Env, exc: Record)
    ensures KeyOf(env, exc) == ExceptionKey(env, exc) && PackageShown(exc) == Titled(exc)
    ensures Acceptable(env, exc) <==> Good(env, exc)
    ensures Good(env, exc) ==>
      && Defect(env, exc).None?
      && EntryOf(env, exc)
         == Entry(exc, env.lower(Strip(TextOf(exc, "severity"))), env.fromIso(TextOf(exc, "expires_on")).value)
  {
    FieldsRead(exc);
    hide FieldOf, TextOf, Strip, MissingIn, Lacking;
    AcceptableExactly(env, exc);
  }

  lemma {:induction false} IndexLines(env: Env, exceptions: seq<Record>, n: nat)
    requires n <= |exceptions|
    ensures Index(env, exceptions[..n]).errors == ExceptionLines(env, exceptions, n)
  {
    if n > 0 {
      var before, exc := exceptions[..n - 1], exceptions[n - 1];
      assert exceptions[..n][..n - 1] == before;
      IndexLines(env, exceptions, n - 1);
      FieldsRead(exc);
      GoodIsAcceptable(env, exc);
      IndexContents(env, before);
      forall j | 0 <= j < n - 1
        ensures before[j] == exceptions[j] && KeyOf(env, before[j]) == ExceptionKey(env, exceptions[j])
        ensures Acceptable(env, before[j]) <==> Good(env, exceptions[j])
      {
        GoodIsAcceptable(env, before[j]);
      }
      hide FieldOf, TextOf, MissingIn, Lacking, Acceptable, Good, KeyOf, ExceptionKey, PackageShown, Titled, EntryOf;
    }
  }

  lemma {:induction false} MatchFirst(env: Env, exceptions: seq<Record>, key: Key) returns (i: nat)
    ensures var found := Match(env, exceptions, key);
      && (found.None? ==> forall j | 0 <= j < |exceptions| && Good(env, exceptions[j]) ::
            ExceptionKey(env, exceptions[j]) != key)
      && (found.Some? ==>
            && i < |exceptions| && found == Some(exceptions[i])
            && Good(env, exceptions[i]) && ExceptionKey(env, exceptions[i]) == key
            && forall j | 0 <= j < i && Good(env, exceptions[j]) :: ExceptionKey(env, exceptions[j]) != key)
  {
    hide Good, ExceptionKey;
    i := 0;
    if exceptions != [] && !(Good(env, exceptions[0]) && ExceptionKey(env, exceptions[0]) == key) {
      var rest := exceptions[1..];
      var k := MatchFirst(env, rest, key);
      assert forall j | 0 <= j < |rest| :: rest[j] == exceptions[j + 1];
      i := k + 1;
      forall j | 0 <= j < |exceptions| && Good(env, exceptions[j]) && (Match(env, rest, key).None? || j < i)
        ensures ExceptionKey(env, exceptions[j]) != key
      {
        if j > 0 {
          assert rest[j - 1] == exceptions[j];
        }
      }
    }
  }

  // The index holds for each key the exception that is matched.
  lemma MatchIsIndexed(env: Env, exceptions: seq<Record>, key: Key)
    ensures var index, found := Index(env, exceptions).index, Match(env, exceptions, key);
      && (key in index <==> found.Some?)
      && (found.Some? ==>
            && Good(env, found.value)
            && index[key] == Entry(found.value, env.lower(Strip(TextOf(found.value, "severity"))),
                                   env.fromIso(TextOf(found.value, "expires_on")).value))
  {
    hide Good, Acceptable, KeyOf, ExceptionKey, Index, Match, TextOf, Defect, Strip;
    IndexContents(env, exceptions);
    var i := MatchFirst(env, exceptions, key);
    forall j | 0 <= j < |exceptions|
      ensures Acceptable(env, exceptions[j]) <==> Good(env, exceptions[j])
      ensures KeyOf(env, exceptions[j]) == ExceptionKey(env, exceptions[j])
    {
      GoodIsAcceptable(env, exceptions[j]);
    }
    if Match(env, exceptions, key).Some? {
      assert Leads(env, exceptions, i);
      GoodIsAcceptable(env, exceptions[i]);
    }
  }

  // ---- The scan ----

  lemma FindingRead(env: Env, f: Finding)
    ensures NormalizeSeverity(env, f.severity) == SeverityIn(env, f) && KeyOfFinding(env, f) == FindingKey(env, f)
    ensures HasSeverity(env, f) ==>
      (Concerns(env, f) <==> Urgent(env, f)) && Some(SeverityOf(env, f)) == SeverityIn(env, f)
  {
    hide Strip;
  }

  lemma SevereRead(env: Env, findings: seq<Finding>)
    ensures Severe(env, findings) <==> AllSevere(env, findings)
  {
    forall i | 0 <= i < |findings| ensures HasSeverity(env, findings[i]) <==> SeverityIn(env, findings[i]).Some? {
      FindingRead(env, findings[i]);
    }
  }

  // A finding's key has been seen exactly if an urgent one before it has the key.
  lemma SeenBefore(env: Env, index: map<Key, Entry>, findings: seq<Finding>, n: nat)
    requires Severe(env, findings) && n < |findings| && Severe(env, findings[..n])
    ensures var seen, f := Scan(env, index, findings[..n]).seen, findings[n];
      Leading(env, findings, n) <==> Urgent(env, f) && FindingKey(env, f).1 != "" && FindingKey(env, f) !in seen
  {
    hide Urgent, FindingKey, Concerns, KeyOfFinding, HasSeverity, Scan, SeverityOf;
    var before := findings[..n];
    ReportedOnce(env, index, before);
    forall j | 0 <= j < |findings|
      ensures HasSeverity(env, findings[j]) && KeyOfFinding(env, findings[j]) == FindingKey(env, findings[j])
      ensures Concerns(env, findings[j]) <==> Urgent(env, findings[j])
    {
      FindingRead(env, findings[j]);
    }
    assert forall j | 0 <= j < n :: before[j] == findings[j];
    if FindingKey(env, findings[n]) in Keys(env, before) {
      var j :| 0 <= j < n && Keyed(env, before[j]) && KeyOfFinding(env, before[j]) == FindingKey(env, findings[n]);
      assert findings[j] == before[j];
    }
    forall j | 0 <= j < n && Urgent(env, findings[j]) && FindingKey(env, findings[j]) == FindingKey(env, findings[n])
      && FindingKey(env, findings[n]).1 != ""
      ensures FindingKey(env, findings[n]) in Keys(env, before)
    {
      assert before[j] == findings[j] && Keyed(env, before[j]);
    }
  }

  ghost predicate Reports(env: Env, exceptions: seq<Record>, findings: seq<Finding>, n: nat, s: Scanned)
    requires n <= |findings|
  {
    && s.errors == LinesOf(OfFinding, env, exceptions, findings, n)
    && MissingItems(s.missing) == LinesOf(OfMissing, env, exceptions, findings, n)
    && ExpiredItems(s.expired) == LinesOf(OfExpired, env, exceptions, findings, n)
  }

  lemma ItemsGrow(missing: seq<(Finding, string)>, m: (Finding, string), expired: seq<(Finding, string, int)>,
      e: (Finding, string, int))
    ensures MissingItems(missing + [m]) == MissingItems(missing) + [MissingException(m.0, m.1)]
    ensures ExpiredItems(expired + [e]) == ExpiredItems(expired) + [ExpiredException(e.0, e.1, e.2)]
  {
  }

  lemma ReportsStep(env: Env, exceptions: seq<Record>, findings: seq<Finding>, n: nat, s: Scanned)
    requires n < |findings| && HasSeverity(env, findings[n]) && Reports(env, exceptions, findings, n, s)
    requires var f := findings[n];
      Leading(env, findings, n) <==> Urgent(env, f) && FindingKey(env, f).1 != "" && FindingKey(env, f) !in s.seen
    ensures Reports(env, exceptions, findings, n + 1, ScanStep(env, Index(env, exceptions).index, s, findings[n]))
  {
    hide Strip, Index, Match, MissingItems, ExpiredItems, Urgent, FindingKey, KeyOfFinding, Concerns, HasSeverity,
      SeverityIn, SeverityOf, Leading, TextOf, Good, Acceptable;
    var f := findings[n];
    var key, sev := FindingKey(env, f), SeverityOf(env, f);
    FindingRead(env, f);
    MatchIsIndexed(env, exceptions, key);
    UrgentKeyed(env, findings, n);
    var found := Match(env, exceptions, key);
    var expires := if found.Some? then env.fromIso(TextOf(found.value, "expires_on")) else None;
    if found.Some? {
      GoodHasDate(env, found.value);
    }
    ItemsGrow(s.missing, (f, sev), s.expired, (f, sev, if expires.Some? then expires.value else 0));
  }

  lemma UrgentKeyed(env: Env, findings: seq<Finding>, n: nat)
    requires n < |findings|
    ensures Leading(env, findings, n) ==> Urgent(env, findings[n]) && FindingKey(env, findings[n]).1 != ""
  {
  }

  lemma GoodHasDate(env: Env, exc: Record)
    requires Good(env, exc)
    ensures env.fromIso(TextOf(exc, "expires_on")).Some?
  {
  }

  lemma {:induction false} ScanReports(env: Env, exceptions: seq<Record>, findings: seq<Finding>, n: nat)
    requires Severe(env, findings) && n <= |findings|
    ensures Severe(env, findings[..n])
    ensures Reports(env, exceptions, findings, n, Scan(env, Index(env, exceptions).index, findings[..n]))
  {
    hide HasSeverity, Index, ScanStep, Leading, Urgent, FindingKey, Reports;
    if n == 0 {
      NothingReported(env, exceptions, findings);
    } else {
      assert findings[..n][..n - 1] == findings[..n - 1];
      ScanReports(env, exceptions, findings, n - 1);
      SeenBefore(env, Index(env, exceptions).index, findings, n - 1);
      ReportsStep(env, exceptions, findings, n - 1, Scan(env, Index(env, exceptions).index, findings[..n - 1]));
    }
  }

  lemma NothingReported(env: Env, exceptions: seq<Record>, findings: seq<Finding>)
    ensures Reports(env, exceptions, findings, 0, Scanned({}, [], [], []))
  {
  }

  // ---- The verdict ----

  // If the list parses, the report can be read and every severity is a string or missing, the gate prints exactly these
  // lines and exits 1 if there are any; otherwise the script crashes.
  lemma GateReports(env: Env, audit: Value, lines: seq<string>)
    ensures var exceptions, findings := ParseLines(lines), Findings(env.show, audit);
      VerdictOf(env, audit, lines)
      == if exceptions.Some? && findings.Some? && AllSevere(env, findings.value) then
           var errors := AllLines(env, exceptions.value, findings.value);
           Exit(if errors == [] then 0 else 1, errors)
         else Crashed
  {
    hide ParseLines, Findings, Index, Scan, Severe, AllSevere, ExceptionLines, LinesOf, MissingItems, ExpiredItems;
    if ParseLines(lines).Some? && Findings(env.show, audit).Some? {
      var exceptions, findings := ParseLines(lines).value, Findings(env.show, audit).value;
      SevereRead(env, findings);
      if Severe(env, findings) {
        IndexLines(env, exceptions, |exceptions|);
        ScanReports(env, exceptions, findings, |findings|);
        assert exceptions[..|exceptions|] == exceptions && findings[..|findings|] == findings;
        ItemsEmpty(Scan(env, Index(env, exceptions).index, findings));
      }
    }
  }

  lemma ItemsEmpty(s: Scanned)
    ensures |MissingItems(s.missing)| == |s.missing| && |ExpiredItems(s.expired)| == |s.expired|
  {
  }

  // A finding of any other severity, or without a name, changes nothing.
  lemma {:induction false} OthersIgnored(env: Env, index: map<Key, Entry>, a: seq<Finding>, f: Finding, b: seq<Finding>)
    requires AllSevere(env, a + [f] + b) && !Urgent(env, f)
    ensures Severe(env, a + [f] + b) && Severe(env, a + b)
    ensures Scan(env, index, a + [f] + b) == Scan(env, index, a + b)
    decreases |b|
  {
    hide SeverityIn, Urgent, HasSeverity, AllSevere, ScanStep;
    var all, without := a + [f] + b, a + b;
    FindingsSevere(env, a, f, b);
    if b == [] {
      assert all == a + [f] && without == a && all[..|a|] == a;
      FindingRead(env, f);
      Unconcerned(env, index, Scan(env, index, a), f);
    } else {
      var front, last := b[..|b| - 1], b[|b| - 1];
      assert all[..|all| - 1] == a + [f] + front && without[..|without| - 1] == a + front;
      assert all[|all| - 1] == last && without[|without| - 1] == last;
      FrontSevere(env, a, f, b);
      OthersIgnored(env, index, a, f, front);
    }
  }

  lemma FindingsSevere(env: Env, a: seq<Finding>, f: Finding, b: seq<Finding>)
    requires AllSevere(env, a + [f] + b)
    ensures Severe(env, a + [f] + b) && Severe(env, a + b) && Severe(env, a) && HasSeverity(env, f)
  {
    var all := a + [f] + b;
    SevereRead(env, all);
    assert all[|a|] == f && forall i | 0 <= i < |a| :: all[i] == a[i];
    assert forall i | 0 <= i < |b| :: all[|a| + 1 + i] == b[i];
    assert forall i | 0 <= i < |a| :: (a + b)[i] == all[i];
    assert forall i | |a| <= i < |a| + |b| :: (a + b)[i] == all[i + 1];
  }

  lemma FrontSevere(env: Env, a: seq<Finding>, f: Finding, b: seq<Finding>)
    requires AllSevere(env, a + [f] + b) && b != []
    ensures AllSevere(env, a + [f] + b[..|b| - 1])
  {
    var front := a + [f] + b[..|b| - 1];
    assert forall i | 0 <= i < |front| :: front[i] == (a + [f] + b)[i];
  }

  lemma Unconcerned(env: Env, index: map<Key, Entry>, s: Scanned, f: Finding)
    requires HasSeverity(env, f) && !Concerns(env, f)
    ensures ScanStep(env, index, s, f) == s
  {
  }
}
