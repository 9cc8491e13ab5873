// What the audit gate's verdict says.
module AuditGuarantees {
  import opened Wrappers
  import opened DecodedJson
  import opened AuditFindings
  import opened ExceptionParser
  import opened ExceptionPrinter
  import opened AuditGate

  // ---- The index of exceptions ----

  // Complete, with a valid date, and naming a package and an advisory.
  predicate Acceptable(env: Env, exc: Record) {
    && (forall f :: FieldOf(exc, f) != "")
    && env.fromIso(FieldOf(exc, ExpiresOn)).Some?
    && KeyOf(env, exc).0 != ""
    && KeyOf(env, exc).1 != ""
  }

  lemma AcceptableExactly(env: Env, exc: Record)
    ensures Acceptable(env, exc) <==> Defect(env, exc).None?
  {
    hide KeyOf, FieldOf;
    forall f ensures f in MissingIn(exc) <==> FieldOf(exc, f) == "" {
      match f { case Package => case Advisory => case Severity => case Mitigation => case ExpiresOn => }
      assert f in REQUIRED;
    }
  }

  // The first acceptable exception with its key.
  predicate Leads(env: Env, exceptions: seq<Record>, i: nat)
    requires i < |exceptions|
  {
    && Acceptable(env, exceptions[i])
    && forall j | 0 <= j < i && Acceptable(env, exceptions[j]) ::
         KeyOf(env, exceptions[j]) != KeyOf(env, exceptions[i])
  }

  // Every parsed exception enters the index or is reported once.
  lemma {:induction false} IndexBalance(env: Env, exceptions: seq<Record>)
    ensures var indexed := Index(env, exceptions); |indexed.index| + |indexed.errors| == |exceptions|
  {
    if exceptions != [] {
      IndexBalance(env, exceptions[..|exceptions| - 1]);
    }
  }

  // The index maps each key to the first acceptable exception that has it, and has no other keys.
  ghost predicate MapsFirsts(env: Env, exceptions: seq<Record>, index: map<Key, Entry>) {
    && (forall i | 0 <= i < |exceptions| && Acceptable(env, exceptions[i]) :: KeyOf(env, exceptions[i]) in index)
    && (forall key | key in index ::
          exists i | 0 <= i < |exceptions| :: Leads(env, exceptions, i) && KeyOf(env, exceptions[i]) == key)
    && (forall i | 0 <= i < |exceptions| && Leads(env, exceptions, i) ::
          Defect(env, exceptions[i]).None? && KeyOf(env, exceptions[i]) in index
          && index[KeyOf(env, exceptions[i])] == EntryOf(env, exceptions[i]))
  }

  lemma LeadsKept(env: Env, before: seq<Record>, exc: Record)
    ensures forall i | 0 <= i < |before| ::
      (before + [exc])[i] == before[i] && Leads(env, before + [exc], i) == Leads(env, before, i)
  {
    hide Acceptable, KeyOf;
    var all := before + [exc];
    assert forall i | 0 <= i < |before| :: all[i] == before[i];
    forall i | 0 <= i < |before| ensures Leads(env, all, i) == Leads(env, before, i) {
      assert all[i] == before[i];
    }
  }

  // An exception that is not acceptable, or whose key is taken.
  lemma MapsStill(env: Env, before: seq<Record>, exc: Record, index: map<Key, Entry>)
    requires MapsFirsts(env, before, index) && (Acceptable(env, exc) ==> KeyOf(env, exc) in index)
    ensures MapsFirsts(env, before + [exc], index)
  {
    hide Acceptable, Defect, KeyOf, EntryOf;
    var all := before + [exc];
    LeadsKept(env, before, exc);
    if Acceptable(env, exc) {
      var i :| 0 <= i < |before| && Leads(env, before, i) && KeyOf(env, before[i]) == KeyOf(env, exc);
      assert all[i] == before[i] && all[|before|] == exc;
    }
    assert !Leads(env, all, |before|);
    forall key | key in index
      ensures exists i | 0 <= i < |all| :: Leads(env, all, i) && KeyOf(env, all[i]) == key
    {
      var i :| 0 <= i < |before| && Leads(env, before, i) && KeyOf(env, before[i]) == key;
      assert Leads(env, all, i) && all[i] == before[i];
    }
  }

  // An acceptable exception with a new key.
  lemma MapsAlso(env: Env, before: seq<Record>, exc: Record, index: map<Key, Entry>)
    requires MapsFirsts(env, before, index) && Acceptable(env, exc) && KeyOf(env, exc) !in index
    requires Defect(env, exc).None?
    ensures MapsFirsts(env, before + [exc], index[KeyOf(env, exc) := EntryOf(env, exc)])
  {
    hide Acceptable, Defect, KeyOf, EntryOf;
    var all, index' := before + [exc], index[KeyOf(env, exc) := EntryOf(env, exc)];
    LeadsKept(env, before, exc);
    assert Leads(env, all, |before|) && all[|before|] == exc;
    forall key | key in index'
      ensures exists i | 0 <= i < |all| :: Leads(env, all, i) && KeyOf(env, all[i]) == key
    {
      if key in index {
        var i :| 0 <= i < |before| && Leads(env, before, i) && KeyOf(env, before[i]) == key;
        assert Leads(env, all, i) && all[i] == before[i];
      }
    }
  }

  lemma {:induction false} IndexContents(env: Env, exceptions: seq<Record>)
    ensures MapsFirsts(env, exceptions, Index(env, exceptions).index)
  {
    hide Acceptable, Defect, KeyOf, EntryOf, MapsFirsts;
    if exceptions == [] {
      NothingMapped(env);
    } else {
      var n := |exceptions| - 1;
      var before, exc := exceptions[..n], exceptions[n];
      var index := Index(env, before).index;
      assert before + [exc] == exceptions;
      IndexContents(env, before);
      AcceptableExactly(env, exc);
      if Acceptable(env, exc) && KeyOf(env, exc) !in index {
        MapsAlso(env, before, exc, index);
      } else {
        MapsStill(env, before, exc, index);
      }
    }
  }

  lemma NothingMapped(env: Env)
    ensures MapsFirsts(env, [], map[])
  {
  }

  predicate DistinctKeys(env: Env, exceptions: seq<Record>) {
    forall i, j | 0 <= i < j < |exceptions| :: KeyOf(env, exceptions[i]) != KeyOf(env, exceptions[j])
  }

  predicate AllAcceptable(env: Env, exceptions: seq<Record>) {
    forall i | 0 <= i < |exceptions| :: Acceptable(env, exceptions[i])
  }

  lemma KeysTaken(env: Env, before: seq<Record>, exc: Record)
    requires AllAcceptable(env, before)
    ensures KeyOf(env, exc) in Index(env, before).index
      <==> exists i | 0 <= i < |before| :: KeyOf(env, before[i]) == KeyOf(env, exc)
  {
    hide Acceptable, KeyOf, Index;
    IndexContents(env, before);
  }

  lemma CleanMore(env: Env, before: seq<Record>, exc: Record)
    ensures AllAcceptable(env, before + [exc]) <==> AllAcceptable(env, before) && Acceptable(env, exc)
    ensures DistinctKeys(env, before + [exc])
      <==> DistinctKeys(env, before) && forall i | 0 <= i < |before| :: KeyOf(env, before[i]) != KeyOf(env, exc)
  {
    hide Acceptable, KeyOf;
    var all := before + [exc];
    assert all[|before|] == exc && forall i | 0 <= i < |before| :: all[i] == before[i];
  }

  // No exception is reported exactly when all are acceptable and no two share a key.
  lemma {:induction false} IndexClean(env: Env, exceptions: seq<Record>)
    ensures Index(env, exceptions).errors == [] <==> AllAcceptable(env, exceptions) && DistinctKeys(env, exceptions)
  {
    hide Acceptable, Defect, KeyOf, EntryOf, AllAcceptable, DistinctKeys;
    if exceptions == [] {
      NothingToReport(env);
    } else {
      var n := |exceptions| - 1;
      var before, exc := exceptions[..n], exceptions[n];
      assert exceptions == before + [exc];
      IndexClean(env, before);
      AcceptableExactly(env, exc);
      CleanMore(env, before, exc);
      if AllAcceptable(env, before) {
        KeysTaken(env, before, exc);
      }
    }
  }

  lemma NothingToReport(env: Env)
    ensures AllAcceptable(env, []) && DistinctKeys(env, [])
  {
  }

  // ---- The scan of findings ----

  // The findings that must match an exception.
  predicate Keyed(env: Env, f: Finding)
    requires HasSeverity(env, f)
  {
    Concerns(env, f) && KeyOfFinding(env, f).1 != ""
  }

  // The high or critical key of the finding at i appears for the first time.
  predicate First(env: Env, findings: seq<Finding>, i: nat)
    requires Severe(env, findings) && i < |findings|
  {
    && Keyed(env, findings[i])
    && forall j | 0 <= j < i && Keyed(env, findings[j]) ::
         KeyOfFinding(env, findings[j]) != KeyOfFinding(env, findings[i])
  }

  function Keys(env: Env, findings: seq<Finding>): set<Key>
    requires Severe(env, findings)
  {
    set i | 0 <= i < |findings| && Keyed(env, findings[i]) :: KeyOfFinding(env, findings[i])
  }

  function MissingKeys(env: Env, s: Scanned): seq<Key> {
    seq(|s.missing|, i requires 0 <= i < |s.missing| => KeyOfFinding(env, s.missing[i].0))
  }

  function ExpiredKeys(env: Env, s: Scanned): seq<Key> {
    seq(|s.expired|, i requires 0 <= i < |s.expired| => KeyOfFinding(env, s.expired[i].0))
  }

  predicate NoRepeats(keys: seq<Key>) { forall i, j | 0 <= i < j < |keys| :: keys[i] != keys[j] }

  predicate Expired(env: Env, index: map<Key, Entry>, key: Key) { key in index && index[key].expires < env.today }

  ghost predicate Listed(keys: seq<Key>, these: set<Key>) {
    NoRepeats(keys) && forall key :: key in keys <==> key in these
  }

  function Unindexed(env: Env, index: map<Key, Entry>, keys: set<Key>): set<Key> { keys - index.Keys }

  function Outdated(env: Env, index: map<Key, Entry>, keys: set<Key>): set<Key> {
    set key | key in keys && Expired(env, index, key)
  }

  // Missing and expired keys are reported once each, and are fixed by the set of high and critical keys.
  lemma {:induction false} ReportedOnce(env: Env, index: map<Key, Entry>, findings: seq<Finding>)
    requires Severe(env, findings)
    ensures var s, keys := Scan(env, index, findings), Keys(env, findings);
      && s.seen == keys
      && Listed(MissingKeys(env, s), Unindexed(env, index, keys))
      && Listed(ExpiredKeys(env, s), Outdated(env, index, keys))
  {
    hide KeyOfFinding, SeverityOf, Concerns, HasSeverity, Mismatch;
    if findings != [] {
      var n := |findings| - 1;
      var before, f := findings[..n], findings[n];
      assert findings == before + [f];
      ReportedOnce(env, index, before);
      var s, s' := Scan(env, index, before), Scan(env, index, findings);
      assert s' == ScanStep(env, index, s, f);
      assert Keys(env, findings) == Keys(env, before) + if Keyed(env, f) then {KeyOfFinding(env, f)} else {};
      ListedStep(env, index, s, f, Keys(env, before));
    }
  }

  lemma ListedStep(env: Env, index: map<Key, Entry>, s: Scanned, f: Finding, keys: set<Key>)
    requires HasSeverity(env, f) && s.seen == keys
    requires Listed(MissingKeys(env, s), Unindexed(env, index, keys))
    requires Listed(ExpiredKeys(env, s), Outdated(env, index, keys))
    ensures var s', keys' := ScanStep(env, index, s, f), keys + if Keyed(env, f) then {KeyOfFinding(env, f)} else {};
      && s'.seen == keys'
      && Listed(MissingKeys(env, s'), Unindexed(env, index, keys'))
      && Listed(ExpiredKeys(env, s'), Outdated(env, index, keys'))
  {
    hide KeyOfFinding, SeverityOf, Concerns, HasSeverity, Mismatch, Mismatched;
    var s', key := ScanStep(env, index, s, f), KeyOfFinding(env, f);
    if Keyed(env, f) && key !in keys {
      var missing, outdated := Unindexed(env, index, keys), Outdated(env, index, keys);
      if key !in index {
        assert MissingKeys(env, s') == MissingKeys(env, s) + [key];
        assert Unindexed(env, index, keys + {key}) == missing + {key};
        ListedAlso(MissingKeys(env, s), missing, key);
      } else {
        assert Unindexed(env, index, keys + {key}) == missing;
      }
      if Expired(env, index, key) {
        assert ExpiredKeys(env, s') == ExpiredKeys(env, s) + [key];
        assert Outdated(env, index, keys + {key}) == outdated + {key};
        ListedAlso(ExpiredKeys(env, s), outdated, key);
      } else {
        assert Outdated(env, index, keys + {key}) == outdated;
      }
    } else {
      assert keys + (if Keyed(env, f) then {key} else {}) == keys;
    }
  }

  lemma ListedAlso(keys: seq<Key>, these: set<Key>, key: Key)
    requires Listed(keys, these) && key !in these
    ensures Listed(keys + [key], these + {key})
  {
  }

  // Order and repetition of findings do not change which keys are reported missing or expired.
  lemma SameKeysSameReports(env: Env, index: map<Key, Entry>, findings: seq<Finding>, others: seq<Finding>)
    requires Severe(env, findings) && Severe(env, others) && Keys(env, findings) == Keys(env, others)
    ensures var s, t := Scan(env, index, findings), Scan(env, index, others);
      && multiset(MissingKeys(env, s)) == multiset(MissingKeys(env, t))
      && multiset(ExpiredKeys(env, s)) == multiset(ExpiredKeys(env, t))
  {
    ReportedOnce(env, index, findings);
    ReportedOnce(env, index, others);
    var s, t := Scan(env, index, findings), Scan(env, index, others);
    var keys := Keys(env, findings);
    ListedAsMultiset(MissingKeys(env, s), Unindexed(env, index, keys));
    ListedAsMultiset(MissingKeys(env, t), Unindexed(env, index, keys));
    ListedAsMultiset(ExpiredKeys(env, s), Outdated(env, index, keys));
    ListedAsMultiset(ExpiredKeys(env, t), Outdated(env, index, keys));
  }

  lemma {:induction false} ListedAsMultiset(keys: seq<Key>, these: set<Key>)
    requires Listed(keys, these)
    ensures multiset(keys) == multiset(these)
  {
    if keys != [] {
      var n := |keys| - 1;
      assert keys == keys[..n] + [keys[n]];
      assert keys[n] !in keys[..n];
      ListedAsMultiset(keys[..n], these - {keys[n]});
      assert multiset(these) == multiset(these - {keys[n]})[keys[n] := 1];
    }
  }

  // Some key was asked about without an identifier.
  predicate AllIdentified(env: Env, findings: seq<Finding>)
    requires Severe(env, findings)
  {
    forall i | 0 <= i < |findings| && Concerns(env, findings[i]) :: KeyOfFinding(env, findings[i]).1 != ""
  }

  // An exception in force for the finding: present, of its severity or of none, and not expired.
  predicate Covered(env: Env, index: map<Key, Entry>, f: Finding)
    requires HasSeverity(env, f)
  {
    var key := KeyOfFinding(env, f);
    key in index && !Mismatched(index[key], SeverityOf(env, f)) && env.today <= index[key].expires
  }

  predicate FirstsCovered(env: Env, index: map<Key, Entry>, findings: seq<Finding>)
    requires Severe(env, findings)
  {
    forall i | 0 <= i < |findings| && First(env, findings, i) :: Covered(env, index, findings[i])
  }

  predicate Clean(s: Scanned) { s.errors == [] && s.missing == [] && s.expired == [] }

  lemma CleanStep(env: Env, index: map<Key, Entry>, s: Scanned, f: Finding)
    requires HasSeverity(env, f)
    ensures Clean(ScanStep(env, index, s, f))
      <==> Clean(s)
           && (Concerns(env, f) ==> KeyOfFinding(env, f).1 != "")
           && (Keyed(env, f) && KeyOfFinding(env, f) !in s.seen ==> Covered(env, index, f))
  {
  }

  lemma {:induction false} ScanClean(env: Env, index: map<Key, Entry>, findings: seq<Finding>)
    requires Severe(env, findings)
    ensures Clean(Scan(env, index, findings)) <==> AllIdentified(env, findings) && FirstsCovered(env, index, findings)
  {
    hide KeyOfFinding, Concerns, HasSeverity, ScanStep, Covered, MissingKeys, ExpiredKeys, Listed;
    if findings != [] {
      var n := |findings| - 1;
      var before, f := findings[..n], findings[n];
      assert findings == before + [f];
      ScanClean(env, index, before);
      ReportedOnce(env, index, before);
      forall i | 0 <= i < n
        ensures before[i] == findings[i] && First(env, before, i) == First(env, findings, i)
      {
      }
      assert First(env, findings, n) <==> Keyed(env, f) && KeyOfFinding(env, f) !in Keys(env, before);
      CleanStep(env, index, Scan(env, index, before), f);
    }
  }

  // ---- The verdict ----

  predicate InForce(env: Env, exc: Record, f: Finding)
    requires HasSeverity(env, f)
  {
    && Acceptable(env, exc)
    && KeyOf(env, exc) == KeyOfFinding(env, f)
    && env.today <= env.fromIso(FieldOf(exc, ExpiresOn)).value
    && (|| env.lower(Strip(FieldOf(exc, Severity))) == ""
        || env.lower(Strip(FieldOf(exc, Severity))) == SeverityOf(env, f))
  }

  // The three conditions on the exceptions and the findings.
  predicate Passes(env: Env, exceptions: seq<Record>, findings: seq<Finding>)
    requires Severe(env, findings)
  {
    && AllAcceptable(env, exceptions)
    && DistinctKeys(env, exceptions)
    && AllIdentified(env, findings)
    && forall i | 0 <= i < |findings| && First(env, findings, i) ::
         exists e | 0 <= e < |exceptions| :: InForce(env, exceptions[e], findings[i])
  }

  lemma CoveredExactly(env: Env, exceptions: seq<Record>, f: Finding)
    requires AllAcceptable(env, exceptions) && DistinctKeys(env, exceptions) && HasSeverity(env, f)
    ensures Covered(env, Index(env, exceptions).index, f)
      <==> exists e | 0 <= e < |exceptions| :: InForce(env, exceptions[e], f)
  {
    hide Acceptable, KeyOf, KeyOfFinding, FieldOf, SeverityOf, Index, HasSeverity;
    IndexContents(env, exceptions);
    forall e | 0 <= e < |exceptions| ensures Leads(env, exceptions, e) {
    }
    var index := Index(env, exceptions).index;
    if Covered(env, index, f) {
      var e :| 0 <= e < |exceptions| && Leads(env, exceptions, e) && KeyOf(env, exceptions[e]) == KeyOfFinding(env, f);
      assert InForce(env, exceptions[e], f);
    }
    if e :| 0 <= e < |exceptions| && InForce(env, exceptions[e], f) {
      assert Leads(env, exceptions, e);
    }
  }

  // The gate exits 0 exactly when the list parses, the report can be read, and the three conditions hold.
  lemma GateExact(env: Env, audit: Value, lines: seq<string>)
    ensures VerdictOf(env, audit, lines) == Exit(0, [])
      <==> Runs(env, audit, lines)
           && Passes(env, ParseLines(lines).value, Findings(env.show, audit).value)
    ensures VerdictOf(env, audit, lines).Crashed? <==> !Runs(env, audit, lines)
    ensures var verdict := VerdictOf(env, audit, lines);
      verdict.Exit? ==> verdict.code == if verdict.errors == [] then 0 else 1
  {
    hide AllAcceptable, DistinctKeys, AllIdentified, Index, Scan, Covered, InForce, First, Severe, ParseLines, Findings;
    if Runs(env, audit, lines) {
      var exceptions, findings := ParseLines(lines).value, Findings(env.show, audit).value;
      IndexClean(env, exceptions);
      var index := Index(env, exceptions).index;
      ScanClean(env, index, findings);
      if AllAcceptable(env, exceptions) && DistinctKeys(env, exceptions) {
        SevereAt(env, findings);
        forall i | 0 <= i < |findings|
          ensures Covered(env, index, findings[i])
            <==> exists e | 0 <= e < |exceptions| :: InForce(env, exceptions[e], findings[i])
        {
          CoveredExactly(env, exceptions, findings[i]);
        }
      }
    }
  }

  lemma SevereAt(env: Env, findings: seq<Finding>)
    requires Severe(env, findings)
    ensures forall i | 0 <= i < |findings| :: HasSeverity(env, findings[i])
  {
  }

  // ---- The order of findings ----

  // Every finding, and not only the first with its key, agrees with its exception.
  predicate AllCovered(env: Env, index: map<Key, Entry>, findings: seq<Finding>)
    requires Severe(env, findings)
  {
    forall i | 0 <= i < |findings| && Keyed(env, findings[i]) :: Covered(env, index, findings[i])
  }

  lemma Reordered(env: Env, findings: seq<Finding>, order: seq<Finding>)
    requires Severe(env, findings) && multiset(order) == multiset(findings)
    ensures Severe(env, order)
    ensures forall f :: f in order <==> f in findings
  {
    assert forall f :: f in order <==> f in multiset(order);
    assert forall f :: f in findings <==> f in multiset(findings);
    forall i | 0 <= i < |order| ensures HasSeverity(env, order[i]) {
      assert order[i] in findings;
    }
  }

  function MovedToFront(findings: seq<Finding>, i: nat): seq<Finding>
    requires i < |findings|
  {
    [findings[i]] + findings[..i] + findings[i + 1..]
  }

  lemma MovedIsReordered(findings: seq<Finding>, i: nat)
    requires i < |findings|
    ensures multiset(MovedToFront(findings, i)) == multiset(findings)
  {
    assert findings == findings[..i] + [findings[i]] + findings[i + 1..];
  }

  ghost predicate CleanInEveryOrder(env: Env, index: map<Key, Entry>, findings: seq<Finding>)
    requires Severe(env, findings)
  {
    forall order: seq<Finding> | multiset(order) == multiset(findings) && Severe(env, order) ::
      Clean(Scan(env, index, order))
  }

  // The scan is clean whatever the order of the findings exactly when every finding is covered; in a given
  // order only the first finding with each key has to be.
  lemma EveryOrderExactly(env: Env, index: map<Key, Entry>, findings: seq<Finding>)
    requires Severe(env, findings)
    ensures CleanInEveryOrder(env, index, findings)
      <==> AllIdentified(env, findings) && AllCovered(env, index, findings)
  {
    hide Covered, Concerns, KeyOfFinding, HasSeverity, Scan, Clean;
    if AllIdentified(env, findings) && AllCovered(env, index, findings) {
      forall order: seq<Finding> | multiset(order) == multiset(findings) && Severe(env, order)
        ensures Clean(Scan(env, index, order))
      {
        Reordered(env, findings, order);
        ScanClean(env, index, order);
        InAnyOrder(env, index, findings, order);
      }
    }
    if CleanInEveryOrder(env, index, findings) {
      ScanClean(env, index, findings);
      forall i | 0 <= i < |findings| && Keyed(env, findings[i]) ensures Covered(env, index, findings[i]) {
        var order := MovedToFront(findings, i);
        MovedIsReordered(findings, i);
        Reordered(env, findings, order);
        ScanClean(env, index, order);
        assert First(env, order, 0);
      }
    }
  }

  lemma InAnyOrder(env: Env, index: map<Key, Entry>, findings: seq<Finding>, order: seq<Finding>)
    requires Severe(env, findings) && Severe(env, order) && forall f :: f in order <==> f in findings
    requires AllIdentified(env, findings) && AllCovered(env, index, findings)
    ensures AllIdentified(env, order) && FirstsCovered(env, index, order)
  {
    hide Covered, Concerns, KeyOfFinding, HasSeverity;
    forall i | 0 <= i < |order|
      ensures exists k | 0 <= k < |findings| :: findings[k] == order[i]
    {
      assert order[i] in findings;
    }
  }

  // ---- One finding at two severities ----

  function AdvisoryOf(name: string, severity: string, id: string): Value {
    Dict([("module_name", Str(name)), ("severity", Str(severity)), ("url", Str(id))])
  }

  function FindingOf(name: string, severity: string, id: string): Finding {
    Finding(Str(name), Str(severity), Str(id), Str(id))
  }

  function Report(name: string, id: string, first: string, second: string): Value {
    Dict([("advisories", Dict([("1", AdvisoryOf(name, first, id)), ("2", AdvisoryOf(name, second, id))]))])
  }

  // The list of exceptions as text, with one for that finding at severity high.
  function AcceptedHigh(name: string, id: string, day: string): Fields {
    [("package", name, Double), ("advisory", id, Double), ("severity", "high", Bare), ("mitigation", "pinned", Single),
     ("expires_on", day, Double)]
  }

  lemma AdvisoryFinding(show: Show, name: string, severity: string, id: string)
    requires name != "" && id != ""
    ensures FromAdvisory(show, AdvisoryOf(name, severity, id)) == Some([FindingOf(name, severity, id)])
  {
    var fields := AdvisoryOf(name, severity, id).entries;
    assert fields[1..] == [("severity", Str(severity)), ("url", Str(id))];
    assert fields[1..][1..] == [("url", Str(id))] && fields[1..][1..][1..] == [];
    LookupThree(fields, "module_name");
    LookupThree(fields, "name");
    LookupThree(fields, "severity");
    LookupThree(fields, "github_advisory_id");
    LookupThree(fields, "url");
    LookupThree(fields, "title");
    LookupThree(fields, "advisory");
    LookupThree(fields, "overview");
    hide Lookup;
  }

  lemma LookupThree(fields: Entries, key: string)
    requires |fields| == 3
    ensures Lookup(fields, key) == if fields[0].0 == key then Some(fields[0].1) else if fields[1].0 == key then
      Some(fields[1].1) else if fields[2].0 == key then Some(fields[2].1) else None
  {
    assert fields[1..][1..][1..] == [];
  }

  lemma AdvisoriesSnoc(show: Show, front: Entries, entry: (string, Value))
    ensures Advisories(show, front + [entry]) == Both(Advisories(show, front), FromAdvisory(show, entry.1))
  {
    assert (front + [entry])[..|front|] == front;
  }

  lemma ReportFindings(show: Show, name: string, id: string, first: string, second: string)
    requires name != "" && id != ""
    ensures Findings(show, Report(name, id, first, second))
         == Some([FindingOf(name, first, id), FindingOf(name, second, id)])
  {
    hide FromAdvisory, AdvisoryOf, FindingOf;
    AdvisoryFinding(show, name, first, id);
    AdvisoryFinding(show, name, second, id);
    var one, two := ("1", AdvisoryOf(name, first, id)), ("2", AdvisoryOf(name, second, id));
    var data := Report(name, id, first, second).entries;
    assert data[1..] == [];
    assert Section(data, "advisories") == [one, two] && Section(data, "vulnerabilities") == [];
    AdvisoriesSnoc(show, [], one);
    AdvisoriesSnoc(show, [one], two);
    assert [] + [one] == [one] && [one] + [two] == [one, two];
    assert [] + [FindingOf(name, first, id)] == [FindingOf(name, first, id)];
    assert [FindingOf(name, first, id)] + [FindingOf(name, second, id)] + []
        == [FindingOf(name, first, id), FindingOf(name, second, id)];
  }

  lemma RecordSnoc(front: Fields, key: string, value: string, style: Style)
    ensures RecordOf(front + [(key, value, style)]) == RecordOf(front)[key := value]
  {
    assert (front + [(key, value, style)])[..|front|] == front;
  }

  lemma AcceptedFields(name: string, id: string, day: string)
    ensures var exc := RecordOf(AcceptedHigh(name, id, day));
      && FieldOf(exc, Package) == name && FieldOf(exc, Advisory) == id && FieldOf(exc, Severity) == "high"
      && FieldOf(exc, Mitigation) == "pinned" && FieldOf(exc, ExpiresOn) == day
  {
    var fields := AcceptedHigh(name, id, day);
    assert fields[..0] == [] && fields[..1] == fields[..0] + [("package", name, Double)];
    assert fields[..2] == fields[..1] + [("advisory", id, Double)];
    assert fields[..3] == fields[..2] + [("severity", "high", Bare)];
    assert fields[..4] == fields[..3] + [("mitigation", "pinned", Single)];
    assert fields == fields[..4] + [("expires_on", day, Double)];
    RecordSnoc(fields[..0], "package", name, Double);
    RecordSnoc(fields[..1], "advisory", id, Double);
    RecordSnoc(fields[..2], "severity", "high", Bare);
    RecordSnoc(fields[..3], "mitigation", "pinned", Single);
    RecordSnoc(fields[..4], "expires_on", day, Double);
    hide RecordOf;
  }

  lemma FieldNames()
    ensures FieldName("package") && FieldName("advisory") && FieldName("severity")
    ensures FieldName("mitigation") && FieldName("expires_on")
  {
  }

  lemma AcceptedParses(name: string, id: string, day: string)
    requires OneLine(name) && OneLine(id) && OneLine(day)
    ensures Printable(AcceptedHigh(name, id, day)) && NoneEmpty([AcceptedHigh(name, id, day)])
    ensures ParseLines(Lines(Print([AcceptedHigh(name, id, day)]))) == Some([RecordOf(AcceptedHigh(name, id, day))])
  {
    hide FieldName, OneLine, RecordOf, ParseLines, Lines, Print;
    var fields := AcceptedHigh(name, id, day);
    FieldNames();
    Words();
    assert Printable(fields);
    assert [fields][1..] == [] && [RecordOf(fields)] + [] == [RecordOf(fields)];
    PrintThenParse([fields]);
  }

  lemma Words()
    ensures OneLine("high") && OneLine("pinned")
  {
  }

  // With an exception at severity high, a report of one finding at two severities passes in one order and fails in
  // the other.
  lemma OrderMatters(env: Env, name: string, id: string, day: string)
    requires OneLine(name) && OneLine(id) && OneLine(day) && day != ""
    requires Strip(name) != "" && env.lower(Strip(id)) != "" && id != ""
    requires env.lower("high") == "high" && env.lower("critical") == "critical"
    requires env.fromIso(day).Some? && env.today <= env.fromIso(day).value
    ensures NoneEmpty([AcceptedHigh(name, id, day)])
    ensures var lines := Lines(Print([AcceptedHigh(name, id, day)]));
      && VerdictOf(env, Report(name, id, "high", "critical"), lines) == Exit(0, [])
      && var refused := VerdictOf(env, Report(name, id, "critical", "high"), lines);
         refused.Exit? && refused.code == 1
  {
    hide VerdictOf, Lines, Print, AcceptedHigh, RecordOf, Report, ParseLines, Findings, Passes, Index;
    AcceptedParses(name, id, day);
    var exc, lines := RecordOf(AcceptedHigh(name, id, day)), Lines(Print([AcceptedHigh(name, id, day)]));
    AcceptedFields(name, id, day);
    LowStrip();
    var high, critical := FindingOf(name, "high", id), FindingOf(name, "critical", id);
    ReportFindings(env.show, name, id, "high", "critical");
    ReportFindings(env.show, name, id, "critical", "high");
    GateExact(env, Report(name, id, "high", "critical"), lines);
    GateExact(env, Report(name, id, "critical", "high"), lines);
    TwoSeverities(env, exc, name, id, day);
  }

  lemma LowStrip()
    ensures Strip("high") == "high" && Strip("critical") == "critical"
  {
    StripsToItself("high");
    StripsToItself("critical");
  }

  lemma TwoSeverities(env: Env, exc: Record, name: string, id: string, day: string)
    requires FieldOf(exc, Package) == name && FieldOf(exc, Advisory) == id && FieldOf(exc, Severity) == "high"
    requires FieldOf(exc, Mitigation) == "pinned" && FieldOf(exc, ExpiresOn) == day && day != ""
    requires Strip(name) != "" && env.lower(Strip(id)) != "" && name != "" && id != ""
    requires env.lower("high") == "high" && env.lower("critical") == "critical"
    requires env.fromIso(day).Some? && env.today <= env.fromIso(day).value
    ensures var high, critical := FindingOf(name, "high", id), FindingOf(name, "critical", id);
      && Severe(env, [high, critical]) && Severe(env, [critical, high])
      && Passes(env, [exc], [high, critical]) && !Passes(env, [exc], [critical, high])
  {
    hide Strip, FieldOf;
    LowStrip();
    var high, critical := FindingOf(name, "high", id), FindingOf(name, "critical", id);
    forall f ensures FieldOf(exc, f) != "" {
      match f { case Package => case Advisory => case Severity => case Mitigation => case ExpiresOn => }
    }
    assert Acceptable(env, exc);
    assert InForce(env, exc, high) && !InForce(env, exc, critical);
    assert [exc][0] == exc;
    assert !First(env, [high, critical], 1) by { assert Keyed(env, [high, critical][0]); }
    assert First(env, [critical, high], 0);
  }
}
