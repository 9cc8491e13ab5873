// The findings of an audit report, in both of its layouts.
module AuditFindings {
  import opened Wrappers
  import opened DecodedJson

  datatype Finding = Finding(name: Value, severity: Value, advisory: Value, title: Value)

  type Entries = seq<(string, Value)>

  // str(v) of a value that is not a string.
  type Show = Value -> string

  function Shown(show: Show, v: Value): string { if v.Str? then v.s else show(v) }

  // (v or [None])[0]; None is the error of a value without a first element.
  function FirstOf(v: Value): Option<Value> {
    if !Truthy(v) then Some(Null)
    else match v
      case List(items) => Some(items[0])
      case Str(s) => Some(Str([s[0]]))
      case _ => None
  }

  function AdvisoryTail(show: Show, advisory: Entries): Value {
    var id := Get(advisory, "id");
    Or(if id == Null then Null else Str(Shown(show, id)),
       Or(Get(advisory, "title"), Or(Get(advisory, "advisory"), Get(advisory, "overview"))))
  }

  function PickAdvisoryId(show: Show, advisory: Entries): Option<Value> {
    var stable := Or(Get(advisory, "github_advisory_id"), Get(advisory, "url"));
    if Truthy(stable) then Some(stable)
    else
      var cve := FirstOf(Get(advisory, "cves"));
      if cve.None? then None else Some(Or(cve.value, AdvisoryTail(show, advisory)))
  }

  function AdvisoryTitle(advisory: Entries): Value {
    Or(Get(advisory, "title"),
       Or(Get(advisory, "advisory"), Or(Get(advisory, "overview"), Get(advisory, "url"))))
  }

  // ---- One entry of either layout ----

  // None is the error of an advisory that is not an object, or whose list of CVEs has no first element.
  function FromAdvisory(show: Show, advisory: Value): Option<seq<Finding>> {
    if !advisory.Dict? then None
    else
      var fields := advisory.entries;
      var id := PickAdvisoryId(show, fields);
      if id.None? then None
      else
        var name := Or(Get(fields, "module_name"), Get(fields, "name"));
        Some([Finding(name, Get(fields, "severity"), id.value, AdvisoryTitle(fields))])
  }

  // Identifier and title of one cause; other kinds of values are no cause.
  function Cause(item: Value): Option<(Value, Value)> {
    match item
    case Dict(fields) =>
      var id := Or(Get(fields, "github_advisory_id"),
                   Or(Get(fields, "url"),
                      Or(Get(fields, "source"), Or(Get(fields, "title"), Get(fields, "name")))));
      var title := Or(Get(fields, "title"),
                      Or(Get(fields, "url"), Or(Get(fields, "advisory"), Get(fields, "source"))));
      Some((id, title))
    case Str(s) => Some((item, item))
    case _ => None
  }

  function Causes(items: seq<Value>): seq<(Value, Value)> {
    if items == [] then []
    else
      var before, last := Causes(items[..|items| - 1]), Cause(items[|items| - 1]);
      if last.Some? then before + [last.value] else before
  }

  function CausesOf(via: Value): seq<(Value, Value)> {
    match via
    case List(items) => Causes(items)
    case Str(s) => [(via, via)]
    case _ => []
  }

  // "; ".join over the titles that are truthy; None is the error of joining a value that is no string.
  function Join(causes: seq<(Value, Value)>): Option<string> {
    if causes == [] then Some("")
    else
      var before, title := Join(causes[..|causes| - 1]), causes[|causes| - 1].1;
      if before.None? || !Truthy(title) then before
      else if !title.Str? then None
      else if NoTitle(causes[..|causes| - 1]) then Some(title.s)
      else Some(before.value + "; " + title.s)
  }

  predicate NoTitle(causes: seq<(Value, Value)>) { forall c | c in causes :: !Truthy(c.1) }

  function Identified(name: string, severity: Value, causes: seq<(Value, Value)>, title: Value): seq<Finding> {
    if causes == [] then []
    else
      var before, id := Identified(name, severity, causes[..|causes| - 1], title), causes[|causes| - 1].0;
      if Truthy(id) then before + [Finding(Str(name), severity, id, title)] else before
  }

  function FromVulnerability(entry: (string, Value)): Option<seq<Finding>> {
    if !entry.1.Dict? then None
    else
      var fields := entry.1.entries;
      var causes := CausesOf(GetOr(fields, "via", List([])));
      var title := Join(causes);
      if title.None? then None
      else Some(Identified(entry.0, Get(fields, "severity"), causes, Str(title.value)))
  }

  // ---- The whole report ----

  function Both(a: Option<seq<Finding>>, b: Option<seq<Finding>>): Option<seq<Finding>> {
    if a.Some? && b.Some? then Some(a.value + b.value) else None
  }

  function Advisories(show: Show, advisories: Entries): Option<seq<Finding>> {
    if advisories == [] then Some([])
    else
      var n := |advisories| - 1;
      Both(Advisories(show, advisories[..n]), FromAdvisory(show, advisories[n].1))
  }

  function Vulnerabilities(vulnerabilities: Entries): Option<seq<Finding>> {
    if vulnerabilities == [] then Some([])
    else
      var n := |vulnerabilities| - 1;
      Both(Vulnerabilities(vulnerabilities[..n]), FromVulnerability(vulnerabilities[n]))
  }

  // The entries of one section; a section that is no object is passed over.
  function Section(data: Entries, name: string): Entries {
    var section := Get(data, name);
    if section.Dict? then section.entries else []
  }

  // None is a report the scan cannot read to its end.
  function Findings(show: Show, data: Value): Option<seq<Finding>> {
    if !data.Dict? then None
    else Both(Advisories(show, Section(data.entries, "advisories")),
              Vulnerabilities(Section(data.entries, "vulnerabilities")))
  }

  // ---- The loops ----

  // The causes of one vulnerability: identifiers and titles side by side.
  method CollectCauses(via: Value) returns (ids: seq<Value>, titles: seq<Value>)
    ensures |ids| == |titles| == |CausesOf(via)|
    ensures forall i | 0 <= i < |ids| :: CausesOf(via)[i] == (ids[i], titles[i])
  {
    ids, titles := [], [];
    if via.List? {
      var items := via.items;
      for i := 0 to |items|
        invariant |ids| == |titles| == |Causes(items[..i])|
        invariant forall k | 0 <= k < |ids| :: Causes(items[..i])[k] == (ids[k], titles[k])
      {
        assert items[..i + 1][..i] == items[..i];
        var item := items[i];
        if item.Dict? {
          var fields := item.entries;
          var id := Or(Get(fields, "github_advisory_id"),
                       Or(Get(fields, "url"),
                          Or(Get(fields, "source"), Or(Get(fields, "title"), Get(fields, "name")))));
          var title := Or(Get(fields, "title"),
                          Or(Get(fields, "url"), Or(Get(fields, "advisory"), Get(fields, "source"))));
          ids, titles := ids + [id], titles + [title];
        } else if item.Str? {
          ids, titles := ids + [item], titles + [item];
        }
      }
      assert items[..|items|] == items;
    } else if via.Str? {
      ids, titles := [via], [via];
    }
  }

  method JoinTitles(titles: seq<Value>, ghost causes: seq<(Value, Value)>) returns (title: Option<string>)
    requires |titles| == |causes| && forall i | 0 <= i < |titles| :: causes[i].1 == titles[i]
    ensures title == Join(causes)
  {
    var joined, any := "", false;
    for i := 0 to |titles|
      invariant Join(causes[..i]) == Some(joined)
      invariant any == !NoTitle(causes[..i])
    {
      assert causes[..i + 1][..i] == causes[..i] && causes[..i + 1] == causes[..i] + [causes[i]];
      if Truthy(titles[i]) {
        if !titles[i].Str? {
          JoinFails(causes, i + 1);
          return None;
        }
        joined := if any then joined + "; " + titles[i].s else titles[i].s;
        any := true;
      }
    }
    assert causes[..|titles|] == causes;
    return Some(joined);
  }

  lemma {:induction false} JoinFails(causes: seq<(Value, Value)>, n: nat)
    requires n <= |causes| && Join(causes[..n]).None?
    ensures Join(causes).None?
    decreases |causes| - n
  {
    if n < |causes| {
      assert causes[..n + 1][..n] == causes[..n];
      JoinFails(causes, n + 1);
    } else {
      assert causes[..n] == causes;
    }
  }

  lemma {:induction false} AdvisoriesFail(show: Show, advisories: Entries, n: nat)
    requires n <= |advisories| && Advisories(show, advisories[..n]).None?
    ensures Advisories(show, advisories).None?
    decreases |advisories| - n
  {
    if n < |advisories| {
      assert advisories[..n + 1][..n] == advisories[..n];
      AdvisoriesFail(show, advisories, n + 1);
    } else {
      assert advisories[..n] == advisories;
    }
  }

  lemma {:induction false} VulnerabilitiesFail(vulnerabilities: Entries, n: nat)
    requires n <= |vulnerabilities| && Vulnerabilities(vulnerabilities[..n]).None?
    ensures Vulnerabilities(vulnerabilities).None?
    decreases |vulnerabilities| - n
  {
    if n < |vulnerabilities| {
      assert vulnerabilities[..n + 1][..n] == vulnerabilities[..n];
      VulnerabilitiesFail(vulnerabilities, n + 1);
    } else {
      assert vulnerabilities[..n] == vulnerabilities;
    }
  }

  method IterAdvisories(show: Show, advisories: Entries) returns (findings: Option<seq<Finding>>)
    ensures findings == Advisories(show, advisories)
  {
    var found: seq<Finding> := [];
    for i := 0 to |advisories|
      invariant Advisories(show, advisories[..i]) == Some(found)
    {
      assert advisories[..i + 1][..i] == advisories[..i];
      var advisory := advisories[i].1;
      if !advisory.Dict? {
        AdvisoriesFail(show, advisories, i + 1);
        return None;
      }
      var fields := advisory.entries;
      var id := PickAdvisoryId(show, fields);
      if id.None? {
        AdvisoriesFail(show, advisories, i + 1);
        return None;
      }
      var name := Or(Get(fields, "module_name"), Get(fields, "name"));
      found := found + [Finding(name, Get(fields, "severity"), id.value, AdvisoryTitle(fields))];
    }
    assert advisories[..|advisories|] == advisories;
    return Some(found);
  }

  // The part of the report that is about one vulnerability.
  method IterVulnerability(entry: (string, Value)) returns (findings: Option<seq<Finding>>)
    ensures findings == FromVulnerability(entry)
  {
    var (name, vuln) := entry;
    if !vuln.Dict? {
      return None;
    }
    var severity, via := Get(vuln.entries, "severity"), GetOr(vuln.entries, "via", List([]));
    var ids, titles := CollectCauses(via);
    ghost var causes := CausesOf(via);
    var title := JoinTitles(titles, causes);
    if title.None? {
      return None;
    }
    var found: seq<Finding> := [];
    for k := 0 to |ids|
      invariant found == Identified(name, severity, causes[..k], Str(title.value))
    {
      assert causes[..k + 1][..k] == causes[..k];
      if Truthy(ids[k]) {
        found := found + [Finding(Str(name), severity, ids[k], Str(title.value))];
      }
    }
    assert causes[..|ids|] == causes;
    return Some(found);
  }

  method IterVulnerabilities(vulnerabilities: Entries) returns (findings: Option<seq<Finding>>)
    ensures findings == Vulnerabilities(vulnerabilities)
  {
    var found: seq<Finding> := [];
    for i := 0 to |vulnerabilities|
      invariant Vulnerabilities(vulnerabilities[..i]) == Some(found)
    {
      assert vulnerabilities[..i + 1][..i] == vulnerabilities[..i];
      var some := IterVulnerability(vulnerabilities[i]);
      if some.None? {
        VulnerabilitiesFail(vulnerabilities, i + 1);
        return None;
      }
      found := found + some.value;
    }
    assert vulnerabilities[..|vulnerabilities|] == vulnerabilities;
    return Some(found);
  }

  method IterVulns(show: Show, data: Value) returns (findings: Option<seq<Finding>>)
    ensures findings == Findings(show, data)
  {
    if !data.Dict? {
      return None;
    }
    var found: seq<Finding> := [];
    var advisories := Get(data.entries, "advisories");
    if advisories.Dict? {
      var some := IterAdvisories(show, advisories.entries);
      if some.None? {
        return None;
      }
      assert [] + some.value == some.value;
      found := found + some.value;
    }
    var vulnerabilities := Get(data.entries, "vulnerabilities");
    if vulnerabilities.Dict? {
      var some := IterVulnerabilities(vulnerabilities.entries);
      if some.None? {
        return None;
      }
      found := found + some.value;
    } else {
      assert found + [] == found;
    }
    return Some(found);
  }

  // ---- What a readable report yields ----

  // The first candidate with content, or else the last one.
  predicate FirstTruthy(candidates: seq<Value>, v: Value) {
    exists i | 0 <= i < |candidates| ::
      && candidates[i] == v
      && (Truthy(v) || i == |candidates| - 1)
      && forall j | 0 <= j < i :: !Truthy(candidates[j])
  }

  lemma FirstIsOne(candidates: seq<Value>, v: Value, w: Value)
    requires FirstTruthy(candidates, v) && FirstTruthy(candidates, w)
    ensures v == w
  {
  }

  // The first of the listed CVEs, or nothing if none is listed.
  predicate LeadingCve(cves: Value, cve: Value) {
    || (!Truthy(cves) && cve == Null)
    || (cves.List? && cves.items != [] && cve == cves.items[0])
    || (cves.Str? && cves.s != "" && cve == Str([cves.s[0]]))
  }

  lemma LeadingIsFirst(cves: Value)
    ensures forall cve :: LeadingCve(cves, cve) <==> FirstOf(cves) == Some(cve)
  {
  }

  // The identifiers of an advisory, the stable ones first.
  function Candidates(show: Show, advisory: Entries, cve: Value): seq<Value> {
    var id := Get(advisory, "id");
    [Get(advisory, "github_advisory_id"), Get(advisory, "url"), cve,
     if id == Null then Null else Str(Shown(show, id)),
     Get(advisory, "title"), Get(advisory, "advisory"), Get(advisory, "overview")]
  }

  // A CVE is looked at only if the two identifiers before it are missing.
  ghost predicate AdvisoryNames(show: Show, advisory: Entries, id: Value) {
    var ghsa, url := Get(advisory, "github_advisory_id"), Get(advisory, "url");
    if Truthy(ghsa) || Truthy(url) then FirstTruthy([ghsa, url], id)
    else exists cve :: LeadingCve(Get(advisory, "cves"), cve) && FirstTruthy(Candidates(show, advisory, cve), id)
  }

  // The first identifier with content is picked; without any, the last one.
  lemma PicksFirst(show: Show, advisory: Entries, id: Value)
    ensures PickAdvisoryId(show, advisory) == Some(id) <==> AdvisoryNames(show, advisory, id)
  {
    hide Lookup, Shown, Truthy, LeadingCve;
    var ghsa, url, cves := Get(advisory, "github_advisory_id"), Get(advisory, "url"), Get(advisory, "cves");
    LeadingIsFirst(cves);
    if Truthy(ghsa) || Truthy(url) {
      PickedIsFirst([ghsa, url], if Truthy(ghsa) then ghsa else url, if Truthy(ghsa) then 0 else 1, id);
    } else if FirstOf(cves).Some? {
      var cve := FirstOf(cves).value;
      var all := Candidates(show, advisory, cve);
      var i := if Truthy(all[2]) then 2 else if Truthy(all[3]) then 3 else if Truthy(all[4]) then 4
        else if Truthy(all[5]) then 5 else 6;
      PickedIsFirst(all, PickAdvisoryId(show, advisory).value, i, id);
      assert forall other :: LeadingCve(cves, other) ==> other == cve;
    }
  }

  lemma PickedIsFirst(candidates: seq<Value>, picked: Value, i: nat, v: Value)
    requires i < |candidates| && candidates[i] == picked && (Truthy(picked) || i == |candidates| - 1)
    requires forall j | 0 <= j < i :: !Truthy(candidates[j])
    ensures FirstTruthy(candidates, v) <==> v == picked
  {
    if FirstTruthy(candidates, v) {
      FirstIsOne(candidates, v, picked);
    }
  }

  // An advisory yields one finding, each part of it the first candidate with content.
  ghost predicate AdvisoryYields(show: Show, advisory: Value, f: Finding) {
    advisory.Dict? &&
    var fields := advisory.entries;
    && FirstTruthy([Get(fields, "module_name"), Get(fields, "name")], f.name)
    && f.severity == Get(fields, "severity")
    && AdvisoryNames(show, fields, f.advisory)
    && FirstTruthy([Get(fields, "title"), Get(fields, "advisory"), Get(fields, "overview"), Get(fields, "url")],
                   f.title)
  }

  lemma AdvisoryExact(show: Show, advisory: Value)
    ensures FromAdvisory(show, advisory).Some? ==> |FromAdvisory(show, advisory).value| == 1
    ensures forall f :: FromAdvisory(show, advisory) == Some([f]) <==> AdvisoryYields(show, advisory, f)
  {
    hide Lookup, Truthy, PickAdvisoryId, AdvisoryNames, FirstTruthy;
    if advisory.Dict? {
      var a := advisory.entries;
      forall f ensures FromAdvisory(show, advisory) == Some([f]) <==> AdvisoryYields(show, advisory, f) {
        var names := [Get(a, "module_name"), Get(a, "name")];
        var titles := [Get(a, "title"), Get(a, "advisory"), Get(a, "overview"), Get(a, "url")];
        var i := if Truthy(names[0]) then 0 else 1;
        var j := if Truthy(titles[0]) then 0 else if Truthy(titles[1]) then 1 else if Truthy(titles[2]) then 2 else 3;
        PickedIsFirst(names, names[i], i, f.name);
        PickedIsFirst(titles, AdvisoryTitle(a), j, f.title);
        PicksFirst(show, a, f.advisory);
        assert FromAdvisory(show, advisory).Some? ==> ([f] == FromAdvisory(show, advisory).value
          <==> f == FromAdvisory(show, advisory).value[0]);
      }
    }
  }

  // What lists the causes of a vulnerability: the items of a list, or a lone string.
  function CauseItems(vuln: Entries): seq<Value> {
    var via := GetOr(vuln, "via", List([]));
    if via.List? then via.items else if via.Str? then [via] else []
  }

  // Objects and strings are causes.
  predicate IsCause(item: Value) { item.Dict? || item.Str? }

  // The identifiers of a cause, and its titles; a string is both.
  function CauseIds(cause: Value): seq<Value> {
    match cause
    case Dict(fields) =>
      [Get(fields, "github_advisory_id"), Get(fields, "url"), Get(fields, "source"), Get(fields, "title"),
       Get(fields, "name")]
    case _ => [cause]
  }

  function CauseTitles(cause: Value): seq<Value> {
    match cause
    case Dict(fields) => [Get(fields, "title"), Get(fields, "url"), Get(fields, "advisory"), Get(fields, "source")]
    case _ => [cause]
  }

  // Of each cause the first identifier and the first title with content are picked.
  lemma CausePicksFirst(item: Value)
    ensures Cause(item).Some? <==> IsCause(item)
    ensures Cause(item).Some? ==>
      && (forall id :: FirstTruthy(CauseIds(item), id) <==> id == Cause(item).value.0)
      && (forall title :: FirstTruthy(CauseTitles(item), title) <==> title == Cause(item).value.1)
  {
    hide Lookup, Truthy, FirstTruthy;
    if IsCause(item) {
      var ids, titles := CauseIds(item), CauseTitles(item);
      var id, title := Cause(item).value.0, Cause(item).value.1;
      var i := if item.Str? || Truthy(ids[0]) then 0 else if Truthy(ids[1]) then 1 else if Truthy(ids[2]) then 2
        else if Truthy(ids[3]) then 3 else 4;
      var j := if item.Str? || Truthy(titles[0]) then 0 else if Truthy(titles[1]) then 1
        else if Truthy(titles[2]) then 2 else 3;
      forall v ensures FirstTruthy(ids, v) <==> v == id {
        PickedIsFirst(ids, id, i, v);
      }
      forall v ensures FirstTruthy(titles, v) <==> v == title {
        PickedIsFirst(titles, title, j, v);
      }
    }
  }

  lemma CausesListed(vuln: Entries)
    ensures CausesOf(GetOr(vuln, "via", List([]))) == Causes(CauseItems(vuln))
  {
    var via := GetOr(vuln, "via", List([]));
    if via.Str? {
      assert [via][..0] == [];
      assert Causes([via]) == Causes([via][..0]) + [(via, via)];
    }
  }

  // The texts are those of the titles with content, in sequence.
  ghost predicate TitlesAre(items: seq<Value>, texts: seq<string>)
    decreases |items|
  {
    if items == [] then texts == []
    else
      var front, last := items[..|items| - 1], items[|items| - 1];
      if IsCause(last) && exists title :: FirstTruthy(CauseTitles(last), title) && Truthy(title) then
        && texts != []
        && FirstTruthy(CauseTitles(last), Str(texts[|texts| - 1]))
        && TitlesAre(front, texts[..|texts| - 1])
      else TitlesAre(front, texts)
  }

  function Separated(texts: seq<string>): string {
    if texts == [] then ""
    else if |texts| == 1 then texts[0]
    else Separated(texts[..|texts| - 1]) + "; " + texts[|texts| - 1]
  }

  // The titles are joined by semicolons; one with content that is no string stops the join.
  lemma {:induction false} JoinedTitles(items: seq<Value>) returns (texts: seq<string>)
    ensures Join(Causes(items)).Some? ==> TitlesAre(items, texts) && Join(Causes(items)) == Some(Separated(texts))
    ensures Join(Causes(items)).Some? ==> (texts == [] <==> NoTitle(Causes(items)))
  {
    hide Cause, CauseTitles, FirstTruthy;
    texts := [];
    if items != [] {
      var n := |items| - 1;
      var before, causes := Causes(items[..n]), Causes(items);
      CausePicksFirst(items[n]);
      var front := JoinedTitles(items[..n]);
      texts := front;
      if Cause(items[n]).Some? {
        var title := Cause(items[n]).value.1;
        assert causes[..|causes| - 1] == before && causes[|causes| - 1].1 == title;
        if Truthy(title) && title.Str? {
          texts := front + [title.s];
          assert texts[..|front|] == front;
        }
      }
    }
  }

  // The finding of the cause at position `c`.
  ghost predicate NamedAt(entry: (string, Value), c: nat, f: Finding) {
    entry.1.Dict? && c < |CauseItems(entry.1.entries)| &&
    var item := CauseItems(entry.1.entries)[c];
    && f.name == Str(entry.0)
    && f.severity == Get(entry.1.entries, "severity")
    && IsCause(item) && FirstTruthy(CauseIds(item), f.advisory) && Truthy(f.advisory)
    && exists texts :: TitlesAre(CauseItems(entry.1.entries), texts) && f.title == Str(Separated(texts))
  }

  predicate Ascending(at: seq<nat>) { forall k, l | 0 <= k < l < |at| :: at[k] < at[l] }

  lemma {:induction false} IdentifiedListed(name: string, severity: Value, items: seq<Value>, title: Value)
    returns (at: seq<nat>)
    ensures var found := Identified(name, severity, Causes(items), title);
      && |at| == |found| && Ascending(at)
      && (forall k | 0 <= k < |at| :: at[k] < |items| && IsCause(items[at[k]])
            && FirstTruthy(CauseIds(items[at[k]]), found[k].advisory) && Truthy(found[k].advisory)
            && found[k] == Finding(Str(name), severity, found[k].advisory, title))
      && (forall c: nat, id | c < |items| && IsCause(items[c]) && FirstTruthy(CauseIds(items[c]), id) && Truthy(id) ::
            c in at)
  {
    hide Cause, CauseIds, FirstTruthy, Truthy;
    at := [];
    if items != [] {
      var n := |items| - 1;
      var before := IdentifiedListed(name, severity, items[..n], title);
      assert forall i | 0 <= i < n :: items[..n][i] == items[i];
      CausePicksFirst(items[n]);
      at := before;
      if Cause(items[n]).Some? {
        var causes := Causes(items);
        assert causes[..|causes| - 1] == Causes(items[..n]);
        if Truthy(Cause(items[n]).value.0) {
          at := before + [n];
        }
      }
    }
  }

  lemma VulnerabilityListed(entry: (string, Value)) returns (at: seq<nat>)
    requires FromVulnerability(entry).Some?
    ensures var found := FromVulnerability(entry).value;
      && |at| == |found| && Ascending(at) && (forall k | 0 <= k < |at| :: NamedAt(entry, at[k], found[k]))
      && forall c: nat, f | NamedAt(entry, c, f) :: c in at
  {
    hide CauseIds, FirstTruthy, Truthy, Join, Identified, Causes, CauseItems, TitlesAre;
    var fields := entry.1.entries;
    CausesListed(fields);
    var texts := JoinedTitles(CauseItems(fields));
    at := IdentifiedListed(entry.0, Get(fields, "severity"), CauseItems(fields), Str(Separated(texts)));
  }

  // Positions of a vulnerability and of one of its causes.
  predicate Sooner(a: (nat, nat), b: (nat, nat)) { a.0 < b.0 || (a.0 == b.0 && a.1 < b.1) }

  predicate InSequence(at: seq<(nat, nat)>) { forall k, l | 0 <= k < l < |at| :: Sooner(at[k], at[l]) }

  function Paired(v: nat, cs: seq<nat>): (at: seq<(nat, nat)>)
    ensures |at| == |cs|
  {
    seq(|cs|, k requires 0 <= k < |cs| => (v, cs[k]))
  }

  // The findings of these vulnerabilities, with the positions of their causes.
  ghost predicate ListedAt(vulnerabilities: Entries, at: seq<(nat, nat)>, found: seq<Finding>) {
    && |at| == |found| && InSequence(at)
    && forall k | 0 <= k < |at| ::
         at[k].0 < |vulnerabilities| && NamedAt(vulnerabilities[at[k].0], at[k].1, found[k])
  }

  ghost predicate ListsAll(vulnerabilities: Entries, at: seq<(nat, nat)>) {
    forall v: nat, c: nat, f | v < |vulnerabilities| && NamedAt(vulnerabilities[v], c, f) :: (v, c) in at
  }

  lemma EarlierThenLast(vulnerabilities: Entries, before: seq<(nat, nat)>, found: seq<Finding>, last: seq<nat>,
      more: seq<Finding>)
    requires vulnerabilities != []
    requires var n := |vulnerabilities| - 1;
      && ListedAt(vulnerabilities[..n], before, found) && ListsAll(vulnerabilities[..n], before)
      && |last| == |more| && Ascending(last)
      && (forall k | 0 <= k < |last| :: NamedAt(vulnerabilities[n], last[k], more[k]))
      && forall c: nat, f | NamedAt(vulnerabilities[n], c, f) :: c in last
    ensures var at := before + Paired(|vulnerabilities| - 1, last);
      ListedAt(vulnerabilities, at, found + more) && ListsAll(vulnerabilities, at)
  {
    hide NamedAt, InSequence, Sooner;
    var n := |vulnerabilities| - 1;
    var at := before + Paired(n, last);
    SequenceGrows(n, before, last);
    forall k | 0 <= k < |at|
      ensures at[k].0 < |vulnerabilities| && NamedAt(vulnerabilities[at[k].0], at[k].1, (found + more)[k])
    {
      if k < |before| {
        assert vulnerabilities[..n][before[k].0] == vulnerabilities[before[k].0];
      }
    }
    forall v: nat, c: nat, f | v < |vulnerabilities| && NamedAt(vulnerabilities[v], c, f) ensures (v, c) in at {
      if v == n {
        var k :| 0 <= k < |last| && last[k] == c;
        assert Paired(n, last)[k] == (n, c);
      } else {
        assert vulnerabilities[..n][v] == vulnerabilities[v];
      }
    }
  }

  lemma SequenceGrows(n: nat, before: seq<(nat, nat)>, last: seq<nat>)
    requires InSequence(before) && Ascending(last) && forall k | 0 <= k < |before| :: before[k].0 < n
    ensures InSequence(before + Paired(n, last))
  {
    var at := before + Paired(n, last);
    forall k, l | 0 <= k < l < |at| ensures Sooner(at[k], at[l]) {
      if k >= |before| {
        assert last[k - |before|] < last[l - |before|];
      }
    }
  }

  lemma {:induction false} VulnerabilitiesListed(vulnerabilities: Entries) returns (at: seq<(nat, nat)>)
    requires Vulnerabilities(vulnerabilities).Some?
    ensures ListedAt(vulnerabilities, at, Vulnerabilities(vulnerabilities).value) && ListsAll(vulnerabilities, at)
  {
    hide NamedAt, FromVulnerability;
    at := [];
    if vulnerabilities != [] {
      var n := |vulnerabilities| - 1;
      var before := VulnerabilitiesListed(vulnerabilities[..n]);
      var last := VulnerabilityListed(vulnerabilities[n]);
      at := before + Paired(n, last);
      EarlierThenLast(vulnerabilities, before, Vulnerabilities(vulnerabilities[..n]).value, last,
                      FromVulnerability(vulnerabilities[n]).value);
    }
  }

  lemma {:induction false} AdvisoriesListed(show: Show, advisories: Entries)
    requires Advisories(show, advisories).Some?
    ensures var found := Advisories(show, advisories).value;
      |found| == |advisories| && forall i | 0 <= i < |found| :: AdvisoryYields(show, advisories[i].1, found[i])
  {
    hide FromAdvisory, AdvisoryYields;
    if advisories != [] {
      var n := |advisories| - 1;
      AdvisoriesListed(show, advisories[..n]);
      AdvisoryExact(show, advisories[n].1);
      var one := FromAdvisory(show, advisories[n].1).value;
      assert one == [one[0]];
      assert forall i | 0 <= i < n :: advisories[..n][i] == advisories[i];
    }
  }

  // What a section of the report holds; one that is no object holds nothing.
  ghost predicate Holds(data: Value, name: string, entries: Entries) {
    data.Dict? && entries == if Get(data.entries, name).Dict? then Get(data.entries, name).entries else []
  }

  // The findings in sequence: one of each advisory, then those of the vulnerabilities, one for each cause that has an
  // identifier, under the title joined from all causes of its vulnerability.
  lemma FindingsListed(show: Show, data: Value, advisories: Entries, vulnerabilities: Entries)
    returns (at: seq<(nat, nat)>)
    requires Findings(show, data).Some?
    requires Holds(data, "advisories", advisories) && Holds(data, "vulnerabilities", vulnerabilities)
    ensures var found, n := Findings(show, data).value, |advisories|;
      && |found| == n + |at| && InSequence(at)
      && (forall i | 0 <= i < n :: AdvisoryYields(show, advisories[i].1, found[i]))
      && (forall k | 0 <= k < |at| ::
            at[k].0 < |vulnerabilities| && NamedAt(vulnerabilities[at[k].0], at[k].1, found[n + k]))
      && forall v: nat, c: nat, f | v < |vulnerabilities| && NamedAt(vulnerabilities[v], c, f) :: (v, c) in at
  {
    hide *;
    BothSections(show, data, advisories, vulnerabilities);
    AdvisoriesListed(show, advisories);
    at := VulnerabilitiesListed(vulnerabilities);
    FoundInSequence(show, advisories, vulnerabilities, Advisories(show, advisories).value,
                    Vulnerabilities(vulnerabilities).value, at);
  }

  lemma FoundInSequence(show: Show, advisories: Entries, vulnerabilities: Entries, first: seq<Finding>,
      second: seq<Finding>, at: seq<(nat, nat)>)
    requires |first| == |advisories| && forall i | 0 <= i < |first| :: AdvisoryYields(show, advisories[i].1, first[i])
    requires ListedAt(vulnerabilities, at, second) && ListsAll(vulnerabilities, at)
    ensures var found, n := first + second, |advisories|;
      && |found| == n + |at| && InSequence(at)
      && (forall i | 0 <= i < n :: AdvisoryYields(show, advisories[i].1, found[i]))
      && (forall k | 0 <= k < |at| ::
            at[k].0 < |vulnerabilities| && NamedAt(vulnerabilities[at[k].0], at[k].1, found[n + k]))
      && forall v: nat, c: nat, f | v < |vulnerabilities| && NamedAt(vulnerabilities[v], c, f) :: (v, c) in at
  {
    hide AdvisoryYields, NamedAt, InSequence;
  }

  lemma BothSections(show: Show, data: Value, advisories: Entries, vulnerabilities: Entries)
    requires Findings(show, data).Some?
    requires Holds(data, "advisories", advisories) && Holds(data, "vulnerabilities", vulnerabilities)
    ensures Advisories(show, advisories).Some? && Vulnerabilities(vulnerabilities).Some?
    ensures Findings(show, data).value == Advisories(show, advisories).value + Vulnerabilities(vulnerabilities).value
  {
    hide Advisories, Vulnerabilities, Lookup;
  }

  lemma YieldsOne(show: Show, advisory: Value, f: Finding, g: Finding)
    requires AdvisoryYields(show, advisory, f) && AdvisoryYields(show, advisory, g)
    ensures f == g
  {
    hide AdvisoryYields, FromAdvisory;
    AdvisoryExact(show, advisory);
    assert [f][0] == [g][0];
  }

  lemma {:induction false} TitlesAreOne(items: seq<Value>, a: seq<string>, b: seq<string>)
    requires TitlesAre(items, a) && TitlesAre(items, b)
    ensures a == b
    decreases |items|
  {
    hide CauseTitles, FirstTruthy;
    if items != [] {
      var front, last := items[..|items| - 1], items[|items| - 1];
      if IsCause(last) && exists title :: FirstTruthy(CauseTitles(last), title) && Truthy(title) {
        TitlesAreOne(front, a[..|a| - 1], b[..|b| - 1]);
        FirstIsOne(CauseTitles(last), Str(a[|a| - 1]), Str(b[|b| - 1]));
        assert a == a[..|a| - 1] + [a[|a| - 1]] && b == b[..|b| - 1] + [b[|b| - 1]];
      } else {
        TitlesAreOne(front, a, b);
      }
    }
  }

  lemma NamesOne(entry: (string, Value), c: nat, f: Finding, g: Finding)
    requires NamedAt(entry, c, f) && NamedAt(entry, c, g)
    ensures f == g
  {
    hide CauseIds, FirstTruthy, Truthy, TitlesAre, CauseItems;
    var items := CauseItems(entry.1.entries);
    var a :| TitlesAre(items, a) && f.title == Str(Separated(a));
    var b :| TitlesAre(items, b) && g.title == Str(Separated(b));
    TitlesAreOne(items, a, b);
    FirstIsOne(CauseIds(items[c]), f.advisory, g.advisory);
  }

  // So a finding is yielded exactly if it is an advisory's, or that of an identified cause of a vulnerability.
  lemma FindingsExact(show: Show, data: Value, advisories: Entries, vulnerabilities: Entries, f: Finding)
    requires Findings(show, data).Some?
    requires Holds(data, "advisories", advisories) && Holds(data, "vulnerabilities", vulnerabilities)
    ensures f in Findings(show, data).value <==>
      || (exists i | 0 <= i < |advisories| :: AdvisoryYields(show, advisories[i].1, f))
      || (exists v: nat, c: nat | v < |vulnerabilities| :: NamedAt(vulnerabilities[v], c, f))
  {
    hide AdvisoryYields, NamedAt, Findings;
    var found, n := Findings(show, data).value, |advisories|;
    var at := FindingsListed(show, data, advisories, vulnerabilities);
    if f in found {
      var i :| 0 <= i < |found| && found[i] == f;
      if i >= n {
        assert NamedAt(vulnerabilities[at[i - n].0], at[i - n].1, found[n + (i - n)]);
      }
    }
    if i :| 0 <= i < n && AdvisoryYields(show, advisories[i].1, f) {
      YieldsOne(show, advisories[i].1, f, found[i]);
    }
    if v: nat, c: nat :| v < |vulnerabilities| && NamedAt(vulnerabilities[v], c, f) {
      var k :| 0 <= k < |at| && at[k] == (v, c);
      NamesOne(vulnerabilities[v], c, f, found[n + k]);
    }
  }

  // ---- Which reports can be read ----

  // Every title that is picked is a string, or has no content.
  ghost predicate JoinableTitles(items: seq<Value>) {
    forall i, title | 0 <= i < |items| && IsCause(items[i]) && FirstTruthy(CauseTitles(items[i]), title) ::
      Truthy(title) ==> title.Str?
  }

  predicate ReadableAdvisory(advisory: Value) {
    && advisory.Dict?
    && (|| Truthy(Get(advisory.entries, "github_advisory_id"))
        || Truthy(Get(advisory.entries, "url"))
        || !Truthy(Get(advisory.entries, "cves"))
        || Get(advisory.entries, "cves").List?
        || Get(advisory.entries, "cves").Str?)
  }

  ghost predicate ReadableVulnerability(vuln: Value) { vuln.Dict? && JoinableTitles(CauseItems(vuln.entries)) }

  ghost predicate Readable(data: Value) {
    data.Dict? &&
    var advisories, vulnerabilities := Get(data.entries, "advisories"), Get(data.entries, "vulnerabilities");
    && (advisories.Dict? ==> forall e | e in advisories.entries :: ReadableAdvisory(e.1))
    && (vulnerabilities.Dict? ==> forall e | e in vulnerabilities.entries :: ReadableVulnerability(e.1))
  }

  lemma {:induction false} JoinSucceeds(items: seq<Value>)
    ensures Join(Causes(items)).Some? <==> JoinableTitles(items)
  {
    hide Cause, CauseTitles, FirstTruthy;
    if items != [] {
      var n := |items| - 1;
      var causes := Causes(items);
      JoinSucceeds(items[..n]);
      CausePicksFirst(items[n]);
      assert forall i | 0 <= i < n :: items[..n][i] == items[i];
      if Cause(items[n]).Some? {
        assert causes[..|causes| - 1] == Causes(items[..n]) && causes[|causes| - 1] == Cause(items[n]).value;
      }
    }
  }

  lemma AdvisoryRead(show: Show, advisory: Value)
    ensures FromAdvisory(show, advisory).Some? <==> ReadableAdvisory(advisory)
  {
  }

  lemma {:induction false} AdvisoriesRead(show: Show, advisories: Entries)
    ensures Advisories(show, advisories).Some? <==> forall e | e in advisories :: ReadableAdvisory(e.1)
  {
    hide ReadableAdvisory, FromAdvisory;
    if advisories != [] {
      var n := |advisories| - 1;
      AdvisoriesRead(show, advisories[..n]);
      assert advisories == advisories[..n] + [advisories[n]];
      AdvisoryRead(show, advisories[n].1);
    }
  }

  lemma {:induction false} VulnerabilitiesRead(vulnerabilities: Entries)
    ensures Vulnerabilities(vulnerabilities).Some?
      <==> forall e | e in vulnerabilities :: ReadableVulnerability(e.1)
  {
    hide JoinableTitles, CauseItems, CausesOf;
    if vulnerabilities != [] {
      var n := |vulnerabilities| - 1;
      VulnerabilitiesRead(vulnerabilities[..n]);
      assert vulnerabilities == vulnerabilities[..n] + [vulnerabilities[n]];
      var vuln := vulnerabilities[n].1;
      if vuln.Dict? {
        CausesListed(vuln.entries);
        JoinSucceeds(CauseItems(vuln.entries));
      }
    }
  }

  // The scan reads a report to its end exactly when every entry is an object, every list of CVEs that is
  // looked at has a first element, and every title to be joined is a string.
  lemma ReadExactly(show: Show, data: Value)
    ensures Findings(show, data).Some? <==> Readable(data)
  {
    hide ReadableAdvisory, ReadableVulnerability, Lookup;
    if data.Dict? {
      AdvisoriesRead(show, Section(data.entries, "advisories"));
      VulnerabilitiesRead(Section(data.entries, "vulnerabilities"));
    }
  }

  function NumericSource(source: int): Value {
    Dict([("vulnerabilities", Dict([("left-pad", Dict([("severity", Str("high")), ("via", NumericVia(source))]))]))])
  }

  function NumericVia(source: int): Value { List([Dict([("source", Int(source))])]) }

  // The normalizers accept a numeric source; the title join before them does not.
  lemma NumericSourceUnreadable(show: Show, source: int)
    requires source != 0
    ensures Findings(show, NumericSource(source)).None?
  {
  }
}
