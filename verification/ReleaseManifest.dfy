// The manifest of customizations and its validation.
module ReleaseManifest {
  import opened Wrappers
  import opened DecodedJson

  type Object = seq<(string, Value)>

  datatype Refusal =
    | Unreadable
    | NotAnObject
    | WrongIdentity
    | MissingObjects
    | MissingArrays
    | InvalidTest
    | DuplicateTest(id: string)
    | InvalidCommand(id: string)
    | InvalidCustomization
    | DuplicateCustomization(id: string)
    | UnknownTests(id: string)
    | Unchecked(id: string)
    | GitFailed(command: seq<string>)
    | WrongOrigin(origin: string)
    | DirtyTree
    | WrongBranch(branch: string)
    | NotAtOrigin(head: string, originHead: string)
    | NotAnAncestor(commit: string)
    | MissingPath(id: string, path: string)
    | NotARelease
    | TestFailed(id: string, code: int)

  // Refused is an error of the gate; Crashed is any other exception.
  datatype Outcome<+T> = Done(value: T) | Refused(reason: Refusal) | Crashed

  // ---- Identifiers ----

  predicate HasId(v: Value) { v.Dict? && Get(v.entries, "id").Str? }

  function IdOf(v: Value): string
    requires HasId(v)
  {
    Get(v.entries, "id").s
  }

  predicate AllHaveIds(items: seq<Value>) { forall i | 0 <= i < |items| :: HasId(items[i]) }

  function Ids(items: seq<Value>): seq<string>
    requires AllHaveIds(items)
  {
    seq(|items|, i requires 0 <= i < |items| => IdOf(items[i]))
  }

  function IdSet(items: seq<Value>): set<string> {
    set v | v in items && HasId(v) :: IdOf(v)
  }

  predicate Distinct(ids: seq<string>) { forall i, j | 0 <= i < j < |ids| :: ids[i] != ids[j] }

  // ---- Tests ----

  predicate ValidCommand(v: Value) {
    v.List? && v.items != [] && forall i | 0 <= i < |v.items| :: v.items[i].Str?
  }

  function TestDefect(tests: seq<Value>, i: nat): Option<Refusal>
    requires i < |tests|
  {
    if !HasId(tests[i]) then Some(InvalidTest)
    else if IdOf(tests[i]) in IdSet(tests[..i]) then Some(DuplicateTest(IdOf(tests[i])))
    else if !ValidCommand(Get(tests[i].entries, "command")) then Some(InvalidCommand(IdOf(tests[i])))
    else None
  }

  // The first defect among the first n tests.
  function TestsDefect(tests: seq<Value>, n: nat): Option<Refusal>
    requires n <= |tests|
  {
    if n == 0 then None
    else
      var before := TestsDefect(tests, n - 1);
      if before.Some? then before else TestDefect(tests, n - 1)
  }

  // ---- Customizations ----

  predicate Known(v: Value, ids: set<string>) { v.Str? && v.s in ids }

  function Unknown(refs: seq<Value>, ids: set<string>): seq<Value> {
    if refs == [] then []
    else
      var before, last := Unknown(refs[..|refs| - 1], ids), refs[|refs| - 1];
      if Known(last, ids) then before else before + [last]
  }

  // Whether the distinct values among hashable ones can be put in order.
  predicate Sortable(vs: seq<Value>) {
    || (forall i | 0 <= i < |vs| :: vs[i].Str?)
    || (forall i | 0 <= i < |vs| :: Numeric(vs[i]).Some?)
    || (forall i | 0 <= i < |vs| :: vs[i].Null?)
  }

  predicate AllHashable(vs: seq<Value>) { forall i | 0 <= i < |vs| :: Hashable(vs[i]) }

  function TestRefs(item: Object): Option<seq<Value>> { Elements(GetOr(item, "test_ids", List([]))) }

  predicate HasCheck(item: Object) {
    Truthy(Get(item, "test_ids")) || Truthy(Get(item, "runtime_http_paths"))
  }

  // Done says that the references are known; the failure is that of taking their set or sorting what is unknown.
  function RefsOutcome(id: string, refs: Option<seq<Value>>, ids: set<string>): Outcome<()> {
    if refs.None? || !AllHashable(refs.value) then Crashed
    else
      var unknown := Unknown(refs.value, ids);
      if unknown == [] then Done(())
      else if Sortable(unknown) then Refused(UnknownTests(id))
      else Crashed
  }

  function ItemOutcome(items: seq<Value>, i: nat, ids: set<string>): Outcome<()>
    requires i < |items|
  {
    if !HasId(items[i]) then Refused(InvalidCustomization)
    else if IdOf(items[i]) in IdSet(items[..i]) then Refused(DuplicateCustomization(IdOf(items[i])))
    else
      var refs := RefsOutcome(IdOf(items[i]), TestRefs(items[i].entries), ids);
      if !refs.Done? then refs
      else if !HasCheck(items[i].entries) then Refused(Unchecked(IdOf(items[i])))
      else Done(())
  }

  function ItemsOutcome(items: seq<Value>, n: nat, ids: set<string>): Outcome<()>
    requires n <= |items|
  {
    if n == 0 then Done(())
    else
      var before := ItemsOutcome(items, n - 1, ids);
      if before.Done? then ItemOutcome(items, n - 1, ids) else before
  }

  // ---- The whole manifest ----

  predicate Identity(data: Object) {
    EqualsInt(Get(data, "schema_version"), 1) && Get(data, "product") == Str("pro")
  }

  predicate HasObjects(data: Object) {
    Get(data, "canonical_repository").Dict? && Get(data, "runtime_contract").Dict?
  }

  predicate HasArrays(data: Object) { Get(data, "release_tests").List? && Get(data, "customizations").List? }

  function Tests(data: Object): seq<Value>
    requires HasArrays(data)
  {
    Get(data, "release_tests").items
  }

  function Customizations(data: Object): seq<Value>
    requires HasArrays(data)
  {
    Get(data, "customizations").items
  }

  function Validation(data: Object): Outcome<()> {
    if !Identity(data) then Refused(WrongIdentity)
    else if !HasObjects(data) then Refused(MissingObjects)
    else if !HasArrays(data) then Refused(MissingArrays)
    else
      var tests, items := Tests(data), Customizations(data);
      var defect := TestsDefect(tests, |tests|);
      if defect.Some? then Refused(defect.value) else ItemsOutcome(items, |items|, IdSet(tests))
  }

  lemma {:induction false} FirstTestDefect(tests: seq<Value>, n: nat, m: nat)
    requires n <= m <= |tests| && TestsDefect(tests, n).Some?
    ensures TestsDefect(tests, m) == TestsDefect(tests, n)
    decreases m
  {
    if n < m {
      FirstTestDefect(tests, n, m - 1);
    }
  }

  lemma {:induction false} FirstItemFailure(items: seq<Value>, n: nat, m: nat, ids: set<string>)
    requires n <= m <= |items| && !ItemsOutcome(items, n, ids).Done?
    ensures ItemsOutcome(items, m, ids) == ItemsOutcome(items, n, ids)
    decreases m
  {
    if n < m {
      FirstItemFailure(items, n, m - 1, ids);
    }
  }

  lemma IdSetStep(items: seq<Value>, i: nat)
    requires i < |items| && HasId(items[i])
    ensures IdSet(items[..i + 1]) == IdSet(items[..i]) + {IdOf(items[i])}
  {
  }

  method ValidateTests(tests: seq<Value>) returns (defect: Option<Refusal>, ids: set<string>)
    ensures defect == TestsDefect(tests, |tests|)
    ensures defect.None? ==> ids == IdSet(tests)
  {
    ids := {};
    for i := 0 to |tests|
      invariant TestsDefect(tests, i).None? && ids == IdSet(tests[..i])
    {
      var test := tests[i];
      if !test.Dict? || !Get(test.entries, "id").Str? {
        FirstTestDefect(tests, i + 1, |tests|);
        return Some(InvalidTest), ids;
      }
      var id := Get(test.entries, "id").s;
      if id in ids {
        FirstTestDefect(tests, i + 1, |tests|);
        return Some(DuplicateTest(id)), ids;
      }
      IdSetStep(tests, i);
      ids := ids + {id};
      var command := Get(test.entries, "command");
      if !command.List? || command.items == [] || exists k | 0 <= k < |command.items| :: !command.items[k].Str? {
        FirstTestDefect(tests, i + 1, |tests|);
        return Some(InvalidCommand(id)), ids;
      }
    }
    assert tests[..|tests|] == tests;
    return None, ids;
  }

  method ValidateManifest(data: Object) returns (outcome: Outcome<()>)
    ensures outcome == Validation(data)
  {
    if !EqualsInt(Get(data, "schema_version"), 1) || Get(data, "product") != Str("pro") {
      return Refused(WrongIdentity);
    }
    var canonical, runtime := Get(data, "canonical_repository"), Get(data, "runtime_contract");
    var tests, customizations := Get(data, "release_tests"), Get(data, "customizations");
    if !canonical.Dict? || !runtime.Dict? {
      return Refused(MissingObjects);
    }
    if !tests.List? || !customizations.List? {
      return Refused(MissingArrays);
    }
    var defect, testIds := ValidateTests(tests.items);
    if defect.Some? {
      return Refused(defect.value);
    }
    var items, ids: set<string> := customizations.items, {};
    for i := 0 to |items|
      invariant ItemsOutcome(items, i, testIds).Done? && ids == IdSet(items[..i])
    {
      var item := items[i];
      if !item.Dict? || !Get(item.entries, "id").Str? {
        FirstItemFailure(items, i + 1, |items|, testIds);
        return Refused(InvalidCustomization);
      }
      var id := Get(item.entries, "id").s;
      if id in ids {
        FirstItemFailure(items, i + 1, |items|, testIds);
        return Refused(DuplicateCustomization(id));
      }
      IdSetStep(items, i);
      ids := ids + {id};
      var refs := RefsOutcome(id, Elements(GetOr(item.entries, "test_ids", List([]))), testIds);
      if !refs.Done? {
        FirstItemFailure(items, i + 1, |items|, testIds);
        return refs;
      }
      if !Truthy(Get(item.entries, "test_ids")) && !Truthy(Get(item.entries, "runtime_http_paths")) {
        FirstItemFailure(items, i + 1, |items|, testIds);
        return Refused(Unchecked(id));
      }
    }
    return Done(());
  }

  // ---- Which manifests are valid ----

  predicate ValidTests(tests: seq<Value>) {
    && AllHaveIds(tests)
    && Distinct(Ids(tests))
    && forall i | 0 <= i < |tests| :: ValidCommand(Get(tests[i].entries, "command"))
  }

  // Every reference is a known test, and there is a reference or a runtime path.
  predicate ValidItem(item: Object, ids: set<string>) {
    && TestRefs(item).Some?
    && (forall v | v in TestRefs(item).value :: Known(v, ids))
    && (TestRefs(item).value != [] || Truthy(Get(item, "runtime_http_paths")))
  }

  predicate ValidItems(items: seq<Value>, ids: set<string>) {
    && AllHaveIds(items)
    && Distinct(Ids(items))
    && forall i | 0 <= i < |items| :: ValidItem(items[i].entries, ids)
  }

  predicate ValidManifest(data: Object) {
    && Identity(data)
    && HasObjects(data)
    && HasArrays(data)
    && ValidTests(Tests(data))
    && ValidItems(Customizations(data), IdSet(Tests(data)))
  }

  lemma IdSetMember(items: seq<Value>, i: nat)
    requires i <= |items| && AllHaveIds(items)
    ensures forall id :: id in IdSet(items[..i]) <==> exists j | 0 <= j < i :: Ids(items)[j] == id
  {
    forall id | id in IdSet(items[..i]) ensures exists j | 0 <= j < i :: Ids(items)[j] == id {
      var v :| v in items[..i] && HasId(v) && IdOf(v) == id;
      var j :| 0 <= j < i && items[j] == v;
      assert Ids(items)[j] == id;
    }
    forall j | 0 <= j < i ensures Ids(items)[j] in IdSet(items[..i]) {
      assert items[..i][j] == items[j] && items[j] in items[..i];
    }
  }

  predicate NoTestDefect(tests: seq<Value>, n: nat)
    requires n <= |tests|
  {
    forall i | 0 <= i < n :: TestDefect(tests, i).None?
  }

  lemma {:induction false} TestsDefectExact(tests: seq<Value>, n: nat)
    requires n <= |tests|
    ensures TestsDefect(tests, n).None? <==> NoTestDefect(tests, n)
  {
    if n > 0 {
      TestsDefectExact(tests, n - 1);
    }
  }

  predicate NoItemFailure(items: seq<Value>, n: nat, ids: set<string>)
    requires n <= |items|
  {
    forall i | 0 <= i < n :: ItemOutcome(items, i, ids).Done?
  }

  lemma {:induction false} ItemsOutcomeExact(items: seq<Value>, n: nat, ids: set<string>)
    requires n <= |items|
    ensures ItemsOutcome(items, n, ids).Done? <==> NoItemFailure(items, n, ids)
  {
    if n > 0 {
      ItemsOutcomeExact(items, n - 1, ids);
    }
  }

  lemma DistinctExact(items: seq<Value>)
    requires AllHaveIds(items)
    ensures Distinct(Ids(items)) <==> forall i | 0 <= i < |items| :: IdOf(items[i]) !in IdSet(items[..i])
  {
    var ids := Ids(items);
    forall i | 0 <= i < |items|
      ensures IdOf(items[i]) in IdSet(items[..i]) <==> exists j | 0 <= j < i :: ids[j] == ids[i]
    {
      IdSetMember(items, i);
    }
  }

  lemma ValidTestsExact(tests: seq<Value>)
    ensures TestsDefect(tests, |tests|).None? <==> ValidTests(tests)
  {
    hide HasId, IdOf, ValidCommand, IdSet;
    TestsDefectExact(tests, |tests|);
    if NoTestDefect(tests, |tests|) || ValidTests(tests) {
      forall i | 0 <= i < |tests| ensures HasId(tests[i]) {
        assert NoTestDefect(tests, |tests|) ==> TestDefect(tests, i).None?;
      }
      DistinctExact(tests);
      IdsAreObjects(tests);
      forall i | 0 <= i < |tests|
        ensures TestDefect(tests, i).None?
          <==> IdOf(tests[i]) !in IdSet(tests[..i]) && ValidCommand(Get(tests[i].entries, "command"))
      {
      }
    }
  }

  lemma {:induction false} UnknownExact(refs: seq<Value>, ids: set<string>)
    ensures Unknown(refs, ids) == [] <==> forall v | v in refs :: Known(v, ids)
  {
    if refs != [] {
      var n := |refs| - 1;
      UnknownExact(refs[..n], ids);
      assert refs == refs[..n] + [refs[n]];
    }
  }

  lemma ValidItemExact(item: Object, id: string, ids: set<string>)
    ensures RefsOutcome(id, TestRefs(item), ids).Done? && HasCheck(item) <==> ValidItem(item, ids)
  {
    hide Lookup;
    var refs := TestRefs(item);
    if refs.Some? {
      UnknownExact(refs.value, ids);
      if forall v | v in refs.value :: Known(v, ids) {
        forall i | 0 <= i < |refs.value| ensures Hashable(refs.value[i]) {
          assert Known(refs.value[i], ids);
        }
      }
      assert Truthy(Get(item, "test_ids")) <==> refs.value != [];
    }
  }

  lemma ValidItemsExact(items: seq<Value>, ids: set<string>)
    ensures ItemsOutcome(items, |items|, ids).Done? <==> ValidItems(items, ids)
  {
    hide HasId, IdOf, IdSet, ValidItem, RefsOutcome, HasCheck, TestRefs;
    ItemsOutcomeExact(items, |items|, ids);
    if NoItemFailure(items, |items|, ids) || ValidItems(items, ids) {
      forall i | 0 <= i < |items| ensures HasId(items[i]) {
        assert NoItemFailure(items, |items|, ids) ==> ItemOutcome(items, i, ids).Done?;
      }
      DistinctExact(items);
      IdsAreObjects(items);
      forall i | 0 <= i < |items|
        ensures ItemOutcome(items, i, ids).Done?
          <==> IdOf(items[i]) !in IdSet(items[..i]) && ValidItem(items[i].entries, ids)
      {
        ValidItemExact(items[i].entries, IdOf(items[i]), ids);
      }
    }
  }

  lemma IdsAreObjects(items: seq<Value>)
    requires AllHaveIds(items)
    ensures forall i | 0 <= i < |items| :: items[i].Dict?
  {
  }

  // The validator lets through exactly the valid manifests.
  lemma ValidationExact(data: Object)
    ensures Validation(data).Done? <==> ValidManifest(data)
  {
    if HasArrays(data) {
      ValidTestsExact(Tests(data));
      ValidItemsExact(Customizations(data), IdSet(Tests(data)));
    }
  }
}
