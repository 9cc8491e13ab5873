// Which manifests of customizations are valid, in the manifest's own words, and what is reported of the others.
module ManifestDefects {
  import opened Wrappers
  import opened DecodedJson
  import opened ReleaseManifest

  // ---- Parts of a manifest ----

  predicate Named(v: Value) { v.Dict? && Get(v.entries, "id").Str? }

  predicate SameName(a: Value, b: Value) { a.Dict? && b.Dict? && Get(a.entries, "id") == Get(b.entries, "id") }

  predicate Runnable(test: Value) {
    test.Dict? &&
    var command := Get(test.entries, "command");
    command.List? && |command.items| > 0 && forall i | 0 <= i < |command.items| :: command.items[i].Str?
  }

  // The test at `i` has a name of its own and a command.
  predicate GoodTest(tests: seq<Value>, i: nat)
    requires i < |tests|
  {
    Named(tests[i]) && Runnable(tests[i]) && forall j | 0 <= j < i :: !SameName(tests[j], tests[i])
  }

  predicate IsTest(v: Value, tests: seq<Value>) {
    v.Str? && exists i | 0 <= i < |tests| :: tests[i].Dict? && Get(tests[i].entries, "id") == v
  }

  // What the item refers to as its tests, if it can be iterated.
  function RefsOf(item: Value): Option<seq<Value>>
    requires item.Dict?
  {
    Elements(GetOr(item.entries, "test_ids", List([])))
  }

  // The item at `i` has a name of its own, refers to tests only, and has one or a runtime path.
  predicate GoodItem(items: seq<Value>, i: nat, tests: seq<Value>)
    requires i < |items|
  {
    && Named(items[i]) && (forall j | 0 <= j < i :: !SameName(items[j], items[i]))
    && RefsOf(items[i]).Some?
    && (forall k | 0 <= k < |RefsOf(items[i]).value| :: IsTest(RefsOf(items[i]).value[k], tests))
    && (RefsOf(items[i]).value != [] || Truthy(Get(items[i].entries, "runtime_http_paths")))
  }

  predicate OfPro(data: Object) {
    var version := Get(data, "schema_version");
    (version == Int(1) || version == Real(1.0) || version == Bool(true)) && Get(data, "product") == Str("pro")
  }

  predicate HasSections(data: Object) {
    Get(data, "canonical_repository").Dict? && Get(data, "runtime_contract").Dict?
  }

  predicate HasLists(data: Object) { Get(data, "release_tests").List? && Get(data, "customizations").List? }

  predicate GoodManifest(data: Object) {
    && OfPro(data) && HasSections(data) && HasLists(data)
    && var tests, items := Get(data, "release_tests").items, Get(data, "customizations").items;
       && (forall i | 0 <= i < |tests| :: GoodTest(tests, i))
       && (forall i | 0 <= i < |items| :: GoodItem(items, i, tests))
  }

  // ---- One test, one item ----

  lemma OfProExact(data: Object)
    ensures Identity(data) <==> OfPro(data)
  {
    hide Lookup;
    var version := Get(data, "schema_version");
    if version.Bool? {
      assert version == Bool(true) || version == Bool(false);
    }
  }

  lemma NamedExact(v: Value)
    ensures HasId(v) <==> Named(v)
    ensures Named(v) ==> Get(v.entries, "id") == Str(IdOf(v))
  {
  }

  lemma TakenExact(items: seq<Value>, i: nat)
    requires i < |items| && Named(items[i])
    ensures IdOf(items[i]) in IdSet(items[..i]) <==> exists j | 0 <= j < i :: SameName(items[j], items[i])
  {
    hide Lookup;
    if IdOf(items[i]) in IdSet(items[..i]) {
      var v :| v in items[..i] && HasId(v) && IdOf(v) == IdOf(items[i]);
      var j :| 0 <= j < i && items[j] == v;
      assert SameName(items[j], items[i]);
    }
    if j :| 0 <= j < i && SameName(items[j], items[i]) {
      assert items[..i][j] == items[j] && items[j] in items[..i];
      assert HasId(items[j]) && IdOf(items[j]) == IdOf(items[i]);
    }
  }

  // What is wrong with the test at `i`: its name is missing or taken, or it has no command.
  lemma TestFault(tests: seq<Value>, i: nat)
    requires i < |tests|
    ensures TestDefect(tests, i) ==
      if !Named(tests[i]) then Some(InvalidTest)
      else if exists j | 0 <= j < i :: SameName(tests[j], tests[i]) then
        Some(DuplicateTest(Get(tests[i].entries, "id").s))
      else if !Runnable(tests[i]) then Some(InvalidCommand(Get(tests[i].entries, "id").s))
      else None
    ensures TestDefect(tests, i).None? <==> GoodTest(tests, i)
  {
    hide Lookup, IdSet, SameName;
    NamedExact(tests[i]);
    if Named(tests[i]) {
      TakenExact(tests, i);
    }
  }

  lemma KnownExact(v: Value, tests: seq<Value>)
    ensures Known(v, IdSet(tests)) <==> IsTest(v, tests)
  {
    hide Lookup;
    if Known(v, IdSet(tests)) {
      var t :| t in tests && HasId(t) && IdOf(t) == v.s;
      var i :| 0 <= i < |tests| && tests[i] == t;
      assert Get(tests[i].entries, "id") == v;
    }
    if IsTest(v, tests) {
      var i :| 0 <= i < |tests| && tests[i].Dict? && Get(tests[i].entries, "id") == v;
      assert tests[i] in tests && HasId(tests[i]) && IdOf(tests[i]) == v.s;
    }
  }

  // The references that are no tests, in sequence.
  function Strangers(refs: seq<Value>, tests: seq<Value>): seq<Value> {
    if refs == [] then []
    else
      var before, last := Strangers(refs[..|refs| - 1], tests), refs[|refs| - 1];
      if IsTest(last, tests) then before else before + [last]
  }

  lemma {:induction false} StrangersExact(refs: seq<Value>, tests: seq<Value>)
    ensures Unknown(refs, IdSet(tests)) == Strangers(refs, tests)
    ensures Strangers(refs, tests) == [] <==> forall k | 0 <= k < |refs| :: IsTest(refs[k], tests)
  {
    hide Known, IsTest, IdSet;
    if refs != [] {
      var n := |refs| - 1;
      StrangersExact(refs[..n], tests);
      KnownExact(refs[n], tests);
      assert forall k | 0 <= k < n :: refs[..n][k] == refs[k];
    }
  }

  // Strings, numbers, or nulls alone can be sorted.
  predicate OneKind(vs: seq<Value>) {
    || (forall i | 0 <= i < |vs| :: vs[i].Str?)
    || (forall i | 0 <= i < |vs| :: vs[i].Bool? || vs[i].Int? || vs[i].Real?)
    || (forall i | 0 <= i < |vs| :: vs[i].Null?)
  }

  lemma OneKindExact(vs: seq<Value>)
    ensures Sortable(vs) <==> OneKind(vs)
  {
  }

  // What is wrong with the item at `i`: its name is missing or taken, its references cannot be made a set or the
  // unknown ones not be sorted, some are unknown, or it has no check at all.
  lemma ItemFault(items: seq<Value>, i: nat, tests: seq<Value>)
    requires i < |items|
    ensures ItemOutcome(items, i, IdSet(tests)) ==
      if !Named(items[i]) then Refused(InvalidCustomization)
      else
        var id, refs := Get(items[i].entries, "id").s, RefsOf(items[i]);
        if exists j | 0 <= j < i :: SameName(items[j], items[i]) then Refused(DuplicateCustomization(id))
        else if refs.None? then Crashed
        else if exists k | 0 <= k < |refs.value| :: refs.value[k].List? || refs.value[k].Dict? then Crashed
        else if Strangers(refs.value, tests) != [] then
          if OneKind(Strangers(refs.value, tests)) then Refused(UnknownTests(id)) else Crashed
        else if refs.value == [] && !Truthy(Get(items[i].entries, "runtime_http_paths")) then Refused(Unchecked(id))
        else Done(())
  {
    hide Lookup, IdSet, SameName, Known, Sortable, OneKind, Strangers, Unknown;
    NamedExact(items[i]);
    if Named(items[i]) {
      TakenExact(items, i);
      if RefsOf(items[i]).Some? {
        var refs := RefsOf(items[i]).value;
        StrangersExact(refs, tests);
        OneKindExact(Strangers(refs, tests));
        NoRefs(items[i]);
        assert AllHashable(refs) <==> forall k | 0 <= k < |refs| :: !(refs[k].List? || refs[k].Dict?);
      }
    }
  }

  // A value that yields nothing has no content, and one that can be iterated and yields something has.
  lemma NoRefs(item: Value)
    requires item.Dict? && RefsOf(item).Some?
    ensures Truthy(Get(item.entries, "test_ids")) <==> RefsOf(item).value != []
  {
    hide Lookup;
  }

  lemma ItemGood(items: seq<Value>, i: nat, tests: seq<Value>)
    requires i < |items|
    ensures ItemOutcome(items, i, IdSet(tests)).Done? <==> GoodItem(items, i, tests)
  {
    hide IdSet, ItemOutcome, SameName, IsTest, OneKind, Strangers, Named;
    ItemFault(items, i, tests);
    if Named(items[i]) && items[i].Dict? && RefsOf(items[i]).Some? {
      var refs := RefsOf(items[i]).value;
      StrangersExact(refs, tests);
      forall k | 0 <= k < |refs| && IsTest(refs[k], tests) ensures refs[k].Str? {
        TestIsText(refs[k], tests);
      }
    }
    NamedIsDict(items[i]);
  }

  lemma TestIsText(v: Value, tests: seq<Value>)
    requires IsTest(v, tests)
    ensures v.Str?
  {
  }

  lemma NamedIsDict(v: Value)
    ensures Named(v) ==> v.Dict?
  {
  }

  // ---- The whole manifest ----

  predicate FirstFaultyTest(tests: seq<Value>, i: nat) {
    i < |tests| && !GoodTest(tests, i) && forall j | 0 <= j < i :: GoodTest(tests, j)
  }

  predicate FirstFaultyItem(items: seq<Value>, i: nat, tests: seq<Value>) {
    i < |items| && !GoodItem(items, i, tests) && forall j | 0 <= j < i :: GoodItem(items, j, tests)
  }

  predicate AllTestsGood(tests: seq<Value>) { forall i | 0 <= i < |tests| :: GoodTest(tests, i) }

  predicate AllItemsGood(items: seq<Value>, tests: seq<Value>) {
    forall i | 0 <= i < |items| :: GoodItem(items, i, tests)
  }

  lemma TestsReported(tests: seq<Value>)
    ensures AllTestsGood(tests) <==> TestsDefect(tests, |tests|).None?
    ensures forall i: nat | FirstFaultyTest(tests, i) ::
      TestDefect(tests, i).Some? && TestsDefect(tests, |tests|) == TestDefect(tests, i)
  {
    hide GoodTest, TestDefect;
    forall i | 0 <= i < |tests| ensures TestDefect(tests, i).None? <==> GoodTest(tests, i) {
      TestFault(tests, i);
    }
    TestsDefectExact(tests, |tests|);
    forall i: nat | FirstFaultyTest(tests, i) ensures TestsDefect(tests, |tests|) == TestDefect(tests, i) {
      TestsDefectExact(tests, i);
      FirstTestDefect(tests, i + 1, |tests|);
    }
  }

  lemma ItemsReported(items: seq<Value>, tests: seq<Value>)
    ensures AllItemsGood(items, tests) <==> ItemsOutcome(items, |items|, IdSet(tests)).Done?
    ensures forall i: nat | FirstFaultyItem(items, i, tests) ::
      ItemsOutcome(items, |items|, IdSet(tests)) == ItemOutcome(items, i, IdSet(tests))
  {
    hide GoodItem, ItemOutcome, IdSet;
    var ids := IdSet(tests);
    forall i | 0 <= i < |items| ensures ItemOutcome(items, i, ids).Done? <==> GoodItem(items, i, tests) {
      ItemGood(items, i, tests);
    }
    ItemsOutcomeExact(items, |items|, ids);
    forall i: nat | FirstFaultyItem(items, i, tests)
      ensures ItemsOutcome(items, |items|, ids) == ItemOutcome(items, i, ids)
    {
      ItemsOutcomeExact(items, i, ids);
      FirstItemFailure(items, i + 1, |items|, ids);
    }
  }

  // The validator reports the first of these that is wrong, and otherwise lets the manifest through: its identity, its
  // objects, its lists, then test by test, then item by item. `TestFault` and `ItemFault` say what is reported there.
  lemma FirstDefectReported(data: Object)
    ensures !OfPro(data) ==> Validation(data) == Refused(WrongIdentity)
    ensures OfPro(data) && !HasSections(data) ==> Validation(data) == Refused(MissingObjects)
    ensures OfPro(data) && HasSections(data) && !HasLists(data) ==> Validation(data) == Refused(MissingArrays)
    ensures OfPro(data) && HasSections(data) && HasLists(data) ==>
      var tests, items := Get(data, "release_tests").items, Get(data, "customizations").items;
      && (forall i: nat | FirstFaultyTest(tests, i) ::
            TestDefect(tests, i).Some? && Validation(data) == Refused(TestDefect(tests, i).value))
      && (AllTestsGood(tests) ==>
            && (forall i: nat | FirstFaultyItem(items, i, tests) ::
                  Validation(data) == ItemOutcome(items, i, IdSet(tests)))
            && (AllItemsGood(items, tests) <==> Validation(data).Done?))
  {
    hide *;
    OfProExact(data);
    ValidationUnfolds(data);
    if HasLists(data) {
      ListsAre(data);
      var tests, items := Get(data, "release_tests").items, Get(data, "customizations").items;
      TestsReported(tests);
      ItemsReported(items, tests);
    }
  }

  lemma ListsAre(data: Object)
    requires HasLists(data)
    ensures HasArrays(data) && Get(data, "release_tests").List? && Get(data, "customizations").List?
    ensures Tests(data) == Get(data, "release_tests").items && Customizations(data) == Get(data, "customizations").items
  {
  }

  lemma ValidationUnfolds(data: Object)
    ensures HasObjects(data) == HasSections(data) && HasArrays(data) == HasLists(data)
    ensures Validation(data) ==
      if !Identity(data) then Refused(WrongIdentity)
      else if !HasSections(data) then Refused(MissingObjects)
      else if !HasLists(data) then Refused(MissingArrays)
      else
        var tests, items := Tests(data), Customizations(data);
        if TestsDefect(tests, |tests|).Some? then Refused(TestsDefect(tests, |tests|).value)
        else ItemsOutcome(items, |items|, IdSet(tests))
  {
    hide Lookup;
  }

  // So the valid manifests are the good ones.
  lemma ValidIsGood(data: Object)
    ensures ValidManifest(data) <==> GoodManifest(data)
  {
    hide *;
    ValidationExact(data);
    OfProExact(data);
    ValidationUnfolds(data);
    GoodParts(data);
    if HasLists(data) {
      ListsAre(data);
      TestsReported(Tests(data));
      ItemsReported(Customizations(data), Tests(data));
    }
  }

  lemma GoodParts(data: Object)
    ensures GoodManifest(data) <==>
      && OfPro(data) && HasSections(data) && HasLists(data)
      && AllTestsGood(Tests(data)) && AllItemsGood(Customizations(data), Tests(data))
  {
    hide OfPro, HasSections, GoodTest, GoodItem;
  }
}
