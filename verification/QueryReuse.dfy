// Using one query builder more than once: through clones, and by running it again.
module QueryReuse {
  import opened Wrappers
  import opened Leaves
  import opened AccountEntity
  import opened QueryModel
  import opened EagerSpec
  import opened LoadedGraph
  import opened Builders
  import opened EagerLoad
  import opened Agreement
  import opened Reruns
  import opened Rejoins

  lemma UnlockedFits(t: QueryTree, p: AccountPred)
    ensures GroupsFresh(Unlocked(t).(preds := Unlocked(t).preds + [p])) == GroupsFresh(t)
    ensures AllFieldsValid(t) ==> AllFieldsValid(Unlocked(t).(preds := Unlocked(t).preds + [p]))
    decreases Depth(t)
  {
    GroupsUnlocked(t);
    FieldsUnlocked(t);
  }

  lemma {:induction false} GroupsUnlocked(t: QueryTree)
    ensures GroupsFresh(Unlocked(t)) == GroupsFresh(t)
    decreases Depth(t)
  {
    if t.parent.Some? {
      GroupsUnlocked(t.parent.value);
    }
    if t.children.Some? {
      GroupsUnlocked(t.children.value);
    }
  }

  lemma {:induction false} FieldsUnlocked(t: QueryTree)
    ensures AllFieldsValid(Unlocked(t)) == AllFieldsValid(t)
    decreases Depth(t)
  {
    if t.parent.Some? {
      FieldsUnlocked(t.parent.value);
    }
    if t.children.Some? {
      FieldsUnlocked(t.children.value);
    }
  }

  // Extending a clone and running it: the original stays as it was, at every level.
  method RunExtendedClone(q: AccountQuery, p: AccountPred, driver: Driver)
    returns (nodes: seq<Account>, err: Option<LoadError>, ghost run: Run, ghost graph: set<Account>)
    requires ValidEngine(driver.engine) && Consistent(driver.db) && q.Valid()
    modifies driver`queries
    ensures q.Tree() == old(q.Tree())
    ensures AllFieldsValid(q.Tree()) ==> err.None? || (err == Some(Rejoined) && !GroupsFresh(q.Tree()))
    ensures err.None? ==>
      var t := Unlocked(q.Tree());
      && Batched(driver.db, t.(preds := t.preds + [p]), run)
      && StandFor(nodes, graph, Depth(t), run.nodes)
  {
    hide *;
    var clone := q.Clone();
    ghost var t := q.Tree();
    EagerLoad.Parts(clone);
    clone.Where(p);
    UnlockedFits(t, p);
    SameDepth(Unlocked(t), p);
    Undisturbed(driver.db, clone.Tree());
    nodes, err, run, graph := All(clone, driver);
  }

  lemma SameDepth(t: QueryTree, p: AccountPred)
    ensures Depth(t.(preds := t.preds + [p])) == Depth(t)
  {
  }

  lemma OwnedStillValid(q: Option<LeafQueryValue>, ids: seq<int>, rows: Option<seq<LeafRow>>)
    requires FieldsFit(q) && (q.Some? ==> AccountId in q.value.columns)
    ensures FieldsFit(OwnedAfter(q, ids, rows))
  {
  }

  lemma LeavesStillValid(t: QueryTree, run: Run)
    requires AllFieldsValid(t) && Shaped(t)
    ensures var u := After(t, run); FieldsFit(u.groups) && FieldsFit(u.proxy)
    ensures var u := After(t, run); FieldsFit(u.usageLogs) && FieldsFit(u.accountGroups)
  {
    hide DistinctKeys, After, ValidFields;
    AfterParts(t, run);
    OwnedStillValid(t.usageLogs, NodeIDs(run.nodes), run.usageLogs);
    OwnedStillValid(t.accountGroups, NodeIDs(run.nodes), run.accountGroups);
    hide OwnedAfter;
  }

  lemma {:induction false} FieldsStillValid(t: QueryTree, run: Run)
    requires AllFieldsValid(t) && Shaped(t)
    ensures AllFieldsValid(After(t, run))
    decreases Depth(t)
  {
    hide DistinctKeys, After, ValidFields, NodeIDs, ParentKeys, ProxyKeys, GroupsAfter, ProxyAfter, OwnedAfter;
    var keys, ids := DistinctKeys(ParentKeys(run.nodes)), NodeIDs(run.nodes);
    AfterParts(t, run);
    LeavesStillValid(t, run);
    if t.parent.Some? && run.parents.Some? {
      ParentTreeFit(t.parent.value, keys);
      FieldsStillValid(ParentQuery(t.parent.value, keys), run.parents.value);
    }
    if t.children.Some? && run.children.Some? {
      ChildTreeFit(t.children.value, ids);
      FieldsStillValid(ChildQuery(t.children.value, ids), run.children.value);
    }
  }

  // Running one builder twice leaves the logs of a repeated query, unless a run ends in a panic. Where the root returns
  // the same rows every time, the second one does exactly if some groups query of the first one returned a row.
  method RunTwice(q: AccountQuery, driver: Driver)
    returns (first: seq<Account>, second: seq<Account>, err: Option<LoadError>, ghost runs: seq<Run>,
             ghost firstGraph: set<Account>, ghost secondGraph: set<Account>)
    requires ValidEngine(driver.engine) && Consistent(driver.db) && q.Valid()
    modifies driver`queries, q.accountQueries, q.leafQueries
    ensures AllFieldsValid(old(q.Tree())) && Shaped(old(q.Tree())) ==> err.None? || err == Some(Rejoined)
    ensures AllFieldsValid(old(q.Tree())) && GroupsFresh(old(q.Tree())) ==> runs != []
    ensures runs != [] ==>
      && Batched(driver.db, old(q.Tree()), runs[0])
      && StandFor(first, firstGraph, Depth(old(q.Tree())), runs[0].nodes)
    ensures
      runs != [] && AllFieldsValid(old(q.Tree())) && Fits(old(q.Tree())) && SteadyRoot(driver.db, old(q.Tree())) ==>
      (err == Some(Rejoined) <==> !NoGroupRows(runs[0]))
    ensures err.None? ==>
      && |runs| == 2 && Repeated(driver.db, old(q.Tree()), runs)
      && StandFor(second, secondGraph, Depth(old(q.Tree())), runs[1].nodes)
  {
    hide *;
    ghost var t := q.Tree();
    second, secondGraph, runs := [], {}, [];
    ghost var one, two;
    first, err, one, firstGraph := All(q, driver);
    if err.Some? {
      Undisturbed(driver.db, t);
      return;
    }
    runs := [one];
    FitsIsShaped(t);
    if AllFieldsValid(t) && Shaped(t) {
      FieldsStillValid(t, one);
    }
    second, err, two, secondGraph := All(q, driver);
    if Fits(t) && SteadyRoot(driver.db, t) {
      SecondRunExactly(driver.db, t, one);
    }
    if err.None? {
      runs := [one, two];
      Twice(driver.db, t, one, two);
    }
  }

  lemma FitsIsShaped(t: QueryTree)
    ensures Fits(t) ==> Shaped(t)
  {
  }

  lemma Undisturbed(db: Database, t: QueryTree)
    ensures GroupsFresh(t) ==> !MayHalt(db, t)
  {
    if GroupsFresh(t) {
      forall h ensures !Halts(db, t, h) {
        FreshNeverHalts(db, t, h);
      }
    }
  }

  lemma Twice(db: Database, t: QueryTree, one: Run, two: Run)
    requires Batched(db, t, one) && Batched(db, After(t, one), two)
    ensures Repeated(db, t, [one, two]) && Depth(After(t, one)) == Depth(t)
  {
    hide Batched;
    AfterDepth(t, one);
    assert [one, two][1..] == [two] && [two][1..] == [];
    assert Repeated(db, After(After(t, one), two), []);
  }

  lemma {:induction false} AfterDepth(t: QueryTree, run: Run)
    ensures Depth(After(t, run)) == Depth(t)
    decreases Depth(t)
  {
    hide DistinctKeys, NodeIDs, ParentKeys, ProxyKeys;
    if t.parent.Some? && run.parents.Some? {
      AfterDepth(ParentQuery(t.parent.value, DistinctKeys(ParentKeys(run.nodes))), run.parents.value);
    }
    if t.children.Some? && run.children.Some? {
      AfterDepth(ChildQuery(t.children.value, NodeIDs(run.nodes)), run.children.value);
    }
  }
}
