// Running one query again and again: every run leaves a further restriction on the nested queries, and on unchanged
// data takes nothing away from the rows that it returned.
module Reruns {
  import opened Wrappers
  import opened Leaves
  import opened AccountEntity
  import opened QueryModel
  import opened EagerSpec
  import opened Selection
  import opened EagerRefinement
  import opened Agreement
  import GroupsRefinement
  import RunFacts

  // ---- One more restriction ----

  // A filter that a later, narrower one implies takes nothing away.
  lemma {:induction false} WiderIsRedundant(rows: seq<AccountRow>, ps: seq<AccountPred>, wide: AccountPred,
      narrow: AccountPred)
    requires forall r :: Holds(narrow, r) ==> Holds(wide, r)
    ensures MatchingAccounts(rows, ps + [wide] + [narrow]) == MatchingAccounts(rows, ps + [narrow])
  {
    hide Holds, HoldsAll;
    if rows != [] {
      HoldsAllMore(ps, wide, rows[0]);
      HoldsAllMore(ps + [wide], narrow, rows[0]);
      HoldsAllMore(ps, narrow, rows[0]);
      WiderIsRedundant(rows[1..], ps, wide, narrow);
    }
  }

  lemma {:induction false} WiderLeafIsRedundant(rows: seq<LeafRow>, ps: seq<LeafPred>, wide: LeafPred, narrow: LeafPred)
    requires forall r :: LeafHolds(narrow, r) ==> LeafHolds(wide, r)
    ensures MatchingLeaves(rows, ps + [wide] + [narrow]) == MatchingLeaves(rows, ps + [narrow])
  {
    hide LeafHolds, LeafHoldsAll;
    if rows != [] {
      LeafHoldsAllMore(ps, wide, rows[0]);
      LeafHoldsAllMore(ps + [wide], narrow, rows[0]);
      LeafHoldsAllMore(ps, narrow, rows[0]);
      WiderLeafIsRedundant(rows[1..], ps, wide, narrow);
    }
  }

  lemma AddedOnce<T>(fields: seq<T>, field: T)
    ensures AppendFieldOnce(AppendFieldOnce(fields, field), field) == AppendFieldOnce(fields, field)
  {
  }

  lemma ProxyAgain(db: Database, q: LeafQueryValue, ids: seq<int>, k: int, rows: seq<LeafRow>)
    requires k in ids && LeafAnswer(db, ProxyQuery(ProxyQuery(q, ids), [k]), rows)
    ensures LeafAnswer(db, ProxyQuery(q, [k]), rows)
  {
    hide Answers;
    WiderLeafIsRedundant(db.Rows(q.table), q.preds, LeafIDIn(ids), LeafIDIn([k]));
  }

  lemma OwnedAgain(db: Database, q: Option<LeafQueryValue>, ids: seq<int>, v: AccountV, edge: seq<Leaf>)
    requires q.Some? && v.fields.ints.id in ids && NaiveOwned(db, Some(OwnedQuery(q.value, ids)), v, edge)
    ensures NaiveOwned(db, q, v, edge)
  {
    hide Answers, ScanLeaves;
    var id := v.fields.ints.id;
    WiderLeafIsRedundant(db.Rows(q.value.table), q.value.preds, AccountIn(ids), AccountIn([id]));
    AddedOnce(q.value.fields, AccountId);
    assert OwnedQuery(OwnedQuery(q.value, ids), [id])
      == OwnedQuery(q.value, [id]).(preds := q.value.preds + [AccountIn(ids)] + [AccountIn([id])]);
    assert LeafSpecColumns(OwnedQuery(OwnedQuery(q.value, ids), [id])) == LeafSpecColumns(OwnedQuery(q.value, [id]));
  }

  lemma ParentAgain(db: Database, q: QueryTree, ids: seq<int>, k: int, rows: seq<AccountRow>)
    requires k in ids && AccountAnswer(db, ParentQuery(ParentQuery(q, ids), [k]), rows)
    ensures AccountAnswer(db, ParentQuery(q, [k]), rows)
  {
    hide Answers;
    WiderIsRedundant(db.accounts, q.preds, IDIn(ids), IDIn([k]));
  }

  lemma ChildrenAgain(db: Database, q: QueryTree, ids: seq<int>, id: int, rows: seq<AccountRow>)
    requires id in ids && AccountAnswer(db, ChildQuery(ChildQuery(q, ids), [id]), rows)
    ensures AccountAnswer(db, ChildQuery(q, [id]), rows)
  {
    hide Answers;
    WiderIsRedundant(db.accounts, q.preds, ParentIn(ids), ParentIn([id]));
  }

  // ---- Rows of an earlier run ----

  // An unlimited run holds every row that a narrower query can return.
  lemma EarlierRow(db: Database, q: QueryTree, narrow: QueryTree, run: Run, row: AccountRow)
    requires q.offset == 0 && q.limit == 0 && AccountAnswer(db, q, NodeRows(run.nodes))
    requires row in db.accounts && HoldsAll(narrow.preds, row)
    requires HoldsAll(narrow.preds, row) ==> HoldsAll(q.preds, row)
    ensures row in NodeRows(run.nodes)
  {
    hide HoldsAll, Arranges, MatchingAccounts;
    var rows, matching := NodeRows(run.nodes), MatchingAccounts(db.accounts, q.preds);
    UnlimitedAnswer(rows, matching, q.order);
    MatchedRow(db.accounts, q.preds, row);
    Arranged(rows, matching, q.order, row);
  }

  lemma Arranged<R>(rows: seq<R>, matching: seq<R>, order: Order<R>, row: R)
    requires Arranges(rows, matching, order)
    ensures row in rows <==> row in matching
  {
    assert row in multiset(rows) <==> row in multiset(matching);
  }

  // ---- What After keeps ----

  lemma AfterParts(t: QueryTree, run: Run)
    ensures var u, ids, keys := After(t, run), NodeIDs(run.nodes), ParentKeys(run.nodes);
      && u.preds == t.preds && u.fields == t.fields && u.order == t.order && u.offset == t.offset && u.limit == t.limit
      && SpecColumns(u) == SpecColumns(t) && Requested(u) == Requested(t)
      && u.groups == GroupsAfter(t.groups, ids, run.groups)
      && u.proxy == ProxyAfter(t.proxy, ProxyKeys(run.nodes), run.proxies)
      && u.parent == ParentAfter(t.parent, keys, run.parents)
      && u.children == ChildrenAfter(t.children, ids, run.children)
      && u.usageLogs == OwnedAfter(t.usageLogs, ids, run.usageLogs)
      && u.accountGroups == OwnedAfter(t.accountGroups, ids, run.accountGroups)
  {
  }

  lemma FitsParts(t: QueryTree)
    ensures Fits(t) <==>
      && NoWindow(t.groups) && OnTable(t.groups, Groups) && NoWindow(t.proxy) && NoWindow(t.usageLogs)
      && NoWindow(t.accountGroups)
      && OnTable(t.proxy, Proxies) && OnTable(t.usageLogs, UsageLogs) && OnTable(t.accountGroups, AccountGroups)
      && NestedFits(t.parent) && NestedFits(t.children)
  {
  }

  predicate NestedFits(q: Option<QueryTree>) {
    q.Some? ==> q.value.offset == 0 && q.value.limit == 0 && Shaped(q.value) && NestedUnlimited(q.value)
  }

  lemma RestrictedFits(q: QueryTree, ids: seq<int>)
    requires NestedFits(Some(q))
    ensures NestedFits(Some(ParentQuery(q, ids))) && NestedFits(Some(ChildQuery(q, ids)))
  {
  }

  lemma {:induction false} AfterFits(t: QueryTree, run: Run)
    requires Fits(t)
    ensures Fits(After(t, run))
    decreases Depth(t)
  {
    hide After, Shaped, NestedUnlimited, DistinctKeys, SpecColumns, Requested;
    var ids, keys := NodeIDs(run.nodes), DistinctKeys(ParentKeys(run.nodes));
    AfterParts(t, run);
    FitsParts(t);
    if t.parent.Some? && run.parents.Some? {
      var q := ParentQuery(t.parent.value, keys);
      RestrictedFits(t.parent.value, keys);
      AfterFits(q, run.parents.value);
      AfterParts(q, run.parents.value);
    }
    if t.children.Some? && run.children.Some? {
      var q := ChildQuery(t.children.value, ids);
      RestrictedFits(t.children.value, ids);
      AfterFits(q, run.children.value);
      AfterParts(q, run.children.value);
    }
    FitsParts(After(t, run));
  }

  // ---- The second run ----

  // Whether a run that issued the edge's query asked for what node `v` would be given.
  predicate AsksGroups(run: Run, v: AccountV) { run.groups.Some? ==> v.fields.ints.id in NodeIDs(run.nodes) }

  predicate AsksProxy(run: Run, v: AccountV) {
    run.proxies.Some? && v.fields.ints.proxyID.Some? ==>
      v.fields.ints.proxyID.value in DistinctKeys(ProxyKeys(run.nodes))
  }

  predicate AsksParent(run: Run, v: AccountV) {
    run.parents.Some? && v.fields.ints.parentAccountID.Some? ==>
      v.fields.ints.parentAccountID.value in DistinctKeys(ParentKeys(run.nodes))
  }

  predicate AsksChildren(run: Run, v: AccountV) { run.children.Some? ==> v.fields.ints.id in NodeIDs(run.nodes) }

  predicate AsksOwned(rows: Option<seq<LeafRow>>, run: Run, v: AccountV) {
    rows.Some? ==> v.fields.ints.id in NodeIDs(run.nodes)
  }

  predicate AsksAll(run: Run, v: AccountV) {
    && AsksGroups(run, v) && AsksProxy(run, v) && AsksParent(run, v) && AsksChildren(run, v)
    && AsksOwned(run.usageLogs, run, v) && AsksOwned(run.accountGroups, run, v)
  }

  // For a row it returned a run asks for everything.
  lemma ReturnedAsks(db: Database, t: QueryTree, run: Run, v: AccountV)
    requires Batched(db, t, run) && ScannedBy(db, After(t, run), v) && v.row in NodeRows(run.nodes)
    ensures AsksAll(run, v)
  {
    hide Batched, SpecColumns, Requested, Scan, After, DistinctKeys;
    AfterParts(t, run);
    BatchedAnswer(db, t, run);
    var i :| 0 <= i < |run.nodes| && NodeRows(run.nodes)[i] == v.row;
    assert v.fields == run.nodes[i].fields;
    DistinctKeysExact(ProxyKeys(run.nodes));
    DistinctKeysExact(ParentKeys(run.nodes));
    assert NodeIDs(run.nodes)[i] == v.fields.ints.id;
    if v.fields.ints.proxyID.Some? {
      var k := v.fields.ints.proxyID.value;
      assert ProxyKeys(run.nodes)[i] == Some(k) && Some(k) in ProxyKeys(run.nodes);
    }
    if v.fields.ints.parentAccountID.Some? {
      var k := v.fields.ints.parentAccountID.value;
      assert ParentKeys(run.nodes)[i] == Some(k) && Some(k) in ParentKeys(run.nodes);
    }
  }

  lemma StillScanned(db: Database, t: QueryTree, run: Run, v: AccountV)
    ensures ScannedBy(db, After(t, run), v) <==> ScannedBy(db, t, v)
  {
    hide After, SpecColumns, Requested, Scan;
    AfterParts(t, run);
  }

  // A node that the restricted tree gives, where all its edges had been asked for, is one the original tree gives.
  lemma {:induction false} RerunNode(db: Database, t: QueryTree, run: Run, v: AccountV)
    requires Consistent(db) && Fits(t) && Batched(db, t, run)
    requires Naive(db, After(t, run), v) && AsksAll(run, v)
    ensures Naive(db, t, v)
    decreases Depth(t), 1
  {
    hide NaiveParent, NaiveChildren, NaiveOwned, NaiveProxy, Batched, After, ScannedBy, NodeRows;
    NaiveParts(db, After(t, run), v);
    StillScanned(db, t, run, v);
    RerunGroups(db, t, run, v);
    RerunProxy(db, t, run, v);
    RerunUsageLogs(db, t, run, v);
    RerunJoinRows(db, t, run, v);
    RerunParent(db, t, run, v);
    RerunChildren(db, t, run, v);
  }

  lemma RerunUsageLogs(db: Database, t: QueryTree, run: Run, v: AccountV)
    requires AsksOwned(run.usageLogs, run, v) && NaiveOwned(db, After(t, run).usageLogs, v, v.edges.usageLogs)
    ensures NaiveOwned(db, t.usageLogs, v, v.edges.usageLogs)
  {
    hide After, NaiveOwned;
    AfterParts(t, run);
    if t.usageLogs.Some? && run.usageLogs.Some? {
      OwnedAgain(db, t.usageLogs, NodeIDs(run.nodes), v, v.edges.usageLogs);
    }
  }

  lemma RerunJoinRows(db: Database, t: QueryTree, run: Run, v: AccountV)
    requires AsksOwned(run.accountGroups, run, v)
    requires NaiveOwned(db, After(t, run).accountGroups, v, v.edges.accountGroups)
    ensures NaiveOwned(db, t.accountGroups, v, v.edges.accountGroups)
  {
    hide After, NaiveOwned;
    AfterParts(t, run);
    if t.accountGroups.Some? && run.accountGroups.Some? {
      OwnedAgain(db, t.accountGroups, NodeIDs(run.nodes), v, v.edges.accountGroups);
    }
  }

  lemma RerunGroups(db: Database, t: QueryTree, run: Run, v: AccountV)
    requires AsksGroups(run, v) && NaiveGroups(db, After(t, run), v)
    ensures NaiveGroups(db, t, v)
  {
    hide After, ScanLeaves, Joinable, MatchingGroups, Answers, GroupAnswer;
    var ids, id, links := NodeIDs(run.nodes), v.fields.ints.id, db.accountGroups;
    AfterParts(t, run);
    if t.groups.Some? && run.groups.Some? {
      var ps := t.groups.value.preds;
      GroupsRefinement.JoinIgnored(links, db.groups, ps + [JoinedTo(ids)], [id], id);
      GroupsRefinement.JoinIgnored(links, db.groups, ps, ids, id);
      GroupsRefinement.JoinIgnored(links, db.groups, ps, [id], id);
      SameGroupColumns(t.groups.value, ids, id);
    }
  }

  lemma SameGroupColumns(q: LeafQueryValue, ids: seq<int>, id: int)
    ensures LeafSpecColumns(GroupQuery(GroupQuery(q, ids), [id])) == LeafSpecColumns(GroupQuery(q, [id]))
  {
  }

  lemma RerunProxy(db: Database, t: QueryTree, run: Run, v: AccountV)
    requires AsksProxy(run, v) && NaiveProxy(db, After(t, run), v)
    ensures NaiveProxy(db, t, v)
  {
    hide After, ScanLeaf, LeafAnswer, DistinctKeys, LeafSpecColumns;
    var keys, key := ProxyKeys(run.nodes), v.fields.ints.proxyID;
    AfterParts(t, run);
    if t.proxy.Some? && run.proxies.Some? && key.Some? {
      var k := key.value;
      ProxyAgain(db, t.proxy.value, DistinctKeys(keys), k,
                 if v.edges.proxy.Some? then [v.edges.proxy.value.row] else []);
      SameColumns(t.proxy.value, DistinctKeys(keys), k);
    }
  }

  lemma SameColumns(q: LeafQueryValue, ids: seq<int>, k: int)
    ensures LeafSpecColumns(ProxyQuery(ProxyQuery(q, ids), [k])) == LeafSpecColumns(ProxyQuery(q, [k]))
  {
  }

  lemma RerunParent(db: Database, t: QueryTree, run: Run, v: AccountV)
    requires Consistent(db) && Fits(t) && Batched(db, t, run)
    requires AsksParent(run, v) && NaiveParent(db, After(t, run), v)
    ensures NaiveParent(db, t, v)
    decreases Depth(t), 0
  {
    hide Batched, Naive, AccountAnswer, After, DistinctKeys, Consistent, Shaped, NestedUnlimited;
    var keys, key := ParentKeys(run.nodes), v.fields.ints.parentAccountID;
    var ids := DistinctKeys(keys);
    AfterParts(t, run);
    ChildrenFit(t);
    RunFacts.NestedRuns(db, t, run);
    if t.parent.Some? && run.parents.Some? && key.Some? {
      var k, tp, parent := key.value, t.parent.value, v.edges.parent;
      var q, first := ParentQuery(tp, ids), run.parents.value;
      var again := After(q, first);
      AfterParts(q, first);
      var rows := if parent.Some? then [parent.value.row] else [];
      assert AccountAnswer(db, ParentQuery(again, [k]), rows);
      SameAnswer(db, ParentQuery(again, [k]), ParentQuery(q, [k]), rows);
      ParentAgain(db, tp, ids, k, rows);
      if parent.Some? {
        RerunFoundParent(db, tp, ids, k, first, parent.value);
      }
    }
  }

  lemma RerunFoundParent(db: Database, tp: QueryTree, ids: seq<int>, k: int, first: Run, parent: AccountV)
    requires Consistent(db) && Fits(tp) && tp.offset == 0 && tp.limit == 0 && Batched(db, ParentQuery(tp, ids), first)
    requires k in ids && AccountAnswer(db, ParentQuery(tp, [k]), [parent.row])
    requires Naive(db, ParentQuery(After(ParentQuery(tp, ids), first), [k]), parent)
    ensures Naive(db, ParentQuery(tp, [k]), parent)
    decreases Depth(tp), 2
  {
    hide Batched, Naive, AccountAnswer, After, Consistent, Shaped, NestedUnlimited, AsksAll;
    var q := ParentQuery(tp, ids);
    var again := After(q, first);
    AfterParts(q, first);
    ParentIn1(db, tp, ids, k, first, parent.row);
    NaiveIgnoresPreds(db, ParentQuery(again, [k]), again, parent);
    RestrictionFits(db, tp, ids);
    NaiveParts(db, again, parent);
    ReturnedAsks(db, q, first, parent);
    RerunNode(db, q, first, parent);
    NaiveIgnoresPreds(db, q, ParentQuery(tp, [k]), parent);
  }

  lemma ChildrenFit(t: QueryTree)
    requires Fits(t)
    ensures t.parent.Some? ==> Fits(t.parent.value) && t.parent.value.offset == 0 && t.parent.value.limit == 0
    ensures t.children.Some? ==> Fits(t.children.value) && t.children.value.offset == 0 && t.children.value.limit == 0
  {
  }

  lemma SameAnswer(db: Database, a: QueryTree, b: QueryTree, rows: seq<AccountRow>)
    requires AccountAnswer(db, a, rows)
    requires a.preds == b.preds && a.order == b.order && a.offset == b.offset && a.limit == b.limit
    ensures AccountAnswer(db, b, rows)
  {
  }

  lemma ParentIn1(db: Database, tp: QueryTree, ids: seq<int>, k: int, first: Run, row: AccountRow)
    requires tp.offset == 0 && tp.limit == 0 && k in ids && AccountAnswer(db, ParentQuery(tp, [k]), [row])
    requires Batched(db, ParentQuery(tp, ids), first)
    ensures row in NodeRows(first.nodes)
  {
    hide Batched, HoldsAll, AccountAnswer;
    BatchedAnswer(db, ParentQuery(tp, ids), first);
    NodesAreRows(db, ParentQuery(tp, [k]), [row]);
    assert row in [row];
    HoldsAllMore(tp.preds, IDIn([k]), row);
    HoldsAllMore(tp.preds, IDIn(ids), row);
    EarlierRow(db, ParentQuery(tp, ids), ParentQuery(tp, [k]), first, row);
  }

  lemma RerunChildren(db: Database, t: QueryTree, run: Run, v: AccountV)
    requires Consistent(db) && Fits(t) && Batched(db, t, run)
    requires AsksChildren(run, v) && NaiveChildren(db, After(t, run), v)
    ensures NaiveChildren(db, t, v)
    decreases Depth(t), 0
  {
    hide Batched, Naive, AccountAnswer, After, Consistent, Shaped, NestedUnlimited;
    var ids, id := NodeIDs(run.nodes), v.fields.ints.id;
    AfterParts(t, run);
    ChildrenFit(t);
    RunFacts.NestedRuns(db, t, run);
    if t.children.Some? && run.children.Some? {
      var tc, children := t.children.value, v.edges.children;
      var q, first := ChildQuery(tc, ids), run.children.value;
      var again := After(q, first);
      AfterParts(q, first);
      var rows := NodeRows(children);
      assert AccountAnswer(db, ChildQuery(again, [id]), rows);
      SameAnswer(db, ChildQuery(again, [id]), ChildQuery(q, [id]), rows);
      ChildrenAgain(db, tc, ids, id, rows);
      RestrictionFits(db, tc, ids);
      forall j | 0 <= j < |children| ensures Naive(db, ChildQuery(tc, [id]), children[j]) {
        RerunChild(db, tc, ids, id, first, children, j);
      }
    }
  }

  lemma RerunChild(db: Database, tc: QueryTree, ids: seq<int>, id: int, first: Run, children: seq<AccountV>, j: nat)
    requires Consistent(db) && Fits(tc) && Batched(db, ChildQuery(tc, ids), first) && id in ids
    requires tc.offset == 0 && tc.limit == 0 && AccountAnswer(db, ChildQuery(tc, [id]), NodeRows(children))
    requires j < |children| && Naive(db, ChildQuery(After(ChildQuery(tc, ids), first), [id]), children[j])
    ensures Naive(db, ChildQuery(tc, [id]), children[j])
    decreases Depth(tc), 2
  {
    hide Batched, Naive, AccountAnswer, After, Consistent, Shaped, NestedUnlimited, AsksAll;
    var q, again := ChildQuery(tc, ids), After(ChildQuery(tc, ids), first);
    AfterParts(q, first);
    AfterKeepsFields(q, first);
    RestrictedFits(tc, ids);
    ChildIn1(db, tc, ids, id, first, NodeRows(children), j);
    NaiveIgnoresPreds(db, ChildQuery(again, [id]), again, children[j]);
    NaiveParts(db, again, children[j]);
    ReturnedAsks(db, q, first, children[j]);
    RerunNode(db, q, first, children[j]);
    NaiveIgnoresPreds(db, q, ChildQuery(tc, [id]), children[j]);
  }

  lemma AfterKeepsFields(t: QueryTree, run: Run)
    ensures After(t, run).fields == t.fields
  {
  }

  lemma ChildIn1(db: Database, tc: QueryTree, ids: seq<int>, id: int, first: Run, rows: seq<AccountRow>, j: nat)
    requires tc.offset == 0 && tc.limit == 0 && id in ids && AccountAnswer(db, ChildQuery(tc, [id]), rows) && j < |rows|
    requires Batched(db, ChildQuery(tc, ids), first)
    ensures rows[j] in NodeRows(first.nodes)
  {
    hide Batched, HoldsAll, AccountAnswer;
    BatchedAnswer(db, ChildQuery(tc, ids), first);
    NodesAreRows(db, ChildQuery(tc, [id]), rows);
    assert rows[j] in rows;
    HoldsAllMore(tc.preds, ParentIn([id]), rows[j]);
    HoldsAllMore(tc.preds, ParentIn(ids), rows[j]);
    EarlierRow(db, ChildQuery(tc, ids), ChildQuery(tc, [id]), first, rows[j]);
  }

  // ---- Any number of runs ----

  // The logs of running one builder over and over on unchanged data.
  ghost predicate Repeated(db: Database, t: QueryTree, runs: seq<Run>)
    decreases |runs|
  {
    runs != [] ==> Batched(db, t, runs[0]) && Repeated(db, After(t, runs[0]), runs[1..])
  }

  // The root query returns the same rows every time: it has no window, or it is totally ordered.
  ghost predicate SteadyRoot(db: Database, t: QueryTree) {
    (t.offset == 0 && t.limit == 0) || Separates(t.order, db.accounts)
  }

  lemma SteadyRows(db: Database, t: QueryTree, a: seq<AccountRow>, b: seq<AccountRow>)
    requires SteadyRoot(db, t) && AccountAnswer(db, t, a) && AccountAnswer(db, t, b)
    ensures forall r | r in b :: r in a
  {
    var matching := MatchingAccounts(db.accounts, t.preds);
    var fullA :| Arranges(fullA, matching, t.order) && a == Window(fullA, t.offset, t.limit);
    var fullB :| Arranges(fullB, matching, t.order) && b == Window(fullB, t.offset, t.limit);
    hide AccountAnswer, Sorted, MatchingAccounts;
    if Separates(t.order, db.accounts) {
      forall r | r in fullA ensures r in db.accounts {
        Arranged(fullA, matching, t.order, r);
        MatchedRow(db.accounts, t.preds, r);
      }
      SortedUnique(fullA, fullB, t.order, db.accounts);
    } else {
      forall r | r in b ensures r in a {
        Arranged(fullA, matching, t.order, r);
        Arranged(fullB, matching, t.order, r);
      }
    }
  }

  lemma {:induction false} RepeatedRoot(db: Database, t: QueryTree, runs: seq<Run>, j: nat)
    requires Repeated(db, t, runs) && j < |runs|
    ensures AccountAnswer(db, t, NodeRows(runs[j].nodes))
    decreases j
  {
    hide Batched, After, AccountAnswer, NodeRows;
    BatchedAnswer(db, t, runs[0]);
    if j > 0 {
      var u := After(t, runs[0]);
      AfterParts(t, runs[0]);
      RepeatedRoot(db, u, runs[1..], j - 1);
      SameAnswer(db, u, t, NodeRows(runs[j].nodes));
    }
  }

  lemma RowsOfNodes(vs: seq<AccountV>, v: AccountV)
    requires v in vs
    ensures v.row in NodeRows(vs)
  {
    var i :| 0 <= i < |vs| && vs[i] == v;
    assert NodeRows(vs)[i] == v.row;
  }

  // However often the query has run before, the node of a row that every earlier run returned is one that loading the
  // row alone with the query as it first stood may give.
  lemma {:induction false} RerunsAgree(db: Database, t: QueryTree, runs: seq<Run>, j: nat, v: AccountV)
    requires Consistent(db) && Fits(t) && Repeated(db, t, runs) && j < |runs| && v in runs[j].nodes
    requires forall k | 0 <= k < j :: v.row in NodeRows(runs[k].nodes)
    ensures Naive(db, t, v)
    decreases j
  {
    hide Batched, After, AccountAnswer, NodeRows, Naive, Shaped, NestedUnlimited, Consistent, AsksAll;
    if j == 0 {
      BatchedIsNaive(db, t, runs[0]);
    } else {
      var u := After(t, runs[0]);
      AfterFits(t, runs[0]);
      forall k | 0 <= k < j - 1 ensures v.row in NodeRows(runs[1..][k].nodes) {
        assert runs[1..][k] == runs[k + 1];
      }
      RerunsAgree(db, u, runs[1..], j - 1, v);
      NaiveParts(db, u, v);
      ReturnedAsks(db, t, runs[0], v);
      RerunNode(db, t, runs[0], v);
    }
  }

  // Where the root returns the same rows every time, that is every node of every run.
  lemma SteadyRerunsAgree(db: Database, t: QueryTree, runs: seq<Run>, j: nat)
    requires Consistent(db) && Fits(t) && SteadyRoot(db, t)
    requires Repeated(db, t, runs) && j < |runs|
    ensures AccountAnswer(db, t, NodeRows(runs[j].nodes))
    ensures forall v | v in runs[j].nodes :: Naive(db, t, v)
    ensures forall k, r | 0 <= k < |runs| :: r in NodeRows(runs[k].nodes) <==> r in NodeRows(runs[j].nodes)
  {
    hide Batched, After, AccountAnswer, NodeRows, Naive, Shaped, NestedUnlimited, Consistent, Separates;
    RepeatedRoot(db, t, runs, j);
    forall k | 0 <= k < |runs| ensures forall r :: r in NodeRows(runs[k].nodes) <==> r in NodeRows(runs[j].nodes) {
      RepeatedRoot(db, t, runs, k);
      SteadyRows(db, t, NodeRows(runs[k].nodes), NodeRows(runs[j].nodes));
      SteadyRows(db, t, NodeRows(runs[j].nodes), NodeRows(runs[k].nodes));
    }
    forall v | v in runs[j].nodes ensures Naive(db, t, v) {
      RowsOfNodes(runs[j].nodes, v);
      RerunsAgree(db, t, runs, j, v);
    }
  }

  // So two runs give a row that every run so far returned the same node, up to the sequence of its to-many edges, and
  // exactly the same one if the nested queries are totally ordered.
  lemma RerunsReturnTheSame(db: Database, t: QueryTree, runs: seq<Run>, i: nat, j: nat, a: AccountV, b: AccountV)
    requires Consistent(db) && Fits(t) && Repeated(db, t, runs) && i < |runs| && j < |runs|
    requires a in runs[i].nodes && b in runs[j].nodes && a.row == b.row
    requires forall k | 0 <= k < i || 0 <= k < j :: a.row in NodeRows(runs[k].nodes)
    ensures Alike(a, b) && (NestedTotal(db, t) ==> a == b)
  {
    hide Naive, Alike, NestedTotal, Repeated, Shaped, NestedUnlimited, Consistent, NodeRows;
    RerunsAgree(db, t, runs, i, a);
    RerunsAgree(db, t, runs, j, b);
    NaiveIsUnique(db, t, a, b);
  }

  // Where the root returns the same rows every time, that is every row.
  lemma SteadyRerunsReturnTheSame(db: Database, t: QueryTree, runs: seq<Run>, i: nat, j: nat, a: AccountV, b: AccountV)
    requires Consistent(db) && Fits(t) && SteadyRoot(db, t)
    requires Repeated(db, t, runs) && i < |runs| && j < |runs|
    requires a in runs[i].nodes && b in runs[j].nodes && a.row == b.row
    ensures Alike(a, b) && (NestedTotal(db, t) ==> a == b)
    ensures forall r :: r in NodeRows(runs[i].nodes) <==> r in NodeRows(runs[j].nodes)
  {
    hide Naive, Alike, NestedTotal, Repeated, SteadyRoot, Shaped, NestedUnlimited, Consistent, AccountAnswer, NodeRows;
    SteadyRerunsAgree(db, t, runs, i);
    RowsOfNodes(runs[i].nodes, a);
    RerunsReturnTheSame(db, t, runs, i, j, a, b);
  }
}
