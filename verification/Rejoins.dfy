// Running a query again whose groups edge has been loaded: when the second run ends in a panic.
module Rejoins {
  import opened Wrappers
  import opened Sql
  import opened Leaves
  import opened AccountEntity
  import opened QueryModel
  import opened EagerSpec
  import opened Selection
  import opened EagerRefinement
  import opened Agreement
  import opened GroupsRefinement
  import opened Reruns
  import NestedLimits
  import RunFacts

  lemma HaltsHere(db: Database, t: QueryTree, h: Halt)
    requires Halts(db, t, h)
    ensures MayHalt(db, t)
  {
  }

  // Without a groups query that has been joined before no run ends like this.
  lemma {:induction false} FreshNeverHalts(db: Database, t: QueryTree, h: Halt)
    requires GroupsFresh(t)
    ensures !Halts(db, t, h)
    decreases Depth(t)
  {
    match h {
      case AtGroups(_) =>
      case AtParent(nodes, inner) =>
        if t.parent.Some? {
          FreshNeverHalts(db, ParentQuery(t.parent.value, DistinctKeys(ParentKeys(nodes))), inner);
        }
      case AtChildren(nodes, inner) =>
        if t.children.Some? {
          FreshNeverHalts(db, ChildQuery(t.children.value, NodeIDs(nodes)), inner);
        }
    }
  }

  // ---- Trees whose own restrictions let the same rows through ----

  ghost predicate SameRows(db: Database, t: QueryTree, u: QueryTree) {
    u == t.(preds := u.preds) && forall r | r in db.accounts :: HoldsAll(t.preds, r) <==> HoldsAll(u.preds, r)
  }

  lemma {:induction false} SameMatching(rows: seq<AccountRow>, ps: seq<AccountPred>, qs: seq<AccountPred>)
    requires forall r | r in rows :: HoldsAll(ps, r) <==> HoldsAll(qs, r)
    ensures MatchingAccounts(rows, ps) == MatchingAccounts(rows, qs)
  {
    hide HoldsAll;
    if rows != [] {
      assert forall r | r in rows[1..] :: r in rows;
      assert rows[0] in rows;
      SameMatching(rows[1..], ps, qs);
    }
  }

  lemma SameAnswers(db: Database, t: QueryTree, u: QueryTree)
    requires SameRows(db, t, u)
    ensures forall rows :: AccountAnswer(db, t, rows) <==> AccountAnswer(db, u, rows)
    ensures forall v :: ScannedBy(db, t, v) <==> ScannedBy(db, u, v)
  {
    SameMatching(db.accounts, t.preds, u.preds);
  }

  lemma HaltMoves(db: Database, t: QueryTree, u: QueryTree, h: Halt)
    requires SameRows(db, t, u) && Halts(db, t, h)
    ensures Halts(db, u, h)
  {
    hide AccountAnswer, ScannedBy, Unreadable, DistinctKeys, HoldsAll;
    SameAnswers(db, t, u);
  }

  // ---- Answers with the same rows ----

  ghost predicate SameMembers(a: seq<int>, b: seq<int>) { forall k :: k in a <==> k in b }

  lemma SameKeys(db: Database, t: QueryTree, vs: seq<AccountV>, ws: seq<AccountV>)
    requires forall i | 0 <= i < |vs| :: ScannedBy(db, t, vs[i])
    requires forall i | 0 <= i < |ws| :: ScannedBy(db, t, ws[i])
    requires forall r :: r in NodeRows(vs) <==> r in NodeRows(ws)
    ensures SameMembers(NodeIDs(vs), NodeIDs(ws))
    ensures SameMembers(DistinctKeys(ParentKeys(vs)), DistinctKeys(ParentKeys(ws)))
    ensures vs == [] <==> ws == []
  {
    hide Scan, SpecColumns, DistinctKeys, Requested;
    KeysAmong(db, t, vs, ws);
    KeysAmong(db, t, ws, vs);
    DistinctKeysExact(ParentKeys(vs));
    DistinctKeysExact(ParentKeys(ws));
  }

  lemma KeysAmong(db: Database, t: QueryTree, vs: seq<AccountV>, ws: seq<AccountV>)
    requires forall i | 0 <= i < |vs| :: ScannedBy(db, t, vs[i])
    requires forall i | 0 <= i < |ws| :: ScannedBy(db, t, ws[i])
    requires forall r | r in NodeRows(vs) :: r in NodeRows(ws)
    ensures forall k | k in NodeIDs(vs) :: k in NodeIDs(ws)
    ensures forall k | k in ParentKeys(vs) :: k in ParentKeys(ws)
    ensures vs != [] ==> ws != []
  {
    hide Scan, SpecColumns, Requested;
    forall i | 0 <= i < |vs|
      ensures NodeIDs(vs)[i] in NodeIDs(ws) && ParentKeys(vs)[i] in ParentKeys(ws) && ws != []
    {
      assert NodeRows(vs)[i] in NodeRows(vs);
      var j :| 0 <= j < |ws| && NodeRows(ws)[j] == vs[i].row;
      assert ws[j].fields == vs[i].fields;
      assert NodeIDs(ws)[j] == NodeIDs(vs)[i] && ParentKeys(ws)[j] == ParentKeys(vs)[i];
    }
    if vs != [] {
      assert NodeIDs(vs)[0] in NodeIDs(ws);
    }
  }

  lemma SteadyMembers(db: Database, t: QueryTree, vs: seq<AccountV>, ws: seq<AccountV>)
    requires SteadyRoot(db, t) && AccountAnswer(db, t, NodeRows(vs)) && AccountAnswer(db, t, NodeRows(ws))
    ensures forall r :: r in NodeRows(vs) <==> r in NodeRows(ws)
  {
    hide AccountAnswer, NodeRows;
    SteadyRows(db, t, NodeRows(vs), NodeRows(ws));
    SteadyRows(db, t, NodeRows(ws), NodeRows(vs));
  }

  // ---- The join of a groups query ----

  lemma {:induction false} JoinSizeExact(links: seq<LeafRow>, groups: seq<LeafRow>, ps: seq<LeafPred>, ids: seq<int>)
    ensures JoinSize(links, groups, ps + [JoinedTo(ids)]) > 0
      <==> exists r | r in groups :: LeafHoldsAll(ps, r) && Joins(links, ps, r) && LinkedToAny(links, ids, r)
  {
    hide LeafHoldsAll, Joins, LinkedToAny;
    var all := ps + [JoinedTo(ids)];
    JoinSizePositive(links, groups, all);
    forall r ensures r in Joinable(links, groups, all)
      <==> r in groups && LeafHoldsAll(ps, r) && Joins(links, ps, r) && LinkedToAny(links, ids, r)
    {
      JoinedGroup(links, groups, all, r);
      JoinsMore(links, ps, JoinedTo(ids), r);
      LeafHoldsAllMore(ps, JoinedTo(ids), r);
      assert LeafHolds(JoinedTo(ids), r);
    }
    if Joinable(links, groups, all) != [] {
      assert Joinable(links, groups, all)[0] in Joinable(links, groups, all);
    }
  }

  // Which accounts are asked for matters, not their sequence.
  lemma UnreadableAgain(db: Database, q: LeafQueryValue, a: seq<int>, b: seq<int>)
    requires q.offset == 0 && SameMembers(a, b)
    ensures Unreadable(db, q, a) <==> Unreadable(db, q, b)
  {
    hide LeafHoldsAll, Joins, LinkedToAny, JoinSize, AlreadyJoined;
    JoinSizeExact(db.accountGroups, db.groups, q.preds, a);
    JoinSizeExact(db.accountGroups, db.groups, q.preds, b);
    forall r ensures LinkedToAny(db.accountGroups, a, r) <==> LinkedToAny(db.accountGroups, b, r) {
      OneAccountLinked(db.accountGroups, a, r);
      OneAccountLinked(db.accountGroups, b, r);
    }
  }

  // A second run of a groups query for the same accounts, in whatever sequence, cannot be read exactly if the first
  // run returned a row.
  lemma SecondJoinFails(db: Database, q: LeafQueryValue, ids: seq<int>, again: seq<int>, pairs: seq<(int, LeafRow)>)
    requires q.offset == 0 && q.limit == 0 && GroupAnswer(db, GroupQuery(q, ids), ids, pairs)
    requires SameMembers(ids, again)
    ensures Unreadable(db, GroupQuery(q, ids), again) <==> pairs != []
  {
    hide Joinable, JoinPairs, LinkedToAny, JoinSize, GroupAnswer, SameMembers;
    assert (q.preds + [JoinedTo(ids)])[|q.preds|].JoinedTo?;
    SameSecondJoin(db, q, ids, pairs);
    UnreadableAgain(db, GroupQuery(q, ids), ids, again);
  }

  lemma SameSecondJoin(db: Database, q: LeafQueryValue, ids: seq<int>, pairs: seq<(int, LeafRow)>)
    requires q.offset == 0 && q.limit == 0 && GroupAnswer(db, GroupQuery(q, ids), ids, pairs)
    ensures JoinSize(db.accountGroups, db.groups, GroupQuery(GroupQuery(q, ids), ids).preds) > 0 <==> pairs != []
  {
    hide Joinable, JoinPairs, LinkedToAny;
    var links, groups := db.accountGroups, db.groups;
    var once := q.preds + [JoinedTo(ids)];
    var matching := JoinPairs(links, Joinable(links, groups, once), ids);
    UnlimitedPairs(pairs, matching, q.order);
    JoinSizePositive(links, groups, once + [JoinedTo(ids)]);
    if pairs != [] {
      assert pairs[0] in multiset(pairs);
      JoinPairMembers(links, Joinable(links, groups, once), ids, pairs[0]);
      JoinedTwice(links, groups, q.preds, ids, pairs[0].1);
    }
    if Joinable(links, groups, once + [JoinedTo(ids)]) != [] {
      var r := Joinable(links, groups, once + [JoinedTo(ids)])[0];
      JoinedTwice(links, groups, q.preds, ids, r);
      OneAccountLinked(links, ids, r);
      var account :| account in ids && HasLink(links, account, r);
      JoinPairMembers(links, Joinable(links, groups, once), ids, (account, r));
      assert (account, r) in multiset(matching);
    }
  }

  // ---- Whether a run can be completed ----

  // For a tree whose root returns the same rows every time it is decided how a run ends: if it may end in a panic,
  // no run is completed.
  lemma {:induction false} HaltDecides(db: Database, t: QueryTree, u: QueryTree, h: Halt, run: Run)
    requires Fits(t) && SteadyRoot(db, t) && SameRows(db, t, u) && Halts(db, t, h)
    ensures !Batched(db, u, run)
    decreases Depth(t)
  {
    hide AccountAnswer, ScannedBy, Unreadable, DistinctKeys, HoldsAll, SteadyRoot;
    if Batched(db, u, run) {
      BatchedAnswer(db, u, run);
      BatchedParts(db, u, run);
      SameAnswers(db, t, u);
      SteadyMembers(db, t, h.nodes, run.nodes);
      SameKeys(db, t, h.nodes, run.nodes);
      match h {
        case AtGroups(nodes) =>
          UnreadableAgain(db, t.groups.value, NodeIDs(nodes), NodeIDs(run.nodes));
        case AtParent(nodes, inner) =>
          var tp, a, b := t.parent.value, DistinctKeys(ParentKeys(nodes)), DistinctKeys(ParentKeys(run.nodes));
          SameParents(db, tp, a, b);
          HaltDecides(db, ParentQuery(tp, a), ParentQuery(tp, b), inner, run.parents.value);
        case AtChildren(nodes, inner) =>
          var tc, a, b := t.children.value, NodeIDs(nodes), NodeIDs(run.nodes);
          SameChildren(db, tc, a, b);
          HaltDecides(db, ChildQuery(tc, a), ChildQuery(tc, b), inner, run.children.value);
      }
    }
  }

  lemma SameParents(db: Database, tp: QueryTree, a: seq<int>, b: seq<int>)
    requires SameMembers(a, b)
    ensures SameRows(db, ParentQuery(tp, a), ParentQuery(tp, b))
    ensures tp.offset == 0 && tp.limit == 0 ==> SteadyRoot(db, ParentQuery(tp, a))
    ensures Shaped(tp) && NestedUnlimited(tp) ==> Fits(ParentQuery(tp, a))
    ensures a == [] <==> b == []
  {
    hide HoldsAll;
    forall r ensures HoldsAll(tp.preds + [IDIn(a)], r) <==> HoldsAll(tp.preds + [IDIn(b)], r) {
      HoldsAllMore(tp.preds, IDIn(a), r);
      HoldsAllMore(tp.preds, IDIn(b), r);
    }
    if a != [] {
      var k := a[0];
      assert k in a && k in b;
    }
    if b != [] {
      var k := b[0];
      assert k in b && k in a;
    }
  }

  lemma SameChildren(db: Database, tc: QueryTree, a: seq<int>, b: seq<int>)
    requires SameMembers(a, b)
    ensures SameRows(db, ChildQuery(tc, a), ChildQuery(tc, b))
    ensures tc.offset == 0 && tc.limit == 0 ==> SteadyRoot(db, ChildQuery(tc, a))
    ensures Shaped(tc) && NestedUnlimited(tc) ==> Fits(ChildQuery(tc, a))
  {
    hide HoldsAll;
    forall r ensures HoldsAll(tc.preds + [ParentIn(a)], r) <==> HoldsAll(tc.preds + [ParentIn(b)], r) {
      HoldsAllMore(tc.preds, ParentIn(a), r);
      HoldsAllMore(tc.preds, ParentIn(b), r);
    }
  }

  // ---- The second run ----

  // No groups query of the run returned a row.
  predicate NoGroupRows(run: Run) {
    && (run.groups.Some? ==> run.groups.value == [])
    && (run.parents.Some? ==> NoGroupRows(run.parents.value))
    && (run.children.Some? ==> NoGroupRows(run.children.value))
  }

  // The tree that a run leaves behind returns what it returned, with the same nodes.
  lemma AfterAnswers(db: Database, t: QueryTree, run: Run)
    requires Batched(db, t, run)
    ensures AccountAnswer(db, After(t, run), NodeRows(run.nodes))
    ensures forall i | 0 <= i < |run.nodes| :: ScannedBy(db, After(t, run), run.nodes[i])
  {
    hide Batched, SpecColumns, Requested, Scan, After;
    AfterParts(t, run);
    BatchedAnswer(db, t, run);
  }

  // A restriction that the tree has already, with the same members.
  lemma RestrictedParents(db: Database, t: QueryTree, run: Run, a: seq<int>, b: seq<int>)
    requires SameMembers(a, b)
    ensures SameRows(db, After(ParentQuery(t, a), run), ParentQuery(After(ParentQuery(t, a), run), b))
  {
    hide HoldsAll, After;
    AfterParts(ParentQuery(t, a), run);
    forall r ensures HoldsAll(t.preds + [IDIn(a)], r) <==> HoldsAll(t.preds + [IDIn(a)] + [IDIn(b)], r) {
      HoldsAllMore(t.preds, IDIn(a), r);
      HoldsAllMore(t.preds + [IDIn(a)], IDIn(b), r);
    }
  }

  lemma RestrictedChildren(db: Database, t: QueryTree, run: Run, a: seq<int>, b: seq<int>)
    requires SameMembers(a, b)
    ensures SameRows(db, After(ChildQuery(t, a), run), ChildQuery(After(ChildQuery(t, a), run), b))
  {
    hide HoldsAll, After;
    AfterParts(ChildQuery(t, a), run);
    forall r ensures HoldsAll(t.preds + [ParentIn(a)], r) <==> HoldsAll(t.preds + [ParentIn(a)] + [ParentIn(b)], r) {
      HoldsAllMore(t.preds, ParentIn(a), r);
      HoldsAllMore(t.preds + [ParentIn(a)], ParentIn(b), r);
    }
    FieldKept(t.fields);
  }

  lemma FieldKept(fields: seq<Column>)
    ensures var once := AppendFieldOnce(fields, ParentAccountID); AppendFieldOnce(once, ParentAccountID) == once
  {
  }

  lemma HaltsAtGroups(db: Database, t: QueryTree, run: Run)
    requires NoWindow(t.groups) && Batched(db, t, run) && run.groups.Some? && run.groups.value != []
    ensures Halts(db, After(t, run), AtGroups(run.nodes))
  {
    hide AccountAnswer, ScannedBy, Unreadable, GroupAnswer, After, GroupsOf, ScanLeaves;
    BatchedParts(db, t, run);
    AfterAnswers(db, t, run);
    AfterParts(t, run);
    SecondJoinFails(db, t.groups.value, NodeIDs(run.nodes), NodeIDs(run.nodes), run.groups.value);
  }

  lemma HaltsAtParent(db: Database, t: QueryTree, run: Run, inner: Halt)
    requires Batched(db, t, run) && run.parents.Some? && t.parent.Some?
    requires
      Halts(db, After(ParentQuery(t.parent.value, DistinctKeys(ParentKeys(run.nodes))), run.parents.value), inner)
    ensures Halts(db, After(t, run), AtParent(run.nodes, inner))
  {
    hide AccountAnswer, ScannedBy, Unreadable, DistinctKeys, After, ToOne;
    var ids := DistinctKeys(ParentKeys(run.nodes));
    BatchedParts(db, t, run);
    AfterAnswers(db, t, run);
    AfterParts(t, run);
    RestrictedParents(db, t.parent.value, run.parents.value, ids, ids);
    var v := After(ParentQuery(t.parent.value, ids), run.parents.value);
    HaltMoves(db, v, ParentQuery(v, ids), inner);
    SomeKeys(run.nodes);
  }

  lemma SomeKeys(nodes: seq<AccountV>)
    requires DistinctKeys(ParentKeys(nodes)) != []
    ensures nodes != []
  {
  }

  lemma HaltsAtChildren(db: Database, t: QueryTree, run: Run, inner: Halt)
    requires Batched(db, t, run) && run.children.Some? && t.children.Some?
    requires Halts(db, After(ChildQuery(t.children.value, NodeIDs(run.nodes)), run.children.value), inner)
    ensures Halts(db, After(t, run), AtChildren(run.nodes, inner))
  {
    hide AccountAnswer, ScannedBy, Unreadable, After, ToMany;
    var ids := NodeIDs(run.nodes);
    BatchedParts(db, t, run);
    AfterAnswers(db, t, run);
    AfterParts(t, run);
    RestrictedChildren(db, t.children.value, run.children.value, ids, ids);
    var v := After(ChildQuery(t.children.value, ids), run.children.value);
    HaltMoves(db, v, ChildQuery(v, ids), inner);
  }

  // If a group came back, the second run may end in a panic.
  lemma {:induction false} GroupRowsHalt(db: Database, t: QueryTree, run: Run) returns (h: Halt)
    requires Fits(t) && Batched(db, t, run) && !NoGroupRows(run)
    ensures Halts(db, After(t, run), h)
    decreases Depth(t)
  {
    hide Batched, DistinctKeys, After, Halts;
    RunFacts.NestedRuns(db, t, run);
    if run.groups.Some? && run.groups.value != [] {
      h := AtGroups(run.nodes);
      HaltsAtGroups(db, t, run);
    } else if run.parents.Some? && !NoGroupRows(run.parents.value) {
      var tp, ids := t.parent.value, DistinctKeys(ParentKeys(run.nodes));
      SameParents(db, tp, ids, ids);
      var inner := GroupRowsHalt(db, ParentQuery(tp, ids), run.parents.value);
      HaltsAtParent(db, t, run, inner);
      h := AtParent(run.nodes, inner);
    } else {
      var tc, ids := t.children.value, NodeIDs(run.nodes);
      SameChildren(db, tc, ids, ids);
      var inner := GroupRowsHalt(db, ChildQuery(tc, ids), run.children.value);
      HaltsAtChildren(db, t, run, inner);
      h := AtChildren(run.nodes, inner);
    }
  }

  // The nodes of a run and those at which a second one ends have the same keys.
  lemma SameRoot(db: Database, t: QueryTree, run: Run, u: QueryTree, h: Halt)
    requires SteadyRoot(db, t) && Batched(db, t, run) && SameRows(db, After(t, run), u) && Halts(db, u, h)
    ensures SameMembers(NodeIDs(run.nodes), NodeIDs(h.nodes)) && run.nodes != []
    ensures SameMembers(DistinctKeys(ParentKeys(run.nodes)), DistinctKeys(ParentKeys(h.nodes)))
  {
    hide Batched, AccountAnswer, ScannedBy, Unreadable, DistinctKeys, After, HoldsAll, SteadyRoot;
    AfterAnswers(db, t, run);
    SameAnswers(db, After(t, run), u);
    SteadyAfter(db, t, run);
    SteadyMembers(db, After(t, run), h.nodes, run.nodes);
    SameKeys(db, After(t, run), h.nodes, run.nodes);
  }

  // Which edges were asked for, if there were nodes and keys.
  lemma AskedEdges(db: Database, t: QueryTree, run: Run)
    requires Batched(db, t, run) && run.nodes != []
    ensures t.groups.Some? ==>
      var ids := NodeIDs(run.nodes);
      run.groups.Some? && GroupAnswer(db, GroupQuery(t.groups.value, ids), ids, run.groups.value)
    ensures t.parent.Some? && DistinctKeys(ParentKeys(run.nodes)) != [] ==> run.parents.Some?
    ensures t.children.Some? ==> run.children.Some?
  {
    hide GroupAnswer, DistinctKeys, ToOne, ToMany, GroupsOf, ScanLeaves;
    BatchedParts(db, t, run);
  }

  // And only then.
  lemma {:induction false} HaltHadRows(db: Database, t: QueryTree, run: Run, u: QueryTree, h: Halt)
    requires Fits(t) && SteadyRoot(db, t) && Batched(db, t, run)
    requires SameRows(db, After(t, run), u) && Halts(db, u, h)
    ensures !NoGroupRows(run)
    decreases Depth(t)
  {
    hide Batched, AccountAnswer, ScannedBy, Unreadable, DistinctKeys, GroupAnswer, After, HoldsAll, SteadyRoot,
      SameMembers;
    SameRoot(db, t, run, u, h);
    AskedEdges(db, t, run);
    RunFacts.NestedRuns(db, t, run);
    AfterParts(t, run);
    match h {
      case AtGroups(nodes) =>
        SecondJoinFails(db, t.groups.value, NodeIDs(run.nodes), NodeIDs(nodes), run.groups.value);
      case AtParent(nodes, inner) =>
        var tp, a, b := t.parent.value, DistinctKeys(ParentKeys(run.nodes)), DistinctKeys(ParentKeys(nodes));
        SameParents(db, tp, a, b);
        RestrictedParents(db, tp, run.parents.value, a, b);
        HaltHadRows(db, ParentQuery(tp, a), run.parents.value, ParentQuery(u.parent.value, b), inner);
      case AtChildren(nodes, inner) =>
        var tc, a, b := t.children.value, NodeIDs(run.nodes), NodeIDs(nodes);
        SameChildren(db, tc, a, b);
        RestrictedChildren(db, tc, run.children.value, a, b);
        HaltHadRows(db, ChildQuery(tc, a), run.children.value, ChildQuery(u.children.value, b), inner);
    }
  }

  lemma SteadyAfter(db: Database, t: QueryTree, run: Run)
    ensures SteadyRoot(db, After(t, run)) <==> SteadyRoot(db, t)
  {
    hide After;
    AfterParts(t, run);
  }

  // A second run ends in a panic exactly if some groups query of the first one returned a row.
  lemma SecondRunExactly(db: Database, t: QueryTree, one: Run)
    requires Fits(t) && SteadyRoot(db, t) && Batched(db, t, one)
    ensures MayHalt(db, After(t, one)) <==> !NoGroupRows(one)
    ensures MayHalt(db, After(t, one)) ==> forall two :: !Batched(db, After(t, one), two)
  {
    hide Fits, SteadyRoot, Batched, After, Halts, HoldsAll;
    var u := After(t, one);
    AfterFits(t, one);
    SteadyAfter(db, t, one);
    if !NoGroupRows(one) {
      var h := GroupRowsHalt(db, t, one);
      HaltsHere(db, u, h);
    }
    if MayHalt(db, u) {
      var h :| Halts(db, u, h);
      HaltHadRows(db, t, one, u, h);
      forall two ensures !Batched(db, u, two) {
        HaltDecides(db, u, u, h, two);
      }
    }
  }

  // So in a sequence of completed runs none but the last returned a group row.
  lemma {:induction false} RepeatedWithoutGroups(db: Database, t: QueryTree, runs: seq<Run>, j: nat)
    requires Fits(t) && SteadyRoot(db, t) && Repeated(db, t, runs) && j + 1 < |runs|
    ensures NoGroupRows(runs[j])
    decreases j
  {
    hide Fits, SteadyRoot, Batched, After, MayHalt, NoGroupRows;
    var u := After(t, runs[0]);
    if j == 0 {
      assert Batched(db, u, runs[1..][0]);
      SecondRunExactly(db, t, runs[0]);
    } else {
      AfterFits(t, runs[0]);
      SteadyAfter(db, t, runs[0]);
      RepeatedWithoutGroups(db, u, runs[1..], j - 1);
    }
  }

  // ---- One account in one group ----

  function GroupRow(): LeafRow { map[Id := Int(10)] }

  function LinkRow(): LeafRow { map[AccountId := Int(1), GroupId := Int(10)] }

  function OneMember(codec: JsonCodec): Database {
    Database(codec, [NestedLimits.KeyRow(1, None)], [], [GroupRow()], [], [LinkRow()])
  }

  function GroupsOnly(): LeafQueryValue { LeafQueryValue(Groups, [Id], [], [], [], 0, 0, []) }

  function WithGroups(): QueryTree {
    QueryTree([], [], [], 0, 0, [], Some(GroupsOnly()), None, None, None, None, None)
  }

  function FirstRun(codec: JsonCodec): Run {
    var node := NestedLimits.NodeOf(codec, WithGroups(), NestedLimits.KeyRow(1, None), []);
    var leaves := ScanLeaves([Id], [GroupRow()]);
    Run([node.(edges := node.edges.(groups := leaves))], Some([(1, GroupRow())]), None, None, None, None, None)
  }

  lemma OneMemberConsistent(codec: JsonCodec)
    ensures Consistent(OneMember(codec))
  {
    hide NestedLimits.KeyRow, WellTyped, AccountID;
    NestedLimits.KeyRowFits(codec, 1, None);
  }

  lemma FirstRunIDs(codec: JsonCodec)
    ensures NodeIDs(FirstRun(codec).nodes) == [1]
  {
    hide Scan, NestedLimits.KeyRow, AccountID, Consistent;
    OneMemberConsistent(codec);
    NestedLimits.KeyRowFits(codec, 1, None);
    ScannedKeys(OneMember(codec), WithGroups(), FirstRun(codec).nodes[0]);
  }

  lemma OneLink()
    ensures Links(LinkRow(), [1], GroupRow()) && LeafInt(LinkRow(), AccountId) == Some(1)
      && LeafInt(GroupRow(), Id) == Some(10)
    ensures JoinPairs([LinkRow()], [GroupRow()], [1]) == [(1, GroupRow())]
  {
    assert [GroupRow()][1..] == [] && [LinkRow()][1..] == [];
  }

  lemma OneGroup(codec: JsonCodec)
    ensures GroupAnswer(OneMember(codec), GroupQuery(GroupsOnly(), [1]), [1], [(1, GroupRow())])
    ensures GroupsOf([(1, GroupRow())], [1], 0) == [GroupRow()]
    ensures !Unreadable(OneMember(codec), GroupsOnly(), [1])
  {
    var links, q := [LinkRow()], GroupQuery(GroupsOnly(), [1]);
    OneLink();
    hide Links, LinkRow, GroupRow;
    assert Links(links[0], [1], GroupRow());
    assert q.preds == [JoinedTo([1])];
    assert LinkedToAny(links, [1], GroupRow());
    assert Joins(links, q.preds, GroupRow()) && LeafHoldsAll(q.preds, GroupRow());
    assert [GroupRow()][1..] == [];
    assert Joinable(links, [GroupRow()], q.preds) == [GroupRow()];
    var pairs := [(1, GroupRow())];
    assert ArrangesPairs(pairs, pairs, []);
    assert pairs == Window(pairs, 0, 0);
    assert pairs[1..] == [];
  }

  lemma FirstRunBatched(codec: JsonCodec)
    ensures Batched(OneMember(codec), WithGroups(), FirstRun(codec))
  {
    hide Scan, SpecColumns, NestedLimits.KeyRow, GroupAnswer, GroupsOf, Unreadable, GroupRow, LinkRow;
    var db, t, run := OneMember(codec), WithGroups(), FirstRun(codec);
    var row := NestedLimits.KeyRow(1, None);
    FirstRunIDs(codec);
    OneGroup(codec);
    assert [row][1..] == [] && MatchingAccounts([row], []) == [row] + [];
    NestedLimits.AnyArrangement([row], 0);
    assert NodeRows(run.nodes) == [row];
    assert BatchedGroups(db, t, run);
  }

  // The first run of the query returns the group; no second run is completed.
  lemma SecondRunPanics(codec: JsonCodec)
    ensures var db, t, one := OneMember(codec), WithGroups(), FirstRun(codec);
      && Consistent(db) && GroupsFresh(t) && Batched(db, t, one)
      && MayHalt(db, After(t, one)) && forall two :: !Batched(db, After(t, one), two)
  {
    hide Batched, After, Consistent;
    OneMemberConsistent(codec);
    FirstRunBatched(codec);
    SecondRunExactly(OneMember(codec), WithGroups(), FirstRun(codec));
  }
}
