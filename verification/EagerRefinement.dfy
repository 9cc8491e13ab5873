// The batched run refines the plain recursion, edge by edge and then over the whole tree.
module EagerRefinement {
  import opened Wrappers
  import opened Leaves
  import opened AccountEntity
  import opened QueryModel
  import opened EagerSpec
  import opened Selection
  import opened GroupsRefinement

  // ---- Projected columns ----

  lemma {:induction false} WithoutIDMembers(fields: seq<Column>)
    ensures ID !in WithoutID(fields)
    ensures forall c :: c != ID ==> (c in WithoutID(fields) <==> c in fields)
  {
    if fields != [] {
      WithoutIDMembers(fields[1..]);
      assert fields == [fields[0]] + fields[1..];
    }
  }

  lemma FieldsCovered(t: QueryTree)
    ensures SpecColumns(t) != [] && SpecColumns(t)[0] == ID
    ensures forall i | 1 <= i < |SpecColumns(t)| :: SpecColumns(t)[i] != ID
    ensures forall f | f in t.fields :: f in SpecColumns(t)
    ensures t.proxy.Some? || t.fields == [] ==> ProxyID in SpecColumns(t)
    ensures t.parent.Some? || t.fields == [] ==> ParentAccountID in SpecColumns(t)
  {
    if t.fields == [] {
      assert COLUMNS[10] == ProxyID && COLUMNS[30] == ParentAccountID;
    } else {
      WithoutIDMembers(t.fields);
    }
  }

  // Whatever fields were selected, the id comes first and only once, every selected field is there,
  // and so is each foreign key that the requested edges, or the loader of the children, will read.
  lemma ColumnsCover(t: QueryTree, fks: seq<int>)
    ensures SpecColumns(t) != [] && SpecColumns(t)[0] == ID
    ensures forall i | 1 <= i < |SpecColumns(t)| :: SpecColumns(t)[i] != ID
    ensures forall f | f in t.fields :: f in SpecColumns(t)
    ensures t.proxy.Some? ==> ProxyID in SpecColumns(t)
    ensures t.parent.Some? ==> ParentAccountID in SpecColumns(t)
    ensures ParentAccountID in SpecColumns(ChildQuery(t, fks))
  {
    FieldsCovered(t);
    FieldsCovered(ChildQuery(t, fks));
    hide SpecColumns;
    assert t.fields != [] ==> ParentAccountID in ChildQuery(t, fks).fields;
  }

  // A node scanned from a table row holds the row's keys.
  lemma ScannedKeys(db: Database, t: QueryTree, v: AccountV)
    requires Consistent(db) && v.row in db.accounts && ScannedBy(db, t, v)
    ensures Some(v.fields.ints.id) == AccountID(v.row)
    ensures ProxyID in SpecColumns(t) ==> v.fields.ints.proxyID == ProxyOf(v.row)
    ensures ParentAccountID in SpecColumns(t) ==> v.fields.ints.parentAccountID == ParentOf(v.row)
  {
    ScanIsProjected(db.codec, SpecColumns(t), v.row);
    ColumnsCover(t, []);
    assert ID in SpecColumns(t);
    hide SpecColumns, AssignAll, TimesAt, TextsAt;
  }

  lemma LeafKeyScanned(columns: seq<LeafColumn>, row: LeafRow, column: LeafColumn)
    requires column in columns && LeafInt(row, column).Some?
    ensures Some(IntField(ScanLeaf(columns, row), column)) == LeafInt(row, column)
  {
  }

  lemma {:induction false} WithoutLeafIDMembers(fields: seq<LeafColumn>)
    ensures forall c :: c != Id ==> (c in WithoutLeafID(fields) <==> c in fields)
  {
    if fields != [] {
      WithoutLeafIDMembers(fields[1..]);
      assert fields == [fields[0]] + fields[1..];
    }
  }

  lemma LeafColumnsCover(q: LeafQueryValue, fks: seq<int>)
    requires KeysListed(q.table, q.columns)
    ensures !q.table.AccountGroups? ==> Id in LeafSpecColumns(q)
    ensures q.table.UsageLogs? || q.table.AccountGroups? ==> AccountId in LeafSpecColumns(OwnedQuery(q, fks))
  {
    WithoutLeafIDMembers(OwnedQuery(q, fks).fields);
    if q.fields == [] && !q.table.AccountGroups? {
      assert q.columns[0] in q.columns;
    }
  }

  // ---- Rows of selected nodes ----

  lemma {:induction false} SelectRows(vs: seq<AccountV>, keys: seq<Option<int>>, k: int)
    requires |vs| == |keys|
    ensures NodeRows(Select(vs, keys, k)) == Select(NodeRows(vs), keys, k)
  {
    if vs != [] {
      SelectRows(vs[1..], keys[1..], k);
      assert NodeRows(vs)[1..] == NodeRows(vs[1..]);
    }
  }

  lemma {:induction false} SelectLeafRows(columns: seq<LeafColumn>, rows: seq<LeafRow>, keys: seq<Option<int>>, k: int)
    requires |rows| == |keys|
    ensures Select(ScanLeaves(columns, rows), keys, k) == ScanLeaves(columns, Select(rows, keys, k))
  {
    if rows != [] {
      SelectLeafRows(columns, rows[1..], keys[1..], k);
      assert ScanLeaves(columns, rows)[1..] == ScanLeaves(columns, rows[1..]);
    }
  }

  lemma RowsOfScanned(columns: seq<LeafColumn>, rows: seq<LeafRow>)
    ensures LeafRows(ScanLeaves(columns, rows)) == rows
  {
  }

  lemma NodesAreRows(db: Database, t: QueryTree, rows: seq<AccountRow>)
    requires AccountAnswer(db, t, rows)
    ensures forall r | r in rows :: r in db.accounts && HoldsAll(t.preds, r)
  {
    AnswerMembers(rows, MatchingAccounts(db.accounts, t.preds), t.order, t.offset, t.limit);
    forall r | r in rows ensures r in db.accounts && HoldsAll(t.preds, r) {
      MatchedRow(db.accounts, t.preds, r);
    }
  }

  lemma LeavesAreRows(db: Database, q: LeafQueryValue, rows: seq<LeafRow>)
    requires LeafAnswer(db, q, rows)
    ensures forall r | r in rows :: r in db.Rows(q.table) && LeafHoldsAll(q.preds, r)
  {
    AnswerMembers(rows, MatchingLeaves(db.Rows(q.table), q.preds), q.order, q.offset, q.limit);
    forall r | r in rows ensures r in db.Rows(q.table) && LeafHoldsAll(q.preds, r) {
      MatchedLeaf(db.Rows(q.table), q.preds, r);
    }
  }

  // Nodes of one run have distinct ids, so no node takes another's neighbours.
  lemma DistinctIDs(db: Database, t: QueryTree, vs: seq<AccountV>)
    requires Consistent(db) && AccountAnswer(db, t, NodeRows(vs))
    requires forall i | 0 <= i < |vs| :: ScannedBy(db, t, vs[i])
    ensures forall i, j | 0 <= i < j < |vs| :: NodeIDs(vs)[i] != NodeIDs(vs)[j]
    ensures forall i | 0 <= i < |vs| :: IsLast(NodeIDs(vs), i)
  {
    var rows := NodeRows(vs);
    NodesAreRows(db, t, rows);
    AnswerIDs(db.accounts, rows, t.preds, t.order, t.offset, t.limit);
    forall i | 0 <= i < |vs| ensures Some(NodeIDs(vs)[i]) == AccountID(rows[i]) {
      assert rows[i] in rows;
      ScannedKeys(db, t, vs[i]);
    }
  }

  // ---- One edge at a time ----

  // What a node loads does not depend on how its own query was restricted.
  lemma NaiveIgnoresPreds(db: Database, a: QueryTree, b: QueryTree, v: AccountV)
    requires b == a.(preds := b.preds) && Naive(db, a, v)
    ensures Naive(db, b, v)
  {
    assert SpecColumns(a) == SpecColumns(b);
  }

  // The part of a batch of children that belongs to one parent answers the query for that parent.
  lemma ChildRowsRefine(db: Database, tc: QueryTree, ids: seq<int>, id: int, neighbors: seq<AccountV>)
    requires Consistent(db) && tc.offset == 0 && tc.limit == 0 && id in ids
    requires AccountAnswer(db, ChildQuery(tc, ids), NodeRows(neighbors))
    requires forall j | 0 <= j < |neighbors| :: ScannedBy(db, ChildQuery(tc, ids), neighbors[j])
    ensures AccountAnswer(db, ChildQuery(tc, [id]), NodeRows(Select(neighbors, ParentKeys(neighbors), id)))
  {
    var q, single := ChildQuery(tc, ids), ChildQuery(tc, [id]);
    var rows, keys := NodeRows(neighbors), ParentKeys(neighbors);
    UnlimitedAnswer(rows, MatchingAccounts(db.accounts, q.preds), q.order);
    ChildKeys(db, tc, ids, neighbors);
    RestrictedMatching(db.accounts, tc.preds, ParentIn(ids), ParentIn([id]), ParentOf, id);
    SelectArranges(rows, keys, ParentOf, id, MatchingAccounts(db.accounts, q.preds),
                   MatchingAccounts(db.accounts, single.preds), q.order);
    UnlimitedAnswer(Select(rows, keys, id), MatchingAccounts(db.accounts, single.preds), q.order);
    SelectRows(neighbors, keys, id);
  }

  // Every child read back carries the foreign key it was asked for by.
  lemma ChildKeys(db: Database, tc: QueryTree, ids: seq<int>, neighbors: seq<AccountV>)
    requires Consistent(db)
    requires AccountAnswer(db, ChildQuery(tc, ids), NodeRows(neighbors))
    requires forall j | 0 <= j < |neighbors| :: ScannedBy(db, ChildQuery(tc, ids), neighbors[j])
    ensures forall j | 0 <= j < |neighbors| :: ParentKeys(neighbors)[j] == ParentOf(NodeRows(neighbors)[j])
    ensures forall j | 0 <= j < |neighbors| ::
              ParentKeys(neighbors)[j].Some? && ParentKeys(neighbors)[j].value in ids
  {
    var q, rows := ChildQuery(tc, ids), NodeRows(neighbors);
    NodesAreRows(db, q, rows);
    ColumnsCover(tc, ids);
    forall j | 0 <= j < |rows| ensures ParentKeys(neighbors)[j] == ParentOf(rows[j]) && Holds(ParentIn(ids), rows[j]) {
      assert rows[j] in rows;
      ScannedKeys(db, q, neighbors[j]);
      HoldsAllMore(tc.preds, ParentIn(ids), rows[j]);
    }
  }

  lemma ChildrenRefine(db: Database, t: QueryTree, run: Run, i: nat)
    requires Consistent(db) && NestedUnlimited(t) && Batched(db, t, run)
    requires i < |run.nodes| && t.children.Some? && run.children.Some?
    requires forall n | n in run.children.value.nodes :: Naive(db, ChildQuery(t.children.value, NodeIDs(run.nodes)), n)
    ensures NaiveChildren(db, t, run.nodes[i])
  {
    var tc, ids, v := t.children.value, NodeIDs(run.nodes), run.nodes[i];
    var id, neighbors := ids[i], run.children.value.nodes;
    DistinctIDs(db, t, run.nodes);
    assert Batched(db, ChildQuery(tc, ids), run.children.value);
    assert v.edges.children == Select(neighbors, ParentKeys(neighbors), id);
    hide Batched, BatchedChildren, BatchedParent, BatchedProxy, BatchedGroups, BatchedOwned, SpecColumns, Naive,
      ScannedBy;
    BatchedAnswer(db, ChildQuery(tc, ids), run.children.value);
    ChildRowsRefine(db, tc, ids, id, neighbors);
    SelectMembers(neighbors, ParentKeys(neighbors), id);
    forall j | 0 <= j < |v.edges.children| ensures Naive(db, ChildQuery(tc, [id]), v.edges.children[j]) {
      assert v.edges.children[j] in neighbors;
      NaiveIgnoresPreds(db, ChildQuery(tc, ids), ChildQuery(tc, [id]), v.edges.children[j]);
    }
  }

  lemma BatchedAnswer(db: Database, t: QueryTree, run: Run)
    requires Batched(db, t, run)
    ensures AccountAnswer(db, t, NodeRows(run.nodes))
    ensures forall i | 0 <= i < |run.nodes| :: ScannedBy(db, t, run.nodes[i])
  {
  }

  lemma BatchedParts(db: Database, t: QueryTree, run: Run)
    requires Batched(db, t, run)
    ensures BatchedGroups(db, t, run) && BatchedProxy(db, t, run)
    ensures BatchedParent(db, t, run) && BatchedChildren(db, t, run)
    ensures BatchedOwned(db, t.usageLogs, run.nodes, run.usageLogs, UsageLogEdges(run.nodes))
    ensures BatchedOwned(db, t.accountGroups, run.nodes, run.accountGroups, AccountGroupEdges(run.nodes))
  {
  }

  // The batched id list is the set of non-nil keys, without repetition.
  lemma {:induction false} DistinctKeysExact(keys: seq<Option<int>>)
    ensures forall k :: k in DistinctKeys(keys) <==> Some(k) in keys
    ensures forall i, j | 0 <= i < j < |DistinctKeys(keys)| :: DistinctKeys(keys)[i] != DistinctKeys(keys)[j]
  {
    if keys != [] {
      DistinctKeysExact(keys[..|keys| - 1]);
      assert keys == keys[..|keys| - 1] + [keys[|keys| - 1]];
    }
  }

  lemma ParentRowsRefine(db: Database, tp: QueryTree, ids: seq<int>, k: int, neighbors: seq<AccountV>)
    requires Consistent(db) && tp.offset == 0 && tp.limit == 0 && k in ids
    requires AccountAnswer(db, ParentQuery(tp, ids), NodeRows(neighbors))
    requires forall j | 0 <= j < |neighbors| :: ScannedBy(db, ParentQuery(tp, ids), neighbors[j])
    ensures AccountAnswer(db, ParentQuery(tp, [k]), NodeRows(Select(neighbors, NodeKeys(neighbors), k)))
    ensures |Select(neighbors, NodeKeys(neighbors), k)| <= 1
  {
    var q, single := ParentQuery(tp, ids), ParentQuery(tp, [k]);
    var rows, keys := NodeRows(neighbors), NodeKeys(neighbors);
    UnlimitedAnswer(rows, MatchingAccounts(db.accounts, q.preds), q.order);
    NodesAreRows(db, q, rows);
    forall j | 0 <= j < |rows| ensures keys[j] == AccountID(rows[j]) {
      assert rows[j] in rows;
      ScannedKeys(db, q, neighbors[j]);
    }
    RestrictedMatching(db.accounts, tp.preds, IDIn(ids), IDIn([k]), AccountID, k);
    SelectArranges(rows, keys, AccountID, k, MatchingAccounts(db.accounts, q.preds),
                   MatchingAccounts(db.accounts, single.preds), q.order);
    UnlimitedAnswer(Select(rows, keys, k), MatchingAccounts(db.accounts, single.preds), q.order);
    SelectRows(neighbors, keys, k);
    OneMatch(db.accounts, single.preds, k);
    SameLength(Select(rows, keys, k), MatchingAccounts(db.accounts, single.preds));
  }

  lemma SameLength<R>(a: seq<R>, b: seq<R>)
    requires multiset(a) == multiset(b)
    ensures |a| == |b|
  {
    assert |a| == |multiset(a)| && |b| == |multiset(b)|;
  }

  lemma ParentRefine(db: Database, t: QueryTree, run: Run, i: nat)
    requires Consistent(db) && NestedUnlimited(t) && BatchedParent(db, t, run)
    requires i < |run.nodes| && t.parent.Some?
    requires run.parents.Some? ==> forall n | n in run.parents.value.nodes ::
               Naive(db, ParentQuery(t.parent.value, DistinctKeys(ParentKeys(run.nodes))), n)
    ensures NaiveParent(db, t, run.nodes[i])
  {
    var keys := ParentKeys(run.nodes);
    var ids := DistinctKeys(keys);
    DistinctKeysExact(keys);
    if keys[i].Some? {
      var k := keys[i].value;
      assert k in ids;
      var neighbors := run.parents.value.nodes;
      assert run.nodes[i].edges.parent == ToOne(neighbors, NodeKeys(neighbors), keys[i]);
      hide Batched, Naive, FindLast, DistinctKeys;
      FoundParentRefines(db, t.parent.value, ids, k, run.parents.value);
    }
  }

  // The parent found among the neighbours is what asking for it alone gives.
  lemma FoundParentRefines(db: Database, tp: QueryTree, ids: seq<int>, k: int, run: Run)
    requires Consistent(db) && tp.offset == 0 && tp.limit == 0 && k in ids
    requires Batched(db, ParentQuery(tp, ids), run)
    requires forall n | n in run.nodes :: Naive(db, ParentQuery(tp, ids), n)
    ensures var parent := FindLast(run.nodes, NodeKeys(run.nodes), k);
      && AccountAnswer(db, ParentQuery(tp, [k]), if parent.Some? then [parent.value.row] else [])
      && (parent.Some? ==> Naive(db, ParentQuery(tp, [k]), parent.value))
  {
    hide Batched, Naive, ScannedBy, AccountAnswer, Select;
    var neighbors := run.nodes;
    var found := Select(neighbors, NodeKeys(neighbors), k);
    BatchedAnswer(db, ParentQuery(tp, ids), run);
    ParentRowsRefine(db, tp, ids, k, neighbors);
    SelectMembers(neighbors, NodeKeys(neighbors), k);
    if found == [] {
      assert NodeRows(found) == [];
    } else {
      assert found[0] in found;
      assert NodeRows(found) == [found[0].row];
      NaiveIgnoresPreds(db, ParentQuery(tp, ids), ParentQuery(tp, [k]), found[0]);
    }
  }

  lemma ProxyRowsRefine(db: Database, q: LeafQueryValue, ids: seq<int>, k: int, rows: seq<LeafRow>)
    requires UniqueLeafIDs(db.Rows(q.table)) && KeysListed(q.table, q.columns) && !q.table.AccountGroups?
    requires q.offset == 0 && q.limit == 0 && k in ids && LeafAnswer(db, ProxyQuery(q, ids), rows)
    ensures var leaves := ScanLeaves(LeafSpecColumns(q), rows);
      && var found := Select(leaves, LeafKeys(leaves, Id), k);
      && |found| <= 1
      && LeafAnswer(db, ProxyQuery(q, [k]), LeafRows(found))
      && found == ScanLeaves(LeafSpecColumns(q), LeafRows(found))
  {
    var wide, single, columns := ProxyQuery(q, ids), ProxyQuery(q, [k]), LeafSpecColumns(q);
    var leaves := ScanLeaves(columns, rows);
    var keys, key := LeafKeys(leaves, Id), r => LeafInt(r, Id);
    UnlimitedAnswer(rows, MatchingLeaves(db.Rows(q.table), wide.preds), q.order);
    LeavesAreRows(db, wide, rows);
    LeafColumnsCover(q, []);
    forall j | 0 <= j < |rows| ensures keys[j] == key(rows[j]) {
      assert rows[j] in rows;
      LeafKeyScanned(columns, rows[j], Id);
    }
    RestrictedLeaves(db.Rows(q.table), q.preds, LeafIDIn(ids), LeafIDIn([k]), key, k);
    SelectArranges(rows, keys, key, k, MatchingLeaves(db.Rows(q.table), wide.preds),
                   MatchingLeaves(db.Rows(q.table), single.preds), q.order);
    UnlimitedAnswer(Select(rows, keys, k), MatchingLeaves(db.Rows(q.table), single.preds), q.order);
    SelectLeafRows(columns, rows, keys, k);
    RowsOfScanned(columns, Select(rows, keys, k));
    OneLeafMatch(db.Rows(q.table), single.preds, k);
    SameLength(Select(rows, keys, k), MatchingLeaves(db.Rows(q.table), single.preds));
  }

  lemma ProxyRefine(db: Database, t: QueryTree, run: Run, i: nat)
    requires Consistent(db) && OnTable(t.proxy, Proxies) && NoWindow(t.proxy) && BatchedProxy(db, t, run)
    requires i < |run.nodes| && t.proxy.Some?
    ensures NaiveProxy(db, t, run.nodes[i])
  {
    var q, keys, v := t.proxy.value, ProxyKeys(run.nodes), run.nodes[i];
    var ids := DistinctKeys(keys);
    DistinctKeysExact(keys);
    if keys[i].Some? {
      var k := keys[i].value;
      assert k in ids;
      var columns, rows := LeafSpecColumns(q), run.proxies.value;
      var leaves := ScanLeaves(columns, rows);
      var found := Select(leaves, LeafKeys(leaves, Id), k);
      assert LeafAnswer(db, ProxyQuery(q, ids), rows) && v.edges.proxy == FindLast(leaves, LeafKeys(leaves, Id), k);
      hide BatchedProxy, LeafSpecColumns, Select, LeafAnswer, ScanLeaf;
      ProxyRowsRefine(db, q, ids, k, rows);
      if found == [] {
        assert LeafRows(found) == [];
      } else {
        assert LeafRows(found) == [found[0].row];
        assert found[0] == ScanLeaf(columns, LeafRows(found)[0]);
      }
    }
  }

  lemma OwnedRowsRefine(db: Database, q: LeafQueryValue, ids: seq<int>, id: int, rows: seq<LeafRow>)
    requires forall r | r in db.Rows(q.table) :: LeafInt(r, AccountId).Some?
    requires KeysListed(q.table, q.columns) && (q.table.UsageLogs? || q.table.AccountGroups?)
    requires q.offset == 0 && q.limit == 0 && id in ids && LeafAnswer(db, OwnedQuery(q, ids), rows)
    ensures var columns := LeafSpecColumns(OwnedQuery(q, [id]));
      && var leaves := ScanLeaves(columns, rows);
      && var edge := Select(leaves, LeafKeys(leaves, AccountId), id);
      && LeafAnswer(db, OwnedQuery(q, [id]), LeafRows(edge))
      && edge == ScanLeaves(columns, LeafRows(edge))
  {
    var wide, single := OwnedQuery(q, ids), OwnedQuery(q, [id]);
    var columns := LeafSpecColumns(wide);
    var leaves := ScanLeaves(columns, rows);
    var keys, key := LeafKeys(leaves, AccountId), r => LeafInt(r, AccountId);
    UnlimitedAnswer(rows, MatchingLeaves(db.Rows(q.table), wide.preds), q.order);
    LeavesAreRows(db, wide, rows);
    LeafColumnsCover(q, ids);
    forall j | 0 <= j < |rows| ensures keys[j] == key(rows[j]) {
      assert rows[j] in rows;
      LeafKeyScanned(columns, rows[j], AccountId);
    }
    RestrictedLeaves(db.Rows(q.table), q.preds, AccountIn(ids), AccountIn([id]), key, id);
    SelectArranges(rows, keys, key, id, MatchingLeaves(db.Rows(q.table), wide.preds),
                   MatchingLeaves(db.Rows(q.table), single.preds), q.order);
    UnlimitedAnswer(Select(rows, keys, id), MatchingLeaves(db.Rows(q.table), single.preds), q.order);
    SelectLeafRows(columns, rows, keys, id);
    RowsOfScanned(columns, Select(rows, keys, id));
  }

  lemma OwnedRefine(
    db: Database, q: Option<LeafQueryValue>, nodes: seq<AccountV>, rows: Option<seq<LeafRow>>,
    edges: seq<seq<Leaf>>, i: nat
  )
    requires q.Some? ==> forall r | r in db.Rows(q.value.table) :: LeafInt(r, AccountId).Some?
    requires q.Some? ==>
      KeysListed(q.value.table, q.value.columns) && (q.value.table.UsageLogs? || q.value.table.AccountGroups?)
    requires NoWindow(q) && |edges| == |nodes| && BatchedOwned(db, q, nodes, rows, edges)
    requires forall j | 0 <= j < |nodes| :: IsLast(NodeIDs(nodes), j)
    requires i < |nodes|
    ensures NaiveOwned(db, q, nodes[i], edges[i])
  {
    if q.Some? {
      OwnedRowsRefine(db, q.value, NodeIDs(nodes), NodeIDs(nodes)[i], rows.value);
    }
  }

  // ---- The whole tree ----

  // Every node that a batched run returns is a node that loading its row alone, edge by edge, may
  // give: nested queries without limit or offset cannot tell a batch from its members.
  lemma {:induction false} BatchedIsNaive(db: Database, t: QueryTree, run: Run)
    requires Consistent(db) && Shaped(t) && NestedUnlimited(t) && Batched(db, t, run)
    ensures forall v | v in run.nodes :: Naive(db, t, v)
    decreases Depth(t)
  {
    if run.parents.Some? {
      BatchedIsNaive(db, ParentQuery(t.parent.value, DistinctKeys(ParentKeys(run.nodes))), run.parents.value);
    }
    if run.children.Some? {
      BatchedIsNaive(db, ChildQuery(t.children.value, NodeIDs(run.nodes)), run.children.value);
    }
    forall i | 0 <= i < |run.nodes| ensures Naive(db, t, run.nodes[i]) {
      NodeIsNaive(db, t, run, i);
    }
  }

  lemma NodeIsNaive(db: Database, t: QueryTree, run: Run, i: nat)
    requires Consistent(db) && Shaped(t) && NestedUnlimited(t) && Batched(db, t, run) && i < |run.nodes|
    requires t.children.Some? && run.children.Some? ==> forall n | n in run.children.value.nodes ::
               Naive(db, ChildQuery(t.children.value, NodeIDs(run.nodes)), n)
    requires t.parent.Some? && run.parents.Some? ==> forall n | n in run.parents.value.nodes ::
               Naive(db, ParentQuery(t.parent.value, DistinctKeys(ParentKeys(run.nodes))), n)
    ensures Naive(db, t, run.nodes[i])
  {
    var v := run.nodes[i];
    DistinctIDs(db, t, run.nodes);
    LeafEdgesRefine(db, t, run, i);
    if t.parent.Some? {
      ParentRefine(db, t, run, i);
    }
    if t.children.Some? {
      ChildrenRefine(db, t, run, i);
    }
    assert NaiveParent(db, t, v) && NaiveChildren(db, t, v);
    hide Batched, BatchedParent, BatchedChildren, NaiveParent, NaiveChildren, NaiveGroups, NaiveProxy, NaiveOwned,
      Shaped, NestedUnlimited, ScannedBy;
  }

  lemma LeafEdgesRefine(db: Database, t: QueryTree, run: Run, i: nat)
    requires Consistent(db) && Shaped(t) && NestedUnlimited(t) && Batched(db, t, run) && i < |run.nodes|
    requires forall j | 0 <= j < |run.nodes| :: IsLast(NodeIDs(run.nodes), j)
    ensures var v := run.nodes[i];
      && ScannedBy(db, t, v) && NaiveGroups(db, t, v) && NaiveProxy(db, t, v)
      && NaiveOwned(db, t.usageLogs, v, v.edges.usageLogs)
      && NaiveOwned(db, t.accountGroups, v, v.edges.accountGroups)
  {
    assert NoWindow(t.groups) && NoWindow(t.proxy) && NoWindow(t.usageLogs) && NoWindow(t.accountGroups);
    assert OnTable(t.proxy, Proxies) && OnTable(t.usageLogs, UsageLogs) && OnTable(t.accountGroups, AccountGroups);
    assert BatchedGroups(db, t, run) && BatchedProxy(db, t, run)
      && BatchedOwned(db, t.usageLogs, run.nodes, run.usageLogs, UsageLogEdges(run.nodes))
      && BatchedOwned(db, t.accountGroups, run.nodes, run.accountGroups, AccountGroupEdges(run.nodes));
    hide Batched, Shaped, NestedUnlimited, NaiveOwned, BatchedOwned;
    if t.groups.Some? {
      GroupsRefine(db, t, run, i);
    }
    if t.proxy.Some? {
      ProxyRefine(db, t, run, i);
    }
    hide BatchedGroups, BatchedProxy, NaiveGroups, NaiveProxy;
    OwnedRefine(db, t.usageLogs, run.nodes, run.usageLogs, UsageLogEdges(run.nodes), i);
    OwnedRefine(db, t.accountGroups, run.nodes, run.accountGroups, AccountGroupEdges(run.nodes), i);
  }
}
