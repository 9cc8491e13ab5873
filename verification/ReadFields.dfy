// What a query reads of the rows it returns: which columns, and which cell each field of a node comes from.
module ReadFields {
  import opened Wrappers
  import opened Sql
  import opened Leaves
  import opened AccountEntity
  import opened QueryModel
  import opened EagerSpec
  import opened Selection
  import opened EagerRefinement
  import opened FieldCells
  import CreateRoundTrip

  // ---- Columns of accounts ----

  // Every column if no field was selected, and otherwise the id, the selected fields, and the foreign keys of the
  // requested edges to one.
  predicate Reads(t: QueryTree, c: Column) {
    if t.fields == [] then !c.Other?
    else c.ID? || c in t.fields || (c.ProxyID? && t.proxy.Some?) || (c.ParentAccountID? && t.parent.Some?)
  }

  lemma SpecColumnsExact(t: QueryTree, c: Column)
    ensures c in SpecColumns(t) <==> Reads(t, c)
  {
    hide COLUMNS, WithoutID, AddOnce;
    if t.fields == [] {
      CreateRoundTrip.ColumnsExact(c);
    } else {
      WithoutIDMembers(t.fields);
      var columns := [ID] + WithoutID(t.fields);
      var proxied := if t.proxy.Some? then AddOnce(columns, ProxyID) else columns;
      AddedOnce(columns, ProxyID, c);
      AddedOnce(proxied, ParentAccountID, c);
    }
  }

  lemma AddedOnce(columns: seq<Column>, added: Column, c: Column)
    ensures c in AddOnce(columns, added) <==> c in columns || c == added
  {
  }

  // A nested query reads what it was asked for; that of the children their foreign key as well.
  lemma NestedReads(t: QueryTree, ids: seq<int>, c: Column)
    ensures Reads(ParentQuery(t, ids), c) <==> Reads(t, c)
    ensures Reads(ChildQuery(t, ids), c) <==> Reads(t, c) || c.ParentAccountID?
  {
  }

  lemma ScannedReads(db: Database, t: QueryTree, v: AccountV, wanted: set<Column>)
    requires Consistent(db) && ScannedBy(db, t, v) && v.row in db.accounts
    requires forall c :: c in wanted <==> Reads(t, c)
    ensures v.fields == Projected(db.codec, v.row, wanted)
  {
    hide SpecColumns, Reads, Projected, AssignAll, WellTyped, AccountID;
    forall c ensures c in wanted <==> c in SpecColumns(t) {
      SpecColumnsExact(t, c);
    }
    assert wanted == set c | c in SpecColumns(t);
    ScanIsProjected(db.codec, SpecColumns(t), v.row);
  }

  // Every node of a run is read from a row of the table, on exactly these columns.
  lemma RunReads(db: Database, t: QueryTree, run: Run, wanted: set<Column>)
    requires Consistent(db) && Batched(db, t, run) && forall c :: c in wanted <==> Reads(t, c)
    ensures forall v | v in run.nodes :: v.row in db.accounts && v.fields == Projected(db.codec, v.row, wanted)
  {
    hide Batched, AccountAnswer, ScannedBy, Projected, Reads, Consistent, HoldsAll;
    BatchedAnswer(db, t, run);
    NodesAreRows(db, t, NodeRows(run.nodes));
    forall v | v in run.nodes ensures v.row in db.accounts && v.fields == Projected(db.codec, v.row, wanted) {
      var i :| 0 <= i < |run.nodes| && run.nodes[i] == v;
      assert NodeRows(run.nodes)[i] == v.row && v.row in NodeRows(run.nodes);
      ScannedReads(db, t, v, wanted);
    }
  }

  // ---- Fields ----

  // The cells of a row that a query reads.
  function Kept(t: QueryTree, row: AccountRow): AccountRow { map c | c in row && Reads(t, c) :: row[c] }

  // Field by field, each node of a run is read from the cells that its query reads, and from nothing else.
  lemma RunReadsCells(db: Database, t: QueryTree, run: Run)
    requires Consistent(db) && Batched(db, t, run) && ValidFields(t.fields)
    ensures forall v | v in run.nodes :: v.row in db.accounts && ReadsWholeRow(db.codec, v.fields, Kept(t, v.row))
  {
    hide Batched, Consistent, Projected, ReadsWholeRow, Cell;
    var wanted := set c | c in SpecColumns(t);
    forall c ensures c in wanted <==> Reads(t, c) {
      SpecColumnsExact(t, c);
    }
    RunReads(db, t, run, wanted);
    forall v | v in run.nodes ensures ReadsWholeRow(db.codec, v.fields, Kept(t, v.row)) {
      forall c ensures Cell(Kept(t, v.row), c) == if c in wanted then Cell(v.row, c) else Null {
        KeptCell(t, v.row, c);
      }
      forall c: Column | c in wanted ensures !c.Other? {
        ReadsNoOther(t, c);
      }
      CellsProjected(db.codec, v.row, wanted, Kept(t, v.row));
    }
  }

  lemma KeptCell(t: QueryTree, row: AccountRow, c: Column)
    ensures Cell(Kept(t, row), c) == if Reads(t, c) then Cell(row, c) else Null
  {
  }

  lemma ReadsNoOther(t: QueryTree, c: Column)
    requires ValidFields(t.fields) && Reads(t, c)
    ensures !c.Other?
  {
  }

  // Without selected fields that is the whole row.
  lemma PlainQueryReadsAll(db: Database, t: QueryTree, run: Run)
    requires Consistent(db) && Batched(db, t, run) && t.fields == []
    ensures forall v | v in run.nodes :: v.row in db.accounts && ReadsWholeRow(db.codec, v.fields, v.row)
  {
    hide Batched, Consistent, ReadsWholeRow, Cell;
    RunReadsCells(db, t, run);
    forall v | v in run.nodes ensures ReadsWholeRow(db.codec, v.fields, v.row) {
      forall c: Column | !c.Other? ensures Cell(Kept(t, v.row), c) == Cell(v.row, c) {
        KeptCell(t, v.row, c);
      }
      SameCells(db.codec, v.fields, Kept(t, v.row), v.row);
    }
  }

  // ---- Proxies, groups, usage logs and join rows ----

  // Every listed column if no field was selected, and otherwise the selected fields and, for tables that have one,
  // the id.
  predicate ReadsLeaf(q: LeafQueryValue, c: LeafColumn) {
    if q.fields == [] then c in q.columns else c in q.fields || (c == Id && !q.table.AccountGroups?)
  }

  lemma LeafColumnsExact(q: LeafQueryValue, c: LeafColumn)
    ensures c in LeafSpecColumns(q) <==> ReadsLeaf(q, c)
  {
    if q.fields != [] {
      WithoutLeafIDMembers(q.fields);
    }
  }

  // A struct holds exactly the non-NULL cells of its row that were read, with their values.
  ghost predicate HoldsCells(leaf: Leaf, wants: LeafColumn -> bool) {
    && (forall c :: c in leaf.cells <==> wants(c) && c in leaf.row && leaf.row[c] != Null)
    && forall c | c in leaf.cells :: leaf.cells[c] == leaf.row[c]
  }

  lemma LeafHolds(q: LeafQueryValue, row: LeafRow)
    ensures HoldsCells(ScanLeaf(LeafSpecColumns(q), row), c => ReadsLeaf(q, c))
    ensures ScanLeaf(LeafSpecColumns(q), row).row == row
  {
    hide LeafSpecColumns, ReadsLeaf;
    forall c ensures c in LeafSpecColumns(q) <==> ReadsLeaf(q, c) {
      LeafColumnsExact(q, c);
    }
  }

  // Usage logs and join rows are read with their account.
  predicate ReadsOwned(q: LeafQueryValue, c: LeafColumn) { ReadsLeaf(q, c) || (q.fields != [] && c == AccountId) }

  lemma OwnedHolds(q: LeafQueryValue, ids: seq<int>, row: LeafRow)
    ensures HoldsCells(ScanLeaf(LeafSpecColumns(OwnedQuery(q, ids)), row), c => ReadsOwned(q, c))
  {
    hide LeafSpecColumns, HoldsCells;
    LeafHolds(OwnedQuery(q, ids), row);
    forall c ensures ReadsLeaf(OwnedQuery(q, ids), c) <==> ReadsOwned(q, c) {
    }
    SameHolds(ScanLeaf(LeafSpecColumns(OwnedQuery(q, ids)), row), c => ReadsLeaf(OwnedQuery(q, ids), c),
              c => ReadsOwned(q, c));
  }

  lemma SameHolds(leaf: Leaf, a: LeafColumn -> bool, b: LeafColumn -> bool)
    requires HoldsCells(leaf, a) && forall c :: a(c) == b(c)
    ensures HoldsCells(leaf, b)
  {
  }

  ghost predicate AllHold(leaves: seq<Leaf>, wants: LeafColumn -> bool) {
    forall leaf | leaf in leaves :: HoldsCells(leaf, wants)
  }

  lemma ScannedHold(q: LeafQueryValue, rows: seq<LeafRow>)
    ensures AllHold(ScanLeaves(LeafSpecColumns(q), rows), c => ReadsLeaf(q, c))
  {
    hide ScanLeaf, LeafSpecColumns, HoldsCells;
    forall leaf | leaf in ScanLeaves(LeafSpecColumns(q), rows) ensures HoldsCells(leaf, c => ReadsLeaf(q, c)) {
      var i :| 0 <= i < |rows| && ScanLeaf(LeafSpecColumns(q), rows[i]) == leaf;
      LeafHolds(q, rows[i]);
    }
  }

  lemma OwnedScannedHold(q: LeafQueryValue, ids: seq<int>, rows: seq<LeafRow>)
    ensures AllHold(ScanLeaves(LeafSpecColumns(OwnedQuery(q, ids)), rows), c => ReadsOwned(q, c))
  {
    hide ScanLeaf, LeafSpecColumns, HoldsCells, ReadsOwned;
    var columns := LeafSpecColumns(OwnedQuery(q, ids));
    forall leaf | leaf in ScanLeaves(columns, rows) ensures HoldsCells(leaf, c => ReadsOwned(q, c)) {
      var i :| 0 <= i < |rows| && ScanLeaf(columns, rows[i]) == leaf;
      OwnedHolds(q, ids, rows[i]);
    }
  }

  lemma SomeHold(leaves: seq<Leaf>, some: seq<Leaf>, wants: LeafColumn -> bool)
    requires AllHold(leaves, wants) && forall leaf | leaf in some :: leaf in leaves
    ensures AllHold(some, wants)
  {
  }

  lemma GroupsHold(db: Database, t: QueryTree, run: Run, i: nat)
    requires BatchedGroups(db, t, run) && i < |run.nodes| && t.groups.Some?
    ensures AllHold(run.nodes[i].edges.groups, c => ReadsLeaf(t.groups.value, c))
  {
    hide LeafSpecColumns, ScanLeaves, GroupAnswer, Unreadable, HoldsCells;
    var q, ids := t.groups.value, NodeIDs(run.nodes);
    ScannedHold(q, GroupsOf(run.groups.value, ids, i));
    SameGroupColumns(q, ids);
  }

  lemma SameGroupColumns(q: LeafQueryValue, ids: seq<int>)
    ensures LeafSpecColumns(GroupQuery(q, ids)) == LeafSpecColumns(q) == LeafSpecColumns(ProxyQuery(q, ids))
  {
  }

  lemma ProxyHolds(db: Database, t: QueryTree, run: Run, i: nat)
    requires BatchedProxy(db, t, run) && i < |run.nodes| && run.nodes[i].edges.proxy.Some?
    ensures t.proxy.Some? && HoldsCells(run.nodes[i].edges.proxy.value, c => ReadsLeaf(t.proxy.value, c))
  {
    hide LeafSpecColumns, ScanLeaves, LeafAnswer, HoldsCells, DistinctKeys, Select;
    var q, keys := t.proxy.value, ProxyKeys(run.nodes);
    SameGroupColumns(q, DistinctKeys(keys));
    var leaves := ScanLeaves(LeafSpecColumns(q), run.proxies.value);
    ScannedHold(q, run.proxies.value);
    SelectMembers(leaves, LeafKeys(leaves, Id), keys[i].value);
    var found := Select(leaves, LeafKeys(leaves, Id), keys[i].value);
    assert found[|found| - 1] in found;
  }

  lemma OwnedHold(db: Database, q: LeafQueryValue, nodes: seq<AccountV>, rows: Option<seq<LeafRow>>,
      edges: seq<seq<Leaf>>, i: nat)
    requires |edges| == |nodes| && BatchedOwned(db, Some(q), nodes, rows, edges) && i < |nodes|
    ensures AllHold(edges[i], c => ReadsOwned(q, c))
  {
    hide LeafSpecColumns, ScanLeaves, LeafAnswer, HoldsCells, Select;
    var ids := NodeIDs(nodes);
    var leaves := ScanLeaves(LeafSpecColumns(OwnedQuery(q, ids)), rows.value);
    OwnedScannedHold(q, ids, rows.value);
    SelectMembers(leaves, LeafKeys(leaves, AccountId), ids[i]);
    SomeHold(leaves, edges[i], c => ReadsOwned(q, c));
  }

  // The structs on every edge of a run's node hold what the edge's query reads of their rows.
  lemma EdgesHoldCells(db: Database, t: QueryTree, run: Run, i: nat)
    requires Batched(db, t, run) && i < |run.nodes|
    ensures var edges := run.nodes[i].edges;
      && (t.groups.Some? ==> AllHold(edges.groups, c => ReadsLeaf(t.groups.value, c)))
      && (edges.proxy.Some? ==> t.proxy.Some? && HoldsCells(edges.proxy.value, c => ReadsLeaf(t.proxy.value, c)))
      && (t.usageLogs.Some? ==> AllHold(edges.usageLogs, c => ReadsOwned(t.usageLogs.value, c)))
      && (t.accountGroups.Some? ==> AllHold(edges.accountGroups, c => ReadsOwned(t.accountGroups.value, c)))
  {
    hide Batched, BatchedGroups, BatchedProxy, BatchedOwned, AllHold, HoldsCells;
    BatchedParts(db, t, run);
    if t.groups.Some? {
      GroupsHold(db, t, run, i);
    }
    if run.nodes[i].edges.proxy.Some? {
      ProxyHolds(db, t, run, i);
    }
    if t.usageLogs.Some? {
      OwnedHold(db, t.usageLogs.value, run.nodes, run.usageLogs, UsageLogEdges(run.nodes), i);
    }
    if t.accountGroups.Some? {
      OwnedHold(db, t.accountGroups.value, run.nodes, run.accountGroups, AccountGroupEdges(run.nodes), i);
    }
  }
}
