// Running a query tree: the root query, then each requested edge in turn.
module EagerLoad {
  import opened Wrappers
  import opened Sql
  import opened Leaves
  import opened AccountEntity
  import opened QueryModel
  import opened EagerSpec
  import opened EagerRefinement
  import opened LoadedGraph
  import opened Builders
  import opened LeafLoaders
  import opened GroupLoader
  import opened Assembly
  import Selection
  import Rejoins

  // ---- The root query ----

  function SpecColumnsOf(q: AccountQuery): seq<Column>
    reads q
  {
    if q.fields == [] then COLUMNS
    else
      var columns := [ID] + WithoutID(q.fields);
      var columns := if q.withProxy != null then AddOnce(columns, ProxyID) else columns;
      if q.withParent != null then AddOnce(columns, ParentAccountID) else columns
  }

  function LoadedTypesOf(q: AccountQuery): LoadedTypes
    reads q
  {
    LoadedTypes(q.withGroups != null, q.withProxy != null, q.withParent != null, q.withChildren != null,
                q.withUsageLogs != null, q.withAccountGroups != null)
  }

  // One row: scanValues, rows.Scan, then the hooked Assign with its new node.
  method ScanNode(driver: Driver, columns: seq<Column>, loaded: LoadedTypes, row: AccountRow, ghost height: nat)
    returns (node: Account, err: Option<LoadError>)
    ensures fresh(node) && node.row == row && node.height == height
    ensures WellTyped(driver.db.codec, row) ==> err.None?
    ensures err.None? ==> node.fields == Scan(driver.db.codec, columns, row) && node.edges == NoEdges(loaded)
  {
    var values := ScanValues(columns);
    node := new Account(loaded, row, height);
    assert WellTyped(driver.db.codec, row) ==> forall c | c in columns :: Fill(EmptyBuffer(c), Cell(row, c)).Some? by {
      FillsAll(driver.db.codec, columns, row);
    }
    var ok := driver.ScanRow(columns, row, values);
    if !ok {
      return node, Some(DriverError);
    }
    var failed := node.AssignValues(driver.db.codec, columns, values);
    assert WellTyped(driver.db.codec, row) ==> failed.None? by {
      if WellTyped(driver.db.codec, row) {
        ScanIsProjected(driver.db.codec, columns, row);
      }
    }
    if failed.Some? {
      return node, Some(Assigning(failed.value));
    }
    return node, None;
  }

  lemma FillsAll(codec: JsonCodec, columns: seq<Column>, row: AccountRow)
    ensures WellTyped(codec, row) ==> forall c | c in columns :: Fill(EmptyBuffer(c), Cell(row, c)).Some?
  {
  }

  method ScanRows(driver: Driver, columns: seq<Column>, loaded: LoadedTypes, rows: seq<AccountRow>, ghost height: nat)
    returns (nodes: seq<Account>, err: Option<LoadError>)
    ensures Distinct(nodes) && forall n | n in nodes :: fresh(n)
    ensures (forall r | r in rows :: WellTyped(driver.db.codec, r)) ==> err.None?
    ensures err.None? ==> |nodes| == |rows| && forall i | 0 <= i < |rows| ::
      && nodes[i].row == rows[i] && nodes[i].height == height
      && nodes[i].fields == Scan(driver.db.codec, columns, rows[i]) && nodes[i].edges == NoEdges(loaded)
  {
    nodes := [];
    for i := 0 to |rows|
      invariant |nodes| == i && Distinct(nodes) && forall n | n in nodes :: fresh(n)
      invariant forall j | 0 <= j < i ::
        && nodes[j].row == rows[j] && nodes[j].height == height
        && nodes[j].fields == Scan(driver.db.codec, columns, rows[j]) && nodes[j].edges == NoEdges(loaded)
    {
      hide Scan, WellTyped, NoEdges;
      var node, failed := ScanNode(driver, columns, loaded, rows[i], height);
      if failed.Some? {
        assert rows[i] in rows;
        return nodes, failed;
      }
      nodes := nodes + [node];
    }
    return nodes, None;
  }

  lemma TreeSettings(q: AccountQuery)
    requires q.Valid()
    ensures var t := q.Tree();
      && t.preds == q.predicates && t.order == q.order && t.offset == Count(q.offset) && t.limit == Count(q.limit)
      && SpecColumnsOf(q) == SpecColumns(t) && LoadedTypesOf(q) == Requested(t)
  {
  }

  lemma AnswersTree(db: Database, t: QueryTree, rows: seq<AccountRow>)
    requires Answers(rows, MatchingAccounts(db.accounts, t.preds), t.order, t.offset, t.limit)
    ensures AccountAnswer(db, t, rows)
  {
  }

  lemma ScansTree(db: Database, t: QueryTree, nodes: seq<Account>, rows: seq<AccountRow>)
    requires |nodes| == |rows| && forall i | 0 <= i < |rows| ::
      && nodes[i].row == rows[i] && nodes[i].height == Depth(t)
      && nodes[i].fields == Scan(db.codec, SpecColumns(t), rows[i]) && nodes[i].edges == NoEdges(Requested(t))
    ensures JustScanned(db, t, nodes, rows)
  {
  }

  lemma RowsTyped(db: Database)
    ensures Consistent(db) ==> forall r | r in db.accounts :: WellTyped(db.codec, r)
  {
  }

  // querySpec and QueryNodes.
  method QueryNodes(q: AccountQuery, driver: Driver)
    returns (nodes: seq<Account>, err: Option<LoadError>, ghost rows: seq<AccountRow>)
    requires q.Valid() && ValidEngine(driver.engine)
    modifies driver`queries
    ensures Distinct(nodes) && forall n | n in nodes :: fresh(n)
    ensures driver.queries == old(driver.queries) + 1
    ensures AccountAnswer(driver.db, q.Tree(), rows)
    ensures Consistent(driver.db) ==> err.None?
    ensures err.None? ==> JustScanned(driver.db, q.Tree(), nodes, rows)
  {
    hide *;
    ghost var t := q.Tree();
    TreeSettings(q);
    var columns, loaded := SpecColumnsOf(q), LoadedTypesOf(q);
    var answer := driver.QueryAccounts(q.predicates, q.order, Count(q.offset), Count(q.limit));
    rows := answer;
    AnswersTree(driver.db, t, rows);
    NodesAreRows(driver.db, t, rows);
    RowsTyped(driver.db);
    nodes, err := ScanRows(driver, columns, loaded, answer, Depth(t));
    if err.None? {
      ScansTree(driver.db, t, nodes, rows);
    }
  }

  // ---- One edge at a time ----

  ghost predicate OnGroups(db: Database, q: Option<LeafQueryValue>) { q.Some? ==> GroupTable(db, q.value) }

  ghost predicate OnProxies(db: Database, q: Option<LeafQueryValue>) { q.Some? ==> ProxyTable(db, q.value) }

  ghost predicate OnOwned(db: Database, q: Option<LeafQueryValue>) { q.Some? ==> OwnedTable(db, q.value) }

  predicate FieldsFit(q: Option<LeafQueryValue>) { q.Some? ==> ValidLeafFields(q.value) }

  predicate TreeFits(q: Option<QueryTree>) { q.Some? ==> AllFieldsValid(q.value) }

  // At these nodes the edge may end the run in a panic.
  ghost predicate GroupsHalt(db: Database, q: Option<LeafQueryValue>, ids: seq<int>) {
    q.Some? && Unreadable(db, q.value, ids)
  }

  ghost predicate ParentHalts(db: Database, q: Option<QueryTree>, keys: seq<Option<int>>) {
    q.Some? && DistinctKeys(keys) != [] && MayHalt(db, ParentQuery(q.value, DistinctKeys(keys)))
  }

  ghost predicate ChildrenHalt(db: Database, q: Option<QueryTree>, ids: seq<int>) {
    q.Some? && MayHalt(db, ChildQuery(q.value, ids))
  }

  method GroupsEdge(query: LeafQuery?, driver: Driver, nodes: seq<Account>)
    returns (err: Option<LoadError>, ghost pairs: Option<seq<(int, LeafRow)>>, ghost lists: seq<seq<Leaf>>)
    requires ValidEngine(driver.engine) && Distinct(nodes)
    requires OnGroups(driver.db, LeafValue(query))
    requires forall n | n in nodes :: n.edges.groups == []
    modifies driver`queries, AsSet(query), (set n | n in nodes)`edges
    ensures FieldsFit(old(LeafValue(query))) ==> err.None? || err == Some(Rejoined)
    ensures err == Some(Rejoined) ==> GroupsHalt(driver.db, old(LeafValue(query)), old(IDsOf(nodes)))
    ensures err.None? ==>
      && driver.queries == old(driver.queries) + Issued(pairs)
      && GroupsLoaded(driver.db, old(LeafValue(query)), old(IDsOf(nodes)), pairs, lists)
      && GroupsGiven(nodes, old(EdgesOf(nodes)), lists)
      && LeafValue(query) == GroupsAfter(old(LeafValue(query)), old(IDsOf(nodes)), pairs)
  {
    if query == null {
      return None, None, seq(|nodes|, _ => []);
    }
    ghost var found;
    err, found := LoadGroups(driver, query, nodes);
    pairs := Some(found);
    lists := GroupLists(LeafSpecColumns(query.Value()), FirstMentions(found, {}), found, old(IDsOf(nodes)));
  }

  method ProxyEdge(query: LeafQuery?, driver: Driver, nodes: seq<Account>)
    returns (err: Option<LoadError>, ghost rows: Option<seq<LeafRow>>, ghost ones: seq<Option<Leaf>>)
    requires ValidEngine(driver.engine) && Distinct(nodes)
    requires OnProxies(driver.db, LeafValue(query))
    requires forall i | 0 <= i < |nodes| :: nodes[i].edges.proxy == None
    modifies driver`queries, AsSet(query), (set n | n in nodes)`edges
    ensures FieldsFit(old(LeafValue(query))) ==> err.None?
    ensures err != Some(Rejoined)
    ensures err.None? ==>
      && driver.queries == old(driver.queries) + Issued(rows)
      && ProxiesLoaded(driver.db, old(LeafValue(query)), old(ProxyIDsOf(nodes)), rows, ones)
      && ProxiesGiven(nodes, old(EdgesOf(nodes)), ones)
      && LeafValue(query) == ProxyAfter(old(LeafValue(query)), old(ProxyIDsOf(nodes)), rows)
  {
    if query == null {
      return None, None, seq(|nodes|, _ => None);
    }
    ghost var keys := ProxyIDsOf(nodes);
    err, rows := LoadProxy(driver, query, nodes);
    if rows.None? {
      ones := seq(|nodes|, _ => None);
    } else {
      ghost var leaves := ScanLeaves(LeafSpecColumns(query.Value()), rows.value);
      ones := Ones(leaves, LeafKeys(leaves, Id), keys);
    }
  }

  method OwnedEdge(query: LeafQuery?, driver: Driver, nodes: seq<Account>, slot: Slot)
    returns (err: Option<LoadError>, ghost rows: Option<seq<LeafRow>>, ghost lists: seq<seq<Leaf>>)
    requires ValidEngine(driver.engine) && Distinct(nodes)
    requires OnOwned(driver.db, LeafValue(query))
    requires forall n | n in nodes :: Held(slot, n.edges) == []
    modifies driver`queries, AsSet(query), (set n | n in nodes)`edges
    ensures FieldsFit(old(LeafValue(query))) ==> err.None?
    ensures err != Some(Rejoined)
    ensures err.None? ==>
      && driver.queries == old(driver.queries) + Issued(rows)
      && OwnedLoaded(driver.db, old(LeafValue(query)), old(IDsOf(nodes)), rows, lists)
      && Given(nodes, old(EdgesOf(nodes)), slot, lists)
      && LeafValue(query) == OwnedAfter(old(LeafValue(query)), old(IDsOf(nodes)), rows)
  {
    if query == null {
      return None, None, seq(|nodes|, _ => []);
    }
    ghost var found;
    err, found := LoadOwned(driver, query, nodes, slot);
    rows := Some(found);
    ghost var leaves := ScanLeaves(LeafSpecColumns(query.Value()), found);
    lists := Lists(leaves, LeafKeys(leaves, AccountId), old(IDsOf(nodes)));
  }

  // ---- The six steps of a run ----

  lemma GroupsHeld(t: QueryTree, nodes: seq<Account>, before: seq<Edges<Account>>, l: Loads,
      pairs: Option<seq<(int, LeafRow)>>, lists: seq<seq<Leaf>>)
    requires EdgesHold(t, before, l) && GroupsGiven(nodes, before, lists)
    ensures EdgesHold(t, EdgesOf(nodes), l.(pairs := pairs, groups := lists))
  {
  }

  method GroupsStep(query: LeafQuery?, driver: Driver, nodes: seq<Account>, ghost s: Stage, ghost l: Loads)
    returns (err: Option<LoadError>, ghost l': Loads)
    requires ValidEngine(driver.engine) && At(s, nodes, l) && l.groups == seq(|nodes|, _ => [])
    requires OnGroups(driver.db, LeafValue(query))
    modifies driver`queries, AsSet(query), (set n | n in nodes)`edges
    ensures FieldsFit(old(LeafValue(query))) ==> err.None? || err == Some(Rejoined)
    ensures err == Some(Rejoined) ==> GroupsHalt(driver.db, old(LeafValue(query)), s.ids)
    ensures err.None? ==>
      && l' == l.(pairs := l'.pairs, groups := l'.groups) && At(s, nodes, l')
      && driver.queries == old(driver.queries) + Issued(l'.pairs)
      && GroupsLoaded(driver.db, old(LeafValue(query)), s.ids, l'.pairs, l'.groups)
      && LeafValue(query) == GroupsAfter(old(LeafValue(query)), s.ids, l'.pairs)
  {
    hide *;
    ghost var before := EdgesOf(nodes);
    StepStarts(s, nodes, l);
    ghost var pairs, lists;
    err, pairs, lists := GroupsEdge(query, driver, nodes);
    l' := l.(pairs := pairs, groups := lists);
    if err.None? {
      GroupsHeld(s.t, nodes, before, l, pairs, lists);
      StepEnds(s, nodes, l');
    }
  }

  // What a step may use of the state, and what it has to give back.
  lemma StepStarts(s: Stage, nodes: seq<Account>, l: Loads)
    requires At(s, nodes, l)
    ensures Scanned(s) && Distinct(nodes) && EdgesHold(s.t, EdgesOf(nodes), l)
    ensures IDsOf(nodes) == s.ids && ProxyIDsOf(nodes) == s.proxyKeys && ParentIDsOf(nodes) == s.parentKeys
    ensures |nodes| == |s.rows| == |s.fields|
    ensures forall i | 0 <= i < |nodes| ::
      nodes[i].row == s.rows[i] && nodes[i].height == Depth(s.t) && nodes[i].fields == s.fields[i]
    ensures |l.groups| == |l.proxies| == |l.parents| == |l.children| == |l.usageLogs| == |l.accountGroups| == |nodes|
    ensures forall i | 0 <= i < |nodes| ::
      && nodes[i].edges.groups == l.groups[i] && nodes[i].edges.proxy == l.proxies[i]
      && nodes[i].edges.parent == l.parents[i] && nodes[i].edges.children == l.children[i]
      && nodes[i].edges.usageLogs == l.usageLogs[i] && nodes[i].edges.accountGroups == l.accountGroups[i]
  {
  }

  lemma StepEnds(s: Stage, nodes: seq<Account>, l: Loads)
    requires Scanned(s) && Distinct(nodes) && EdgesHold(s.t, EdgesOf(nodes), l)
    requires |nodes| == |s.rows| == |s.fields|
    requires forall i | 0 <= i < |nodes| ::
      nodes[i].row == s.rows[i] && nodes[i].height == Depth(s.t) && nodes[i].fields == s.fields[i]
    ensures At(s, nodes, l)
  {
  }

  lemma ProxiesHeld(t: QueryTree, nodes: seq<Account>, before: seq<Edges<Account>>, l: Loads,
      rows: Option<seq<LeafRow>>, ones: seq<Option<Leaf>>)
    requires EdgesHold(t, before, l) && ProxiesGiven(nodes, before, ones)
    ensures EdgesHold(t, EdgesOf(nodes), l.(proxyRows := rows, proxies := ones))
  {
  }

  method ProxyStep(query: LeafQuery?, driver: Driver, nodes: seq<Account>, ghost s: Stage, ghost l: Loads)
    returns (err: Option<LoadError>, ghost l': Loads)
    requires ValidEngine(driver.engine) && At(s, nodes, l) && l.proxies == seq(|nodes|, _ => None)
    requires OnProxies(driver.db, LeafValue(query))
    modifies driver`queries, AsSet(query), (set n | n in nodes)`edges
    ensures FieldsFit(old(LeafValue(query))) ==> err.None?
    ensures err != Some(Rejoined)
    ensures err.None? ==>
      && l' == l.(proxyRows := l'.proxyRows, proxies := l'.proxies) && At(s, nodes, l')
      && driver.queries == old(driver.queries) + Issued(l'.proxyRows)
      && ProxiesLoaded(driver.db, old(LeafValue(query)), s.proxyKeys, l'.proxyRows, l'.proxies)
      && LeafValue(query) == ProxyAfter(old(LeafValue(query)), s.proxyKeys, l'.proxyRows)
  {
    hide *;
    ghost var before := EdgesOf(nodes);
    StepStarts(s, nodes, l);
    ghost var rows, ones;
    err, rows, ones := ProxyEdge(query, driver, nodes);
    l' := l.(proxyRows := rows, proxies := ones);
    if err.None? {
      ProxiesHeld(s.t, nodes, before, l, rows, ones);
      StepEnds(s, nodes, l');
    }
  }

  lemma SlotEmpty(s: Stage, nodes: seq<Account>, l: Loads, slot: Slot)
    requires At(s, nodes, l)
    requires (if slot.UsageLogsSlot? then l.usageLogs else l.accountGroups) == seq(|nodes|, _ => [])
    ensures forall n | n in nodes :: Held(slot, n.edges) == []
  {
  }

  lemma UsageLogsHeld(t: QueryTree, nodes: seq<Account>, before: seq<Edges<Account>>, l: Loads,
      rows: Option<seq<LeafRow>>, lists: seq<seq<Leaf>>)
    requires EdgesHold(t, before, l) && Given(nodes, before, UsageLogsSlot, lists)
    ensures EdgesHold(t, EdgesOf(nodes), l.(usageRows := rows, usageLogs := lists))
  {
  }

  method UsageLogsStep(query: LeafQuery?, driver: Driver, nodes: seq<Account>, ghost s: Stage, ghost l: Loads)
    returns (err: Option<LoadError>, ghost l': Loads)
    requires ValidEngine(driver.engine) && At(s, nodes, l) && l.usageLogs == seq(|nodes|, _ => [])
    requires OnOwned(driver.db, LeafValue(query))
    modifies driver`queries, AsSet(query), (set n | n in nodes)`edges
    ensures FieldsFit(old(LeafValue(query))) ==> err.None?
    ensures err != Some(Rejoined)
    ensures err.None? ==>
      && l' == l.(usageRows := l'.usageRows, usageLogs := l'.usageLogs) && At(s, nodes, l')
      && driver.queries == old(driver.queries) + Issued(l'.usageRows)
      && OwnedLoaded(driver.db, old(LeafValue(query)), s.ids, l'.usageRows, l'.usageLogs)
      && LeafValue(query) == OwnedAfter(old(LeafValue(query)), s.ids, l'.usageRows)
  {
    hide *;
    ghost var before := EdgesOf(nodes);
    StepStarts(s, nodes, l);
    SlotEmpty(s, nodes, l, UsageLogsSlot);
    ghost var rows, lists;
    err, rows, lists := OwnedEdge(query, driver, nodes, UsageLogsSlot);
    l' := l.(usageRows := rows, usageLogs := lists);
    if err.None? {
      UsageLogsHeld(s.t, nodes, before, l, rows, lists);
      StepEnds(s, nodes, l');
    }
  }

  lemma JoinRowsHeld(t: QueryTree, nodes: seq<Account>, before: seq<Edges<Account>>, l: Loads,
      rows: Option<seq<LeafRow>>, lists: seq<seq<Leaf>>)
    requires EdgesHold(t, before, l) && Given(nodes, before, AccountGroupsSlot, lists)
    ensures EdgesHold(t, EdgesOf(nodes), l.(joinRows := rows, accountGroups := lists))
  {
  }

  method JoinRowsStep(query: LeafQuery?, driver: Driver, nodes: seq<Account>, ghost s: Stage, ghost l: Loads)
    returns (err: Option<LoadError>, ghost l': Loads)
    requires ValidEngine(driver.engine) && At(s, nodes, l) && l.accountGroups == seq(|nodes|, _ => [])
    requires OnOwned(driver.db, LeafValue(query))
    modifies driver`queries, AsSet(query), (set n | n in nodes)`edges
    ensures FieldsFit(old(LeafValue(query))) ==> err.None?
    ensures err != Some(Rejoined)
    ensures err.None? ==>
      && l' == l.(joinRows := l'.joinRows, accountGroups := l'.accountGroups) && At(s, nodes, l')
      && driver.queries == old(driver.queries) + Issued(l'.joinRows)
      && OwnedLoaded(driver.db, old(LeafValue(query)), s.ids, l'.joinRows, l'.accountGroups)
      && LeafValue(query) == OwnedAfter(old(LeafValue(query)), s.ids, l'.joinRows)
  {
    hide *;
    ghost var before := EdgesOf(nodes);
    StepStarts(s, nodes, l);
    SlotEmpty(s, nodes, l, AccountGroupsSlot);
    ghost var rows, lists;
    err, rows, lists := OwnedEdge(query, driver, nodes, AccountGroupsSlot);
    l' := l.(joinRows := rows, accountGroups := lists);
    if err.None? {
      JoinRowsHeld(s.t, nodes, before, l, rows, lists);
      StepEnds(s, nodes, l');
    }
  }

  // ---- Edges to accounts ----

  ghost predicate ParentsGiven(nodes: seq<Account>, before: seq<Edges<Account>>, ones: seq<Option<Account>>)
    reads nodes
  {
    && |before| == |nodes| == |ones|
    && forall i | 0 <= i < |nodes| :: nodes[i].edges == before[i].(parent := ones[i])
  }

  method GiveParent(
    targets: seq<Account>, n: Account, ghost nodes: seq<Account>, ghost before: seq<Edges<Account>>,
    ghost now: seq<Option<Account>>, ghost next: seq<Option<Account>>
  )
    requires ParentsGiven(nodes, before, now) && |next| == |now|
    requires forall i | 0 <= i < |nodes| :: next[i] == if nodes[i] in targets then Some(n) else now[i]
    modifies (set t | t in targets)`edges
    ensures ParentsGiven(nodes, before, next)
  {
    for m := 0 to |targets|
      invariant forall i | 0 <= i < |nodes| ::
        nodes[i].edges == before[i].(parent := if nodes[i] in targets[..m] then Some(n) else now[i])
        || (nodes[i] in targets && nodes[i].edges == before[i].(parent := Some(n)))
    {
      targets[m].edges := targets[m].edges.(parent := Some(n));
    }
    assert targets[..|targets|] == targets;
  }

  method DistributeParents(
    nodes: seq<Account>, keys: seq<Option<int>>, nodeids: map<int, seq<Account>>, neighbors: seq<Account>,
    ghost ids: seq<Option<int>>, ghost before: seq<Edges<Account>>
  ) returns (err: Option<LoadError>)
    requires Distinct(nodes) && |keys| == |nodes| && |ids| == |neighbors|
    requires forall j | 0 <= j < |neighbors| :: ids[j] == Some(neighbors[j].fields.ints.id)
    requires forall k | k in nodeids :: nodeids[k] == Select(nodes, keys, k)
    requires ParentsGiven(nodes, before, seq(|nodes|, _ => None))
    modifies (set n | n in nodes)`edges
    ensures (forall j | 0 <= j < |neighbors| :: ids[j].value in nodeids) <==> err.None?
    ensures err.Some? ==> exists j | 0 <= j < |neighbors| ::
      && err == Some(UnexpectedForeignKey(ids[j].value))
      && ids[j].value !in nodeids && forall k | 0 <= k < j :: ids[k].value in nodeids
    ensures err.None? ==> ParentsGiven(nodes, before, Ones(neighbors, ids, keys))
  {
    hide Ones, ParentsGiven;
    NoOnes(neighbors, ids, keys);
    assert Ones(neighbors[..0], ids[..0], keys) == seq(|nodes|, _ => None);
    for j := 0 to |neighbors|
      invariant ParentsGiven(nodes, before, Ones(neighbors[..j], ids[..j], keys))
      invariant forall k | 0 <= k < j :: ids[k].value in nodeids
    {
      var n := neighbors[j];
      var id := n.fields.ints.id;
      assert ids[j] == Some(id);
      if id !in nodeids {
        return Some(UnexpectedForeignKey(id));
      }
      OnesTake(neighbors, ids, j, keys);
      TargetsHoldKey(nodes, keys, id);
      Selection.SelectMembers(nodes, keys, id);
      GiveParent(nodeids[id], n, nodes, before,
                 Ones(neighbors[..j], ids[..j], keys), Ones(neighbors[..j + 1], ids[..j + 1], keys));
    }
    return None;
  }

  ghost predicate ChildrenGiven(nodes: seq<Account>, before: seq<Edges<Account>>, lists: seq<seq<Account>>)
    reads nodes
  {
    && |before| == |nodes| == |lists|
    && forall i | 0 <= i < |nodes| :: nodes[i].edges == before[i].(children := lists[i])
  }

  method GiveChild(
    node: Account, n: Account, ghost nodes: seq<Account>, ghost before: seq<Edges<Account>>,
    ghost now: seq<seq<Account>>, ghost next: seq<seq<Account>>
  )
    requires ChildrenGiven(nodes, before, now) && |next| == |now|
    requires forall i | 0 <= i < |nodes| :: next[i] == now[i] + if nodes[i] == node then [n] else []
    modifies node`edges
    ensures ChildrenGiven(nodes, before, next)
  {
    node.edges := node.edges.(children := node.edges.children + [n]);
  }

  method ClearChildren(nodes: seq<Account>)
    modifies (set n | n in nodes)`edges
    ensures ChildrenGiven(nodes, old(EdgesOf(nodes)), seq(|nodes|, _ => []))
  {
    ghost var before := EdgesOf(nodes);
    for i := 0 to |nodes|
      invariant forall j | 0 <= j < |nodes| ::
        nodes[j].edges == before[j].(children := []) || (i <= j && nodes[j].edges == before[j])
    {
      nodes[i].edges := nodes[i].edges.(children := []);
    }
  }

  predicate FirstUnasked(keys: seq<Option<int>>, fks: seq<int>, j: nat)
    requires j < |keys|
  {
    && (keys[j].Some? ==> keys[j].value !in fks)
    && forall k | 0 <= k < j :: keys[k].Some? && keys[k].value in fks
  }

  function UnaskedError(key: Option<int>): LoadError {
    if key.None? then NilForeignKey else UnexpectedForeignKey(key.value)
  }

  method DistributeChildren(
    nodes: seq<Account>, fks: seq<int>, nodeids: map<int, Account>, neighbors: seq<Account>,
    ghost keys: seq<Option<int>>, ghost before: seq<Edges<Account>>
  ) returns (err: Option<LoadError>)
    requires |fks| == |nodes| && |keys| == |neighbors| && Indexes(nodeids, nodes, fks)
    requires forall j | 0 <= j < |neighbors| :: keys[j] == neighbors[j].fields.ints.parentAccountID
    requires ChildrenGiven(nodes, before, seq(|nodes|, _ => []))
    modifies (set n | n in nodes)`edges
    ensures (forall j | 0 <= j < |neighbors| :: keys[j].Some? && keys[j].value in fks) <==> err.None?
    ensures err.Some? ==>
      exists j | 0 <= j < |neighbors| :: FirstUnasked(keys, fks, j) && err == Some(UnaskedError(keys[j]))
    ensures err.None? ==> ChildrenGiven(nodes, before, Lists(neighbors, keys, fks))
  {
    hide Lists, ChildrenGiven, Indexes;
    NoLists(neighbors, keys, fks);
    Indexed(nodeids, nodes, fks);
    assert Lists(neighbors[..0], keys[..0], fks) == seq(|nodes|, _ => []);
    for j := 0 to |neighbors|
      invariant ChildrenGiven(nodes, before, Lists(neighbors[..j], keys[..j], fks))
      invariant forall k | 0 <= k < j :: keys[k].Some? && keys[k].value in fks
    {
      var n := neighbors[j];
      var fk := n.fields.ints.parentAccountID;
      assert keys[j] == fk;
      if fk.None? {
        return Some(NilForeignKey);
      }
      if fk.value !in nodeids {
        return Some(UnexpectedForeignKey(fk.value));
      }
      ListsTake(neighbors, keys, j, nodes, fks, nodeids, fk.value);
      GiveChild(nodeids[fk.value], n, nodes, before,
                Lists(neighbors[..j], keys[..j], fks), Lists(neighbors[..j + 1], keys[..j + 1], fks));
    }
    return None;
  }

  method RestrictToParents(query: AccountQuery, ids: seq<int>)
    requires query.Valid()
    modifies query`predicates
    ensures query.Tree() == ParentQuery(old(query.Tree()), ids)
  {
    query.Where(IDIn(ids));
  }

  method RestrictToChildren(query: AccountQuery, fks: seq<int>)
    requires query.Valid()
    modifies query`predicates, query`fields
    ensures query.Tree() == ChildQuery(old(query.Tree()), fks)
  {
    ghost var t := query.Tree();
    if |query.fields| > 0 {
      query.AppendFieldOnce(ParentAccountID);
    }
    assert query.Tree() == t.(fields := AppendFieldOnce(t.fields, ParentAccountID));
    query.Where(ParentIn(fks));
  }

  // ---- Restricted trees ----

  lemma ParentTreeFit(t: QueryTree, ids: seq<int>)
    ensures AllFieldsValid(ParentQuery(t, ids)) == AllFieldsValid(t)
  {
  }

  lemma ChildTreeFit(t: QueryTree, fks: seq<int>)
    ensures AllFieldsValid(t) ==> AllFieldsValid(ChildQuery(t, fks))
  {
  }

  // A parent that came back was asked for.
  lemma ParentIDsAsked(db: Database, tp: QueryTree, ids: seq<int>, run: Run)
    requires Consistent(db) && Batched(db, ParentQuery(tp, ids), run)
    ensures forall j | 0 <= j < |run.nodes| :: run.nodes[j].fields.ints.id in ids
  {
    var q, rows := ParentQuery(tp, ids), NodeRows(run.nodes);
    BatchedAnswer(db, q, run);
    hide Batched, ScannedBy, SpecColumns;
    NodesAreRows(db, q, rows);
    forall j | 0 <= j < |rows| ensures run.nodes[j].fields.ints.id in ids {
      assert rows[j] in rows;
      ScannedKeys(db, q, run.nodes[j]);
      Selection.HoldsAllMore(tp.preds, IDIn(ids), rows[j]);
    }
  }

  lemma ChildKeysAsked(db: Database, tc: QueryTree, ids: seq<int>, run: Run)
    requires Consistent(db) && Batched(db, ChildQuery(tc, ids), run)
    ensures forall j | 0 <= j < |run.nodes| :: ParentKeys(run.nodes)[j].Some? && ParentKeys(run.nodes)[j].value in ids
  {
    BatchedAnswer(db, ChildQuery(tc, ids), run);
    hide Batched, ScannedBy, SpecColumns;
    ChildKeys(db, tc, ids, run.nodes);
  }

  ghost function RunCount(run: Option<Run>): nat { if run.Some? then QueryCount(run.value) else 0 }

  lemma FieldsOfViews(nodes: seq<Account>, graph: set<Account>, height: nat, vs: seq<AccountV>)
    requires StandFor(nodes, graph, height, vs)
    ensures |nodes| == |vs| && forall j | 0 <= j < |nodes| :: nodes[j].fields == vs[j].fields
    ensures forall j | 0 <= j < |nodes| :: ParentKeys(vs)[j] == nodes[j].fields.ints.parentAccountID
  {
  }

  // ---- The recursion ----

  method ParentEdge(query: AccountQuery?, driver: Driver, nodes: seq<Account>)
    returns (err: Option<LoadError>, ghost run: Option<Run>, ghost ones: seq<Option<Account>>,
             ghost neighbors: seq<Account>, ghost graph: set<Account>)
    requires ValidEngine(driver.engine) && Consistent(driver.db) && Distinct(nodes)
    requires query != null ==> query.Valid()
    requires forall i | 0 <= i < |nodes| :: nodes[i].edges.parent == None
    modifies driver`queries, (set n | n in nodes)`edges
    modifies AccountBuilders(query), LeafBuilders(query)
    ensures TreeFits(old(TreeOf(query))) ==> err.None? || err == Some(Rejoined)
    ensures err == Some(Rejoined) ==> ParentHalts(driver.db, old(TreeOf(query)), old(ParentIDsOf(nodes)))
    ensures err.None? ==>
      && (forall n | n in graph :: fresh(n))
      && driver.queries == old(driver.queries) + RunCount(run)
      && ParentsLoaded(driver.db, old(TreeOf(query)), old(ParentIDsOf(nodes)), run, ones, neighbors, graph)
      && ParentsGiven(nodes, old(EdgesOf(nodes)), ones)
      && TreeOf(query) == ParentAfter(old(TreeOf(query)), old(ParentIDsOf(nodes)), run)
    decreases AccountBuilders(query), 5
  {
    hide Batched, AllFieldsValid, GroupsFresh, After, Consistent, ValidEngine, DistinctKeys, Closed, QueryCount, Depth,
         AccountQuery.Valid, AccountQuery.Tree, View, Scan;
    ghost var before := EdgesOf(nodes);
    var keys := ParentIDsOf(nodes);
    ones := seq(|nodes|, _ => None);
    assert ParentsGiven(nodes, before, ones);
    if query == null {
      return None, None, ones, [], {};
    }
    var ids, nodeids := IndexByKey(nodes, keys);
    if |ids| == 0 {
      return None, None, ones, [], {};
    }
    ghost var t := query.Tree();
    var found;
    ghost var done;
    found, err, done, graph := FetchParents(query, driver, ids);
    run, neighbors := Some(done), found;
    if err.Some? {
      return;
    }
    ones := Ones(neighbors, NodeKeys(done.nodes), keys);
    err := DistributeParents(nodes, keys, nodeids, found, NodeKeys(done.nodes), before);
  }

  method FetchParents(query: AccountQuery, driver: Driver, ids: seq<int>)
    returns (neighbors: seq<Account>, err: Option<LoadError>, ghost run: Run, ghost graph: set<Account>)
    requires ValidEngine(driver.engine) && Consistent(driver.db) && query.Valid()
    modifies driver`queries, query.accountQueries, query.leafQueries
    ensures AllFieldsValid(old(query.Tree())) ==> err.None? || err == Some(Rejoined)
    ensures err == Some(Rejoined) ==> MayHalt(driver.db, ParentQuery(old(query.Tree()), ids))
    ensures err.None? ==>
      && (forall n | n in graph :: fresh(n))
      && driver.queries == old(driver.queries) + QueryCount(run)
      && Batched(driver.db, ParentQuery(old(query.Tree()), ids), run)
      && StandFor(neighbors, graph, Depth(old(query.Tree())), run.nodes)
      && query.Tree() == After(ParentQuery(old(query.Tree()), ids), run)
      && (forall j | 0 <= j < |neighbors| :: neighbors[j].fields.ints.id == run.nodes[j].fields.ints.id)
      && (forall j | 0 <= j < |neighbors| :: run.nodes[j].fields.ints.id in ids)
    decreases query.accountQueries, 4
  {
    assert query in query.accountQueries;
    hide *;
    ghost var t := query.Tree();
    RestrictToParents(query, ids);
    ParentTreeFit(t, ids);
    neighbors, err, run, graph := All(query, driver);
    if err.None? {
      ParentIDsAsked(driver.db, t, ids, run);
      FieldsOfViews(neighbors, graph, Depth(t), run.nodes);
    }
  }

  method ChildrenEdge(query: AccountQuery?, driver: Driver, nodes: seq<Account>)
    returns (err: Option<LoadError>, ghost run: Option<Run>, ghost lists: seq<seq<Account>>,
             ghost neighbors: seq<Account>, ghost graph: set<Account>)
    requires ValidEngine(driver.engine) && Consistent(driver.db) && Distinct(nodes)
    requires query != null ==> query.Valid()
    requires forall i | 0 <= i < |nodes| :: nodes[i].edges.children == []
    modifies driver`queries, (set n | n in nodes)`edges
    modifies AccountBuilders(query), LeafBuilders(query)
    ensures TreeFits(old(TreeOf(query))) ==> err.None? || err == Some(Rejoined)
    ensures err == Some(Rejoined) ==> ChildrenHalt(driver.db, old(TreeOf(query)), old(IDsOf(nodes)))
    ensures err.None? ==>
      && (forall n | n in graph :: fresh(n))
      && driver.queries == old(driver.queries) + RunCount(run)
      && ChildrenLoaded(driver.db, old(TreeOf(query)), old(IDsOf(nodes)), run, lists, neighbors, graph)
      && ChildrenGiven(nodes, old(EdgesOf(nodes)), lists)
      && TreeOf(query) == ChildrenAfter(old(TreeOf(query)), old(IDsOf(nodes)), run)
    decreases AccountBuilders(query), 5
  {
    hide Batched, AllFieldsValid, GroupsFresh, After, Consistent, ValidEngine, Closed, QueryCount, Depth,
         AccountQuery.Valid, AccountQuery.Tree, View, Scan, Indexes;
    ghost var before := EdgesOf(nodes);
    lists := seq(|nodes|, _ => []);
    assert ChildrenGiven(nodes, before, lists);
    if query == null {
      return None, None, lists, [], {};
    }
    ghost var t := query.Tree();
    var fks, nodeids := IndexByID(nodes);
    ClearChildren(nodes);
    var found;
    ghost var done;
    found, err, done, graph := FetchChildren(query, driver, fks);
    run, neighbors := Some(done), found;
    if err.Some? {
      return;
    }
    lists := Lists(neighbors, ParentKeys(done.nodes), fks);
    err := DistributeChildren(nodes, fks, nodeids, found, ParentKeys(done.nodes), before);
  }

  method FetchChildren(query: AccountQuery, driver: Driver, fks: seq<int>)
    returns (neighbors: seq<Account>, err: Option<LoadError>, ghost run: Run, ghost graph: set<Account>)
    requires ValidEngine(driver.engine) && Consistent(driver.db) && query.Valid()
    modifies driver`queries, query.accountQueries, query.leafQueries
    ensures AllFieldsValid(old(query.Tree())) ==> err.None? || err == Some(Rejoined)
    ensures err == Some(Rejoined) ==> MayHalt(driver.db, ChildQuery(old(query.Tree()), fks))
    ensures err.None? ==>
      && (forall n | n in graph :: fresh(n))
      && driver.queries == old(driver.queries) + QueryCount(run)
      && Batched(driver.db, ChildQuery(old(query.Tree()), fks), run)
      && StandFor(neighbors, graph, Depth(old(query.Tree())), run.nodes)
      && query.Tree() == After(ChildQuery(old(query.Tree()), fks), run)
      && (forall j | 0 <= j < |neighbors| ::
            ParentKeys(run.nodes)[j] == neighbors[j].fields.ints.parentAccountID)
      && (forall j | 0 <= j < |neighbors| :: ParentKeys(run.nodes)[j].Some? && ParentKeys(run.nodes)[j].value in fks)
    decreases query.accountQueries, 4
  {
    assert query in query.accountQueries;
    hide *;
    ghost var t := query.Tree();
    RestrictToChildren(query, fks);
    ChildTreeFit(t, fks);
    neighbors, err, run, graph := All(query, driver);
    if err.None? {
      ChildKeysAsked(driver.db, t, fks, run);
      FieldsOfViews(neighbors, graph, Depth(t), run.nodes);
    }
  }

  lemma ParentsHeld(t: QueryTree, nodes: seq<Account>, before: seq<Edges<Account>>, l: Loads, l': Loads)
    requires EdgesHold(t, before, l) && ParentsGiven(nodes, before, l'.parents)
    requires l' == l.(parentRun := l'.parentRun, parents := l'.parents, parentNodes := l'.parentNodes,
                      parentGraph := l'.parentGraph)
    ensures EdgesHold(t, EdgesOf(nodes), l')
  {
  }

  method ParentStep(query: AccountQuery?, driver: Driver, nodes: seq<Account>, ghost s: Stage, ghost l: Loads)
    returns (err: Option<LoadError>, ghost l': Loads)
    requires ValidEngine(driver.engine) && Consistent(driver.db)
    requires At(s, nodes, l) && l.parents == seq(|nodes|, _ => None)
    requires query != null ==> query.Valid()
    modifies driver`queries, (set n | n in nodes)`edges
    modifies AccountBuilders(query), LeafBuilders(query)
    ensures TreeFits(old(TreeOf(query))) ==> err.None? || err == Some(Rejoined)
    ensures err == Some(Rejoined) ==> ParentHalts(driver.db, old(TreeOf(query)), s.parentKeys)
    ensures err.None? ==>
      && l' == l.(parentRun := l'.parentRun, parents := l'.parents, parentNodes := l'.parentNodes,
                  parentGraph := l'.parentGraph)
      && At(s, nodes, l')
      && (forall n | n in l'.parentGraph :: fresh(n))
      && driver.queries == old(driver.queries) + RunCount(l'.parentRun)
      && ParentsLoaded(driver.db, old(TreeOf(query)), s.parentKeys, l'.parentRun, l'.parents, l'.parentNodes,
        l'.parentGraph)
      && TreeOf(query) == ParentAfter(old(TreeOf(query)), s.parentKeys, l'.parentRun)
    decreases AccountBuilders(query), 6
  {
    hide *;
    ghost var before := EdgesOf(nodes);
    StepStarts(s, nodes, l);
    ghost var run, ones, neighbors, graph;
    err, run, ones, neighbors, graph := ParentEdge(query, driver, nodes);
    l' := l.(parentRun := run, parents := ones, parentNodes := neighbors, parentGraph := graph);
    if err.None? {
      ParentsHeld(s.t, nodes, before, l, l');
      StepEnds(s, nodes, l');
    }
  }

  lemma ChildrenHeld(t: QueryTree, nodes: seq<Account>, before: seq<Edges<Account>>, l: Loads, l': Loads)
    requires EdgesHold(t, before, l) && ChildrenGiven(nodes, before, l'.children)
    requires l' == l.(childRun := l'.childRun, children := l'.children, childNodes := l'.childNodes,
                      childGraph := l'.childGraph)
    ensures EdgesHold(t, EdgesOf(nodes), l')
  {
  }

  method ChildrenStep(query: AccountQuery?, driver: Driver, nodes: seq<Account>, ghost s: Stage, ghost l: Loads)
    returns (err: Option<LoadError>, ghost l': Loads)
    requires ValidEngine(driver.engine) && Consistent(driver.db)
    requires At(s, nodes, l) && l.children == seq(|nodes|, _ => [])
    requires query != null ==> query.Valid()
    modifies driver`queries, (set n | n in nodes)`edges
    modifies AccountBuilders(query), LeafBuilders(query)
    ensures TreeFits(old(TreeOf(query))) ==> err.None? || err == Some(Rejoined)
    ensures err == Some(Rejoined) ==> ChildrenHalt(driver.db, old(TreeOf(query)), s.ids)
    ensures err.None? ==>
      && l' == l.(childRun := l'.childRun, children := l'.children, childNodes := l'.childNodes,
                  childGraph := l'.childGraph)
      && At(s, nodes, l')
      && (forall n | n in l'.childGraph :: fresh(n))
      && driver.queries == old(driver.queries) + RunCount(l'.childRun)
      && ChildrenLoaded(driver.db, old(TreeOf(query)), s.ids, l'.childRun, l'.children, l'.childNodes, l'.childGraph)
      && TreeOf(query) == ChildrenAfter(old(TreeOf(query)), s.ids, l'.childRun)
    decreases AccountBuilders(query), 6
  {
    hide *;
    ghost var before := EdgesOf(nodes);
    StepStarts(s, nodes, l);
    ghost var run, lists, neighbors, graph;
    err, run, lists, neighbors, graph := ChildrenEdge(query, driver, nodes);
    l' := l.(childRun := run, children := lists, childNodes := neighbors, childGraph := graph);
    if err.None? {
      ChildrenHeld(s.t, nodes, before, l, l');
      StepEnds(s, nodes, l');
    }
  }

  method LoadFirst(driver: Driver, nodes: seq<Account>, ghost s: Stage, ghost l: Loads, groups: LeafQuery?,
      proxy: LeafQuery?)
    returns (err: Option<LoadError>, ghost l': Loads)
    requires ValidEngine(driver.engine) && At(s, nodes, l)
    requires l.groups == seq(|nodes|, _ => []) && l.proxies == seq(|nodes|, _ => None)
    requires AsSet(groups) !! AsSet(proxy)
    requires OnGroups(driver.db, LeafValue(groups)) && OnProxies(driver.db, LeafValue(proxy))
    modifies driver`queries, (set n | n in nodes)`edges
    modifies AsSet(groups), AsSet(proxy)
    ensures FieldsFit(old(LeafValue(groups))) && FieldsFit(old(LeafValue(proxy))) ==> err.None? || err == Some(Rejoined)
    ensures err == Some(Rejoined) ==> GroupsHalt(driver.db, old(LeafValue(groups)), s.ids)
    ensures err.None? ==>
      && l'.parents == l.parents && l'.children == l.children
      && l'.usageLogs == l.usageLogs && l'.accountGroups == l.accountGroups
      && At(s, nodes, l')
      && driver.queries == old(driver.queries) + Issued(l'.pairs) + Issued(l'.proxyRows)
      && GroupsLoaded(driver.db, old(LeafValue(groups)), s.ids, l'.pairs, l'.groups)
      && ProxiesLoaded(driver.db, old(LeafValue(proxy)), s.proxyKeys, l'.proxyRows, l'.proxies)
      && LeafValue(groups) == GroupsAfter(old(LeafValue(groups)), s.ids, l'.pairs)
      && LeafValue(proxy) == ProxyAfter(old(LeafValue(proxy)), s.proxyKeys, l'.proxyRows)
  {
    hide *;
    err, l' := GroupsStep(groups, driver, nodes, s, l);
    if err.Some? { return; }
    err, l' := ProxyStep(proxy, driver, nodes, s, l');
  }

  method LoadAccounts(driver: Driver, nodes: seq<Account>, ghost s: Stage, ghost l: Loads, parent: AccountQuery?,
                      children: AccountQuery?)
    returns (err: Option<LoadError>, ghost l': Loads)
    requires ValidEngine(driver.engine) && Consistent(driver.db) && At(s, nodes, l)
    requires l.parents == seq(|nodes|, _ => None) && l.children == seq(|nodes|, _ => [])
    requires (parent != null ==> parent.Valid()) && (children != null ==> children.Valid())
    requires AccountBuilders(parent) !! AccountBuilders(children) && LeafBuilders(parent) !! LeafBuilders(children)
    modifies driver`queries, (set n | n in nodes)`edges
    modifies AccountBuilders(parent), LeafBuilders(parent)
    modifies AccountBuilders(children), LeafBuilders(children)
    ensures TreeFits(old(TreeOf(parent))) && TreeFits(old(TreeOf(children))) ==> err.None? || err == Some(Rejoined)
    ensures err == Some(Rejoined) ==>
      || ParentHalts(driver.db, old(TreeOf(parent)), s.parentKeys)
      || ChildrenHalt(driver.db, old(TreeOf(children)), s.ids)
    ensures err.None? ==>
      && l' == l.(parentRun := l'.parentRun, parents := l'.parents, parentNodes := l'.parentNodes,
                  parentGraph := l'.parentGraph, childRun := l'.childRun, children := l'.children,
                  childNodes := l'.childNodes, childGraph := l'.childGraph)
      && At(s, nodes, l')
      && (forall n | n in l'.parentGraph :: fresh(n)) && (forall n | n in l'.childGraph :: fresh(n))
      && driver.queries == old(driver.queries) + RunCount(l'.parentRun) + RunCount(l'.childRun)
      && ParentsLoaded(driver.db, old(TreeOf(parent)), s.parentKeys, l'.parentRun, l'.parents, l'.parentNodes,
        l'.parentGraph)
      && ChildrenLoaded(driver.db, old(TreeOf(children)), s.ids, l'.childRun, l'.children, l'.childNodes, l'.childGraph)
      && TreeOf(parent) == ParentAfter(old(TreeOf(parent)), s.parentKeys, l'.parentRun)
      && TreeOf(children) == ChildrenAfter(old(TreeOf(children)), s.ids, l'.childRun)
    decreases AccountBuilders(parent) + AccountBuilders(children), 7
  {
    hide *;
    err, l' := ParentStep(parent, driver, nodes, s, l);
    if err.Some? { return; }
    err, l' := ChildrenStep(children, driver, nodes, s, l');
  }

  method LoadLast(driver: Driver, nodes: seq<Account>, ghost s: Stage, ghost l: Loads, usageLogs: LeafQuery?,
                  accountGroups: LeafQuery?)
    returns (err: Option<LoadError>, ghost l': Loads)
    requires ValidEngine(driver.engine) && At(s, nodes, l)
    requires l.usageLogs == seq(|nodes|, _ => []) && l.accountGroups == seq(|nodes|, _ => [])
    requires AsSet(usageLogs) !! AsSet(accountGroups)
    requires OnOwned(driver.db, LeafValue(usageLogs)) && OnOwned(driver.db, LeafValue(accountGroups))
    modifies driver`queries, (set n | n in nodes)`edges
    modifies AsSet(usageLogs), AsSet(accountGroups)
    ensures FieldsFit(old(LeafValue(usageLogs))) && FieldsFit(old(LeafValue(accountGroups))) ==> err.None?
    ensures err != Some(Rejoined)
    ensures err.None? ==>
      && l' == l.(usageRows := l'.usageRows, usageLogs := l'.usageLogs, joinRows := l'.joinRows,
                  accountGroups := l'.accountGroups)
      && At(s, nodes, l')
      && driver.queries == old(driver.queries) + Issued(l'.usageRows) + Issued(l'.joinRows)
      && OwnedLoaded(driver.db, old(LeafValue(usageLogs)), s.ids, l'.usageRows, l'.usageLogs)
      && OwnedLoaded(driver.db, old(LeafValue(accountGroups)), s.ids, l'.joinRows, l'.accountGroups)
      && LeafValue(usageLogs) == OwnedAfter(old(LeafValue(usageLogs)), s.ids, l'.usageRows)
      && LeafValue(accountGroups) == OwnedAfter(old(LeafValue(accountGroups)), s.ids, l'.joinRows)
  {
    hide *;
    err, l' := UsageLogsStep(usageLogs, driver, nodes, s, l);
    if err.Some? { return; }
    err, l' := JoinRowsStep(accountGroups, driver, nodes, s, l');
  }

  lemma NothingIsEmpty(n: nat)
    ensures var l := NothingLoaded(n);
      && l.groups == seq(n, _ => []) && l.proxies == seq(n, _ => None) && l.parents == seq(n, _ => None)
      && l.children == seq(n, _ => []) && l.usageLogs == seq(n, _ => []) && l.accountGroups == seq(n, _ => [])
      && l.pairs == None && l.proxyRows == None && l.parentRun == None && l.childRun == None && l.usageRows == None
      && l.joinRows == None
  {
  }

  // What a valid builder says of its parts: they share no builder.
  lemma Parts(q: AccountQuery)
    requires q.Valid()
    ensures q in q.accountQueries && AccountBuilders(q.withParent) !! AccountBuilders(q.withChildren)
    ensures AccountBuilders(q.withParent) < q.accountQueries && AccountBuilders(q.withChildren) < q.accountQueries
    ensures q !in AccountBuilders(q.withParent) && q !in AccountBuilders(q.withChildren)
    ensures q.withParent != null ==> q.withParent.Valid() && q.withParent in AccountBuilders(q.withParent)
    ensures q.withChildren != null ==> q.withChildren.Valid() && q.withChildren in AccountBuilders(q.withChildren)
    ensures LeafBuilders(q.withParent) <= q.leafQueries && LeafBuilders(q.withChildren) <= q.leafQueries
    ensures AsSet(q.withGroups) <= q.leafQueries && AsSet(q.withProxy) <= q.leafQueries
    ensures AsSet(q.withUsageLogs) <= q.leafQueries && AsSet(q.withAccountGroups) <= q.leafQueries
    ensures AsSet(q.withUsageLogs) !! AsSet(q.withAccountGroups) && AsSet(q.withGroups) !! AsSet(q.withProxy)
    ensures LeafBuilders(q.withParent) !! LeafBuilders(q.withChildren)
    ensures AsSet(q.withUsageLogs) + AsSet(q.withAccountGroups) !!
      LeafBuilders(q.withParent) + LeafBuilders(q.withChildren)
    ensures AsSet(q.withGroups) + AsSet(q.withProxy) !!
      LeafBuilders(q.withParent) + LeafBuilders(q.withChildren) + AsSet(q.withUsageLogs) + AsSet(q.withAccountGroups)
  {
  }

  lemma PartsFit(q: AccountQuery, db: Database)
    requires q.Valid() && Consistent(db)
    ensures OnGroups(db, LeafValue(q.withGroups)) && OnProxies(db, LeafValue(q.withProxy))
    ensures OnOwned(db, LeafValue(q.withUsageLogs)) && OnOwned(db, LeafValue(q.withAccountGroups))
  {
  }

  // The nested queries after their loads, as a tree.
  ghost function AfterLoads(t: QueryTree, s: Stage, l: Loads): QueryTree {
    t.(groups := GroupsAfter(t.groups, s.ids, l.pairs),
       proxy := ProxyAfter(t.proxy, s.proxyKeys, l.proxyRows),
       parent := ParentAfter(t.parent, s.parentKeys, l.parentRun),
       children := ChildrenAfter(t.children, s.ids, l.childRun),
       usageLogs := OwnedAfter(t.usageLogs, s.ids, l.usageRows),
       accountGroups := OwnedAfter(t.accountGroups, s.ids, l.joinRows))
  }

  ghost function LoadCount(l: Loads): nat {
    Issued(l.pairs) + Issued(l.proxyRows) + RunCount(l.parentRun) + RunCount(l.childRun) + Issued(l.usageRows)
      + Issued(l.joinRows)
  }

  lemma TreeAfterLoads(t: QueryTree, t': QueryTree, s: Stage, l: Loads)
    requires t'.preds == t.preds && t'.fields == t.fields && t'.order == t.order
    requires t'.offset == t.offset && t'.limit == t.limit && t'.modifiers == t.modifiers
    requires t'.groups == GroupsAfter(t.groups, s.ids, l.pairs)
    requires t'.proxy == ProxyAfter(t.proxy, s.proxyKeys, l.proxyRows)
    requires t'.parent == ParentAfter(t.parent, s.parentKeys, l.parentRun)
    requires t'.children == ChildrenAfter(t.children, s.ids, l.childRun)
    requires t'.usageLogs == OwnedAfter(t.usageLogs, s.ids, l.usageRows)
    requires t'.accountGroups == OwnedAfter(t.accountGroups, s.ids, l.joinRows)
    ensures t' == AfterLoads(t, s, l)
  {
  }

  lemma NestedFit(t: QueryTree)
    ensures AllFieldsValid(t) ==>
      && FieldsFit(t.groups) && FieldsFit(t.proxy) && TreeFits(t.parent) && TreeFits(t.children)
      && FieldsFit(t.usageLogs) && FieldsFit(t.accountGroups)
  {
  }

  method LoadRest(driver: Driver, nodes: seq<Account>, ghost s: Stage, ghost l: Loads, parent: AccountQuery?,
                  children: AccountQuery?, usageLogs: LeafQuery?, accountGroups: LeafQuery?)
    returns (err: Option<LoadError>, ghost l': Loads)
    requires ValidEngine(driver.engine) && Consistent(driver.db) && At(s, nodes, l)
    requires l.parents == seq(|nodes|, _ => None) && l.children == seq(|nodes|, _ => [])
    requires l.usageLogs == seq(|nodes|, _ => []) && l.accountGroups == seq(|nodes|, _ => [])
    requires (parent != null ==> parent.Valid()) && (children != null ==> children.Valid())
    requires AccountBuilders(parent) !! AccountBuilders(children) && LeafBuilders(parent) !! LeafBuilders(children)
    requires OnOwned(driver.db, LeafValue(usageLogs)) && OnOwned(driver.db, LeafValue(accountGroups))
    requires AsSet(usageLogs) !! AsSet(accountGroups)
    requires AsSet(usageLogs) + AsSet(accountGroups) !! LeafBuilders(parent) + LeafBuilders(children)
    modifies driver`queries, (set n | n in nodes)`edges
    modifies AccountBuilders(parent), LeafBuilders(parent), AccountBuilders(children), LeafBuilders(children)
    modifies AsSet(usageLogs), AsSet(accountGroups)
    ensures
      TreeFits(old(TreeOf(parent))) && TreeFits(old(TreeOf(children))) && FieldsFit(old(LeafValue(usageLogs)))
      && FieldsFit(old(LeafValue(accountGroups)))
      ==> err.None? || err == Some(Rejoined)
    ensures err == Some(Rejoined) ==>
      || ParentHalts(driver.db, old(TreeOf(parent)), s.parentKeys)
      || ChildrenHalt(driver.db, old(TreeOf(children)), s.ids)
    ensures err.None? ==>
      && l'.pairs == l.pairs && l'.groups == l.groups && l'.proxyRows == l.proxyRows && l'.proxies == l.proxies
      && At(s, nodes, l')
      && (forall n | n in l'.parentGraph :: fresh(n)) && (forall n | n in l'.childGraph :: fresh(n))
      && driver.queries == old(driver.queries) + RunCount(l'.parentRun) + RunCount(l'.childRun)
                           + Issued(l'.usageRows) + Issued(l'.joinRows)
      && ParentsLoaded(driver.db, old(TreeOf(parent)), s.parentKeys, l'.parentRun, l'.parents, l'.parentNodes,
        l'.parentGraph)
      && ChildrenLoaded(driver.db, old(TreeOf(children)), s.ids, l'.childRun, l'.children, l'.childNodes, l'.childGraph)
      && OwnedLoaded(driver.db, old(LeafValue(usageLogs)), s.ids, l'.usageRows, l'.usageLogs)
      && OwnedLoaded(driver.db, old(LeafValue(accountGroups)), s.ids, l'.joinRows, l'.accountGroups)
      && TreeOf(parent) == ParentAfter(old(TreeOf(parent)), s.parentKeys, l'.parentRun)
      && TreeOf(children) == ChildrenAfter(old(TreeOf(children)), s.ids, l'.childRun)
      && LeafValue(usageLogs) == OwnedAfter(old(LeafValue(usageLogs)), s.ids, l'.usageRows)
      && LeafValue(accountGroups) == OwnedAfter(old(LeafValue(accountGroups)), s.ids, l'.joinRows)
    decreases AccountBuilders(parent) + AccountBuilders(children), 8
  {
    hide *;
    err, l' := LoadAccounts(driver, nodes, s, l, parent, children);
    if err.Some? { return; }
    err, l' := LoadLast(driver, nodes, s, l', usageLogs, accountGroups);
  }

  // The six loaders of a run, one after the other.
  method LoadEdges(driver: Driver, nodes: seq<Account>, ghost s: Stage, groups: LeafQuery?, proxy: LeafQuery?,
                   parent: AccountQuery?, children: AccountQuery?, usageLogs: LeafQuery?, accountGroups: LeafQuery?)
    returns (err: Option<LoadError>, ghost l: Loads)
    requires ValidEngine(driver.engine) && Consistent(driver.db) && At(s, nodes, NothingLoaded(|nodes|))
    requires (parent != null ==> parent.Valid()) && (children != null ==> children.Valid())
    requires OnGroups(driver.db, LeafValue(groups)) && OnProxies(driver.db, LeafValue(proxy))
    requires OnOwned(driver.db, LeafValue(usageLogs)) && OnOwned(driver.db, LeafValue(accountGroups))
    requires AccountBuilders(parent) !! AccountBuilders(children) && LeafBuilders(parent) !! LeafBuilders(children)
    requires AsSet(usageLogs) !! AsSet(accountGroups) && AsSet(groups) !! AsSet(proxy)
    requires AsSet(usageLogs) + AsSet(accountGroups) !! LeafBuilders(parent) + LeafBuilders(children)
    requires AsSet(groups) + AsSet(proxy) !!
      LeafBuilders(parent) + LeafBuilders(children) + AsSet(usageLogs) + AsSet(accountGroups)
    modifies driver`queries, (set n | n in nodes)`edges, AsSet(groups), AsSet(proxy)
    modifies AccountBuilders(parent), LeafBuilders(parent), AccountBuilders(children), LeafBuilders(children)
    modifies AsSet(usageLogs), AsSet(accountGroups)
    ensures old(
      && FieldsFit(LeafValue(groups)) && FieldsFit(LeafValue(proxy)) && TreeFits(TreeOf(parent))
      && TreeFits(TreeOf(children))
      && FieldsFit(LeafValue(usageLogs)) && FieldsFit(LeafValue(accountGroups)))
      ==> err.None? || err == Some(Rejoined)
    ensures err == Some(Rejoined) ==>
      || GroupsHalt(driver.db, old(LeafValue(groups)), s.ids)
      || ParentHalts(driver.db, old(TreeOf(parent)), s.parentKeys)
      || ChildrenHalt(driver.db, old(TreeOf(children)), s.ids)
    ensures err.None? ==>
      && At(s, nodes, l)
      && (forall n | n in l.parentGraph :: fresh(n)) && (forall n | n in l.childGraph :: fresh(n))
      && driver.queries == old(driver.queries) + LoadCount(l)
      && GroupsLoaded(driver.db, old(LeafValue(groups)), s.ids, l.pairs, l.groups)
      && ProxiesLoaded(driver.db, old(LeafValue(proxy)), s.proxyKeys, l.proxyRows, l.proxies)
      && ParentsLoaded(driver.db, old(TreeOf(parent)), s.parentKeys, l.parentRun, l.parents, l.parentNodes,
        l.parentGraph)
      && ChildrenLoaded(driver.db, old(TreeOf(children)), s.ids, l.childRun, l.children, l.childNodes, l.childGraph)
      && OwnedLoaded(driver.db, old(LeafValue(usageLogs)), s.ids, l.usageRows, l.usageLogs)
      && OwnedLoaded(driver.db, old(LeafValue(accountGroups)), s.ids, l.joinRows, l.accountGroups)
      && LeafValue(groups) == GroupsAfter(old(LeafValue(groups)), s.ids, l.pairs)
      && LeafValue(proxy) == ProxyAfter(old(LeafValue(proxy)), s.proxyKeys, l.proxyRows)
      && TreeOf(parent) == ParentAfter(old(TreeOf(parent)), s.parentKeys, l.parentRun)
      && TreeOf(children) == ChildrenAfter(old(TreeOf(children)), s.ids, l.childRun)
      && LeafValue(usageLogs) == OwnedAfter(old(LeafValue(usageLogs)), s.ids, l.usageRows)
      && LeafValue(accountGroups) == OwnedAfter(old(LeafValue(accountGroups)), s.ids, l.joinRows)
    decreases AccountBuilders(parent) + AccountBuilders(children), 9
  {
    hide *;
    NothingIsEmpty(|nodes|);
    l := NothingLoaded(|nodes|);
    err, l := LoadFirst(driver, nodes, s, l, groups, proxy);
    if err.Some? { return; }
    err, l := LoadRest(driver, nodes, s, l, parent, children, usageLogs, accountGroups);
    CountDefined(l);
  }

  lemma CountDefined(l: Loads)
    ensures LoadCount(l) == Issued(l.pairs) + Issued(l.proxyRows) + RunCount(l.parentRun) + RunCount(l.childRun)
                            + Issued(l.usageRows) + Issued(l.joinRows)
  {
  }

  // The state right after the root query.
  lemma Staged(db: Database, t: QueryTree, nodes: seq<Account>, rows: seq<AccountRow>) returns (s: Stage)
    requires JustScanned(db, t, nodes, rows) && Distinct(nodes)
    ensures s.db == db && s.t == t && s.rows == rows && At(s, nodes, NothingLoaded(|nodes|))
    ensures Scanned(s) && |rows| == |nodes|
  {
    hide Scan, SpecColumns, Depth, Requested;
    var fields := seq(|nodes|, i requires 0 <= i < |nodes| reads nodes => nodes[i].fields);
    s := Stage(db, t, rows, fields, IDsOf(nodes), ProxyIDsOf(nodes), ParentIDsOf(nodes));
    NothingIsEmpty(|nodes|);
    assert forall i | 0 <= i < |nodes| :: EdgesOf(nodes)[i] == nodes[i].edges;
  }

  // The state after the last loader is a batched run.
  lemma Finished(s: Stage, nodes: seq<Account>, l: Loads) returns (run: Run, graph: set<Account>)
    requires At(s, nodes, l) && nodes != [] && AccountAnswer(s.db, s.t, s.rows)
    requires GroupsLoaded(s.db, s.t.groups, s.ids, l.pairs, l.groups)
    requires ProxiesLoaded(s.db, s.t.proxy, s.proxyKeys, l.proxyRows, l.proxies)
    requires OwnedLoaded(s.db, s.t.usageLogs, s.ids, l.usageRows, l.usageLogs)
    requires OwnedLoaded(s.db, s.t.accountGroups, s.ids, l.joinRows, l.accountGroups)
    requires ParentsLoaded(s.db, s.t.parent, s.parentKeys, l.parentRun, l.parents, l.parentNodes, l.parentGraph)
    requires ChildrenLoaded(s.db, s.t.children, s.ids, l.childRun, l.children, l.childNodes, l.childGraph)
    ensures graph == GraphOf(nodes, l) && StandFor(nodes, graph, Depth(s.t), run.nodes)
    ensures Batched(s.db, s.t, run) && QueryCount(run) == 1 + LoadCount(l)
    ensures After(s.t, run) == AfterLoads(s.t, s, l)
  {
    StageKeys(s, nodes);
    assert LeafEdgesLoaded(s.db, s.t, s.ids, s.proxyKeys, l);
    run, graph := RunAssembled(s.db, s.t, nodes, s.rows, l);
    hide Batched, StandFor, ParentsLoaded, ChildrenLoaded, LeafEdgesLoaded, EdgesHold, Scanned, AccountAnswer, Depth,
         GroupsAfter, ProxyAfter, ParentAfter, ChildrenAfter, OwnedAfter;
  }

  // A run that found no nodes asks for no edge.
  lemma EmptyRun(db: Database, t: QueryTree, nodes: seq<Account>, rows: seq<AccountRow>)
    requires JustScanned(db, t, nodes, rows) && nodes == [] && AccountAnswer(db, t, rows)
    ensures Batched(db, t, NoRun()) && QueryCount(NoRun()) == 1 && After(t, NoRun()) == t
    ensures StandFor(nodes, {}, Depth(t), NoRun().nodes)
  {
    assert NodeRows(NoRun().nodes) == [] == rows;
  }

  // What a run of `q` leaves, for the query `t` that `q` stood for before it.
  method LoadNodes(q: AccountQuery, driver: Driver, nodes: seq<Account>, ghost rows: seq<AccountRow>)
    returns (err: Option<LoadError>, ghost run: Run, ghost graph: set<Account>)
    requires ValidEngine(driver.engine) && Consistent(driver.db) && q.Valid()
    requires nodes != [] && Distinct(nodes) && JustScanned(driver.db, q.Tree(), nodes, rows)
    requires AccountAnswer(driver.db, q.Tree(), rows)
    modifies driver`queries, q.accountQueries, q.leafQueries, (set n | n in nodes)`edges
    ensures AllFieldsValid(old(q.Tree())) ==> err.None? || err == Some(Rejoined)
    ensures err == Some(Rejoined) ==> MayHalt(driver.db, old(q.Tree()))
    ensures err.None? ==>
      && (forall n | n in graph :: n in nodes || fresh(n))
      && driver.queries + 1 == old(driver.queries) + QueryCount(run)
      && Batched(driver.db, old(q.Tree()), run)
      && StandFor(nodes, graph, Depth(old(q.Tree())), run.nodes)
      && q.Tree() == After(old(q.Tree()), run)
    decreases q.accountQueries, 1
  {
    hide *;
    ghost var t := q.Tree();
    Parts(q);
    PartsFit(q, driver.db);
    TreeParts(q);
    NestedFit(t);
    ghost var s := Staged(driver.db, t, nodes, rows);
    run, graph := NoRun(), {};
    ghost var l;
    err, l := LoadEdges(driver, nodes, s, q.withGroups, q.withProxy, q.withParent, q.withChildren,
      q.withUsageLogs, q.withAccountGroups);
    if err.None? {
      TreeParts(q);
      TreeAfterLoads(t, q.Tree(), s, l);
      run, graph := Finished(s, nodes, l);
      GraphNodes(nodes, l);
    } else if err == Some(Rejoined) {
      HaltFound(s);
    }
  }

  lemma ScannedAlone(db: Database, t: QueryTree, row: AccountRow)
    ensures ScannedBy(db, t, AccountV(row, Scan(db.codec, SpecColumns(t), row), NoEdges(Requested(t))))
  {
  }

  // The nodes of this run and the edge at which it ends.
  lemma HaltFound(s: Stage)
    requires Scanned(s) && s.rows != [] && AccountAnswer(s.db, s.t, s.rows)
    requires
      || GroupsHalt(s.db, s.t.groups, s.ids) || ParentHalts(s.db, s.t.parent, s.parentKeys)
      || ChildrenHalt(s.db, s.t.children, s.ids)
    ensures MayHalt(s.db, s.t)
  {
    hide AccountAnswer, Scan, SpecColumns, Requested, Unreadable, DistinctKeys;
    var vs := seq(|s.rows|, i requires 0 <= i < |s.rows| => AccountV(s.rows[i], s.fields[i], NoEdges(Requested(s.t))));
    assert NodeRows(vs) == s.rows && NodeIDs(vs) == s.ids && ParentKeys(vs) == s.parentKeys;
    forall i | 0 <= i < |vs| ensures ScannedBy(s.db, s.t, vs[i]) {
      ScannedAlone(s.db, s.t, s.rows[i]);
    }
    if GroupsHalt(s.db, s.t.groups, s.ids) {
      Rejoins.HaltsHere(s.db, s.t, AtGroups(vs));
    } else if ParentHalts(s.db, s.t.parent, s.parentKeys) {
      var inner :| Halts(s.db, ParentQuery(s.t.parent.value, DistinctKeys(s.parentKeys)), inner);
      Rejoins.HaltsHere(s.db, s.t, AtParent(vs, inner));
    } else {
      var inner :| Halts(s.db, ChildQuery(s.t.children.value, s.ids), inner);
      Rejoins.HaltsHere(s.db, s.t, AtChildren(vs, inner));
    }
  }

  lemma GraphNodes(nodes: seq<Account>, l: Loads)
    ensures forall n | n in GraphOf(nodes, l) :: n in nodes || n in l.parentGraph || n in l.childGraph
  {
  }

  ghost function NoRun(): Run { Run([], None, None, None, None, None, None) }

  method SqlAll(q: AccountQuery, driver: Driver)
    returns (nodes: seq<Account>, err: Option<LoadError>, ghost run: Run, ghost graph: set<Account>)
    requires ValidEngine(driver.engine) && Consistent(driver.db) && q.Valid()
    modifies driver`queries, q.accountQueries, q.leafQueries
    ensures AllFieldsValid(old(q.Tree())) ==> err.None? || err == Some(Rejoined)
    ensures err == Some(Rejoined) ==> MayHalt(driver.db, old(q.Tree()))
    ensures err.None? ==>
      && (forall n | n in graph :: fresh(n))
      && driver.queries == old(driver.queries) + QueryCount(run)
      && Batched(driver.db, old(q.Tree()), run)
      && StandFor(nodes, graph, Depth(old(q.Tree())), run.nodes)
      && q.Tree() == After(old(q.Tree()), run)
    decreases q.accountQueries, 2
  {
    hide *;
    Parts(q);
    ghost var t := q.Tree();
    ghost var rows;
    nodes, err, rows := QueryNodes(q, driver);
    run, graph := NoRun(), {};
    if err.Some? {
      return;
    }
    if |nodes| == 0 {
      EmptyRun(driver.db, t, nodes, rows);
      return;
    }
    err, run, graph := LoadNodes(q, driver, nodes, rows);
  }

  method All(q: AccountQuery, driver: Driver)
    returns (nodes: seq<Account>, err: Option<LoadError>, ghost run: Run, ghost graph: set<Account>)
    requires ValidEngine(driver.engine) && Consistent(driver.db) && q.Valid()
    modifies driver`queries, q.accountQueries, q.leafQueries
    ensures AllFieldsValid(old(q.Tree())) ==> err.None? || err == Some(Rejoined)
    ensures err == Some(Rejoined) ==> MayHalt(driver.db, old(q.Tree()))
    ensures err.None? ==>
      && (forall n | n in graph :: fresh(n))
      && driver.queries == old(driver.queries) + QueryCount(run)
      && Batched(driver.db, old(q.Tree()), run)
      && StandFor(nodes, graph, Depth(old(q.Tree())), run.nodes)
      && q.Tree() == After(old(q.Tree()), run)
    ensures !ValidFields(old(q.fields)) ==> err == Some(InvalidField) && driver.queries == old(driver.queries)
    decreases q.accountQueries, 3
  {
    Parts(q);
    TreeParts(q);
    assert AllFieldsValid(q.Tree()) ==> ValidFields(q.fields);
    hide *;
    if !ValidFields(q.fields) {
      return [], Some(InvalidField), NoRun(), {};
    }
    nodes, err, run, graph := SqlAll(q, driver);
  }
}
