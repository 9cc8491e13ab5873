// The loaders of the edges to entities that are loaded whole, and the indexes all loaders build.
module LeafLoaders {
  import opened Wrappers
  import opened Leaves
  import opened AccountEntity
  import opened QueryModel
  import opened EagerSpec
  import opened EagerRefinement
  import opened Builders
  import Selection

  ghost predicate Distinct(nodes: seq<Account>) {
    forall i, j | 0 <= i < j < |nodes| :: nodes[i] != nodes[j]
  }

  function IDsOf(nodes: seq<Account>): (ids: seq<int>)
    reads nodes
    ensures |ids| == |nodes|
  {
    seq(|nodes|, i requires 0 <= i < |nodes| reads nodes => nodes[i].fields.ints.id)
  }

  function ProxyIDsOf(nodes: seq<Account>): (keys: seq<Option<int>>)
    reads nodes
    ensures |keys| == |nodes|
  {
    seq(|nodes|, i requires 0 <= i < |nodes| reads nodes => nodes[i].fields.ints.proxyID)
  }

  function ParentIDsOf(nodes: seq<Account>): (keys: seq<Option<int>>)
    reads nodes
    ensures |keys| == |nodes|
  {
    seq(|nodes|, i requires 0 <= i < |nodes| reads nodes => nodes[i].fields.ints.parentAccountID)
  }

  lemma {:induction false} SelectSnoc<T>(xs: seq<T>, keys: seq<Option<int>>, x: T, key: Option<int>, k: int)
    requires |xs| == |keys|
    ensures Select(xs + [x], keys + [key], k) == Select(xs, keys, k) + if key == Some(k) then [x] else []
  {
    if xs == [] {
      assert xs + [x] == [x] && keys + [key] == [key];
    } else {
      SelectSnoc(xs[1..], keys[1..], x, key, k);
      assert (xs + [x])[1..] == xs[1..] + [x] && (keys + [key])[1..] == keys[1..] + [key];
    }
  }

  lemma SelectTake<T>(xs: seq<T>, keys: seq<Option<int>>, i: nat, k: int)
    requires |xs| == |keys| && i < |xs|
    ensures Select(xs[..i + 1], keys[..i + 1], k)
         == Select(xs[..i], keys[..i], k) + if keys[i] == Some(k) then [xs[i]] else []
  {
    assert xs[..i + 1] == xs[..i] + [xs[i]] && keys[..i + 1] == keys[..i] + [keys[i]];
    SelectSnoc(xs[..i], keys[..i], xs[i], keys[i], k);
  }

  lemma {:induction false} SelectIn<T>(xs: seq<T>, keys: seq<Option<int>>, k: int, i: nat)
    requires |xs| == |keys| && i < |xs|
    ensures keys[i] == Some(k) ==> xs[i] in Select(xs, keys, k)
    ensures (forall j | 0 <= j < |xs| && j != i :: xs[j] != xs[i]) && xs[i] in Select(xs, keys, k) ==>
      keys[i] == Some(k)
  {
    if i == 0 {
      assert forall j | 0 <= j < |xs| - 1 :: xs[1..][j] == xs[j + 1];
      Selection.SelectMembers(xs[1..], keys[1..], k);
    } else {
      SelectIn(xs[1..], keys[1..], k, i - 1);
    }
  }

  // First loop of the to-one loaders: the key list and the index from key to the nodes holding it.
  method IndexByKey(nodes: seq<Account>, keys: seq<Option<int>>)
    returns (ids: seq<int>, nodeids: map<int, seq<Account>>)
    requires |keys| == |nodes|
    ensures ids == DistinctKeys(keys)
    ensures nodeids == map k | k in ids :: Select(nodes, keys, k)
  {
    ids, nodeids := [], map[];
    for i := 0 to |nodes|
      invariant ids == DistinctKeys(keys[..i])
      invariant nodeids.Keys == set k | k in ids
      invariant forall k | k in nodeids :: nodeids[k] == Select(nodes[..i], keys[..i], k)
    {
      assert keys[..i + 1][..i] == keys[..i];
      forall k ensures Select(nodes[..i + 1], keys[..i + 1], k)
                    == Select(nodes[..i], keys[..i], k) + if keys[i] == Some(k) then [nodes[i]] else [] {
        SelectTake(nodes, keys, i, k);
      }
      if keys[i].Some? {
        var fk := keys[i].value;
        if fk !in nodeids {
          SelectAbsent(nodes[..i], keys[..i], fk);
          ids := ids + [fk];
        }
        nodeids := nodeids[fk := (if fk in nodeids then nodeids[fk] else []) + [nodes[i]]];
      }
    }
    assert nodes[..|nodes|] == nodes && keys[..|nodes|] == keys;
  }

  lemma {:induction false} SelectAbsent<T>(xs: seq<T>, keys: seq<Option<int>>, k: int)
    requires |xs| == |keys| && k !in DistinctKeys(keys)
    ensures Select(xs, keys, k) == []
  {
    DistinctKeysExact(keys);
    NoKey(xs, keys, k);
  }

  lemma {:induction false} NoKey<T>(xs: seq<T>, keys: seq<Option<int>>, k: int)
    requires |xs| == |keys| && Some(k) !in keys
    ensures Select(xs, keys, k) == []
  {
    if xs != [] {
      NoKey(xs[1..], keys[1..], k);
    }
  }

  // First loop of the to-many loaders: the ids, and the index from id to node.
  method IndexByID(nodes: seq<Account>) returns (fks: seq<int>, nodeids: map<int, Account>)
    requires Distinct(nodes)
    ensures fks == IDsOf(nodes)
    ensures Indexes(nodeids, nodes, fks)
  {
    fks, nodeids := [], map[];
    for i := 0 to |nodes|
      invariant fks == IDsOf(nodes)[..i]
      invariant Indexes(nodeids, nodes[..i], fks)
    {
      hide Indexes, IsLast;
      var id := nodes[i].fields.ints.id;
      IndexGrows(nodeids, nodes[..i], fks, nodes[i], id);
      assert nodes[..i + 1] == nodes[..i] + [nodes[i]];
      fks := fks + [id];
      nodeids := nodeids[id := nodes[i]];
    }
    assert nodes[..|nodes|] == nodes;
  }

  // An id leads to the last node that has it.
  ghost predicate Indexes(nodeids: map<int, Account>, nodes: seq<Account>, ids: seq<int>) {
    && |nodes| == |ids|
    && nodeids.Keys == (set k | k in ids)
    && (forall k | k in nodeids :: nodeids[k] in nodes)
    && forall k, i | k in nodeids && 0 <= i < |nodes| :: nodes[i] == nodeids[k] <==> ids[i] == k && IsLast(ids, i)
  }

  lemma IndexGrows(nodeids: map<int, Account>, nodes: seq<Account>, ids: seq<int>, node: Account, id: int)
    requires Indexes(nodeids, nodes, ids) && node !in nodes
    ensures Indexes(nodeids[id := node], nodes + [node], ids + [id])
  {
    forall i | 0 <= i < |nodes| ensures IsLast(ids + [id], i) <==> IsLast(ids, i) && ids[i] != id {
      if IsLast(ids + [id], i) {
        assert (ids + [id])[|ids|] == id;
        assert forall j | i < j < |ids| :: (ids + [id])[j] == ids[j];
      }
    }
  }

  // ---- Usage logs and join rows ----

  ghost predicate OwnedTable(db: Database, q: LeafQueryValue) {
    && (q.table.UsageLogs? || q.table.AccountGroups?)
    && KeysListed(q.table, q.columns)
    && forall r | r in db.Rows(q.table) :: LeafInt(r, AccountId).Some?
  }

  // Rows whose foreign key was asked for carry it, if their table sets it.
  lemma OwnedKeyAsked(db: Database, q: LeafQueryValue, ids: seq<int>, rows: seq<LeafRow>)
    requires OwnedTable(db, q) && LeafAnswer(db, OwnedQuery(q, ids), rows)
    ensures forall leaf | leaf in ScanLeaves(LeafSpecColumns(OwnedQuery(q, ids)), rows) ::
      IntField(leaf, AccountId) in ids
  {
    var wide := OwnedQuery(q, ids);
    var columns := LeafSpecColumns(wide);
    LeavesAreRows(db, wide, rows);
    LeafColumnsCover(q, ids);
    forall leaf | leaf in ScanLeaves(columns, rows) ensures IntField(leaf, AccountId) in ids {
      var j :| 0 <= j < |rows| && ScanLeaves(columns, rows)[j] == leaf;
      assert rows[j] in rows;
      LeafKeyScanned(columns, rows[j], AccountId);
      Selection.LeafHoldsAllMore(q.preds, AccountIn(ids), rows[j]);
    }
  }

  // The `init` and `assign` closures that `sqlAll` passes: the edge a to-many loader fills.
  datatype Slot = UsageLogsSlot | AccountGroupsSlot

  function Put(slot: Slot, e: Edges<Account>, leaves: seq<Leaf>): Edges<Account> {
    match slot
    case UsageLogsSlot => e.(usageLogs := leaves)
    case AccountGroupsSlot => e.(accountGroups := leaves)
  }

  function Held(slot: Slot, e: Edges<Account>): seq<Leaf> {
    match slot
    case UsageLogsSlot => e.usageLogs
    case AccountGroupsSlot => e.accountGroups
  }

  method RestrictToOwners(query: LeafQuery, fks: seq<int>)
    modifies query
    ensures query.Value() == OwnedQuery(old(query.Value()), fks)
  {
    if |query.fields| > 0 {
      query.AppendFieldOnce(AccountId);
    }
    query.Where(AccountIn(fks));
  }

  // The list of neighbours each node is to be given.
  ghost function Lists<T>(neighbors: seq<T>, keys: seq<Option<int>>, ids: seq<int>): (lists: seq<seq<T>>)
    requires |neighbors| == |keys|
    ensures |lists| == |ids|
  {
    seq(|ids|, i requires 0 <= i < |ids| => ToMany(neighbors, keys, ids, i))
  }

  // One more neighbour goes to the one node the index leads to.
  lemma ListsTake<T>(
    neighbors: seq<T>, keys: seq<Option<int>>, j: nat, nodes: seq<Account>, ids: seq<int>,
    nodeids: map<int, Account>, k: int
  )
    requires |neighbors| == |keys| && j < |neighbors| && keys[j] == Some(k)
    requires Indexes(nodeids, nodes, ids) && k in nodeids
    ensures var now, next := Lists(neighbors[..j], keys[..j], ids), Lists(neighbors[..j + 1], keys[..j + 1], ids);
      forall i | 0 <= i < |ids| :: next[i] == now[i] + if nodes[i] == nodeids[k] then [neighbors[j]] else []
  {
    forall i | 0 <= i < |ids| ensures ToMany(neighbors[..j + 1], keys[..j + 1], ids, i)
      == ToMany(neighbors[..j], keys[..j], ids, i) + if nodes[i] == nodeids[k] then [neighbors[j]] else [] {
      SelectTake(neighbors, keys, j, ids[i]);
    }
  }

  lemma NoLists<T>(neighbors: seq<T>, keys: seq<Option<int>>, ids: seq<int>)
    requires |neighbors| == |keys|
    ensures Lists(neighbors[..0], keys[..0], ids) == seq(|ids|, _ => [])
    ensures neighbors[..|neighbors|] == neighbors && keys[..|keys|] == keys
  {
  }

  lemma Indexed(nodeids: map<int, Account>, nodes: seq<Account>, ids: seq<int>)
    requires Indexes(nodeids, nodes, ids)
    ensures forall k :: k in nodeids <==> k in ids
    ensures forall k | k in nodeids :: nodeids[k] in nodes
  {
  }

  ghost function EdgesOf(nodes: seq<Account>): (edges: seq<Edges<Account>>)
    reads nodes
    ensures |edges| == |nodes|
  {
    seq(|nodes|, i requires 0 <= i < |nodes| reads nodes => nodes[i].edges)
  }

  // Every node holds its own neighbours, and its other edges are as before.
  ghost predicate Given(nodes: seq<Account>, before: seq<Edges<Account>>, slot: Slot, lists: seq<seq<Leaf>>)
    reads nodes
  {
    && |before| == |nodes| == |lists|
    && forall i | 0 <= i < |nodes| :: nodes[i].edges == Put(slot, before[i], lists[i])
  }

  method Give(
    node: Account, n: Leaf, slot: Slot, ghost nodes: seq<Account>, ghost before: seq<Edges<Account>>,
    ghost now: seq<seq<Leaf>>, ghost next: seq<seq<Leaf>>
  )
    requires Given(nodes, before, slot, now) && |next| == |now|
    requires forall i | 0 <= i < |nodes| :: next[i] == now[i] + if nodes[i] == node then [n] else []
    modifies node`edges
    ensures Given(nodes, before, slot, next)
  {
    node.edges := Put(slot, node.edges, Held(slot, node.edges) + [n]);
  }

  method Distribute(nodes: seq<Account>, fks: seq<int>, nodeids: map<int, Account>, neighbors: seq<Leaf>, slot: Slot,
                    ghost before: seq<Edges<Account>>)
    returns (err: Option<LoadError>)
    requires |fks| == |nodes| && Indexes(nodeids, nodes, fks)
    requires Given(nodes, before, slot, seq(|nodes|, _ => []))
    modifies (set n | n in nodes)`edges
    ensures (forall n | n in neighbors :: IntField(n, AccountId) in fks) <==> err.None?
    ensures err.Some? ==> exists j | 0 <= j < |neighbors| ::
      && err == Some(UnexpectedForeignKey(IntField(neighbors[j], AccountId)))
      && IntField(neighbors[j], AccountId) !in fks && forall k | 0 <= k < j :: IntField(neighbors[k], AccountId) in fks
    ensures err.None? ==> Given(nodes, before, slot, Lists(neighbors, LeafKeys(neighbors, AccountId), fks))
  {
    hide Lists, Given, Indexes;
    ghost var keys := LeafKeys(neighbors, AccountId);
    NoLists(neighbors, keys, fks);
    Indexed(nodeids, nodes, fks);
    assert Lists(neighbors[..0], keys[..0], fks) == seq(|nodes|, _ => []);
    for j := 0 to |neighbors|
      invariant Given(nodes, before, slot, Lists(neighbors[..j], keys[..j], fks))
      invariant forall k | 0 <= k < j :: IntField(neighbors[k], AccountId) in fks
    {
      var n := neighbors[j];
      var fk := IntField(n, AccountId);
      if fk !in nodeids {
        return Some(UnexpectedForeignKey(fk));
      }
      ListsTake(neighbors, keys, j, nodes, fks, nodeids, fk);
      Give(nodeids[fk], n, slot, nodes, before,
           Lists(neighbors[..j], keys[..j], fks), Lists(neighbors[..j + 1], keys[..j + 1], fks));
    }
    return None;
  }

  // loadUsageLogs and loadAccountGroups.
  method LoadOwned(driver: Driver, query: LeafQuery, nodes: seq<Account>, slot: Slot)
    returns (err: Option<LoadError>, ghost rows: seq<LeafRow>)
    requires ValidEngine(driver.engine) && Distinct(nodes)
    modifies driver`queries, query, (set n | n in nodes)`edges
    ensures query.Value() == OwnedQuery(old(query.Value()), old(IDsOf(nodes)))
    ensures OwnedTable(driver.db, old(query.Value())) && ValidLeafFields(old(query.Value())) ==> err.None?
    ensures err != Some(Rejoined)
    ensures err.None? ==>
      && driver.queries == old(driver.queries) + 1
      && LeafAnswer(driver.db, query.Value(), rows)
      && var leaves := ScanLeaves(LeafSpecColumns(query.Value()), rows);
         Given(nodes, old(EdgesOf(nodes)), slot, Lists(leaves, LeafKeys(leaves, AccountId), old(IDsOf(nodes))))
  {
    var fks, nodeids := IndexByID(nodes);
    ghost var before, value := EdgesOf(nodes), query.Value();
    Clear(nodes, slot);
    hide Given, Lists, Indexes, LeafKeys, LeafSpecColumns, ScanLeaves, OwnedTable, ValidLeafFields;
    RestrictToOwners(query, fks);
    assert query.Value() == OwnedQuery(value, fks);
    var neighbors;
    neighbors, err, rows := query.All(driver);
    assert OwnedTable(driver.db, value) && ValidLeafFields(value) ==> err.None? by {
      OwnedFieldsValid(driver.db, value, fks);
    }
    if err.Some? {
      return;
    }
    if OwnedTable(driver.db, value) {
      OwnedKeyAsked(driver.db, value, fks, rows);
    }
    err := Distribute(nodes, fks, nodeids, neighbors, slot, before);
  }

  method Clear(nodes: seq<Account>, slot: Slot)
    modifies (set n | n in nodes)`edges
    ensures Given(nodes, old(EdgesOf(nodes)), slot, seq(|nodes|, _ => []))
  {
    ghost var before := EdgesOf(nodes);
    for i := 0 to |nodes|
      invariant forall j | 0 <= j < |nodes| ::
        nodes[j].edges == Put(slot, before[j], []) || (i <= j && nodes[j].edges == before[j])
    {
      nodes[i].edges := Put(slot, nodes[i].edges, []);
    }
  }

  lemma OwnedFieldsValid(db: Database, q: LeafQueryValue, fks: seq<int>)
    ensures OwnedTable(db, q) && ValidLeafFields(q) ==> ValidLeafFields(OwnedQuery(q, fks))
  {
  }

  // ---- Proxies ----

  // The neighbour each node is to be given.
  ghost function Ones<T>(neighbors: seq<T>, ids: seq<Option<int>>, keys: seq<Option<int>>): (ones: seq<Option<T>>)
    requires |neighbors| == |ids|
    ensures |ones| == |keys|
  {
    seq(|keys|, i requires 0 <= i < |keys| => ToOne(neighbors, ids, keys[i]))
  }

  lemma NoOnes<T>(neighbors: seq<T>, ids: seq<Option<int>>, keys: seq<Option<int>>)
    requires |neighbors| == |ids|
    ensures Ones(neighbors[..0], ids[..0], keys) == seq(|keys|, _ => None)
    ensures neighbors[..|neighbors|] == neighbors && ids[..|ids|] == ids
  {
  }

  // One more neighbour goes to the nodes whose key it is.
  lemma OnesTake<T>(neighbors: seq<T>, ids: seq<Option<int>>, j: nat, keys: seq<Option<int>>)
    requires |neighbors| == |ids| && j < |neighbors| && ids[j].Some?
    ensures var now, next := Ones(neighbors[..j], ids[..j], keys), Ones(neighbors[..j + 1], ids[..j + 1], keys);
      forall i | 0 <= i < |keys| :: next[i] == if keys[i] == ids[j] then Some(neighbors[j]) else now[i]
  {
    forall i | 0 <= i < |keys| ensures ToOne(neighbors[..j + 1], ids[..j + 1], keys[i])
      == if keys[i] == ids[j] then Some(neighbors[j]) else ToOne(neighbors[..j], ids[..j], keys[i]) {
      if keys[i].Some? {
        SelectTake(neighbors, ids, j, keys[i].value);
      }
    }
  }

  // The nodes filed under a key are those that hold it.
  lemma TargetsHoldKey(nodes: seq<Account>, keys: seq<Option<int>>, k: int)
    requires Distinct(nodes) && |keys| == |nodes|
    ensures forall i | 0 <= i < |nodes| :: nodes[i] in Select(nodes, keys, k) <==> keys[i] == Some(k)
  {
    forall i | 0 <= i < |nodes| ensures nodes[i] in Select(nodes, keys, k) <==> keys[i] == Some(k) {
      SelectIn(nodes, keys, k, i);
    }
  }

  ghost predicate ProxiesGiven(nodes: seq<Account>, before: seq<Edges<Account>>, ones: seq<Option<Leaf>>)
    reads nodes
  {
    && |before| == |nodes| == |ones|
    && forall i | 0 <= i < |nodes| :: nodes[i].edges == before[i].(proxy := ones[i])
  }

  method GiveProxy(
    targets: seq<Account>, n: Leaf, ghost nodes: seq<Account>, ghost before: seq<Edges<Account>>,
    ghost now: seq<Option<Leaf>>, ghost next: seq<Option<Leaf>>
  )
    requires ProxiesGiven(nodes, before, now) && |next| == |now|
    requires forall i | 0 <= i < |nodes| :: next[i] == if nodes[i] in targets then Some(n) else now[i]
    modifies (set t | t in targets)`edges
    ensures ProxiesGiven(nodes, before, next)
  {
    for m := 0 to |targets|
      invariant forall i | 0 <= i < |nodes| ::
        nodes[i].edges == before[i].(proxy := if nodes[i] in targets[..m] then Some(n) else now[i])
        || (nodes[i] in targets && nodes[i].edges == before[i].(proxy := Some(n)))
    {
      targets[m].edges := targets[m].edges.(proxy := Some(n));
    }
    assert targets[..|targets|] == targets;
  }

  method DistributeProxies(
    nodes: seq<Account>, keys: seq<Option<int>>, nodeids: map<int, seq<Account>>, neighbors: seq<Leaf>,
    ghost before: seq<Edges<Account>>
  ) returns (err: Option<LoadError>)
    requires Distinct(nodes) && |keys| == |nodes|
    requires forall k | k in nodeids :: nodeids[k] == Select(nodes, keys, k)
    requires ProxiesGiven(nodes, before, seq(|nodes|, _ => None))
    modifies (set n | n in nodes)`edges
    ensures (forall n | n in neighbors :: IntField(n, Id) in nodeids) <==> err.None?
    ensures err.Some? ==> exists j | 0 <= j < |neighbors| ::
      && err == Some(UnexpectedForeignKey(IntField(neighbors[j], Id)))
      && IntField(neighbors[j], Id) !in nodeids && forall k | 0 <= k < j :: IntField(neighbors[k], Id) in nodeids
    ensures err.None? ==> ProxiesGiven(nodes, before, Ones(neighbors, LeafKeys(neighbors, Id), keys))
  {
    hide Ones, ProxiesGiven;
    ghost var ids := LeafKeys(neighbors, Id);
    NoOnes(neighbors, ids, keys);
    assert Ones(neighbors[..0], ids[..0], keys) == seq(|nodes|, _ => None);
    for j := 0 to |neighbors|
      invariant ProxiesGiven(nodes, before, Ones(neighbors[..j], ids[..j], keys))
      invariant forall k | 0 <= k < j :: IntField(neighbors[k], Id) in nodeids
    {
      var n := neighbors[j];
      var id := IntField(n, Id);
      if id !in nodeids {
        return Some(UnexpectedForeignKey(id));
      }
      OnesTake(neighbors, ids, j, keys);
      TargetsHoldKey(nodes, keys, id);
      Selection.SelectMembers(nodes, keys, id);
      GiveProxy(nodeids[id], n, nodes, before,
                Ones(neighbors[..j], ids[..j], keys), Ones(neighbors[..j + 1], ids[..j + 1], keys));
    }
    return None;
  }

  ghost predicate ProxyTable(db: Database, q: LeafQueryValue) {
    q.table.Proxies? && KeysListed(q.table, q.columns) && UniqueLeafIDs(db.proxies)
  }

  lemma ProxyKeyAsked(db: Database, q: LeafQueryValue, ids: seq<int>, rows: seq<LeafRow>)
    requires ProxyTable(db, q) && LeafAnswer(db, ProxyQuery(q, ids), rows)
    ensures forall leaf | leaf in ScanLeaves(LeafSpecColumns(ProxyQuery(q, ids)), rows) :: IntField(leaf, Id) in ids
  {
    var wide := ProxyQuery(q, ids);
    var columns := LeafSpecColumns(wide);
    LeavesAreRows(db, wide, rows);
    LeafColumnsCover(q, []);
    forall leaf | leaf in ScanLeaves(columns, rows) ensures IntField(leaf, Id) in ids {
      var j :| 0 <= j < |rows| && ScanLeaves(columns, rows)[j] == leaf;
      assert rows[j] in rows;
      LeafKeyScanned(columns, rows[j], Id);
      Selection.LeafHoldsAllMore(q.preds, LeafIDIn(ids), rows[j]);
    }
  }

  method LoadProxy(driver: Driver, query: LeafQuery, nodes: seq<Account>)
    returns (err: Option<LoadError>, ghost rows: Option<seq<LeafRow>>)
    requires ValidEngine(driver.engine) && Distinct(nodes)
    requires forall i | 0 <= i < |nodes| :: nodes[i].edges.proxy == None
    modifies driver`queries, query, (set n | n in nodes)`edges
    ensures var ids := DistinctKeys(old(ProxyIDsOf(nodes)));
      query.Value() == if ids == [] then old(query.Value()) else ProxyQuery(old(query.Value()), ids)
    ensures ProxyTable(driver.db, old(query.Value())) && ValidLeafFields(old(query.Value())) ==> err.None?
    ensures err != Some(Rejoined)
    ensures err.None? && DistinctKeys(old(ProxyIDsOf(nodes))) == [] ==>
      rows == None && driver.queries == old(driver.queries) && EdgesOf(nodes) == old(EdgesOf(nodes))
    ensures err.None? && DistinctKeys(old(ProxyIDsOf(nodes))) != [] ==>
      && rows.Some?
      && driver.queries == old(driver.queries) + 1
      && LeafAnswer(driver.db, query.Value(), rows.value)
      && var leaves := ScanLeaves(LeafSpecColumns(query.Value()), rows.value);
         ProxiesGiven(nodes, old(EdgesOf(nodes)), Ones(leaves, LeafKeys(leaves, Id), old(ProxyIDsOf(nodes))))
  {
    ghost var before, value := EdgesOf(nodes), query.Value();
    var keys := ProxyIDsOf(nodes);
    var ids, nodeids := IndexByKey(nodes, keys);
    if |ids| == 0 {
      return None, None;
    }
    assert ProxiesGiven(nodes, before, seq(|nodes|, _ => None));
    hide ProxiesGiven, Ones, LeafKeys, LeafSpecColumns, ScanLeaves, ProxyTable, Select, DistinctKeys;
    query.Where(LeafIDIn(ids));
    assert query.Value() == ProxyQuery(value, ids);
    var neighbors;
    ghost var answer;
    neighbors, err, answer := query.All(driver);
    rows := Some(answer);
    if err.Some? {
      return;
    }
    if ProxyTable(driver.db, value) {
      ProxyKeyAsked(driver.db, value, ids, answer);
    }
    err := DistributeProxies(nodes, keys, nodeids, neighbors, before);
  }
}
