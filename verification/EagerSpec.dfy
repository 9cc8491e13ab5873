// Two meanings of an eager-load tree: the batched run that the loaders perform, recorded as a log,
// and the plain recursion that asks every nested query separately for every parent row.
module EagerSpec {
  import opened Wrappers
  import opened Leaves
  import opened AccountEntity
  import opened QueryModel

  // A loaded node as a value: the row it came from, its scalar fields and its edges.
  datatype AccountV = AccountV(row: AccountRow, fields: AccountFields, edges: Edges<AccountV>)

  // The log of one run: the nodes it returned and, per edge, what the nested query returned if it
  // was issued.
  datatype Run = Run(
    nodes: seq<AccountV>,
    groups: Option<seq<(int, LeafRow)>>,
    proxies: Option<seq<LeafRow>>,
    parents: Option<Run>,
    children: Option<Run>,
    usageLogs: Option<seq<LeafRow>>,
    accountGroups: Option<seq<LeafRow>>
  )

  function Issued<T>(o: Option<T>): nat { if o.Some? then 1 else 0 }

  // Database queries of a run.
  function QueryCount(run: Run): nat {
    1 + Issued(run.groups) + Issued(run.proxies) + Issued(run.usageLogs) + Issued(run.accountGroups)
      + (if run.parents.Some? then QueryCount(run.parents.value) else 0)
      + (if run.children.Some? then QueryCount(run.children.value) else 0)
  }

  function NodeRows(vs: seq<AccountV>): (rows: seq<AccountRow>)
    ensures |rows| == |vs|
  {
    seq(|vs|, i requires 0 <= i < |vs| => vs[i].row)
  }

  function NodeIDs(vs: seq<AccountV>): (ids: seq<int>)
    ensures |ids| == |vs|
  {
    seq(|vs|, i requires 0 <= i < |vs| => vs[i].fields.ints.id)
  }

  function NodeKeys(vs: seq<AccountV>): (keys: seq<Option<int>>)
    ensures |keys| == |vs|
  {
    seq(|vs|, i requires 0 <= i < |vs| => Some(vs[i].fields.ints.id))
  }

  function ProxyKeys(vs: seq<AccountV>): (keys: seq<Option<int>>)
    ensures |keys| == |vs|
  {
    seq(|vs|, i requires 0 <= i < |vs| => vs[i].fields.ints.proxyID)
  }

  function ParentKeys(vs: seq<AccountV>): (keys: seq<Option<int>>)
    ensures |keys| == |vs|
  {
    seq(|vs|, i requires 0 <= i < |vs| => vs[i].fields.ints.parentAccountID)
  }

  // The non-nil keys, each once, in the sequence they are first met.
  function DistinctKeys(keys: seq<Option<int>>): seq<int> {
    if keys == [] then []
    else
      var front, last := DistinctKeys(keys[..|keys| - 1]), keys[|keys| - 1];
      if last.Some? && last.value !in front then front + [last.value] else front
  }

  ghost predicate AccountAnswer(db: Database, t: QueryTree, rows: seq<AccountRow>) {
    Answers(rows, MatchingAccounts(db.accounts, t.preds), t.order, t.offset, t.limit)
  }

  ghost predicate LeafAnswer(db: Database, q: LeafQueryValue, rows: seq<LeafRow>) {
    Answers(rows, MatchingLeaves(db.Rows(q.table), q.preds), q.order, q.offset, q.limit)
  }

  ghost predicate GroupAnswer(db: Database, q: LeafQueryValue, accounts: seq<int>, pairs: seq<(int, LeafRow)>) {
    AnswersPairs(pairs, JoinPairs(db.accountGroups, Joinable(db.accountGroups, db.groups, q.preds), accounts),
                 q.order, q.offset, q.limit)
  }

  // A node holds the projection of its row and records which edges were requested.
  ghost predicate ScannedBy(db: Database, t: QueryTree, v: AccountV) {
    && v.fields == Scan(db.codec, SpecColumns(t), v.row)
    && v.edges.loadedTypes == Requested(t)
  }

  // The groups query has been joined before, and its joins return a row for these accounts. Such a row starts with
  // two account ids, and the row handler panics on it.
  predicate Unreadable(db: Database, q: LeafQueryValue, ids: seq<int>) {
    AlreadyJoined(q.preds) && JoinSize(db.accountGroups, db.groups, GroupQuery(q, ids).preds) > q.offset
  }

  // ---- The batched run ----

  ghost predicate BatchedGroups(db: Database, t: QueryTree, run: Run) {
    var nodes, ids := run.nodes, NodeIDs(run.nodes);
    if t.groups.None? || nodes == [] then
      run.groups.None? && forall i | 0 <= i < |nodes| :: nodes[i].edges.groups == []
    else
      var q := GroupQuery(t.groups.value, ids);
      && run.groups.Some?
      && !Unreadable(db, t.groups.value, ids)
      && GroupAnswer(db, q, ids, run.groups.value)
      && forall i | 0 <= i < |nodes| :: nodes[i].edges.groups ==
           ScanLeaves(LeafSpecColumns(q), GroupsOf(run.groups.value, ids, i))
  }

  // Node `i` is given the groups linked to its id; a later node with that id takes them instead.
  function GroupsOf(pairs: seq<(int, LeafRow)>, ids: seq<int>, i: nat): seq<LeafRow>
    requires i < |ids|
  {
    if IsLast(ids, i) then LinkedGroups(FirstMentions(pairs, {}), pairs, ids[i]) else []
  }

  ghost predicate BatchedProxy(db: Database, t: QueryTree, run: Run) {
    var nodes, keys := run.nodes, ProxyKeys(run.nodes);
    var ids := DistinctKeys(keys);
    if t.proxy.None? || ids == [] then
      run.proxies.None? && forall i | 0 <= i < |nodes| :: nodes[i].edges.proxy == None
    else
      var q := ProxyQuery(t.proxy.value, ids);
      && run.proxies.Some?
      && LeafAnswer(db, q, run.proxies.value)
      && var leaves := ScanLeaves(LeafSpecColumns(q), run.proxies.value);
         forall i | 0 <= i < |nodes| :: nodes[i].edges.proxy == ToOne(leaves, LeafKeys(leaves, Id), keys[i])
  }

  // The neighbour a foreign key is given.
  function ToOne<T>(neighbors: seq<T>, ids: seq<Option<int>>, key: Option<int>): Option<T>
    requires |neighbors| == |ids|
  {
    if key.None? then None else FindLast(neighbors, ids, key.value)
  }

  // The neighbours node `i` is given; a later node with the same id takes them instead.
  function ToMany<T>(neighbors: seq<T>, keys: seq<Option<int>>, ids: seq<int>, i: nat): seq<T>
    requires |neighbors| == |keys| && i < |ids|
  {
    if IsLast(ids, i) then Select(neighbors, keys, ids[i]) else []
  }

  ghost predicate BatchedOwned(
    db: Database, q: Option<LeafQueryValue>, nodes: seq<AccountV>, rows: Option<seq<LeafRow>>, edges: seq<seq<Leaf>>
  )
    requires |edges| == |nodes|
  {
    var ids := NodeIDs(nodes);
    if q.None? || nodes == [] then
      rows.None? && forall i | 0 <= i < |nodes| :: edges[i] == []
    else
      var q := OwnedQuery(q.value, ids);
      && rows.Some?
      && LeafAnswer(db, q, rows.value)
      && var leaves := ScanLeaves(LeafSpecColumns(q), rows.value);
         forall i | 0 <= i < |nodes| :: edges[i] == ToMany(leaves, LeafKeys(leaves, AccountId), ids, i)
  }

  function UsageLogEdges(vs: seq<AccountV>): (edges: seq<seq<Leaf>>)
    ensures |edges| == |vs|
  {
    seq(|vs|, i requires 0 <= i < |vs| => vs[i].edges.usageLogs)
  }

  function AccountGroupEdges(vs: seq<AccountV>): (edges: seq<seq<Leaf>>)
    ensures |edges| == |vs|
  {
    seq(|vs|, i requires 0 <= i < |vs| => vs[i].edges.accountGroups)
  }

  // The log is one that running query `t` against `db` may leave.
  ghost predicate Batched(db: Database, t: QueryTree, run: Run)
    decreases Depth(t), 1
  {
    && AccountAnswer(db, t, NodeRows(run.nodes))
    && (forall i | 0 <= i < |run.nodes| :: ScannedBy(db, t, run.nodes[i]))
    && BatchedGroups(db, t, run)
    && BatchedProxy(db, t, run)
    && BatchedParent(db, t, run)
    && BatchedChildren(db, t, run)
    && BatchedOwned(db, t.usageLogs, run.nodes, run.usageLogs, UsageLogEdges(run.nodes))
    && BatchedOwned(db, t.accountGroups, run.nodes, run.accountGroups, AccountGroupEdges(run.nodes))
  }

  ghost predicate BatchedParent(db: Database, t: QueryTree, run: Run)
    decreases Depth(t), 0
  {
    var nodes, keys := run.nodes, ParentKeys(run.nodes);
    var ids := DistinctKeys(keys);
    if t.parent.None? || ids == [] then
      run.parents.None? && forall i | 0 <= i < |nodes| :: nodes[i].edges.parent == None
    else
      && run.parents.Some?
      && Batched(db, ParentQuery(t.parent.value, ids), run.parents.value)
      && var neighbors := run.parents.value.nodes;
         forall i | 0 <= i < |nodes| :: nodes[i].edges.parent == ToOne(neighbors, NodeKeys(neighbors), keys[i])
  }

  ghost predicate BatchedChildren(db: Database, t: QueryTree, run: Run)
    decreases Depth(t), 0
  {
    var nodes, ids := run.nodes, NodeIDs(run.nodes);
    if t.children.None? || nodes == [] then
      run.children.None? && forall i | 0 <= i < |nodes| :: nodes[i].edges.children == []
    else
      && run.children.Some?
      && Batched(db, ChildQuery(t.children.value, ids), run.children.value)
      && var neighbors := run.children.value.nodes;
         forall i | 0 <= i < |nodes| :: nodes[i].edges.children == ToMany(neighbors, ParentKeys(neighbors), ids, i)
  }

  // ---- A run that ends in a panic ----

  // The log of such a run: the nodes at the root, and the edge at which it ends.
  datatype Halt =
    | AtGroups(nodes: seq<AccountV>)
    | AtParent(nodes: seq<AccountV>, inner: Halt)
    | AtChildren(nodes: seq<AccountV>, inner: Halt)

  // Running query `t` may end like this.
  ghost predicate Halts(db: Database, t: QueryTree, h: Halt)
    decreases Depth(t)
  {
    && h.nodes != []
    && AccountAnswer(db, t, NodeRows(h.nodes))
    && (forall i | 0 <= i < |h.nodes| :: ScannedBy(db, t, h.nodes[i]))
    && match h
       case AtGroups(nodes) => t.groups.Some? && Unreadable(db, t.groups.value, NodeIDs(nodes))
       case AtParent(nodes, inner) =>
         var ids := DistinctKeys(ParentKeys(nodes));
         t.parent.Some? && ids != [] && Halts(db, ParentQuery(t.parent.value, ids), inner)
       case AtChildren(nodes, inner) =>
         t.children.Some? && Halts(db, ChildQuery(t.children.value, NodeIDs(nodes)), inner)
  }

  ghost predicate MayHalt(db: Database, t: QueryTree) { exists h :: Halts(db, t, h) }

  // ---- The plain recursion ----

  // Groups matching the query that the join table links to the account.
  function MatchingGroups(links: seq<LeafRow>, groups: seq<LeafRow>, account: int): seq<LeafRow> {
    if groups == [] then []
    else
      var rest := MatchingGroups(links, groups[1..], account);
      if HasLink(links, account, groups[0]) then [groups[0]] + rest else rest
  }

  predicate HasLink(links: seq<LeafRow>, account: int, group: LeafRow) {
    LinkedToAny(links, [account], group)
  }

  // `v` is what loading its own row alone may give: each nested query is asked for this row only.
  ghost predicate Naive(db: Database, t: QueryTree, v: AccountV)
    decreases Depth(t), 1
  {
    && ScannedBy(db, t, v)
    && NaiveGroups(db, t, v)
    && NaiveProxy(db, t, v)
    && NaiveParent(db, t, v)
    && NaiveChildren(db, t, v)
    && NaiveOwned(db, t.usageLogs, v, v.edges.usageLogs)
    && NaiveOwned(db, t.accountGroups, v, v.edges.accountGroups)
  }

  ghost predicate NaiveGroups(db: Database, t: QueryTree, v: AccountV) {
    if t.groups.None? then v.edges.groups == []
    else
      var q, rows := GroupQuery(t.groups.value, [v.fields.ints.id]), LeafRows(v.edges.groups);
      && Answers(rows, MatchingGroups(db.accountGroups, Joinable(db.accountGroups, db.groups, q.preds),
        v.fields.ints.id),
                 q.order, q.offset, q.limit)
      && v.edges.groups == ScanLeaves(LeafSpecColumns(q), rows)
  }

  ghost predicate NaiveProxy(db: Database, t: QueryTree, v: AccountV) {
    var key, leaf := v.fields.ints.proxyID, v.edges.proxy;
    if t.proxy.None? || key.None? then leaf == None
    else
      var q, rows := ProxyQuery(t.proxy.value, [key.value]), if leaf.Some? then [leaf.value.row] else [];
      LeafAnswer(db, q, rows) && (leaf.Some? ==> leaf.value == ScanLeaf(LeafSpecColumns(q), leaf.value.row))
  }

  ghost predicate NaiveParent(db: Database, t: QueryTree, v: AccountV)
    decreases Depth(t), 0
  {
    var key, parent := v.fields.ints.parentAccountID, v.edges.parent;
    if t.parent.None? || key.None? then parent == None
    else
      var q, rows := ParentQuery(t.parent.value, [key.value]), if parent.Some? then [parent.value.row] else [];
      AccountAnswer(db, q, rows) && (parent.Some? ==> Naive(db, q, parent.value))
  }

  ghost predicate NaiveChildren(db: Database, t: QueryTree, v: AccountV)
    decreases Depth(t), 0
  {
    var children := v.edges.children;
    if t.children.None? then children == []
    else
      var q := ChildQuery(t.children.value, [v.fields.ints.id]);
      && AccountAnswer(db, q, NodeRows(children))
      && forall i | 0 <= i < |children| :: Naive(db, q, children[i])
  }

  ghost predicate NaiveOwned(db: Database, q: Option<LeafQueryValue>, v: AccountV, edge: seq<Leaf>) {
    if q.None? then edge == []
    else
      var q, rows := OwnedQuery(q.value, [v.fields.ints.id]), LeafRows(edge);
      LeafAnswer(db, q, rows) && edge == ScanLeaves(LeafSpecColumns(q), rows)
  }

  // ---- Conditions on a tree ----

  predicate NoWindow(q: Option<LeafQueryValue>) { q.Some? ==> q.value.offset == 0 && q.value.limit == 0 }

  // No nested query sets a limit or an offset; the root may.
  predicate NestedUnlimited(t: QueryTree) {
    && NoWindow(t.groups) && NoWindow(t.proxy) && NoWindow(t.usageLogs) && NoWindow(t.accountGroups)
    && (t.parent.Some? ==> t.parent.value.offset == 0 && t.parent.value.limit == 0 && NestedUnlimited(t.parent.value))
    && (t.children.Some? ==>
          t.children.value.offset == 0 && t.children.value.limit == 0 && NestedUnlimited(t.children.value))
  }

  predicate OnTable(q: Option<LeafQueryValue>, table: LeafTable) {
    q.Some? ==> q.value.table == table && KeysListed(q.value.table, q.value.columns)
  }

  // Each edge's nested query is on that edge's table.
  predicate Shaped(t: QueryTree) {
    && OnTable(t.groups, Groups) && OnTable(t.proxy, Proxies)
    && OnTable(t.usageLogs, UsageLogs) && OnTable(t.accountGroups, AccountGroups)
    && (t.parent.Some? ==> Shaped(t.parent.value))
    && (t.children.Some? ==> Shaped(t.children.value))
  }

  // No groups query of the tree has been joined yet, that is, none has run.
  predicate GroupsFresh(t: QueryTree) {
    && (t.groups.Some? ==> !AlreadyJoined(t.groups.value.preds))
    && (t.parent.Some? ==> GroupsFresh(t.parent.value))
    && (t.children.Some? ==> GroupsFresh(t.children.value))
  }

  // ---- What a run leaves behind in the builders ----

  // Nested queries that were issued keep the restriction they were given.
  function After(t: QueryTree, run: Run): QueryTree
    decreases Depth(t), 0
  {
    var ids := NodeIDs(run.nodes);
    t.(groups := GroupsAfter(t.groups, ids, run.groups),
       proxy := ProxyAfter(t.proxy, ProxyKeys(run.nodes), run.proxies),
       parent := ParentAfter(t.parent, ParentKeys(run.nodes), run.parents),
       children := ChildrenAfter(t.children, ids, run.children),
       usageLogs := OwnedAfter(t.usageLogs, ids, run.usageLogs),
       accountGroups := OwnedAfter(t.accountGroups, ids, run.accountGroups))
  }

  function GroupsAfter(q: Option<LeafQueryValue>, ids: seq<int>,
      pairs: Option<seq<(int, LeafRow)>>): Option<LeafQueryValue> {
    if q.Some? && pairs.Some? then Some(GroupQuery(q.value, ids)) else q
  }

  function ProxyAfter(q: Option<LeafQueryValue>, keys: seq<Option<int>>,
      rows: Option<seq<LeafRow>>): Option<LeafQueryValue> {
    if q.Some? && rows.Some? then Some(ProxyQuery(q.value, DistinctKeys(keys))) else q
  }

  function OwnedAfter(q: Option<LeafQueryValue>, ids: seq<int>, rows: Option<seq<LeafRow>>): Option<LeafQueryValue> {
    if q.Some? && rows.Some? then Some(OwnedQuery(q.value, ids)) else q
  }

  function ParentAfter(q: Option<QueryTree>, keys: seq<Option<int>>, run: Option<Run>): Option<QueryTree>
    decreases if q.Some? then Depth(q.value) else 0, 1
  {
    if q.Some? && run.Some? then Some(After(ParentQuery(q.value, DistinctKeys(keys)), run.value)) else q
  }

  function ChildrenAfter(q: Option<QueryTree>, ids: seq<int>, run: Option<Run>): Option<QueryTree>
    decreases if q.Some? then Depth(q.value) else 0, 1
  {
    if q.Some? && run.Some? then Some(After(ChildQuery(q.value, ids), run.value)) else q
  }
}
