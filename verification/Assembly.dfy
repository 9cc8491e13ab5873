// Putting the loaded edges of all nodes together into the log of a run.
module Assembly {
  import opened Wrappers
  import opened Leaves
  import opened AccountEntity
  import opened QueryModel
  import opened EagerSpec
  import opened LoadedGraph
  import opened LeafLoaders
  import opened GroupLoader

  // What each loader brought, per node; nodes of nested queries come with their graphs.
  datatype Loads = Loads(
    pairs: Option<seq<(int, LeafRow)>>, groups: seq<seq<Leaf>>,
    proxyRows: Option<seq<LeafRow>>, proxies: seq<Option<Leaf>>,
    parentRun: Option<Run>, parents: seq<Option<Account>>, parentNodes: seq<Account>, parentGraph: set<Account>,
    childRun: Option<Run>, children: seq<seq<Account>>, childNodes: seq<Account>, childGraph: set<Account>,
    usageRows: Option<seq<LeafRow>>, usageLogs: seq<seq<Leaf>>,
    joinRows: Option<seq<LeafRow>>, accountGroups: seq<seq<Leaf>>
  )

  ghost predicate GroupsLoaded(
    db: Database, q: Option<LeafQueryValue>, ids: seq<int>, pairs: Option<seq<(int, LeafRow)>>, lists: seq<seq<Leaf>>
  ) {
    if q.None? then pairs.None? && lists == seq(|ids|, _ => [])
    else
      var unjoined, q := q.value, GroupQuery(q.value, ids);
      && pairs.Some? && GroupAnswer(db, q, ids, pairs.value) && !Unreadable(db, unjoined, ids)
      && lists == GroupLists(LeafSpecColumns(q), FirstMentions(pairs.value, {}), pairs.value, ids)
  }

  ghost predicate ProxiesLoaded(
    db: Database, q: Option<LeafQueryValue>, keys: seq<Option<int>>, rows: Option<seq<LeafRow>>, ones: seq<Option<Leaf>>
  ) {
    var ids := DistinctKeys(keys);
    if q.None? || ids == [] then rows.None? && ones == seq(|keys|, _ => None)
    else
      var q := ProxyQuery(q.value, ids);
      && rows.Some? && LeafAnswer(db, q, rows.value)
      && var leaves := ScanLeaves(LeafSpecColumns(q), rows.value);
         ones == Ones(leaves, LeafKeys(leaves, Id), keys)
  }

  ghost predicate OwnedLoaded(
    db: Database, q: Option<LeafQueryValue>, ids: seq<int>, rows: Option<seq<LeafRow>>, lists: seq<seq<Leaf>>
  ) {
    if q.None? then rows.None? && lists == seq(|ids|, _ => [])
    else
      var q := OwnedQuery(q.value, ids);
      && rows.Some? && LeafAnswer(db, q, rows.value)
      && var leaves := ScanLeaves(LeafSpecColumns(q), rows.value);
         lists == Lists(leaves, LeafKeys(leaves, AccountId), ids)
  }

  ghost predicate ParentsLoaded(
    db: Database, q: Option<QueryTree>, keys: seq<Option<int>>, run: Option<Run>,
    ones: seq<Option<Account>>, neighbors: seq<Account>, graph: set<Account>
  )
    reads graph
  {
    var ids := DistinctKeys(keys);
    if q.None? || ids == [] then run.None? && graph == {} && ones == seq(|keys|, _ => None)
    else
      && run.Some? && Batched(db, ParentQuery(q.value, ids), run.value)
      && StandFor(neighbors, graph, Depth(q.value), run.value.nodes)
      && ones == Ones(neighbors, NodeKeys(run.value.nodes), keys)
  }

  ghost predicate ChildrenLoaded(
    db: Database, q: Option<QueryTree>, ids: seq<int>, run: Option<Run>,
    lists: seq<seq<Account>>, neighbors: seq<Account>, graph: set<Account>
  )
    reads graph
  {
    if q.None? then run.None? && graph == {} && lists == seq(|ids|, _ => [])
    else
      && run.Some? && Batched(db, ChildQuery(q.value, ids), run.value)
      && StandFor(neighbors, graph, Depth(q.value), run.value.nodes)
      && lists == Lists(neighbors, ParentKeys(run.value.nodes), ids)
  }

  // The nodes' own scalars.
  ghost predicate Scalars(db: Database, t: QueryTree, nodes: seq<Account>, rows: seq<AccountRow>)
    reads nodes
  {
    |nodes| == |rows| && forall i | 0 <= i < |nodes| ::
      && nodes[i].row == rows[i] && nodes[i].height == Depth(t)
      && nodes[i].fields == Scan(db.codec, SpecColumns(t), rows[i])
  }

  // Freshly scanned nodes have no edges yet.
  ghost predicate JustScanned(db: Database, t: QueryTree, nodes: seq<Account>, rows: seq<AccountRow>)
    reads nodes
  {
    Scalars(db, t, nodes, rows) && forall i | 0 <= i < |nodes| :: nodes[i].edges == NoEdges(Requested(t))
  }

  // The state between two loaders: which run this is, and what the nodes hold so far.
  datatype Stage = Stage(
    db: Database, t: QueryTree, rows: seq<AccountRow>, fields: seq<AccountFields>,
    ids: seq<int>, proxyKeys: seq<Option<int>>, parentKeys: seq<Option<int>>)

  ghost predicate Scanned(s: Stage) {
    && |s.rows| == |s.fields| == |s.ids| == |s.proxyKeys| == |s.parentKeys|
    && forall i | 0 <= i < |s.rows| ::
         && s.fields[i] == Scan(s.db.codec, SpecColumns(s.t), s.rows[i])
         && s.ids[i] == s.fields[i].ints.id
         && s.proxyKeys[i] == s.fields[i].ints.proxyID
         && s.parentKeys[i] == s.fields[i].ints.parentAccountID
  }

  ghost predicate HoldsFields(s: Stage, nodes: seq<Account>)
    reads nodes
  {
    && |nodes| == |s.rows| == |s.fields|
    && forall i | 0 <= i < |nodes| ::
         nodes[i].row == s.rows[i] && nodes[i].height == Depth(s.t) && nodes[i].fields == s.fields[i]
  }

  ghost predicate At(s: Stage, nodes: seq<Account>, l: Loads)
    reads nodes
  {
    Scanned(s) && Distinct(nodes) && HoldsFields(s, nodes) && EdgesHold(s.t, EdgesOf(nodes), l)
  }

  lemma StageKeys(s: Stage, nodes: seq<Account>)
    requires Scanned(s) && HoldsFields(s, nodes)
    ensures IDsOf(nodes) == s.ids && ProxyIDsOf(nodes) == s.proxyKeys && ParentIDsOf(nodes) == s.parentKeys
    ensures Scalars(s.db, s.t, nodes, s.rows)
  {
  }

  ghost predicate EdgesHold(t: QueryTree, edges: seq<Edges<Account>>, l: Loads) {
    && |edges| == |l.groups| == |l.proxies| == |l.parents| == |l.children| == |l.usageLogs| == |l.accountGroups|
    && forall i | 0 <= i < |edges| :: edges[i] == Edges(
         l.groups[i], l.proxies[i], l.parents[i], l.children[i], l.usageLogs[i], l.accountGroups[i], Requested(t))
  }

  ghost function NothingLoaded(n: nat): Loads {
    Loads(None, seq(n, _ => []), None, seq(n, _ => None), None, seq(n, _ => None), [], {},
          None, seq(n, _ => []), [], {}, None, seq(n, _ => []), None, seq(n, _ => []))
  }

  ghost function GraphOf(nodes: seq<Account>, l: Loads): set<Account> {
    (set n | n in nodes) + l.parentGraph + l.childGraph
  }

  ghost function RunOf(nodes: seq<Account>, l: Loads, vs: seq<AccountV>): Run {
    Run(vs, l.pairs, l.proxyRows, l.parentRun, l.childRun, l.usageRows, l.joinRows)
  }

  // A parent found among lower nodes of a closed graph.
  lemma OneInGraph(neighbors: seq<Account>, graph: set<Account>, height: nat, vs: seq<AccountV>,
                   ids: seq<Option<int>>, key: Option<int>)
    requires StandFor(neighbors, graph, height, vs) && |ids| == |neighbors|
    ensures var one, v := ToOne(neighbors, ids, key), ToOne(vs, ids, key);
      && (one.Some? <==> v.Some?)
      && (one.Some? ==> one.value in graph && one.value.height == height && View(one.value, graph) == v.value)
  {
    if key.Some? {
      SelectStandsFor(neighbors, graph, height, vs, ids, key.value);
    }
  }

  lemma ManyInGraph(neighbors: seq<Account>, graph: set<Account>, height: nat, vs: seq<AccountV>,
                    keys: seq<Option<int>>, ids: seq<int>, i: nat)
    requires StandFor(neighbors, graph, height, vs) && |keys| == |neighbors| && i < |ids|
    ensures StandFor(ToMany(neighbors, keys, ids, i), graph, height, ToMany(vs, keys, ids, i))
  {
    SelectStandsFor(neighbors, graph, height, vs, keys, ids[i]);
  }

  // What node `i` was given points into the graphs of the nested runs, below its own height.
  lemma PointsDown(db: Database, t: QueryTree, nodes: seq<Account>, rows: seq<AccountRow>, l: Loads, i: nat)
    requires i < |nodes| && EdgesHold(t, EdgesOf(nodes), l) && Scalars(db, t, nodes, rows)
    requires ParentsLoaded(db, t.parent, ParentIDsOf(nodes), l.parentRun, l.parents, l.parentNodes, l.parentGraph)
    requires ChildrenLoaded(db, t.children, IDsOf(nodes), l.childRun, l.children, l.childNodes, l.childGraph)
    ensures Points(nodes[i], GraphOf(nodes, l))
  {
    var keys, ids := ParentIDsOf(nodes), IDsOf(nodes);
    assert nodes[i].edges == EdgesOf(nodes)[i];
    hide Batched, Scan;
    if l.parentRun.Some? {
      OneInGraph(l.parentNodes, l.parentGraph, Depth(t.parent.value), l.parentRun.value.nodes,
                 NodeKeys(l.parentRun.value.nodes), keys[i]);
    }
    if l.childRun.Some? {
      ManyInGraph(l.childNodes, l.childGraph, Depth(t.children.value), l.childRun.value.nodes,
                  ParentKeys(l.childRun.value.nodes), ids, i);
      forall c | c in l.children[i] ensures c in l.childGraph && c.height == Depth(t.children.value) {
        var j :| 0 <= j < |l.children[i]| && l.children[i][j] == c;
      }
    }
  }

  lemma GraphClosed(db: Database, t: QueryTree, nodes: seq<Account>, rows: seq<AccountRow>, l: Loads)
    requires EdgesHold(t, EdgesOf(nodes), l) && Scalars(db, t, nodes, rows)
    requires ParentsLoaded(db, t.parent, ParentIDsOf(nodes), l.parentRun, l.parents, l.parentNodes, l.parentGraph)
    requires ChildrenLoaded(db, t.children, IDsOf(nodes), l.childRun, l.children, l.childNodes, l.childGraph)
    ensures Closed(GraphOf(nodes, l))
  {
    var graph := GraphOf(nodes, l);
    assert Closed(l.parentGraph) && Closed(l.childGraph);
    hide ParentsLoaded, ChildrenLoaded, EdgesHold, Scalars;
    forall n | n in graph ensures Points(n, graph) {
      if n in nodes {
        var i :| 0 <= i < |nodes| && nodes[i] == n;
        PointsDown(db, t, nodes, rows, l, i);
      } else if n in l.parentGraph {
        assert Points(n, l.parentGraph);
      } else {
        assert Points(n, l.childGraph);
      }
    }
  }

  // What node `i` holds, with the nodes it points to as values.
  ghost function EdgesAsValues(t: QueryTree, l: Loads, ids: seq<int>, keys: seq<Option<int>>, i: nat): Edges<AccountV>
    requires i < |ids| == |keys| == |l.groups| == |l.proxies| == |l.usageLogs| == |l.accountGroups|
  {
    Edges(
      l.groups[i], l.proxies[i],
      if l.parentRun.None? then None
      else ToOne(l.parentRun.value.nodes, NodeKeys(l.parentRun.value.nodes), keys[i]),
      if l.childRun.None? then []
      else ToMany(l.childRun.value.nodes, ParentKeys(l.childRun.value.nodes), ids, i),
      l.usageLogs[i], l.accountGroups[i], Requested(t))
  }

  lemma ParentView(db: Database, t: QueryTree, keys: seq<Option<int>>, l: Loads, graph: set<Account>, i: nat)
    requires ParentsLoaded(db, t.parent, keys, l.parentRun, l.parents, l.parentNodes, l.parentGraph)
    requires l.parentGraph <= graph && Closed(graph) && i < |l.parents| && i < |keys|
    ensures l.parents[i].Some? ==> l.parents[i].value in graph
    ensures (if l.parents[i].Some? then Some(View(l.parents[i].value, graph)) else None)
         == if l.parentRun.None? then None
            else ToOne(l.parentRun.value.nodes, NodeKeys(l.parentRun.value.nodes), keys[i])
  {
    hide Batched, DistinctKeys;
    if l.parentRun.Some? {
      var vs := l.parentRun.value.nodes;
      StandForGrows(l.parentNodes, l.parentGraph, graph, Depth(t.parent.value), vs);
      OneInGraph(l.parentNodes, graph, Depth(t.parent.value), vs, NodeKeys(vs), keys[i]);
    }
  }

  lemma ChildViews(db: Database, t: QueryTree, ids: seq<int>, l: Loads, graph: set<Account>, i: nat, height: nat)
    requires ChildrenLoaded(db, t.children, ids, l.childRun, l.children, l.childNodes, l.childGraph)
    requires l.childGraph <= graph && Closed(graph) && i < |l.children| && i < |ids|
    requires forall c | c in l.children[i] :: c in graph && c.height < height
    ensures Views(l.children[i], graph, height)
         == if l.childRun.None? then []
            else ToMany(l.childRun.value.nodes, ParentKeys(l.childRun.value.nodes), ids, i)
  {
    hide Batched;
    if l.childRun.Some? {
      var vs := l.childRun.value.nodes;
      StandForGrows(l.childNodes, l.childGraph, graph, Depth(t.children.value), vs);
      ManyInGraph(l.childNodes, graph, Depth(t.children.value), vs, ParentKeys(vs), ids, i);
    }
  }

  // The view of a filled node, edge by edge.
  lemma NodeView(db: Database, t: QueryTree, nodes: seq<Account>, rows: seq<AccountRow>, l: Loads, i: nat)
    requires i < |nodes| && EdgesHold(t, EdgesOf(nodes), l) && Scalars(db, t, nodes, rows)
    requires ParentsLoaded(db, t.parent, ParentIDsOf(nodes), l.parentRun, l.parents, l.parentNodes, l.parentGraph)
    requires ChildrenLoaded(db, t.children, IDsOf(nodes), l.childRun, l.children, l.childNodes, l.childGraph)
    requires Closed(GraphOf(nodes, l)) && nodes[i] in GraphOf(nodes, l)
    ensures View(nodes[i], GraphOf(nodes, l))
         == AccountV(rows[i], nodes[i].fields, EdgesAsValues(t, l, IDsOf(nodes), ParentIDsOf(nodes), i))
  {
    var graph, n := GraphOf(nodes, l), nodes[i];
    assert Points(n, graph) && n.edges == EdgesOf(nodes)[i];
    ParentView(db, t, ParentIDsOf(nodes), l, graph, i);
    ChildViews(db, t, IDsOf(nodes), l, graph, i, n.height);
    hide ParentsLoaded, ChildrenLoaded, Scan, SpecColumns, ToOne, ToMany, Closed;
  }

  ghost predicate LeafEdgesLoaded(db: Database, t: QueryTree, ids: seq<int>, proxyKeys: seq<Option<int>>, l: Loads) {
    && GroupsLoaded(db, t.groups, ids, l.pairs, l.groups)
    && ProxiesLoaded(db, t.proxy, proxyKeys, l.proxyRows, l.proxies)
    && OwnedLoaded(db, t.usageLogs, ids, l.usageRows, l.usageLogs)
    && OwnedLoaded(db, t.accountGroups, ids, l.joinRows, l.accountGroups)
  }

  // The views' edges are what the batched specification wants of them.
  lemma LeafEdgesBatched(db: Database, t: QueryTree, l: Loads, run: Run)
    requires run.nodes != [] && LeafEdgesLoaded(db, t, NodeIDs(run.nodes), ProxyKeys(run.nodes), l)
    requires run.groups == l.pairs && run.proxies == l.proxyRows
    requires run.usageLogs == l.usageRows && run.accountGroups == l.joinRows
    requires |run.nodes| == |l.groups| == |l.proxies| == |l.usageLogs| == |l.accountGroups|
    requires forall i | 0 <= i < |run.nodes| ::
      && run.nodes[i].edges.groups == l.groups[i] && run.nodes[i].edges.proxy == l.proxies[i]
      && run.nodes[i].edges.usageLogs == l.usageLogs[i] && run.nodes[i].edges.accountGroups == l.accountGroups[i]
    ensures BatchedGroups(db, t, run) && BatchedProxy(db, t, run)
    ensures BatchedOwned(db, t.usageLogs, run.nodes, run.usageLogs, UsageLogEdges(run.nodes))
    ensures BatchedOwned(db, t.accountGroups, run.nodes, run.accountGroups, AccountGroupEdges(run.nodes))
  {
    hide GroupAnswer, LeafAnswer, LeafSpecColumns, DistinctKeys;
  }

  lemma AccountEdgesBatched(db: Database, t: QueryTree, run: Run)
    requires run.nodes != []
    requires ParentRunLoaded(db, t, ParentKeys(run.nodes), run.parents)
    requires ChildRunLoaded(db, t, NodeIDs(run.nodes), run.children)
    requires forall i | 0 <= i < |run.nodes| ::
      && run.nodes[i].edges.parent == (if run.parents.None? then None
           else ToOne(run.parents.value.nodes, NodeKeys(run.parents.value.nodes), ParentKeys(run.nodes)[i]))
      && run.nodes[i].edges.children == (if run.children.None? then []
           else ToMany(run.children.value.nodes, ParentKeys(run.children.value.nodes), NodeIDs(run.nodes), i))
    ensures BatchedParent(db, t, run) && BatchedChildren(db, t, run)
  {
    hide Batched, DistinctKeys, ToOne, ToMany;
  }

  // The views of all nodes.
  lemma AllViews(db: Database, t: QueryTree, nodes: seq<Account>, rows: seq<AccountRow>, l: Loads)
    returns (vs: seq<AccountV>)
    requires EdgesHold(t, EdgesOf(nodes), l) && Scalars(db, t, nodes, rows) && Closed(GraphOf(nodes, l))
    requires ParentsLoaded(db, t.parent, ParentIDsOf(nodes), l.parentRun, l.parents, l.parentNodes, l.parentGraph)
    requires ChildrenLoaded(db, t.children, IDsOf(nodes), l.childRun, l.children, l.childNodes, l.childGraph)
    ensures StandFor(nodes, GraphOf(nodes, l), Depth(t), vs)
    ensures forall i | 0 <= i < |nodes| ::
      vs[i] == AccountV(rows[i], nodes[i].fields, EdgesAsValues(t, l, IDsOf(nodes), ParentIDsOf(nodes), i))
  {
    var graph := GraphOf(nodes, l);
    assert forall n | n in nodes :: n in graph && n.height < Depth(t) + 1;
    vs := Views(nodes, graph, Depth(t) + 1);
    hide ParentsLoaded, ChildrenLoaded, Closed, EdgesAsValues;
    forall i | 0 <= i < |nodes| ensures vs[i]
         == AccountV(rows[i], nodes[i].fields, EdgesAsValues(t, l, IDsOf(nodes), ParentIDsOf(nodes), i)) {
      NodeView(db, t, nodes, rows, l, i);
    }
  }

  // Once every loader has filled its edge, the nodes stand for a batched run.
  lemma RunAssembled(db: Database, t: QueryTree, nodes: seq<Account>, rows: seq<AccountRow>, l: Loads)
    returns (run: Run, graph: set<Account>)
    requires nodes != [] && EdgesHold(t, EdgesOf(nodes), l) && Scalars(db, t, nodes, rows) && AccountAnswer(db, t, rows)
    requires LeafEdgesLoaded(db, t, IDsOf(nodes), ProxyIDsOf(nodes), l)
    requires ParentsLoaded(db, t.parent, ParentIDsOf(nodes), l.parentRun, l.parents, l.parentNodes, l.parentGraph)
    requires ChildrenLoaded(db, t.children, IDsOf(nodes), l.childRun, l.children, l.childNodes, l.childGraph)
    ensures graph == GraphOf(nodes, l) && run == RunOf(nodes, l, run.nodes)
    ensures NodeIDs(run.nodes) == IDsOf(nodes) && ProxyKeys(run.nodes) == ProxyIDsOf(nodes)
    ensures ParentKeys(run.nodes) == ParentIDsOf(nodes)
    ensures Batched(db, t, run) && StandFor(nodes, graph, Depth(t), run.nodes)
  {
    hide Batched, LeafEdgesLoaded, ParentsLoaded, ChildrenLoaded, EdgesAsValues, ParentRunLoaded, ChildRunLoaded,
      Closed,
         SpecColumns, Scan, AccountAnswer, View;
    graph := GraphOf(nodes, l);
    GraphClosed(db, t, nodes, rows, l);
    var vs := AllViews(db, t, nodes, rows, l);
    run := RunOf(nodes, l, vs);
    RunsLoaded(db, t, ParentIDsOf(nodes), IDsOf(nodes), l);
    assert NodeRows(vs) == rows;
    assert NodeIDs(vs) == IDsOf(nodes) && ProxyKeys(vs) == ProxyIDsOf(nodes) && ParentKeys(vs) == ParentIDsOf(nodes);
    Concluded(db, t, l, run);
  }

  lemma RunsLoaded(db: Database, t: QueryTree, keys: seq<Option<int>>, ids: seq<int>, l: Loads)
    requires ParentsLoaded(db, t.parent, keys, l.parentRun, l.parents, l.parentNodes, l.parentGraph)
    requires ChildrenLoaded(db, t.children, ids, l.childRun, l.children, l.childNodes, l.childGraph)
    ensures ParentRunLoaded(db, t, keys, l.parentRun) && ChildRunLoaded(db, t, ids, l.childRun)
  {
  }

  lemma Concluded(db: Database, t: QueryTree, l: Loads, run: Run)
    requires run.nodes != [] && AccountAnswer(db, t, NodeRows(run.nodes))
    requires run == RunOf([], l, run.nodes)
    requires LeafEdgesLoaded(db, t, NodeIDs(run.nodes), ProxyKeys(run.nodes), l)
    requires ParentRunLoaded(db, t, ParentKeys(run.nodes), l.parentRun)
    requires ChildRunLoaded(db, t, NodeIDs(run.nodes), l.childRun)
    requires |run.nodes| == |l.groups| == |l.proxies| == |l.usageLogs| == |l.accountGroups|
    requires forall i | 0 <= i < |run.nodes| ::
      && run.nodes[i].fields == Scan(db.codec, SpecColumns(t), run.nodes[i].row)
      && run.nodes[i].edges == EdgesAsValues(t, l, NodeIDs(run.nodes), ParentKeys(run.nodes), i)
    ensures Batched(db, t, run)
  {
    LeafEdgesBatched(db, t, l, run);
    AccountEdgesBatched(db, t, run);
    assert forall i | 0 <= i < |run.nodes| :: ScannedBy(db, t, run.nodes[i]);
    hide BatchedGroups, BatchedProxy, BatchedParent, BatchedChildren, BatchedOwned, ScannedBy, LeafEdgesLoaded;
  }

  ghost predicate ParentRunLoaded(db: Database, t: QueryTree, keys: seq<Option<int>>, run: Option<Run>) {
    var ids := DistinctKeys(keys);
    if t.parent.None? || ids == [] then run.None?
    else run.Some? && Batched(db, ParentQuery(t.parent.value, ids), run.value)
  }

  ghost predicate ChildRunLoaded(db: Database, t: QueryTree, ids: seq<int>, run: Option<Run>) {
    if t.children.None? then run.None?
    else run.Some? && Batched(db, ChildQuery(t.children.value, ids), run.value)
  }
}
