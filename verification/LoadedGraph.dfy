// Loaded nodes on the heap and the values they stand for. Nodes may be shared: siblings point to one
// and the same parent node.
module LoadedGraph {
  import opened Wrappers
  import opened AccountEntity
  import opened QueryModel
  import opened EagerSpec

  // Edges lead to lower nodes of the same graph.
  ghost predicate Closed(graph: set<Account>)
    reads graph
  {
    forall n | n in graph :: Points(n, graph)
  }

  ghost predicate Points(n: Account, graph: set<Account>)
    reads n
  {
    && (n.edges.parent.Some? ==> n.edges.parent.value in graph && n.edges.parent.value.height < n.height)
    && (forall c | c in n.edges.children :: c in graph && c.height < n.height)
  }

  ghost function View(n: Account, graph: set<Account>): AccountV
    requires n in graph && Closed(graph)
    reads graph
    decreases n.height, 1, 0
  {
    assert Points(n, graph);
    var e := n.edges;
    AccountV(n.row, n.fields, Edges(
      e.groups,
      e.proxy,
      if e.parent.Some? then Some(View(e.parent.value, graph)) else None,
      Views(e.children, graph, n.height),
      e.usageLogs,
      e.accountGroups,
      e.loadedTypes))
  }

  ghost function Views(ns: seq<Account>, graph: set<Account>, height: nat): (vs: seq<AccountV>)
    requires Closed(graph)
    requires forall n | n in ns :: n in graph && n.height < height
    reads graph
    ensures |vs| == |ns|
    ensures forall i | 0 <= i < |ns| :: vs[i] == View(ns[i], graph)
    decreases height, 0, |ns|
  {
    if ns == [] then [] else [View(ns[0], graph)] + Views(ns[1..], graph, height)
  }

  // A larger graph around a closed one changes no view.
  lemma {:induction false} ViewGrows(n: Account, small: set<Account>, large: set<Account>)
    requires n in small && small <= large && Closed(small) && Closed(large)
    ensures View(n, small) == View(n, large)
    decreases n.height
  {
    assert Points(n, small) && Points(n, large);
    if n.edges.parent.Some? {
      ViewGrows(n.edges.parent.value, small, large);
    }
    var children := n.edges.children;
    forall i | 0 <= i < |children| ensures View(children[i], small) == View(children[i], large) {
      assert children[i] in children;
      ViewGrows(children[i], small, large);
    }
    assert Views(children, small, n.height) == Views(children, large, n.height);
  }

  // The nodes stand for the values, and sit at one height.
  ghost predicate StandFor(nodes: seq<Account>, graph: set<Account>, height: nat, vs: seq<AccountV>)
    reads graph
  {
    && Closed(graph)
    && |nodes| == |vs|
    && forall i | 0 <= i < |nodes| ::
         nodes[i] in graph && nodes[i].height == height && View(nodes[i], graph) == vs[i]
  }

  // Nodes filed under a key stand for the values filed under it.
  lemma SelectStandsFor(nodes: seq<Account>, graph: set<Account>, height: nat, vs: seq<AccountV>,
                        keys: seq<Option<int>>, k: int)
    requires StandFor(nodes, graph, height, vs) && |keys| == |nodes|
    ensures StandFor(Select(nodes, keys, k), graph, height, Select(vs, keys, k))
  {
  }

  lemma StandForGrows(nodes: seq<Account>, small: set<Account>, large: set<Account>, height: nat, vs: seq<AccountV>)
    requires StandFor(nodes, small, height, vs) && small <= large && Closed(large)
    ensures StandFor(nodes, large, height, vs)
  {
    forall i | 0 <= i < |nodes| ensures View(nodes[i], large) == vs[i] {
      ViewGrows(nodes[i], small, large);
    }
  }
}
