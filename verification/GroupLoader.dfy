// The many-to-many loader: groups arrive joined to account ids, and are filed under sets of nodes.
module GroupLoader {
  import opened Wrappers
  import opened Leaves
  import opened AccountEntity
  import opened QueryModel
  import opened EagerSpec
  import opened EagerRefinement
  import opened Builders
  import opened LeafLoaders
  import GroupsRefinement
  import Selection

  // The ids of the groups mentioned so far.
  ghost function Mentioned(pairs: seq<(int, LeafRow)>): set<Option<int>> {
    set i | 0 <= i < |pairs| :: LeafInt(pairs[i].1, Id)
  }

  lemma {:induction false} MentionsSnoc(pairs: seq<(int, LeafRow)>, p: (int, LeafRow), seen: set<Option<int>>)
    ensures FirstMentions(pairs + [p], seen) == FirstMentions(pairs, seen)
      + if LeafInt(p.1, Id) in seen || LeafInt(p.1, Id) in Mentioned(pairs) then [] else [p.1]
  {
    if pairs == [] {
      assert pairs + [p] == [p];
    } else {
      var id, rest := LeafInt(pairs[0].1, Id), pairs[1..];
      assert (pairs + [p])[1..] == rest + [p];
      MentionsSnoc(rest, p, if id in seen then seen else seen + {id});
      assert forall x :: x in Mentioned(pairs) <==> x == id || x in Mentioned(rest) by {
        forall x | x in Mentioned(pairs) ensures x == id || x in Mentioned(rest) {
          var i :| 0 <= i < |pairs| && LeafInt(pairs[i].1, Id) == x;
          assert i > 0 ==> rest[i - 1] == pairs[i];
        }
        forall x | x in Mentioned(rest) ensures x in Mentioned(pairs) {
          var i :| 0 <= i < |rest| && LeafInt(rest[i].1, Id) == x;
          assert pairs[i + 1] == rest[i];
        }
      }
    }
  }

  lemma LinkedToSnoc(pairs: seq<(int, LeafRow)>, p: (int, LeafRow), account: int, group: Option<int>)
    ensures LinkedTo(pairs + [p], account, group) <==>
      LinkedTo(pairs, account, group) || (p.0 == account && LeafInt(p.1, Id) == group)
  {
    var longer := pairs + [p];
    assert longer[|pairs|] == p;
    assert forall i | 0 <= i < |pairs| :: longer[i] == pairs[i];
  }

  lemma {:induction false} LinkedGroupsSnoc(mentioned: seq<LeafRow>, g: LeafRow, pairs: seq<(int, LeafRow)>,
      account: int)
    ensures LinkedGroups(mentioned + [g], pairs, account)
         == LinkedGroups(mentioned, pairs, account) + if Linked(pairs, account, g) then [g] else []
  {
    if mentioned == [] {
      assert mentioned + [g] == [g];
    } else {
      assert (mentioned + [g])[1..] == mentioned[1..] + [g];
      LinkedGroupsSnoc(mentioned[1..], g, pairs, account);
    }
  }

  // `nids`: under each mentioned group id, the last nodes of the account ids linked to it.
  ghost predicate Files(
    nids: map<int, set<Account>>, nodes: seq<Account>, ids: seq<int>, pairs: seq<(int, LeafRow)>)
    requires |nodes| == |ids|
  {
    && (forall g :: g in nids <==> Some(g) in Mentioned(pairs))
    && (forall g | g in nids :: forall n | n in nids[g] :: n in nodes)
    && (forall g, i | g in nids && 0 <= i < |nodes| ::
          nodes[i] in nids[g] <==> IsLast(ids, i) && LinkedTo(pairs, ids[i], Some(g)))
  }

  lemma FilesGrow(
    nids: map<int, set<Account>>, nodes: seq<Account>, ids: seq<int>, byID: map<int, Account>,
    pairs: seq<(int, LeafRow)>, p: (int, LeafRow), g: int
  )
    requires |nodes| == |ids| && Files(nids, nodes, ids, pairs) && Indexes(byID, nodes, ids)
    requires p.0 in byID && LeafInt(p.1, Id) == Some(g)
    ensures Files(nids[g := (if g in nids then nids[g] else {}) + {byID[p.0]}], nodes, ids, pairs + [p])
  {
    var longer := pairs + [p];
    forall x ensures x in Mentioned(longer) <==> x in Mentioned(pairs) || x == Some(g) {
      assert longer[|pairs|] == p && forall i | 0 <= i < |pairs| :: longer[i] == pairs[i];
      if x in Mentioned(pairs) {
        var i :| 0 <= i < |pairs| && LeafInt(pairs[i].1, Id) == x;
        assert longer[i] == pairs[i];
      }
    }
    var nids' := nids[g := (if g in nids then nids[g] else {}) + {byID[p.0]}];
    forall h, i | h in nids' && 0 <= i < |nodes|
      ensures nodes[i] in nids'[h] <==> IsLast(ids, i) && LinkedTo(longer, ids[i], Some(h))
    {
      LinkedToSnoc(pairs, p, ids[i], Some(h));
      assert h !in nids ==> Some(h) !in Mentioned(pairs) && !LinkedTo(pairs, ids[i], Some(h));
    }
  }

  ghost predicate GroupsGiven(nodes: seq<Account>, before: seq<Edges<Account>>, lists: seq<seq<Leaf>>)
    reads nodes
  {
    && |before| == |nodes| == |lists|
    && forall i | 0 <= i < |nodes| :: nodes[i].edges == before[i].(groups := lists[i])
  }

  // What the nodes hold once the groups in `mentioned` have been handed out.
  ghost function GroupLists(
    columns: seq<LeafColumn>, mentioned: seq<LeafRow>, pairs: seq<(int, LeafRow)>, ids: seq<int>
  ): (lists: seq<seq<Leaf>>)
    ensures |lists| == |ids|
  {
    seq(|ids|, i requires 0 <= i < |ids| =>
      ScanLeaves(columns, if IsLast(ids, i) then LinkedGroups(mentioned, pairs, ids[i]) else []))
  }

  lemma ScanSnoc(columns: seq<LeafColumn>, rows: seq<LeafRow>, row: LeafRow)
    ensures ScanLeaves(columns, rows + [row]) == ScanLeaves(columns, rows) + [ScanLeaf(columns, row)]
    ensures rows + [] == rows
  {
  }

  lemma NoGroupLists(
    columns: seq<LeafColumn>, mentioned: seq<LeafRow>, pairs: seq<(int, LeafRow)>, ids: seq<int>)
    ensures GroupLists(columns, mentioned[..0], pairs, ids) == seq(|ids|, _ => [])
    ensures mentioned[..|mentioned|] == mentioned
  {
  }

  lemma GroupListsTake(
    columns: seq<LeafColumn>, mentioned: seq<LeafRow>, j: nat, pairs: seq<(int, LeafRow)>, ids: seq<int>)
    requires j < |mentioned|
    ensures var now := GroupLists(columns, mentioned[..j], pairs, ids);
      var next := GroupLists(columns, mentioned[..j + 1], pairs, ids);
      forall i | 0 <= i < |ids| :: next[i] == now[i] +
        if IsLast(ids, i) && Linked(pairs, ids[i], mentioned[j]) then [ScanLeaf(columns, mentioned[j])] else []
  {
    assert mentioned[..j + 1] == mentioned[..j] + [mentioned[j]];
    var now := GroupLists(columns, mentioned[..j], pairs, ids);
    var next := GroupLists(columns, mentioned[..j + 1], pairs, ids);
    forall i | 0 <= i < |ids| ensures next[i] == now[i] +
        if IsLast(ids, i) && Linked(pairs, ids[i], mentioned[j]) then [ScanLeaf(columns, mentioned[j])] else [] {
      LinkedGroupsSnoc(mentioned[..j], mentioned[j], pairs, ids[i]);
      ScanSnoc(columns, LinkedGroups(mentioned[..j], pairs, ids[i]), mentioned[j]);
    }
  }

  // `for kn := range nodes`: a Go map is walked in no particular sequence.
  method GiveGroup(
    targets: set<Account>, n: Leaf, ghost nodes: seq<Account>, ghost before: seq<Edges<Account>>,
    ghost now: seq<seq<Leaf>>, ghost next: seq<seq<Leaf>>
  )
    requires GroupsGiven(nodes, before, now) && |next| == |now|
    requires forall i | 0 <= i < |nodes| :: next[i] == now[i] + if nodes[i] in targets then [n] else []
    modifies targets`edges
    ensures GroupsGiven(nodes, before, next)
  {
    var rest := targets;
    while rest != {}
      invariant rest <= targets
      invariant forall i | 0 <= i < |nodes| ::
        nodes[i].edges == before[i].(groups := if nodes[i] in rest then now[i] else next[i])
      decreases rest
    {
      var kn :| kn in rest;
      kn.edges := kn.edges.(groups := kn.edges.groups + [n]);
      rest := rest - {kn};
    }
  }

  ghost predicate GroupTable(db: Database, q: LeafQueryValue) {
    q.table.Groups? && KeysListed(q.table, q.columns) && UniqueLeafIDs(db.groups)
  }

  // Every join row names an account that was asked for and a group with an id.
  ghost predicate Asked(pairs: seq<(int, LeafRow)>, accounts: seq<int>) {
    forall p | p in pairs :: p.0 in accounts && LeafInt(p.1, Id).Some?
  }

  lemma PairsAsked(db: Database, q: LeafQueryValue, accounts: seq<int>, pairs: seq<(int, LeafRow)>)
    requires GroupTable(db, q) && GroupAnswer(db, q, accounts, pairs)
    ensures Asked(pairs, accounts)
  {
    var groups := Joinable(db.accountGroups, db.groups, q.preds);
    Selection.PairAnswerMembers(pairs, JoinPairs(db.accountGroups, groups, accounts), q.order, q.offset, q.limit);
    forall p | p in pairs ensures p.0 in accounts && LeafInt(p.1, Id).Some? {
      GroupsRefinement.JoinPairMembers(db.accountGroups, groups, accounts, p);
      GroupsRefinement.JoinedGroup(db.accountGroups, db.groups, q.preds, p.1);
    }
  }

  lemma {:induction false} MentionsMentioned(pairs: seq<(int, LeafRow)>, seen: set<Option<int>>)
    ensures forall g | g in FirstMentions(pairs, seen) :: exists p | p in pairs :: p.1 == g
  {
    if pairs != [] {
      var id, rest := LeafInt(pairs[0].1, Id), pairs[1..];
      var seen' := if id in seen then seen else seen + {id};
      MentionsMentioned(rest, seen');
      assert pairs == [pairs[0]] + rest;
      forall g | g in FirstMentions(pairs, seen) ensures exists p | p in pairs :: p.1 == g {
        if g in FirstMentions(rest, seen') {
          var p :| p in rest && p.1 == g;
          assert p in pairs;
        } else {
          assert pairs[0] in pairs && pairs[0].1 == g;
        }
      }
    }
  }

  // The hooked Assign: a group is kept at its first mention, and the node filed under it.
  method Assign(
    p: (int, LeafRow), columns: seq<LeafColumn>, byID: map<int, Account>, neighbors: seq<Leaf>,
    nids: map<int, set<Account>>, ghost nodes: seq<Account>, ghost ids: seq<int>, ghost before: seq<(int, LeafRow)>
  ) returns (neighbors': seq<Leaf>, nids': map<int, set<Account>>)
    requires Indexes(byID, nodes, ids) && p.0 in byID
    requires LeafInt(p.1, Id) == Some(IntField(ScanLeaf(columns, p.1), Id))
    requires Files(nids, nodes, ids, before) && neighbors == ScanLeaves(columns, FirstMentions(before, {}))
    ensures Files(nids', nodes, ids, before + [p])
    ensures neighbors' == ScanLeaves(columns, FirstMentions(before + [p], {}))
  {
    var leaf := ScanLeaf(columns, p.1);
    var inValue, node := IntField(leaf, Id), byID[p.0];
    FilesGrow(nids, nodes, ids, byID, before, p, inValue);
    MentionsSnoc(before, p, {});
    assert inValue in nids <==> Some(inValue) in Mentioned(before);
    hide Indexes, Files, Mentioned;
    if inValue !in nids {
      assert {} + {node} == {node};
      nids' := nids[inValue := {node}];
      neighbors' := neighbors + [leaf];
    } else {
      nids' := nids[inValue := nids[inValue] + {node}];
      neighbors' := neighbors;
    }
  }

  lemma NothingFiled(nodes: seq<Account>, ids: seq<int>, byID: map<int, Account>)
    requires Indexes(byID, nodes, ids)
    ensures |nodes| == |ids| && Files(map[], nodes, ids, [])
  {
  }

  lemma Known(nodes: seq<Account>, ids: seq<int>, byID: map<int, Account>, id: int)
    requires Indexes(byID, nodes, ids) && id in ids
    ensures id in byID
  {
  }

  method Collect(pairs: seq<(int, LeafRow)>, columns: seq<LeafColumn>, byID: map<int, Account>,
                 ghost nodes: seq<Account>, ghost ids: seq<int>)
    returns (neighbors: seq<Leaf>, nids: map<int, set<Account>>)
    requires Indexes(byID, nodes, ids) && Asked(pairs, ids) && Id in columns
    ensures neighbors == ScanLeaves(columns, FirstMentions(pairs, {}))
    ensures Files(nids, nodes, ids, pairs)
  {
    hide Indexes, Asked, Mentioned, Files;
    neighbors, nids := [], map[];
    NothingFiled(nodes, ids, byID);
    for j := 0 to |pairs|
      invariant neighbors == ScanLeaves(columns, FirstMentions(pairs[..j], {}))
      invariant Files(nids, nodes, ids, pairs[..j])
    {
      PairScanned(pairs, columns, ids, j);
      Known(nodes, ids, byID, pairs[j].0);
      assert pairs[..j + 1] == pairs[..j] + [pairs[j]];
      neighbors, nids := Assign(pairs[j], columns, byID, neighbors, nids, nodes, ids, pairs[..j]);
    }
    assert pairs[..|pairs|] == pairs;
  }

  lemma PairScanned(pairs: seq<(int, LeafRow)>, columns: seq<LeafColumn>, ids: seq<int>, j: nat)
    requires Asked(pairs, ids) && Id in columns && j < |pairs|
    ensures pairs[j].0 in ids && LeafInt(pairs[j].1, Id) == Some(IntField(ScanLeaf(columns, pairs[j].1), Id))
  {
  }

  lemma MentionsScanned(pairs: seq<(int, LeafRow)>, columns: seq<LeafColumn>, ids: seq<int>)
    requires Asked(pairs, ids) && Id in columns
    ensures var mentioned := FirstMentions(pairs, {});
      forall j | 0 <= j < |mentioned| ::
        && LeafInt(mentioned[j], Id) == Some(IntField(ScanLeaves(columns, mentioned)[j], Id))
        && LeafInt(mentioned[j], Id) in Mentioned(pairs)
  {
    var mentioned := FirstMentions(pairs, {});
    MentionsMentioned(pairs, {});
    forall j | 0 <= j < |mentioned| ensures
        && LeafInt(mentioned[j], Id) == Some(IntField(ScanLeaves(columns, mentioned)[j], Id))
        && LeafInt(mentioned[j], Id) in Mentioned(pairs)
    {
      assert mentioned[j] in mentioned;
      var p :| p in pairs && p.1 == mentioned[j];
      var i :| 0 <= i < |pairs| && pairs[i] == p;
      PairScanned(pairs, columns, ids, i);
    }
  }

  lemma MentionsFiled(
    neighbors: seq<Leaf>, nids: map<int, set<Account>>, nodes: seq<Account>, ids: seq<int>,
    pairs: seq<(int, LeafRow)>, columns: seq<LeafColumn>
  )
    requires |nodes| == |ids| && Files(nids, nodes, ids, pairs) && Asked(pairs, ids) && Id in columns
    requires neighbors == ScanLeaves(columns, FirstMentions(pairs, {}))
    ensures forall n | n in neighbors :: IntField(n, Id) in nids
  {
    MentionsScanned(pairs, columns, ids);
  }

  method HandOut(
    neighbors: seq<Leaf>, nids: map<int, set<Account>>, ghost columns: seq<LeafColumn>, ghost mentioned: seq<LeafRow>,
    ghost pairs: seq<(int, LeafRow)>, nodes: seq<Account>, ghost ids: seq<int>, ghost before: seq<Edges<Account>>
  ) returns (err: Option<LoadError>)
    requires |nodes| == |ids| && Files(nids, nodes, ids, pairs) && neighbors == ScanLeaves(columns, mentioned)
    requires forall j | 0 <= j < |mentioned| :: LeafInt(mentioned[j], Id) == Some(IntField(neighbors[j], Id))
    requires GroupsGiven(nodes, before, seq(|nodes|, _ => []))
    modifies (set n | n in nodes)`edges
    ensures (forall n | n in neighbors :: IntField(n, Id) in nids) <==> err.None?
    ensures err.Some? ==> exists j | 0 <= j < |neighbors| ::
      && err == Some(UnexpectedNode(IntField(neighbors[j], Id)))
      && IntField(neighbors[j], Id) !in nids && forall k | 0 <= k < j :: IntField(neighbors[k], Id) in nids
    ensures err.None? ==> GroupsGiven(nodes, before, GroupLists(columns, mentioned, pairs, ids))
  {
    hide GroupLists, GroupsGiven;
    NoGroupLists(columns, mentioned, pairs, ids);
    assert GroupLists(columns, mentioned[..0], pairs, ids) == seq(|nodes|, _ => []);
    for j := 0 to |neighbors|
      invariant GroupsGiven(nodes, before, GroupLists(columns, mentioned[..j], pairs, ids))
      invariant forall k | 0 <= k < j :: IntField(neighbors[k], Id) in nids
    {
      var n := neighbors[j];
      var id := IntField(n, Id);
      if id !in nids {
        return Some(UnexpectedNode(id));
      }
      GroupListsTake(columns, mentioned, j, pairs, ids);
      GiveGroup(nids[id], n, nodes, before,
                GroupLists(columns, mentioned[..j], pairs, ids), GroupLists(columns, mentioned[..j + 1], pairs, ids));
    }
    return None;
  }

  method ClearGroups(nodes: seq<Account>)
    modifies (set n | n in nodes)`edges
    ensures GroupsGiven(nodes, old(EdgesOf(nodes)), seq(|nodes|, _ => []))
  {
    ghost var before := EdgesOf(nodes);
    for i := 0 to |nodes|
      invariant forall j | 0 <= j < |nodes| ::
        nodes[j].edges == before[j].(groups := []) || (i <= j && nodes[j].edges == before[j])
    {
      nodes[i].edges := nodes[i].edges.(groups := []);
    }
  }

  // Without a row under all joins there is none under the last one.
  lemma NoRowsAnswer(db: Database, engine: Engine, q: LeafQueryValue, ids: seq<int>)
    requires ValidEngine(engine) && q.preds != [] && q.preds[|q.preds| - 1] == JoinedTo(ids)
    requires JoinSize(db.accountGroups, db.groups, q.preds) <= q.offset
    ensures GroupAnswer(db, q, ids, [])
  {
    hide JoinPairs, Joinable, JoinSize;
    var pairs := JoinPairs(db.accountGroups, Joinable(db.accountGroups, db.groups, q.preds), ids);
    GroupsRefinement.JoinSizeBound(db.accountGroups, db.groups, q.preds, ids);
    var full := engine.pairs(0, q.order, pairs);
    assert ArrangesPairs(full, pairs, q.order);
    EagerRefinement.SameLength(full, pairs);
    assert Window(full, q.offset, q.limit) == [];
  }

  lemma NothingGiven(nodes: seq<Account>, before: seq<Edges<Account>>, columns: seq<LeafColumn>, ids: seq<int>)
    requires GroupsGiven(nodes, before, seq(|nodes|, _ => [])) && |ids| == |nodes|
    ensures GroupsGiven(nodes, before, GroupLists(columns, FirstMentions([], {}), [], ids))
  {
    assert GroupLists(columns, FirstMentions([], {}), [], ids) == seq(|nodes|, _ => []);
  }

  // The query with one join: its rows, collected and handed out.
  method ReadJoin(driver: Driver, query: LeafQuery, ids: seq<int>, byID: map<int, Account>, nodes: seq<Account>,
                  ghost before: seq<Edges<Account>>)
    returns (err: Option<LoadError>, ghost pairs: seq<(int, LeafRow)>)
    requires ValidEngine(driver.engine) && GroupTable(driver.db, query.Value()) && ValidLeafFields(query.Value())
    requires Indexes(byID, nodes, ids) && GroupsGiven(nodes, before, seq(|nodes|, _ => []))
    modifies driver`queries, (set n | n in nodes)`edges
    ensures err.None? && driver.queries == old(driver.queries) + 1
    ensures GroupAnswer(driver.db, query.Value(), ids, pairs)
    ensures GroupsGiven(nodes, before, GroupLists(LeafSpecColumns(query.Value()), FirstMentions(pairs, {}), pairs, ids))
  {
    hide GroupsGiven, GroupLists, Indexes, Files, Asked;
    assert |nodes| == |ids| by { IndexSizes(byID, nodes, ids); }
    ghost var value := query.Value();
    var answer := driver.QueryJoin(ids, query.predicates, query.order, Count(query.offset), Count(query.limit));
    pairs := answer;
    PairsAsked(driver.db, value, ids, pairs);
    LeafColumnsCover(value, []);
    var columns := LeafSpecColumns(query.Value());
    hide LeafSpecColumns, GroupTable;
    var neighbors, nids := Collect(answer, columns, byID, nodes, ids);
    MentionsScanned(pairs, columns, ids);
    assert forall n | n in neighbors :: IntField(n, Id) in nids by {
      MentionsFiled(neighbors, nids, nodes, ids, pairs, columns);
    }
    err := HandOut(neighbors, nids, columns, FirstMentions(pairs, {}), pairs, nodes, ids, before);
  }

  lemma IndexSizes(byID: map<int, Account>, nodes: seq<Account>, ids: seq<int>)
    requires Indexes(byID, nodes, ids)
    ensures |nodes| == |ids|
  {
  }

  // A query that has run before has a join already. Its rows then start with two account ids, and the second is taken
  // for the group's id: the type assertion on it panics at the first row.
  method LoadGroups(driver: Driver, query: LeafQuery, nodes: seq<Account>)
    returns (err: Option<LoadError>, ghost pairs: seq<(int, LeafRow)>)
    requires ValidEngine(driver.engine) && Distinct(nodes) && GroupTable(driver.db, query.Value())
    modifies driver`queries, query, (set n | n in nodes)`edges
    ensures query.Value() == GroupQuery(old(query.Value()), old(IDsOf(nodes)))
    ensures !ValidLeafFields(old(query.Value())) <==> err == Some(InvalidField)
    ensures err == Some(Rejoined) <==>
      ValidLeafFields(old(query.Value())) && Unreadable(driver.db, old(query.Value()), old(IDsOf(nodes)))
    ensures err.None? || err == Some(InvalidField) || err == Some(Rejoined)
    ensures err.None? ==>
      && driver.queries == old(driver.queries) + 1
      && GroupAnswer(driver.db, query.Value(), old(IDsOf(nodes)), pairs)
      && GroupsGiven(nodes, old(EdgesOf(nodes)),
           GroupLists(LeafSpecColumns(query.Value()), FirstMentions(pairs, {}), pairs, old(IDsOf(nodes))))
  {
    hide GroupsGiven, GroupLists, Indexes, GroupAnswer, JoinSize, FirstMentions, ValidEngine, LeafSpecColumns;
    ghost var before, value := EdgesOf(nodes), query.Value();
    var edgeIDs, byID := IndexByID(nodes);
    ClearGroups(nodes);
    var rejoined := AlreadyJoined(query.predicates);
    query.Where(JoinedTo(edgeIDs));
    assert query.Value() == GroupQuery(value, edgeIDs);
    if !ValidLeafFields(query.Value()) {
      return Some(InvalidField), [];
    }
    if !rejoined {
      err, pairs := ReadJoin(driver, query, edgeIDs, byID, nodes, before);
      return;
    }
    var any := driver.QueryJoins(query.predicates, Count(query.offset));
    if any {
      return Some(Rejoined), [];
    }
    pairs := [];
    NoRowsAnswer(driver.db, driver.engine, query.Value(), edgeIDs);
    NothingGiven(nodes, before, LeafSpecColumns(query.Value()), edgeIDs);
    return None, pairs;
  }
}
