// What holds of every batched run: its number of queries, how to-many edges share out the neighbours,
// what the edge accessors report, and what a clone means.
module RunFacts {
  import opened Wrappers
  import opened Leaves
  import opened AccountEntity
  import opened QueryModel
  import opened EagerSpec
  import opened Selection
  import opened EagerRefinement
  import Agreement
  import GroupsRefinement

  // ---- Query count ----

  // One run issues at most one database query per query of the tree, whatever the rows: recursion
  // goes down the tree, not along the data.
  lemma {:induction false} QueriesBounded(db: Database, t: QueryTree, run: Run)
    requires Batched(db, t, run)
    ensures 1 <= QueryCount(run) <= Size(t)
    decreases Depth(t)
  {
    hide Batched, Size, QueryCount;
    NestedRuns(db, t, run);
    Counts(t, run);
    if run.parents.Some? {
      QueriesBounded(db, ParentQuery(t.parent.value, DistinctKeys(ParentKeys(run.nodes))), run.parents.value);
    }
    if run.children.Some? {
      QueriesBounded(db, ChildQuery(t.children.value, NodeIDs(run.nodes)), run.children.value);
    }
  }

  // What restricting a nested query leaves of its size, and the two counts part by part.
  lemma Counts(t: QueryTree, run: Run)
    ensures forall q: QueryTree, ids :: Size(ParentQuery(q, ids)) == Size(ChildQuery(q, ids)) == Size(q)
    ensures Size(t)
      == 1 + LeafCount(t.groups) + LeafCount(t.proxy) + LeafCount(t.usageLogs) + LeafCount(t.accountGroups)
                       + (if t.parent.Some? then Size(t.parent.value) else 0)
                       + (if t.children.Some? then Size(t.children.value) else 0)
    ensures QueryCount(run)
      == 1 + Issued(run.groups) + Issued(run.proxies) + Issued(run.usageLogs) + Issued(run.accountGroups)
                               + (if run.parents.Some? then QueryCount(run.parents.value) else 0)
                               + (if run.children.Some? then QueryCount(run.children.value) else 0)
  {
  }

  lemma NestedRuns(db: Database, t: QueryTree, run: Run)
    requires Batched(db, t, run)
    ensures run.groups.Some? ==> t.groups.Some?
    ensures run.proxies.Some? ==> t.proxy.Some?
    ensures run.usageLogs.Some? ==> t.usageLogs.Some?
    ensures run.accountGroups.Some? ==> t.accountGroups.Some?
    ensures run.parents.Some? ==>
      t.parent.Some? && Batched(db, ParentQuery(t.parent.value, DistinctKeys(ParentKeys(run.nodes))), run.parents.value)
    ensures run.children.Some? ==>
      t.children.Some? && Batched(db, ChildQuery(t.children.value, NodeIDs(run.nodes)), run.children.value)
  {
    hide GroupAnswer, LeafAnswer, AccountAnswer, ScannedBy, ScanLeaves, GroupsOf, ToOne, ToMany, DistinctKeys;
  }

  // ---- Sharing out ----

  function Sum(ns: seq<nat>): nat {
    if ns == [] then 0 else ns[0] + Sum(ns[1..])
  }

  // How many neighbours each node is given.
  function Shares<T>(neighbors: seq<T>, keys: seq<Option<int>>, ids: seq<int>): (ns: seq<nat>)
    requires |neighbors| == |keys|
    ensures |ns| == |ids|
  {
    seq(|ids|, i requires 0 <= i < |ids| => |ToMany(neighbors, keys, ids, i)|)
  }

  lemma {:induction false} SumBump(a: seq<nat>, b: seq<nat>, at: nat)
    requires |a| == |b| && at < |a| && forall i | 0 <= i < |a| :: b[i] == a[i] + if i == at then 1 else 0
    ensures Sum(b) == Sum(a) + 1
  {
    if at > 0 {
      SumBump(a[1..], b[1..], at - 1);
    } else {
      assert a[1..] == b[1..];
    }
  }

  lemma {:induction false} SumZero(n: nat, ns: seq<nat>)
    requires |ns| == n && forall i | 0 <= i < n :: ns[i] == 0
    ensures Sum(ns) == 0
  {
    if n > 0 {
      SumZero(n - 1, ns[1..]);
    }
  }

  lemma {:induction false} LastOf(ids: seq<int>, k: int) returns (at: nat)
    requires k in ids
    ensures at < |ids| && ids[at] == k && IsLast(ids, at)
    ensures forall i | 0 <= i < |ids| && ids[i] == k && IsLast(ids, i) :: i == at
  {
    if ids[|ids| - 1] == k {
      at := |ids| - 1;
    } else {
      var front := ids[..|ids| - 1];
      assert k in front;
      at := LastOf(front, k);
      assert IsLast(ids, at);
      forall i | 0 <= i < |ids| && ids[i] == k && IsLast(ids, i) ensures i == at {
        assert front[i] == k && IsLast(front, i);
      }
    }
  }

  // Neighbours whose keys are all ids of nodes are shared out without loss or repetition: the lists
  // hold as many as there are, and each lies under the one node whose id is its key.
  lemma {:induction false} Partition<T>(neighbors: seq<T>, keys: seq<Option<int>>, ids: seq<int>)
    requires |neighbors| == |keys| && forall j | 0 <= j < |keys| :: keys[j].Some? && keys[j].value in ids
    ensures Sum(Shares(neighbors, keys, ids)) == |neighbors|
  {
    if neighbors == [] {
      SumZero(|ids|, Shares(neighbors, keys, ids));
    } else {
      var k := keys[0].value;
      var at := LastOf(ids, k);
      var rest := Shares(neighbors[1..], keys[1..], ids);
      Partition(neighbors[1..], keys[1..], ids);
      forall i | 0 <= i < |ids|
        ensures |ToMany(neighbors, keys, ids, i)|
             == |ToMany(neighbors[1..], keys[1..], ids, i)| + if i == at then 1 else 0
      {
      }
      SumBump(rest, Shares(neighbors, keys, ids), at);
    }
  }

  // Every child a run fetched is in exactly one parent's list.
  lemma ChildrenShared(db: Database, t: QueryTree, run: Run)
    requires Consistent(db) && Batched(db, t, run) && run.children.Some?
    ensures var neighbors, ids := run.children.value.nodes, NodeIDs(run.nodes);
      && Sum(Shares(neighbors, ParentKeys(neighbors), ids)) == |neighbors|
      && (forall i | 0 <= i < |run.nodes| ::
            run.nodes[i].edges.children == Select(neighbors, ParentKeys(neighbors), ids[i]))
      && (forall j | 0 <= j < |neighbors| ::
            exists i | 0 <= i < |ids| :: ParentKeys(neighbors)[j] == Some(ids[i]))
      && (forall i, j | 0 <= i < j < |ids| :: ids[i] != ids[j])
  {
    hide Batched, AccountAnswer, ScannedBy, Consistent, Shares, Sum;
    var neighbors, ids := run.children.value.nodes, NodeIDs(run.nodes);
    BatchedParts(db, t, run);
    NestedRuns(db, t, run);
    BatchedAnswer(db, t, run);
    BatchedAnswer(db, ChildQuery(t.children.value, ids), run.children.value);
    DistinctIDs(db, t, run.nodes);
    assert forall i | 0 <= i < |ids| :: IsLast(ids, i);
    ChildKeys(db, t.children.value, ids, neighbors);
    Partition(neighbors, ParentKeys(neighbors), ids);
    forall j | 0 <= j < |neighbors| ensures exists i | 0 <= i < |ids| :: ParentKeys(neighbors)[j] == Some(ids[i]) {
      var i :| 0 <= i < |ids| && ids[i] == ParentKeys(neighbors)[j].value;
    }
  }

  // Whatever join rows came back, repeated ones included, an account is given exactly the groups they
  // link to it, each once, in the sequence the rows first mention them.
  lemma GroupsOnce(pairs: seq<(int, LeafRow)>, account: int, r: LeafRow)
    requires GroupsRefinement.IDsDecide(PairRows(pairs))
    ensures multiset(LinkedGroups(FirstMentions(pairs, {}), pairs, account))[r]
         == if r in PairRows(pairs) && Linked(pairs, account, r) then 1 else 0
    ensures Subsequence(LinkedGroups(FirstMentions(pairs, {}), pairs, account), FirstMentions(pairs, {}))
  {
    GroupsRefinement.MentionCount(pairs, {}, r);
    GroupsRefinement.LinkedCount(FirstMentions(pairs, {}), pairs, account, r);
    LinkedInSequence(FirstMentions(pairs, {}), pairs, account);
  }

  predicate Subsequence<T(==)>(xs: seq<T>, ys: seq<T>) {
    if xs == [] then true
    else if ys == [] then false
    else if xs[0] == ys[0] then Subsequence(xs[1..], ys[1..])
    else Subsequence(xs, ys[1..])
  }

  lemma {:induction false} SubsequenceSkips<T>(xs: seq<T>, ys: seq<T>)
    requires ys != [] && Subsequence(xs, ys[1..])
    ensures Subsequence(xs, ys)
    decreases |ys|, 0
  {
    if xs != [] && xs[0] == ys[0] {
      DropFirst(xs, ys[1..]);
    }
  }

  lemma {:induction false} DropFirst<T>(xs: seq<T>, ys: seq<T>)
    requires xs != [] && Subsequence(xs, ys)
    ensures Subsequence(xs[1..], ys)
    decreases |ys|, 1
  {
    if xs[0] != ys[0] {
      DropFirst(xs, ys[1..]);
    }
    SubsequenceSkips(xs[1..], ys);
  }

  lemma {:induction false} LinkedInSequence(mentioned: seq<LeafRow>, pairs: seq<(int, LeafRow)>, account: int)
    ensures Subsequence(LinkedGroups(mentioned, pairs, account), mentioned)
  {
    if mentioned != [] {
      LinkedInSequence(mentioned[1..], pairs, account);
      var rest := LinkedGroups(mentioned[1..], pairs, account);
      if Linked(pairs, account, mentioned[0]) {
        assert LinkedGroups(mentioned, pairs, account)[1..] == rest;
      } else {
        SubsequenceSkips(rest, mentioned);
      }
    }
  }

  // ---- Accessors ----

  ghost predicate ProxyMatched(db: Database, t: QueryTree, v: AccountV) {
    && t.proxy.Some? && v.fields.ints.proxyID.Some?
    && exists r | r in db.proxies ::
         LeafHoldsAll(t.proxy.value.preds, r) && LeafInt(r, Id) == v.fields.ints.proxyID
  }

  ghost predicate ParentMatched(db: Database, t: QueryTree, v: AccountV) {
    && t.parent.Some? && v.fields.ints.parentAccountID.Some?
    && exists r | r in db.accounts ::
         HoldsAll(t.parent.value.preds, r) && AccountID(r) == v.fields.ints.parentAccountID
  }

  // The to-one accessor returns the entity exactly if the key is set and the nested query matches it,
  // reports NotFound exactly if the edge was requested in vain, and NotLoaded if it was not requested.
  lemma ProxyAccessor(db: Database, t: QueryTree, v: AccountV)
    requires Agreement.Fits(t) && Naive(db, t, v)
    ensures v.edges.ProxyOrErr().Success? <==> ProxyMatched(db, t, v)
    ensures v.edges.ProxyOrErr() == Failure(NotFound("proxy")) <==> t.proxy.Some? && !ProxyMatched(db, t, v)
    ensures v.edges.ProxyOrErr() == Failure(NotLoaded("proxy")) <==> t.proxy.None?
    ensures v.edges.ProxyOrErr().Success? ==>
      var row := v.edges.ProxyOrErr().value.row;
      row in db.proxies && LeafHoldsAll(t.proxy.value.preds, row) && LeafInt(row, Id) == v.fields.ints.proxyID
  {
    hide Naive, LeafHoldsAll, LeafInt, LeafSpecColumns, ScanLeaf, MatchingLeaves, Arranges, Answers;
    Agreement.NaiveParts(db, t, v);
    var key, leaf := v.fields.ints.proxyID, v.edges.proxy;
    if t.proxy.Some? && key.Some? {
      var ps := t.proxy.value.preds;
      var matching := MatchingLeaves(db.proxies, ps + [LeafIDIn([key.value])]);
      OneAnswers(if leaf.Some? then Some(leaf.value.row) else None, matching, t.proxy.value.order);
      forall r ensures r in matching <==> r in db.proxies && LeafHoldsAll(ps, r) && LeafInt(r, Id) == key {
        MatchedLeaf(db.proxies, ps + [LeafIDIn([key.value])], r);
        LeafHoldsAllMore(ps, LeafIDIn([key.value]), r);
      }
    }
  }

  // An unlimited answer with at most one row tells what there was to match.
  lemma OneAnswers<R(!new)>(row: Option<R>, matching: seq<R>, order: Order<R>)
    requires Answers(if row.Some? then [row.value] else [], matching, order, 0, 0)
    ensures row.Some? ==> row.value in matching
    ensures row.None? ==> forall r :: r !in matching
  {
  }

  lemma ParentAccessor(db: Database, t: QueryTree, v: AccountV)
    requires Agreement.Fits(t) && Naive(db, t, v)
    ensures v.edges.ParentOrErr().Success? <==> ParentMatched(db, t, v)
    ensures v.edges.ParentOrErr() == Failure(NotFound("account")) <==> t.parent.Some? && !ParentMatched(db, t, v)
    ensures v.edges.ParentOrErr() == Failure(NotLoaded("parent")) <==> t.parent.None?
    ensures v.edges.ParentOrErr().Success? ==>
      var row := v.edges.ParentOrErr().value.row;
      row in db.accounts && HoldsAll(t.parent.value.preds, row) && AccountID(row) == v.fields.ints.parentAccountID
  {
    hide Naive, HoldsAll, AccountID, SpecColumns, MatchingAccounts, Arranges, Answers;
    Agreement.NaiveParts(db, t, v);
    var key, parent := v.fields.ints.parentAccountID, v.edges.parent;
    if t.parent.Some? && key.Some? {
      var ps := t.parent.value.preds;
      var matching := MatchingAccounts(db.accounts, ps + [IDIn([key.value])]);
      OneAnswers(if parent.Some? then Some(parent.value.row) else None, matching, t.parent.value.order);
      forall r ensures r in matching <==> r in db.accounts && HoldsAll(ps, r) && AccountID(r) == key {
        MatchedRow(db.accounts, ps + [IDIn([key.value])], r);
        HoldsAllMore(ps, IDIn([key.value]), r);
      }
    }
  }

  // To-many accessors fail exactly if the edge was not requested.
  lemma ManyAccessors(db: Database, t: QueryTree, run: Run, v: AccountV)
    requires Batched(db, t, run) && v in run.nodes
    ensures v.edges.GroupsOrErr() == (if t.groups.Some? then Success(v.edges.groups) else Failure(NotLoaded("groups")))
    ensures v.edges.ChildrenOrErr()
      == if t.children.Some? then Success(v.edges.children) else Failure(NotLoaded("children"))
    ensures v.edges.UsageLogsOrErr()
         == if t.usageLogs.Some? then Success(v.edges.usageLogs) else Failure(NotLoaded("usage_logs"))
    ensures v.edges.AccountGroupsOrErr()
         == if t.accountGroups.Some? then Success(v.edges.accountGroups) else Failure(NotLoaded("account_groups"))
  {
  }

  // ---- Clones ----

  predicate NoLocks(t: QueryTree) {
    && t.modifiers == []
    && NoLeafLocks(t.groups) && NoLeafLocks(t.proxy) && NoLeafLocks(t.usageLogs) && NoLeafLocks(t.accountGroups)
    && (t.parent.Some? ==> NoLocks(t.parent.value)) && (t.children.Some? ==> NoLocks(t.children.value))
  }

  predicate NoLeafLocks(q: Option<LeafQueryValue>) { q.Some? ==> q.value.modifiers == [] }

  // A clone is the same query exactly if no query of the tree has a modifier.
  lemma {:induction false} CloneIsSame(t: QueryTree)
    ensures Unlocked(t) == t <==> NoLocks(t)
    decreases Depth(t)
  {
    if t.parent.Some? {
      CloneIsSame(t.parent.value);
    }
    if t.children.Some? {
      CloneIsSame(t.children.value);
    }
  }

  lemma UnlockedRestricted(t: QueryTree, ids: seq<int>)
    ensures Unlocked(ParentQuery(t, ids)) == ParentQuery(Unlocked(t), ids)
    ensures Unlocked(ChildQuery(t, ids)) == ChildQuery(Unlocked(t), ids)
  {
  }

  // Locks without options wait and do not change what a query returns, so a clone has the runs of the original.
  lemma {:induction false} CloneMeansTheSame(db: Database, t: QueryTree, run: Run)
    ensures Batched(db, Unlocked(t), run) <==> Batched(db, t, run)
    decreases Depth(t)
  {
    hide BatchedGroups, BatchedProxy, BatchedParent, BatchedChildren, BatchedOwned, ScannedBy, Unlocked;
    var ids, keys := NodeIDs(run.nodes), DistinctKeys(ParentKeys(run.nodes));
    if t.parent.Some? && run.parents.Some? {
      CloneMeansTheSame(db, ParentQuery(t.parent.value, keys), run.parents.value);
    }
    if t.children.Some? && run.children.Some? {
      CloneMeansTheSame(db, ChildQuery(t.children.value, ids), run.children.value);
    }
    LeavesUnlocked(db, t, run);
    AccountsUnlocked(db, t, run);
  }

  lemma LeavesUnlocked(db: Database, t: QueryTree, run: Run)
    ensures AccountAnswer(db, Unlocked(t), NodeRows(run.nodes)) <==> AccountAnswer(db, t, NodeRows(run.nodes))
    ensures forall v :: ScannedBy(db, Unlocked(t), v) <==> ScannedBy(db, t, v)
    ensures BatchedGroups(db, Unlocked(t), run) <==> BatchedGroups(db, t, run)
    ensures BatchedProxy(db, Unlocked(t), run) <==> BatchedProxy(db, t, run)
    ensures forall rows, edges | |edges| == |run.nodes| ::
      && BatchedOwned(db, Unlocked(t).usageLogs, run.nodes, rows, edges)
        == BatchedOwned(db, t.usageLogs, run.nodes, rows, edges)
      && BatchedOwned(db, Unlocked(t).accountGroups, run.nodes, rows, edges)
         == BatchedOwned(db, t.accountGroups, run.nodes, rows, edges)
  {
    hide BatchedGroups, BatchedProxy, BatchedOwned;
    assert SpecColumns(Unlocked(t)) == SpecColumns(t) && Requested(Unlocked(t)) == Requested(t);
    GroupsUnlocked(db, t, run);
    ProxiesUnlocked(db, t, run);
    OwnedUnlocked(db, t.usageLogs, run.nodes);
    OwnedUnlocked(db, t.accountGroups, run.nodes);
  }

  lemma GroupsUnlocked(db: Database, t: QueryTree, run: Run)
    ensures BatchedGroups(db, Unlocked(t), run) <==> BatchedGroups(db, t, run)
  {
  }

  lemma ProxiesUnlocked(db: Database, t: QueryTree, run: Run)
    ensures BatchedProxy(db, Unlocked(t), run) <==> BatchedProxy(db, t, run)
  {
    hide ScanLeaves, DistinctKeys, ToOne, Answers;
  }

  lemma OwnedUnlocked(db: Database, q: Option<LeafQueryValue>, nodes: seq<AccountV>)
    ensures forall rows, edges | |edges| == |nodes| ::
      BatchedOwned(db, UnlockedLeaf(q), nodes, rows, edges) == BatchedOwned(db, q, nodes, rows, edges)
  {
  }

  lemma AccountsUnlocked(db: Database, t: QueryTree, run: Run)
    requires t.parent.Some? && run.parents.Some? ==>
      var q := ParentQuery(t.parent.value, DistinctKeys(ParentKeys(run.nodes)));
      Batched(db, Unlocked(q), run.parents.value) == Batched(db, q, run.parents.value)
    requires t.children.Some? && run.children.Some? ==>
      var q := ChildQuery(t.children.value, NodeIDs(run.nodes));
      Batched(db, Unlocked(q), run.children.value) == Batched(db, q, run.children.value)
    ensures BatchedParent(db, Unlocked(t), run) <==> BatchedParent(db, t, run)
    ensures BatchedChildren(db, Unlocked(t), run) <==> BatchedChildren(db, t, run)
  {
    hide Batched, DistinctKeys;
    if t.parent.Some? {
      UnlockedRestricted(t.parent.value, DistinctKeys(ParentKeys(run.nodes)));
    }
    if t.children.Some? {
      UnlockedRestricted(t.children.value, NodeIDs(run.nodes));
    }
  }
}
