// A nested limit or offset windows the whole batch, not each parent's share. When the two agree, and
// a batch on which they do not.
module NestedLimits {
  import opened Wrappers
  import opened Sql
  import opened AccountEntity
  import opened QueryModel
  import opened EagerSpec
  import opened Selection
  import opened EagerRefinement
  import RunFacts

  // `full` holds the rows of a batch before the window, and `keys` the parent each belongs to.
  predicate AllOneKey(keys: seq<Option<int>>) {
    forall i, j | 0 <= i < j < |keys| :: keys[i] == keys[j]
  }

  predicate Keyed(keys: seq<Option<int>>) { forall i | 0 <= i < |keys| :: keys[i].Some? }

  // Every parent's share of the first `n` rows is the first `n` rows of its share.
  ghost predicate HeadsMatch<R>(full: seq<R>, keys: seq<Option<int>>, n: nat)
    requires |full| == |keys|
  {
    forall k: int :: Select(Head(full, n), Head(keys, n), k) == Head(Select(full, keys, k), n)
  }

  function Head<R>(xs: seq<R>, n: nat): seq<R> { if |xs| <= n then xs else xs[..n] }

  function Tail<R>(xs: seq<R>, n: nat): seq<R> { if |xs| <= n then [] else xs[n..] }

  lemma {:induction false} SelectSplit<R>(xs: seq<R>, keys: seq<Option<int>>, n: nat, k: int)
    requires |xs| == |keys| && n <= |xs|
    ensures Select(xs, keys, k) == Select(xs[..n], keys[..n], k) + Select(xs[n..], keys[n..], k)
  {
    if n == 0 {
      assert xs[0..] == xs && keys[0..] == keys;
    } else {
      SelectSplit(xs[1..], keys[1..], n - 1, k);
      assert xs[1..][..n - 1] == xs[..n][1..] && keys[1..][..n - 1] == keys[..n][1..];
      assert xs[1..][n - 1..] == xs[n..] && keys[1..][n - 1..] == keys[n..];
    }
  }

  lemma {:induction false} SelectLength<R>(xs: seq<R>, keys: seq<Option<int>>, k: int)
    requires |xs| == |keys|
    ensures |Select(xs, keys, k)| <= |xs|
    ensures |Select(xs, keys, k)| == |xs| <==> forall i | 0 <= i < |keys| :: keys[i] == Some(k)
    ensures Some(k) in keys <==> Select(xs, keys, k) != []
  {
    if xs != [] {
      SelectLength(xs[1..], keys[1..], k);
      assert keys == [keys[0]] + keys[1..];
    }
  }

  // The first share that the window cuts short.
  lemma CutShort<R>(full: seq<R>, keys: seq<Option<int>>, n: nat) returns (k: int)
    requires |full| == |keys| && Keyed(keys) && 1 <= n < |full| && !AllOneKey(keys)
    ensures Some(k) in keys && |Select(full[..n], keys[..n], k)| < |Head(Select(full, keys, k), n)|
  {
    var k0 := keys[n].value;
    SelectSplit(full, keys, n, k0);
    SelectLength(full[..n], keys[..n], k0);
    SelectLength(full[n..], keys[n..], k0);
    assert keys[n..][0] == Some(k0);
    if |Select(full[..n], keys[..n], k0)| < n {
      k := k0;
    } else {
      assert forall i | 0 <= i < n :: keys[..n][i] == Some(k0);
      var j :| 0 <= j < |keys| && keys[j] != Some(k0);
      k := keys[j].value;
      SelectSplit(full, keys, n, k);
      SelectLength(full[..n], keys[..n], k);
      SelectLength(full[n..], keys[n..], k);
      assert keys[n..][j - n] == Some(k);
      assert Some(k) in keys[n..];
      assert keys[..n][0] == Some(k0);
    }
  }

  lemma {:induction false} OneKeyShare<R>(full: seq<R>, keys: seq<Option<int>>, k: int)
    requires |full| == |keys| && AllOneKey(keys)
    ensures Select(full, keys, k) == if full != [] && keys[0] == Some(k) then full else []
  {
    if full != [] {
      OneKeyShare(full[1..], keys[1..], k);
    }
  }

  // A nested limit of `n` gives every parent what a limit of `n` on its own children would exactly if
  // the batch fits the limit or belongs to one parent.
  lemma LimitMatchesExactly<R>(full: seq<R>, keys: seq<Option<int>>, n: nat)
    requires |full| == |keys| && Keyed(keys) && n >= 1
    ensures HeadsMatch(full, keys, n) <==> |full| <= n || AllOneKey(keys)
  {
    if |full| <= n {
      forall k ensures Select(Head(full, n), Head(keys, n), k) == Head(Select(full, keys, k), n) {
        SelectLength(full, keys, k);
      }
    } else if AllOneKey(keys) {
      forall k ensures Select(Head(full, n), Head(keys, n), k) == Head(Select(full, keys, k), n) {
        OneKeyShare(full, keys, k);
        OneKeyShare(full[..n], keys[..n], k);
      }
    } else {
      var k := CutShort(full, keys, n);
      assert Select(Head(full, n), Head(keys, n), k) != Head(Select(full, keys, k), n);
    }
  }

  // The same for a nested offset.
  ghost predicate TailsMatch<R>(full: seq<R>, keys: seq<Option<int>>, n: nat)
    requires |full| == |keys|
  {
    forall k: int :: Select(Tail(full, n), Tail(keys, n), k) == Tail(Select(full, keys, k), n)
  }

  lemma TailMatches<R>(full: seq<R>, keys: seq<Option<int>>, n: nat, k: int)
    requires |full| == |keys|
    ensures Select(Tail(full, n), Tail(keys, n), k) == Tail(Select(full, keys, k), n)
       <==> Select(Head(full, n), Head(keys, n), k) == Head(Select(full, keys, k), n)
  {
    var all := Select(full, keys, k);
    SelectLength(full, keys, k);
    if |full| > n {
      SelectSplit(full, keys, n, k);
      var a, b := Select(full[..n], keys[..n], k), Select(full[n..], keys[n..], k);
      SelectLength(full[..n], keys[..n], k);
      assert all == a + b && |a| <= n;
      if a == Head(all, n) {
        assert b == all[|a|..];
      } else if |a| < n && |all| > |a| {
        assert |Tail(all, n)| < |b|;
      }
    }
  }

  lemma OffsetMatchesExactly<R>(full: seq<R>, keys: seq<Option<int>>, n: nat)
    requires |full| == |keys| && Keyed(keys) && n >= 1
    ensures TailsMatch(full, keys, n) <==> |full| <= n || AllOneKey(keys)
  {
    LimitMatchesExactly(full, keys, n);
    forall k: int ensures Select(Tail(full, n), Tail(keys, n), k) == Tail(Select(full, keys, k), n)
      <==> Select(Head(full, n), Head(keys, n), k) == Head(Select(full, keys, k), n)
    {
      TailMatches(full, keys, n, k);
    }
  }

  // Head and Tail are the windows of a limit and of an offset.
  lemma WindowsAreHeadAndTail<R>(full: seq<R>, n: nat)
    requires n >= 1
    ensures Window(full, 0, n) == Head(full, n) && Window(full, n, 0) == Tail(full, n)
  {
  }

  // A window that is a limit or an offset, of `offset + limit` rows.
  predicate Windowed(offset: nat, limit: nat) { (offset == 0 && limit >= 1) || (offset >= 1 && limit == 0) }

  // A batch that is larger and belongs to several parents has a share of the wrong length.
  lemma WrongShare<R>(full: seq<R>, keys: seq<Option<int>>, offset: nat, limit: nat) returns (k: int)
    requires |full| == |keys| && Keyed(keys) && Windowed(offset, limit)
    requires offset + limit < |full| && !AllOneKey(keys)
    ensures |Window(keys, offset, limit)| == |Window(full, offset, limit)|
    ensures Some(k) in keys
    ensures |Select(Window(full, offset, limit), Window(keys, offset, limit), k)|
         != |Window(Select(full, keys, k), offset, limit)|
  {
    var n := offset + limit;
    k := CutShort(full, keys, n);
    SelectSplit(full, keys, n, k);
  }

  lemma RightShares<R>(full: seq<R>, keys: seq<Option<int>>, offset: nat, limit: nat, k: int)
    requires |full| == |keys| && Keyed(keys) && Windowed(offset, limit)
    requires |full| <= offset + limit || AllOneKey(keys)
    ensures |Window(keys, offset, limit)| == |Window(full, offset, limit)|
    ensures Select(Window(full, offset, limit), Window(keys, offset, limit), k)
         == Window(Select(full, keys, k), offset, limit)
  {
    hide Select, Window, AllOneKey;
    var n := offset + limit;
    WindowsAreHeadAndTail(full, n);
    WindowsAreHeadAndTail(keys, n);
    WindowsAreHeadAndTail(Select(full, keys, k), n);
    LimitMatchesExactly(full, keys, n);
    OffsetMatchesExactly(full, keys, n);
    assert HeadsMatch(full, keys, n) && TailsMatch(full, keys, n);
  }

  // ---- Children under a limit or an offset ----

  function ParentsOf(rows: seq<AccountRow>): (keys: seq<Option<int>>)
    ensures |keys| == |rows|
  {
    seq(|rows|, i requires 0 <= i < |rows| => ParentOf(rows[i]))
  }

  // A parent's share of the batch arranges the rows of the query for that parent alone.
  lemma ShareArranges(db: Database, tc: QueryTree, ids: seq<int>, full: seq<AccountRow>, id: int)
    requires Arranges(full, MatchingAccounts(db.accounts, ChildQuery(tc, ids).preds), tc.order) && id in ids
    ensures Arranges(Select(full, ParentsOf(full), id), MatchingAccounts(db.accounts, ChildQuery(tc, [id]).preds),
      tc.order)
  {
    RestrictedMatching(db.accounts, tc.preds, ParentIn(ids), ParentIn([id]), ParentOf, id);
    SelectArranges(full, ParentsOf(full), ParentOf, id, MatchingAccounts(db.accounts, ChildQuery(tc, ids).preds),
                   MatchingAccounts(db.accounts, ChildQuery(tc, [id]).preds), tc.order);
  }

  lemma WindowOfKeys(full: seq<AccountRow>, offset: nat, limit: nat)
    ensures Window(ParentsOf(full), offset, limit) == ParentsOf(Window(full, offset, limit))
  {
  }

  // The rows of the children a run gives a node are its share of the windowed batch.
  lemma WindowedShare(db: Database, t: QueryTree, run: Run, full: seq<AccountRow>, i: nat)
    requires Consistent(db) && Batched(db, t, run) && t.children.Some? && run.children.Some? && i < |run.nodes|
    requires NodeRows(run.children.value.nodes) == Window(full, t.children.value.offset, t.children.value.limit)
    ensures var tc, id, children := t.children.value, NodeIDs(run.nodes)[i], run.nodes[i].edges.children;
      && |Window(ParentsOf(full), tc.offset, tc.limit)| == |Window(full, tc.offset, tc.limit)|
      && NodeRows(children)
         == Select(Window(full, tc.offset, tc.limit), Window(ParentsOf(full), tc.offset, tc.limit), id)
      && forall v | v in children :: v in run.children.value.nodes
  {
    hide Batched, AccountAnswer, ScannedBy, SpecColumns, Consistent, Select, Window, ParentOf, Holds;
    var tc, neighbors, ids := t.children.value, run.children.value.nodes, NodeIDs(run.nodes);
    RunFacts.ChildrenShared(db, t, run);
    RunFacts.NestedRuns(db, t, run);
    BatchedAnswer(db, ChildQuery(tc, ids), run.children.value);
    ChildKeys(db, tc, ids, neighbors);
    SelectRows(neighbors, ParentKeys(neighbors), ids[i]);
    SelectMembers(neighbors, ParentKeys(neighbors), ids[i]);
    WindowOfKeys(full, tc.offset, tc.limit);
    assert ParentKeys(neighbors) == ParentsOf(NodeRows(neighbors));
  }

  // The batch before its window.
  lemma WindowedChildren(db: Database, t: QueryTree, run: Run) returns (full: seq<AccountRow>)
    requires Batched(db, t, run) && t.children.Some? && run.children.Some?
    ensures var tc := t.children.value;
      && Arranges(full, MatchingAccounts(db.accounts, ChildQuery(tc, NodeIDs(run.nodes)).preds), tc.order)
      && NodeRows(run.children.value.nodes) == Window(full, tc.offset, tc.limit)
  {
    hide Batched, Arranges, MatchingAccounts;
    var q := ChildQuery(t.children.value, NodeIDs(run.nodes));
    RunFacts.NestedRuns(db, t, run);
    BatchedAnswer(db, q, run.children.value);
    full :| Arranges(full, MatchingAccounts(db.accounts, q.preds), q.order)
      && NodeRows(run.children.value.nodes) == Window(full, q.offset, q.limit);
  }

  // All of the batch fits the window's size, or all of it belongs to one parent.
  ghost predicate FitsWindow(db: Database, t: QueryTree, run: Run)
    requires t.children.Some?
  {
    var tc := t.children.value;
    var batch := MatchingAccounts(db.accounts, ChildQuery(tc, NodeIDs(run.nodes)).preds);
    |batch| <= tc.offset + tc.limit || forall a, b | a in batch && b in batch :: ParentOf(a) == ParentOf(b)
  }

  // Under a limit or an offset every node gets the children that its own query with that limit or offset may return
  // exactly if the batch of all children fits the window or all of it belongs to one parent.
  lemma ChildWindowExact(db: Database, t: QueryTree, run: Run)
    requires Consistent(db) && Batched(db, t, run) && t.children.Some? && run.children.Some?
    requires Windowed(t.children.value.offset, t.children.value.limit)
    requires Shaped(t.children.value) && NestedUnlimited(t.children.value)
    ensures (forall i | 0 <= i < |run.nodes| :: NaiveChildren(db, t, run.nodes[i])) <==> FitsWindow(db, t, run)
  {
    hide Batched, Consistent, Arranges, Select, MatchingAccounts, Holds, ParentOf, NodeIDs, NodeRows, NaiveChildren;
    hide Window, Shaped, NestedUnlimited;
    var tc, ids := t.children.value, NodeIDs(run.nodes);
    var full := WindowedChildren(db, t, run);
    BatchKeys(db, tc, ids, full);
    if |full| <= tc.offset + tc.limit || AllOneKey(ParentsOf(full)) {
      forall i | 0 <= i < |run.nodes| ensures NaiveChildren(db, t, run.nodes[i]) {
        ShareIsNaive(db, t, run, full, i);
      }
    } else {
      var k := WrongShare(full, ParentsOf(full), tc.offset, tc.limit);
      var i :| 0 <= i < |ids| && ids[i] == k;
      ShareIsWrong(db, t, run, full, i);
    }
  }

  lemma ChildQueryFits(tc: QueryTree, ids: seq<int>)
    requires Shaped(tc) && NestedUnlimited(tc)
    ensures Shaped(ChildQuery(tc, ids)) && NestedUnlimited(ChildQuery(tc, ids))
  {
  }

  lemma ShareIsNaive(db: Database, t: QueryTree, run: Run, full: seq<AccountRow>, i: nat)
    requires Consistent(db) && Batched(db, t, run) && t.children.Some? && run.children.Some? && i < |run.nodes|
    requires Windowed(t.children.value.offset, t.children.value.limit)
    requires Shaped(t.children.value) && NestedUnlimited(t.children.value)
    requires var tc := t.children.value;
      && Arranges(full, MatchingAccounts(db.accounts, ChildQuery(tc, NodeIDs(run.nodes)).preds), tc.order)
      && NodeRows(run.children.value.nodes) == Window(full, tc.offset, tc.limit)
      && Keyed(ParentsOf(full)) && (|full| <= tc.offset + tc.limit || AllOneKey(ParentsOf(full)))
    ensures NaiveChildren(db, t, run.nodes[i])
  {
    hide Batched, Consistent, Arranges, Select, MatchingAccounts, Holds, ParentOf, Window, Naive, Shaped,
      NestedUnlimited;
    hide ParentsOf, AllOneKey, Keyed;
    var tc, ids, children := t.children.value, NodeIDs(run.nodes), run.nodes[i].edges.children;
    var id := ids[i];
    ChildQueryFits(tc, ids);
    WindowedShare(db, t, run, full, i);
    RightShares(full, ParentsOf(full), tc.offset, tc.limit, id);
    ShareArranges(db, tc, ids, full, id);
    RunFacts.NestedRuns(db, t, run);
    BatchedIsNaive(db, ChildQuery(tc, ids), run.children.value);
    forall j | 0 <= j < |children| ensures Naive(db, ChildQuery(tc, [id]), children[j]) {
      assert children[j] in children;
      NaiveIgnoresPreds(db, ChildQuery(tc, ids), ChildQuery(tc, [id]), children[j]);
    }
  }

  lemma ShareIsWrong(db: Database, t: QueryTree, run: Run, full: seq<AccountRow>, i: nat)
    requires Consistent(db) && Batched(db, t, run) && t.children.Some? && run.children.Some? && i < |run.nodes|
    requires var tc, id := t.children.value, NodeIDs(run.nodes)[i];
      && Arranges(full, MatchingAccounts(db.accounts, ChildQuery(tc, NodeIDs(run.nodes)).preds), tc.order)
      && NodeRows(run.children.value.nodes) == Window(full, tc.offset, tc.limit)
      && |Window(ParentsOf(full), tc.offset, tc.limit)| == |Window(full, tc.offset, tc.limit)|
      && |Select(Window(full, tc.offset, tc.limit), Window(ParentsOf(full), tc.offset, tc.limit), id)|
         != |Window(Select(full, ParentsOf(full), id), tc.offset, tc.limit)|
    ensures !NaiveChildren(db, t, run.nodes[i])
  {
    hide Batched, Consistent, Arranges, Select, MatchingAccounts, Naive, ParentsOf, ParentOf, Holds;
    var tc, ids, children := t.children.value, NodeIDs(run.nodes), run.nodes[i].edges.children;
    var id := ids[i];
    WindowedShare(db, t, run, full, i);
    ShareArranges(db, tc, ids, full, id);
    var matching := MatchingAccounts(db.accounts, ChildQuery(tc, [id]).preds);
    forall alone | Arranges(alone, matching, tc.order)
      ensures NodeRows(children) != Window(alone, tc.offset, tc.limit)
    {
      SameSize(alone, Select(full, ParentsOf(full), id), matching, tc.order);
    }
  }

  lemma SameSize<R(!new)>(a: seq<R>, b: seq<R>, matching: seq<R>, order: Order<R>)
    requires Arranges(a, matching, order) && Arranges(b, matching, order)
    ensures |a| == |b|
  {
    SameLength(a, matching);
    SameLength(b, matching);
  }

  // The keys of a batch are ids that were asked for, and they decide whether it has one parent.
  lemma BatchKeys(db: Database, tc: QueryTree, ids: seq<int>, full: seq<AccountRow>)
    requires Arranges(full, MatchingAccounts(db.accounts, ChildQuery(tc, ids).preds), tc.order)
    ensures var batch := MatchingAccounts(db.accounts, ChildQuery(tc, ids).preds);
      && |full| == |batch|
      && Keyed(ParentsOf(full)) && (forall k | Some(k) in ParentsOf(full) :: k in ids)
      && (AllOneKey(ParentsOf(full)) <==> forall a, b | a in batch && b in batch :: ParentOf(a) == ParentOf(b))
  {
    var ps := ChildQuery(tc, ids).preds;
    var batch := MatchingAccounts(db.accounts, ps);
    SameLength(full, batch);
    forall r ensures r in full <==> r in batch {
      assert r in multiset(full) <==> r in multiset(batch);
    }
    forall i | 0 <= i < |full| ensures ParentOf(full[i]).Some? && ParentOf(full[i]).value in ids {
      assert full[i] in full;
      MatchedRow(db.accounts, ps, full[i]);
      HoldsAllMore(tc.preds, ParentIn(ids), full[i]);
    }
    if AllOneKey(ParentsOf(full)) {
      forall a, b | a in batch && b in batch ensures ParentOf(a) == ParentOf(b) {
        var i :| 0 <= i < |full| && full[i] == a;
        var j :| 0 <= j < |full| && full[j] == b;
        assert ParentsOf(full)[i] == ParentsOf(full)[j];
      }
    } else {
      var i, j :| 0 <= i < j < |full| && ParentsOf(full)[i] != ParentsOf(full)[j];
      assert full[i] in batch && full[j] in batch;
    }
  }

  // ---- A batch that is cut ----

  // An account of which only the keys are set.
  function KeyRow(id: int, parent: Option<int>): AccountRow {
    var row := map[ID := Int(id)];
    if parent.Some? then row[ParentAccountID := Int(parent.value)] else row
  }

  // Accounts 1 and 2 with a child each.
  function TwoFamilies(codec: JsonCodec): Database {
    Database(codec, [KeyRow(1, None), KeyRow(2, None), KeyRow(3, Some(1)), KeyRow(4, Some(2))], [], [], [], [])
  }

  function Tree(preds: seq<AccountPred>, limit: nat, children: Option<QueryTree>): QueryTree {
    QueryTree(preds, [], [], 0, limit, [], None, None, None, children, None, None)
  }

  // The accounts without a parent, with their children limited to one.
  function LimitedTree(): QueryTree {
    Tree([AccountPred.Where(row => ParentOf(row).None?)], 0, Some(Tree([], 1, None)))
  }

  function NodeOf(codec: JsonCodec, t: QueryTree, row: AccountRow, children: seq<AccountV>): AccountV {
    AccountV(row, Scan(codec, SpecColumns(t), row), NoEdges(Requested(t)).(children := children))
  }

  // The one child that comes back is account 3.
  function CutRun(codec: JsonCodec): Run {
    var t := LimitedTree();
    var child := NodeOf(codec, ChildQuery(t.children.value, [1, 2]), KeyRow(3, Some(1)), []);
    var one, two := NodeOf(codec, t, KeyRow(1, None), [child]), NodeOf(codec, t, KeyRow(2, None), []);
    Run([one, two], None, None, None, Some(Run([child], None, None, None, None, None, None)), None, None)
  }

  lemma KeyRowFits(codec: JsonCodec, id: int, parent: Option<int>)
    ensures WellTyped(codec, KeyRow(id, parent))
    ensures AccountID(KeyRow(id, parent)) == Some(id) && ParentOf(KeyRow(id, parent)) == parent
  {
  }

  lemma FamiliesConsistent(codec: JsonCodec)
    ensures Consistent(TwoFamilies(codec))
  {
    hide WellTyped, AccountID, ParentOf, KeyRow;
    KeyRowFits(codec, 1, None);
    KeyRowFits(codec, 2, None);
    KeyRowFits(codec, 3, Some(1));
    KeyRowFits(codec, 4, Some(2));
  }

  lemma MatchingStep(row: AccountRow, rest: seq<AccountRow>, p: AccountPred)
    ensures MatchingAccounts([row] + rest, [p])
         == (if Holds(p, row) then [row] else []) + MatchingAccounts(rest, [p])
  {
    hide Holds;
    assert ([row] + rest)[1..] == rest;
    assert HoldsAll([p], row) <==> Holds([p][0], row);
  }

  // The rows of the four accounts that the predicate lets through.
  lemma MatchingFour(a: AccountRow, b: AccountRow, c: AccountRow, d: AccountRow, p: AccountPred)
    ensures MatchingAccounts([a, b, c, d], [p])
         == (if Holds(p, a) then [a] else []) + ((if Holds(p, b) then [b] else [])
            + ((if Holds(p, c) then [c] else []) + if Holds(p, d) then [d] else []))
  {
    hide Holds, HoldsAll;
    assert [a] + [b, c, d] == [a, b, c, d] && [b] + [c, d] == [b, c, d] && [c] + [d] == [c, d] && [d] + [] == [d];
    MatchingStep(a, [b, c, d], p);
    MatchingStep(b, [c, d], p);
    MatchingStep(c, [d], p);
    MatchingStep(d, [], p);
    assert MatchingAccounts([], [p]) == [];
    hide MatchingAccounts;
  }

  lemma FamiliesMatching(codec: JsonCodec)
    ensures var rows, t := TwoFamilies(codec).accounts, LimitedTree();
      && MatchingAccounts(rows, t.preds) == [KeyRow(1, None), KeyRow(2, None)]
      && MatchingAccounts(rows, [ParentIn([1, 2])]) == [KeyRow(3, Some(1)), KeyRow(4, Some(2))]
      && MatchingAccounts(rows, [ParentIn([2])]) == [KeyRow(4, Some(2))]
  {
    hide KeyRow, ParentOf, AccountID, MatchingAccounts;
    var one, two, three, four := KeyRow(1, None), KeyRow(2, None), KeyRow(3, Some(1)), KeyRow(4, Some(2));
    KeyRowFits(codec, 1, None);
    KeyRowFits(codec, 2, None);
    KeyRowFits(codec, 3, Some(1));
    KeyRowFits(codec, 4, Some(2));
    MatchingFour(one, two, three, four, LimitedTree().preds[0]);
    assert LimitedTree().preds == [LimitedTree().preds[0]];
    MatchingFour(one, two, three, four, ParentIn([1, 2]));
    MatchingFour(one, two, three, four, ParentIn([2]));
  }

  lemma AnyArrangement(rows: seq<AccountRow>, limit: nat)
    ensures Answers(Window(rows, 0, limit), rows, [], 0, limit)
  {
    assert Arranges(rows, rows, []);
  }

  lemma CutRunKeys(codec: JsonCodec)
    ensures NodeIDs(CutRun(codec).nodes) == [1, 2]
    ensures ParentKeys(CutRun(codec).children.value.nodes) == [Some(1)]
  {
    var db, t, run := TwoFamilies(codec), LimitedTree(), CutRun(codec);
    FamiliesConsistent(codec);
    KeyRowFits(codec, 1, None);
    KeyRowFits(codec, 2, None);
    KeyRowFits(codec, 3, Some(1));
    hide Scan, KeyRow, AccountID, ParentOf, Consistent;
    ScannedKeys(db, t, run.nodes[0]);
    ScannedKeys(db, t, run.nodes[1]);
    ScannedKeys(db, ChildQuery(t.children.value, [1, 2]), run.children.value.nodes[0]);
  }

  lemma CutChildren(codec: JsonCodec)
    ensures Batched(TwoFamilies(codec), ChildQuery(LimitedTree().children.value, [1, 2]), CutRun(codec).children.value)
  {
    hide Scan, KeyRow, MatchingAccounts, SpecColumns, Answers;
    var q, run := ChildQuery(LimitedTree().children.value, [1, 2]), CutRun(codec).children.value;
    FamiliesMatching(codec);
    var rows := [KeyRow(3, Some(1)), KeyRow(4, Some(2))];
    AnyArrangement(rows, 1);
    assert q.preds == [ParentIn([1, 2])];
    assert NodeRows(run.nodes) == Window(rows, 0, 1);
    assert AccountAnswer(TwoFamilies(codec), q, NodeRows(run.nodes));
  }

  lemma CutShares(neighbors: seq<AccountV>)
    requires ParentKeys(neighbors) == [Some(1)]
    ensures ToMany(neighbors, ParentKeys(neighbors), [1, 2], 0) == neighbors
    ensures ToMany(neighbors, ParentKeys(neighbors), [1, 2], 1) == []
  {
    var keys := ParentKeys(neighbors);
    OneKeyShare(neighbors, keys, 1);
    OneKeyShare(neighbors, keys, 2);
    assert keys[0] == Some(1) && IsLast([1, 2], 0) && IsLast([1, 2], 1);
    assert [1, 2][0] == 1 && [1, 2][1] == 2;
  }

  lemma CutRunBatched(codec: JsonCodec)
    ensures Batched(TwoFamilies(codec), LimitedTree(), CutRun(codec))
  {
    hide Scan, KeyRow, MatchingAccounts, SpecColumns, Answers, BatchedChildren;
    var db, t, run := TwoFamilies(codec), LimitedTree(), CutRun(codec);
    FamiliesMatching(codec);
    AnyArrangement([KeyRow(1, None), KeyRow(2, None)], 0);
    assert NodeRows(run.nodes) == [KeyRow(1, None), KeyRow(2, None)];
    assert AccountAnswer(db, t, NodeRows(run.nodes));
    CutRunShares(codec);
  }

  lemma CutRunShares(codec: JsonCodec)
    ensures BatchedChildren(TwoFamilies(codec), LimitedTree(), CutRun(codec))
  {
    hide Scan, KeyRow, SpecColumns, Batched, ToMany;
    CutRunKeys(codec);
    CutChildren(codec);
    CutShares(CutRun(codec).children.value.nodes);
  }

  // The second parent gets no child, although its own query would return account 4.
  lemma LimitCounterexample(codec: JsonCodec)
    ensures var db, t, run := TwoFamilies(codec), LimitedTree(), CutRun(codec);
      Consistent(db) && Batched(db, t, run) && !NaiveChildren(db, t, run.nodes[1])
  {
    hide Batched, Consistent, MatchingAccounts, KeyRow, Scan, SpecColumns;
    var db, t, run := TwoFamilies(codec), LimitedTree(), CutRun(codec);
    FamiliesConsistent(codec);
    FamiliesMatching(codec);
    CutRunKeys(codec);
    CutRunBatched(codec);
    assert run.nodes[1].fields.ints.id == NodeIDs(run.nodes)[1] == 2;
    assert ChildQuery(t.children.value, [2]).preds == [ParentIn([2])];
    NoEmptyAnswer(KeyRow(4, Some(2)));
  }

  lemma NoEmptyAnswer(row: AccountRow)
    ensures !Answers([], [row], [], 0, 1)
  {
    forall full | Arranges(full, [row], []) ensures Window(full, 0, 1) != [] {
      SameLength(full, [row]);
    }
  }
}
