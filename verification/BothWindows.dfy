// A nested limit and a nested offset at once, on totally ordered queries to many.
module BothWindows {
  import opened Wrappers
  import opened Leaves
  import opened AccountEntity
  import opened QueryModel
  import opened EagerSpec
  import opened Selection
  import opened EagerRefinement
  import opened Agreement
  import opened NestedLimits
  import opened EdgeLimits
  import RunFacts

  // The rows up to the end of the window belong to one key, and no other key has more rows than the offset.
  ghost predicate OneFirst(keys: seq<Option<int>>, offset: nat, limit: nat) {
    && offset + limit < |keys|
    && (forall i | 0 <= i < offset + limit :: keys[i] == keys[0])
    && forall k | Some(k) in keys && Some(k) != keys[0] :: |Select(keys, keys, k)| <= offset
  }

  ghost predicate FitsBoth(keys: seq<Option<int>>, offset: nat, limit: nat) {
    |keys| <= offset || AllOneKey(keys) || OneFirst(keys, offset, limit)
  }

  function Share<R>(full: seq<R>, keys: seq<Option<int>>, offset: nat, limit: nat, k: int): seq<R>
    requires |full| == |keys|
  {
    Select(Window(full, offset, limit), Window(keys, offset, limit), k)
  }

  ghost predicate NoRepeats<R>(rows: seq<R>) { forall i, j | 0 <= i < j < |rows| :: rows[i] != rows[j] }

  // ---- A share of the window and the window of a share ----

  lemma {:induction false} SelectSize<R, S>(xs: seq<R>, ys: seq<S>, keys: seq<Option<int>>, k: int)
    requires |xs| == |ys| == |keys|
    ensures |Select(xs, keys, k)| == |Select(ys, keys, k)|
  {
    if xs != [] {
      SelectSize(xs[1..], ys[1..], keys[1..], k);
    }
  }

  lemma {:induction false} SelectNoRepeats<R>(xs: seq<R>, keys: seq<Option<int>>, k: int)
    requires |xs| == |keys| && NoRepeats(xs)
    ensures NoRepeats(Select(xs, keys, k))
  {
    if xs != [] {
      SelectNoRepeats(xs[1..], keys[1..], k);
      SelectMembers(xs[1..], keys[1..], k);
      var rest := Select(xs[1..], keys[1..], k);
      forall j | 0 <= j < |rest| ensures xs[0] != rest[j] {
        assert rest[j] in rest && rest[j] in xs[1..];
      }
    }
  }

  // A share of the window is the window of the share only if it is empty or nothing else comes before.
  lemma SharePlace<R>(full: seq<R>, keys: seq<Option<int>>, offset: nat, limit: nat, k: int)
    requires |full| == |keys| && NoRepeats(full) && offset <= |full|
    requires Share(full, keys, offset, limit, k) == Window(Select(full, keys, k), offset, limit)
    ensures Share(full, keys, offset, limit, k) == [] || forall i | 0 <= i < offset :: keys[i] == Some(k)
  {
    hide Select, NoRepeats;
    var share, all := Share(full, keys, offset, limit, k), Select(full, keys, k);
    var before, after := ShareParts(full, keys, offset, limit, k);
    SelectNoRepeats(full, keys, k);
    if share != [] {
      assert all[|before|] == share[0] == all[offset];
      DifferentPlaces(all, |before|, offset);
      SelectLength(full[..offset], keys[..offset], k);
      assert forall i | 0 <= i < offset :: keys[..offset][i] == keys[i];
    }
  }

  lemma DifferentPlaces<R>(rows: seq<R>, i: nat, j: nat)
    requires NoRepeats(rows) && i < |rows| && j < |rows| && rows[i] == rows[j]
    ensures i == j
  {
  }

  // Every key in the window has a share.
  lemma KeyHasShare<R>(full: seq<R>, keys: seq<Option<int>>, offset: nat, limit: nat, i: nat)
    requires |full| == |keys| && Keyed(keys) && offset <= i < |full| && i < offset + limit
    ensures Share(full, keys, offset, limit, keys[i].value) != []
  {
    var k := keys[i].value;
    assert keys[i] == Some(k);
    assert Window(keys, offset, limit)[i - offset] == Some(k);
    SelectLength(Window(full, offset, limit), Window(keys, offset, limit), k);
  }

  ghost predicate SharesMatch<R>(full: seq<R>, keys: seq<Option<int>>, offset: nat, limit: nat)
    requires |full| == |keys|
  {
    forall k | Some(k) in keys :: Share(full, keys, offset, limit, k) == Window(Select(full, keys, k), offset, limit)
  }

  lemma MatchingFits<R>(full: seq<R>, keys: seq<Option<int>>, offset: nat, limit: nat)
    requires |full| == |keys| && Keyed(keys) && NoRepeats(full) && offset >= 1 && limit >= 1
    requires SharesMatch(full, keys, offset, limit)
    ensures FitsBoth(keys, offset, limit)
  {
    hide Select, Window, Share, NoRepeats;
    if |keys| > offset && !AllOneKey(keys) {
      var end, k0 := if |keys| < offset + limit then |keys| else offset + limit, keys[offset].value;
      assert keys[offset] == Some(k0);
      KeyHasShare(full, keys, offset, limit, offset);
      SharePlace(full, keys, offset, limit, k0);
      forall i | 0 <= i < end ensures keys[i] == Some(k0) {
        if i >= offset {
          var k := keys[i].value;
          assert keys[i] == Some(k);
          KeyHasShare(full, keys, offset, limit, i);
          SharePlace(full, keys, offset, limit, k);
          assert keys[0] == Some(k) && keys[0] == Some(k0);
        }
      }
      assert end == offset + limit < |keys|;
      forall k | Some(k) in keys && Some(k) != keys[0] ensures |Select(keys, keys, k)| <= offset {
        SharePlace(full, keys, offset, limit, k);
        SelectSize(full, keys, keys, k);
        WindowEmpty(Select(full, keys, k), offset, limit);
      }
    }
  }

  lemma WindowEmpty<R>(rows: seq<R>, offset: nat, limit: nat)
    requires limit >= 1
    ensures Window(rows, offset, limit) == [] <==> |rows| <= offset
  {
  }

  lemma FittingMatches<R>(full: seq<R>, keys: seq<Option<int>>, offset: nat, limit: nat, k: int)
    requires |full| == |keys| && Keyed(keys) && offset >= 1 && limit >= 1
    requires FitsBoth(keys, offset, limit) && Some(k) in keys
    ensures Share(full, keys, offset, limit, k) == Window(Select(full, keys, k), offset, limit)
  {
    hide Select;
    if |keys| <= offset {
      SelectLength(full, keys, k);
      assert Select(Window(full, offset, limit), Window(keys, offset, limit), k) == [] by {
        SelectLength(Window(full, offset, limit), Window(keys, offset, limit), k);
      }
    } else if AllOneKey(keys) {
      OneKeyShare(full, keys, k);
      OneKeyShare(Window(full, offset, limit), Window(keys, offset, limit), k);
      assert keys[offset] == keys[0];
      var i :| 0 <= i < |keys| && keys[i] == Some(k);
      assert keys[i] == keys[0];
    } else {
      FirstMatches(full, keys, offset, limit, k);
    }
  }

  lemma FirstMatches<R>(full: seq<R>, keys: seq<Option<int>>, offset: nat, limit: nat, k: int)
    requires |full| == |keys| && offset >= 1 && limit >= 1 && OneFirst(keys, offset, limit) && Some(k) in keys
    ensures Share(full, keys, offset, limit, k) == Window(Select(full, keys, k), offset, limit)
  {
    hide Select;
    var before, after := ShareParts(full, keys, offset, limit, k);
    var share := Share(full, keys, offset, limit, k);
    OneKeyShare(full[..offset], keys[..offset], k);
    OneKeyShare(Window(full, offset, limit), Window(keys, offset, limit), k);
    if Some(k) == keys[0] {
      assert before == full[..offset] && |share| == limit;
      assert (before + share + after)[offset..] == share + after;
    } else {
      SelectSize(full, keys, keys, k);
    }
  }

  // A totally ordered query has one answer.
  lemma OneAnswer<R(!new)>(full: seq<R>, matching: seq<R>, order: Order<R>, offset: nat, limit: nat, table: seq<R>)
    requires Arranges(full, matching, order) && Separates(order, table) && forall r | r in full :: r in table
    ensures forall rows :: Answers(rows, matching, order, offset, limit) <==> rows == Window(full, offset, limit)
  {
    hide Separates, Sorted, Window;
    forall other | Arranges(other, matching, order) ensures other == full {
      SortedUnique(full, other, order, table);
    }
  }

  // A key without rows has neither a share nor a window.
  lemma NoShare<R>(full: seq<R>, keys: seq<Option<int>>, offset: nat, limit: nat, k: int)
    requires |full| == |keys| && Some(k) !in keys
    ensures Share(full, keys, offset, limit, k) == Window(Select(full, keys, k), offset, limit)
  {
    hide Select, Window;
    SelectLength(full, keys, k);
    var before, after := ShareParts(full, keys, offset, limit, k);
    assert Window(Select(full, keys, k), offset, limit) == [] by {
      WindowMembers(Select(full, keys, k), offset, limit);
      NoMembers(Window(Select(full, keys, k), offset, limit));
    }
  }

  lemma NoMembers<R>(xs: seq<R>)
    ensures xs == [] || xs[0] in xs
  {
  }

  // Every key's share of a batch that fits answers its own query.
  lemma BothSuffices<R(!new)>(
    full: seq<R>, keys: seq<Option<int>>, offset: nat, limit: nat, ids: seq<int>, alone: map<int, seq<R>>,
      order: Order<R>)
    requires |full| == |keys| && Keyed(keys) && offset >= 1 && limit >= 1 && FitsBoth(keys, offset, limit)
    requires forall k | k in ids :: k in alone && Arranges(Select(full, keys, k), alone[k], order)
    ensures forall k | k in ids :: Share(full, keys, offset, limit, k) == Window(Select(full, keys, k), offset, limit)
    ensures forall k | k in ids :: Answers(Share(full, keys, offset, limit, k), alone[k], order, offset, limit)
  {
    hide Select, Window, Share, Arranges, Keyed, FitsBoth;
    forall k | k in ids
      ensures Share(full, keys, offset, limit, k) == Window(Select(full, keys, k), offset, limit)
    {
      if Some(k) in keys {
        FittingMatches(full, keys, offset, limit, k);
      } else {
        NoShare(full, keys, offset, limit, k);
      }
    }
  }

  // Under a total order only such a batch does so.
  lemma BothExact<R(!new)>(
    full: seq<R>, keys: seq<Option<int>>, offset: nat, limit: nat, ids: seq<int>, alone: map<int, seq<R>>,
      order: Order<R>, table: seq<R>)
    requires |full| == |keys| && Keyed(keys) && offset >= 1 && limit >= 1 && forall k | Some(k) in keys :: k in ids
    requires forall k | k in ids :: k in alone && Arranges(Select(full, keys, k), alone[k], order)
    requires Separates(order, table) && NoRepeats(full) && forall r | r in full :: r in table
    ensures (forall k | k in ids :: Answers(Share(full, keys, offset, limit, k), alone[k], order, offset, limit))
      <==> FitsBoth(keys, offset, limit)
  {
    hide Select, Window, Share, Arranges, Keyed, Separates, NoRepeats, FitsBoth, Answers;
    forall k | k in ids
      ensures Answers(Share(full, keys, offset, limit, k), alone[k], order, offset, limit)
        <==> Share(full, keys, offset, limit, k) == Window(Select(full, keys, k), offset, limit)
    {
      SelectMembers(full, keys, k);
      OneAnswer(Select(full, keys, k), alone[k], order, offset, limit, table);
    }
    if FitsBoth(keys, offset, limit) {
      BothSuffices(full, keys, offset, limit, ids, alone, order);
    } else if SharesMatch(full, keys, offset, limit) {
      MatchingFits(full, keys, offset, limit);
    }
  }

  // ---- Children ----

  // The sorted batch of all children fits.
  ghost predicate ChildrenFitBoth(db: Database, tc: QueryTree, ids: seq<int>) {
    forall full | Arranges(full, MatchingAccounts(db.accounts, ChildQuery(tc, ids).preds), tc.order) ::
      FitsBoth(ParentsOf(full), tc.offset, tc.limit)
  }

  lemma BatchDiffers(db: Database, ps: seq<AccountPred>, full: seq<AccountRow>, order: Order<AccountRow>)
    requires Consistent(db) && Arranges(full, MatchingAccounts(db.accounts, ps), order)
    ensures NoRepeats(full) && forall r | r in full :: r in db.accounts
  {
    hide AccountID, WellTyped, HoldsAll, Sorted;
    UnlimitedAnswer(full, MatchingAccounts(db.accounts, ps), order);
    AnswerIDs(db.accounts, full, ps, order, 0, 0);
    forall r | r in full ensures r in db.accounts {
      assert r in multiset(full) && r in multiset(MatchingAccounts(db.accounts, ps));
      MatchedRow(db.accounts, ps, r);
    }
  }

  // Under a total order there is one sorted batch.
  lemma OneBatch(db: Database, tc: QueryTree, ids: seq<int>, full: seq<AccountRow>)
    requires Consistent(db) && Separates(tc.order, db.accounts)
    requires Arranges(full, MatchingAccounts(db.accounts, ChildQuery(tc, ids).preds), tc.order)
    ensures ChildrenFitBoth(db, tc, ids) <==> FitsBoth(ParentsOf(full), tc.offset, tc.limit)
  {
    hide Separates, Sorted, MatchingAccounts, Consistent, FitsBoth, ParentsOf;
    BatchDiffers(db, ChildQuery(tc, ids).preds, full, tc.order);
    forall other | Arranges(other, MatchingAccounts(db.accounts, ChildQuery(tc, ids).preds), tc.order)
      ensures other == full
    {
      SortedUnique(full, other, tc.order, db.accounts);
    }
  }

  lemma ChildrenFitHere(db: Database, tc: QueryTree, ids: seq<int>, full: seq<AccountRow>)
    requires Arranges(full, MatchingAccounts(db.accounts, ChildQuery(tc, ids).preds), tc.order)
    ensures ChildrenFitBoth(db, tc, ids) ==> FitsBoth(ParentsOf(full), tc.offset, tc.limit)
  {
    hide Sorted, MatchingAccounts, FitsBoth, ParentsOf;
  }

  // What a node is given is its share of the windowed batch, and naive exactly if that is an answer for it alone.
  lemma ChildShare(db: Database, t: QueryTree, run: Run, full: seq<AccountRow>, i: nat)
    requires Consistent(db) && Batched(db, t, run) && t.children.Some? && run.children.Some? && i < |run.nodes|
    requires Shaped(t.children.value) && NestedUnlimited(t.children.value)
    requires NodeRows(run.children.value.nodes) == Window(full, t.children.value.offset, t.children.value.limit)
    ensures var tc, id := t.children.value, NodeIDs(run.nodes)[i];
      NaiveChildren(db, t, run.nodes[i]) <==>
        Answers(Share(full, ParentsOf(full), tc.offset, tc.limit, id),
                MatchingAccounts(db.accounts, ChildQuery(tc, [id]).preds), tc.order, tc.offset, tc.limit)
  {
    hide Batched, Consistent, Arranges, Select, MatchingAccounts, Holds, ParentOf, Window, Naive, Shaped,
      NestedUnlimited, Answers;
    hide ParentsOf;
    var tc, ids, children := t.children.value, NodeIDs(run.nodes), run.nodes[i].edges.children;
    var id := ids[i];
    ChildQueryFits(tc, ids);
    WindowedShare(db, t, run, full, i);
    RunFacts.NestedRuns(db, t, run);
    BatchedIsNaive(db, ChildQuery(tc, ids), run.children.value);
    forall j | 0 <= j < |children| ensures Naive(db, ChildQuery(tc, [id]), children[j]) {
      assert children[j] in children;
      NaiveIgnoresPreds(db, ChildQuery(tc, ids), ChildQuery(tc, [id]), children[j]);
    }
  }

  // Under a limit and an offset every node gets the children that its own query may return if the batch of all
  // children, however ties are broken, ends before the offset, belongs to one parent, or starts with one parent's
  // children up to the end of the window while no other parent has more of them than the offset. If there are no ties,
  // only then.
  lemma ChildBothExact(db: Database, t: QueryTree, run: Run)
    requires Consistent(db) && Batched(db, t, run) && t.children.Some? && run.children.Some?
    requires t.children.value.offset >= 1 && t.children.value.limit >= 1
    requires Shaped(t.children.value) && NestedUnlimited(t.children.value)
    ensures ChildrenFitBoth(db, t.children.value, NodeIDs(run.nodes)) ==>
      forall i | 0 <= i < |run.nodes| :: NaiveChildren(db, t, run.nodes[i])
    ensures Separates(t.children.value.order, db.accounts) ==>
      ((forall i | 0 <= i < |run.nodes| :: NaiveChildren(db, t, run.nodes[i]))
       <==> ChildrenFitBoth(db, t.children.value, NodeIDs(run.nodes)))
  {
    hide Batched, Consistent, Arranges, Select, MatchingAccounts, Holds, ParentOf, NodeIDs, NodeRows, NaiveChildren;
    hide Window, Shaped, NestedUnlimited, Separates, Answers, Share, ParentsOf, Keyed, FitsBoth, ChildrenFitBoth,
      NoRepeats;
    var tc, ids := t.children.value, NodeIDs(run.nodes);
    var full := WindowedChildren(db, t, run);
    var keys := ParentsOf(full);
    BatchKeys(db, tc, ids, full);
    BatchDiffers(db, ChildQuery(tc, ids).preds, full, tc.order);
    if Separates(tc.order, db.accounts) {
      OneBatch(db, tc, ids, full);
    }
    ChildrenFitHere(db, tc, ids, full);
    var alone := map id | id in ids :: MatchingAccounts(db.accounts, ChildQuery(tc, [id]).preds);
    forall id | id in ids ensures Arranges(Select(full, keys, id), alone[id], tc.order) {
      ShareArranges(db, tc, ids, full, id);
    }
    if FitsBoth(keys, tc.offset, tc.limit) {
      BothSuffices(full, keys, tc.offset, tc.limit, ids, alone, tc.order);
    } else if Separates(tc.order, db.accounts) {
      BothExact(full, keys, tc.offset, tc.limit, ids, alone, tc.order, db.accounts);
    }
    forall i | 0 <= i < |run.nodes|
      ensures NaiveChildren(db, t, run.nodes[i]) <==>
        Answers(Share(full, keys, tc.offset, tc.limit, ids[i]), alone[ids[i]], tc.order, tc.offset, tc.limit)
    {
      ChildShare(db, t, run, full, i);
    }
  }

  // ---- Usage logs and join rows ----

  ghost predicate OwnedFitBoth(db: Database, q: LeafQueryValue, ids: seq<int>) {
    forall full | Arranges(full, MatchingLeaves(db.Rows(q.table), OwnedQuery(q, ids).preds), q.order) ::
      FitsBoth(ColumnOf(full, AccountId), q.offset, q.limit)
  }

  lemma LeavesDiffer(rows: seq<LeafRow>, ps: seq<LeafPred>, full: seq<LeafRow>, order: Order<LeafRow>)
    requires NoRepeats(rows) && Arranges(full, MatchingLeaves(rows, ps), order)
    ensures NoRepeats(full) && forall r | r in full :: r in rows
  {
    hide LeafHoldsAll, Sorted, MatchingLeaves;
    forall i, j | 0 <= i < j < |full| ensures full[i] != full[j] {
      if full[i] == full[j] {
        Twice(full, i, j);
        MatchingLeafCount(rows, ps, full[i]);
        OnceOnly(rows, full[i]);
      }
    }
    forall r | r in full ensures r in rows {
      assert r in multiset(full) && r in multiset(MatchingLeaves(rows, ps));
      MatchingLeafCount(rows, ps, r);
    }
  }

  lemma {:induction false} OnceOnly<R>(rows: seq<R>, r: R)
    requires NoRepeats(rows)
    ensures multiset(rows)[r] <= 1
  {
    if rows != [] {
      OnceOnly(rows[1..], r);
      assert rows == [rows[0]] + rows[1..];
    }
  }

  lemma OneOwnedBatch(db: Database, q: LeafQueryValue, ids: seq<int>, full: seq<LeafRow>)
    requires NoRepeats(db.Rows(q.table)) && Separates(q.order, db.Rows(q.table))
    requires Arranges(full, MatchingLeaves(db.Rows(q.table), OwnedQuery(q, ids).preds), q.order)
    ensures OwnedFitBoth(db, q, ids) <==> FitsBoth(ColumnOf(full, AccountId), q.offset, q.limit)
  {
    hide Separates, Sorted, MatchingLeaves, FitsBoth, ColumnOf, NoRepeats;
    LeavesDiffer(db.Rows(q.table), OwnedQuery(q, ids).preds, full, q.order);
    forall other | Arranges(other, MatchingLeaves(db.Rows(q.table), OwnedQuery(q, ids).preds), q.order)
      ensures other == full
    {
      SortedUnique(full, other, q.order, db.Rows(q.table));
    }
  }

  lemma OwnedFitHere(db: Database, q: LeafQueryValue, ids: seq<int>, full: seq<LeafRow>)
    requires Arranges(full, MatchingLeaves(db.Rows(q.table), OwnedQuery(q, ids).preds), q.order)
    ensures OwnedFitBoth(db, q, ids) ==> FitsBoth(ColumnOf(full, AccountId), q.offset, q.limit)
  {
    hide Sorted, MatchingLeaves, FitsBoth, ColumnOf;
  }

  // The same for usage logs and join rows.
  lemma OwnedBothExact(
    db: Database, q: LeafQueryValue, nodes: seq<AccountV>, rows: seq<LeafRow>, edges: seq<seq<Leaf>>)
    requires OwnedTable(db, q) && q.offset >= 1 && q.limit >= 1 && |edges| == |nodes| && nodes != []
    requires NoRepeats(db.Rows(q.table))
    requires forall j | 0 <= j < |nodes| :: IsLast(NodeIDs(nodes), j)
    requires BatchedOwned(db, Some(q), nodes, Some(rows), edges)
    ensures OwnedFitBoth(db, q, NodeIDs(nodes)) ==>
      forall i | 0 <= i < |nodes| :: NaiveOwned(db, Some(q), nodes[i], edges[i])
    ensures Separates(q.order, db.Rows(q.table)) ==>
      ((forall i | 0 <= i < |nodes| :: NaiveOwned(db, Some(q), nodes[i], edges[i]))
       <==> OwnedFitBoth(db, q, NodeIDs(nodes)))
  {
    hide Select, Window, MatchingLeaves, Arranges, ScanLeaves, LeafKeys, NaiveOwned, LeafSpecColumns, Keyed;
    hide OwnedTable, LeafHoldsAll, NoRepeats, Separates, FitsBoth, OwnedFitBoth, ColumnOf;
    var ids := NodeIDs(nodes);
    var wide := OwnedQuery(q, ids);
    var batch := MatchingLeaves(db.Rows(q.table), wide.preds);
    var full :| Arranges(full, batch, q.order) && rows == Window(full, q.offset, q.limit);
    var keys := ColumnOf(full, AccountId);
    OwnedKeys(db, q, ids, full);
    LeavesDiffer(db.Rows(q.table), wide.preds, full, q.order);
    if Separates(q.order, db.Rows(q.table)) {
      OneOwnedBatch(db, q, ids, full);
    }
    OwnedFitHere(db, q, ids, full);
    var alone := map id | id in ids :: MatchingLeaves(db.Rows(q.table), OwnedQuery(q, [id]).preds);
    forall id | id in ids ensures Arranges(Select(full, keys, id), alone[id], q.order) {
      OwnedShareArranges(db, q, ids, full, id);
    }
    if FitsBoth(keys, q.offset, q.limit) {
      BothSuffices(full, keys, q.offset, q.limit, ids, alone, q.order);
    } else if Separates(q.order, db.Rows(q.table)) {
      BothExact(full, keys, q.offset, q.limit, ids, alone, q.order, db.Rows(q.table));
    }
    forall i | 0 <= i < |nodes|
      ensures NaiveOwned(db, Some(q), nodes[i], edges[i]) <==>
        Answers(Share(full, keys, q.offset, q.limit, ids[i]), alone[ids[i]], q.order, q.offset, q.limit)
    {
      OwnedShare(db, q, ids, full, nodes[i], edges[i]);
    }
  }
}
