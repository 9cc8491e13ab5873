// How far the plain meaning of a tree is determined, and so how far the batched run agrees with it.
module Agreement {
  import opened Wrappers
  import opened Leaves
  import opened QueryModel
  import opened EagerSpec
  import opened Selection
  import opened EagerRefinement
  import opened GroupsRefinement

  // The same node up to the sequence of its to-many edges, at every level.
  ghost predicate Alike(a: AccountV, b: AccountV)
    decreases a
  {
    && a.row == b.row && a.fields == b.fields && a.edges.loadedTypes == b.edges.loadedTypes
    && multiset(a.edges.groups) == multiset(b.edges.groups)
    && a.edges.proxy == b.edges.proxy
    && a.edges.parent.Some? == b.edges.parent.Some?
    && (a.edges.parent.Some? ==> Alike(a.edges.parent.value, b.edges.parent.value))
    && multiset(NodeRows(a.edges.children)) == multiset(NodeRows(b.edges.children))
    && (forall i, j | 0 <= i < |a.edges.children| && 0 <= j < |b.edges.children| ::
          a.edges.children[i].row == b.edges.children[j].row ==> Alike(a.edges.children[i], b.edges.children[j]))
    && multiset(a.edges.usageLogs) == multiset(b.edges.usageLogs)
    && multiset(a.edges.accountGroups) == multiset(b.edges.accountGroups)
  }

  // Rows that tie under the order are the same row.
  ghost predicate Separates<R(!new)>(order: Order<R>, rows: seq<R>) {
    forall a, b | a in rows && b in rows :: LexLe(order, a, b) && LexLe(order, b, a) ==> a == b
  }

  ghost predicate SeparatesLeaves(db: Database, q: Option<LeafQueryValue>) {
    q.Some? ==> Separates(q.value.order, db.Rows(q.value.table))
  }

  // Every nested to-many query is totally ordered.
  ghost predicate NestedTotal(db: Database, t: QueryTree) {
    && SeparatesLeaves(db, t.groups) && SeparatesLeaves(db, t.usageLogs) && SeparatesLeaves(db, t.accountGroups)
    && (t.parent.Some? ==> NestedTotal(db, t.parent.value))
    && (t.children.Some? ==> Separates(t.children.value.order, db.accounts) && NestedTotal(db, t.children.value))
  }

  // The batch cannot tell: no nested limit or offset.
  ghost predicate Fits(t: QueryTree) { Shaped(t) && NestedUnlimited(t) }

  // ---- Sequences ----

  // Two sorted sequences of the same elements start with the same one.
  lemma HeadsAgree<R(!new)>(a: seq<R>, b: seq<R>, order: Order<R>, rows: seq<R>)
    requires multiset(a) == multiset(b) && Sorted(order, a) && Sorted(order, b) && a != [] && b != []
    requires Separates(order, rows) && forall r | r in a :: r in rows
    ensures a[0] == b[0]
  {
    hide LexLe;
    assert a[0] in multiset(b) && b[0] in multiset(a);
    var i :| 0 <= i < |a| && a[i] == b[0];
    var j :| 0 <= j < |b| && b[j] == a[0];
    if i != 0 && j != 0 {
      assert LexLe(order, a[0], a[i]) && LexLe(order, b[0], b[j]);
    }
  }

  lemma SortedTail<R>(order: Order<R>, rows: seq<R>)
    requires rows != [] && Sorted(order, rows)
    ensures Sorted(order, rows[1..])
  {
  }

  lemma SameTails<R>(a: seq<R>, b: seq<R>)
    requires a != [] && b != [] && a[0] == b[0] && multiset(a) == multiset(b)
    ensures multiset(a[1..]) == multiset(b[1..])
    ensures a[1..] == b[1..] ==> a == b
    ensures forall r | r in a[1..] :: r in a
  {
    assert a == [a[0]] + a[1..] && b == [b[0]] + b[1..];
    assert multiset(a[1..]) == multiset(a) - multiset{a[0]} == multiset(b[1..]);
  }

  lemma {:induction false} SortedUnique<R(!new)>(a: seq<R>, b: seq<R>, order: Order<R>, rows: seq<R>)
    requires multiset(a) == multiset(b) && Sorted(order, a) && Sorted(order, b)
    requires Separates(order, rows) && forall r | r in a :: r in rows
    ensures a == b
  {
    hide LexLe, Sorted, Separates;
    SameLength(a, b);
    if a != [] {
      HeadsAgree(a, b, order, rows);
      SortedTail(order, a);
      SortedTail(order, b);
      SameTails(a, b);
      SortedUnique(a[1..], b[1..], order, rows);
    }
  }

  lemma {:induction false} ScanCount(columns: seq<LeafColumn>, rows: seq<LeafRow>, leaf: Leaf)
    ensures multiset(ScanLeaves(columns, rows))[leaf]
         == if leaf == ScanLeaf(columns, leaf.row) then multiset(rows)[leaf.row] else 0
  {
    hide ScanLeaf;
    if rows != [] {
      var rest := rows[1..];
      ScanCount(columns, rest, leaf);
      assert rows == [rows[0]] + rest;
      assert ScanLeaves(columns, rows) == [ScanLeaf(columns, rows[0])] + ScanLeaves(columns, rest);
      ScanKeepsRow(columns, rows[0]);
    }
  }

  lemma ScanKeepsRow(columns: seq<LeafColumn>, row: LeafRow)
    ensures ScanLeaf(columns, row).row == row
  {
  }

  lemma ScannedAlike(columns: seq<LeafColumn>, a: seq<LeafRow>, b: seq<LeafRow>)
    requires multiset(a) == multiset(b)
    ensures multiset(ScanLeaves(columns, a)) == multiset(ScanLeaves(columns, b))
  {
    forall leaf ensures multiset(ScanLeaves(columns, a))[leaf] == multiset(ScanLeaves(columns, b))[leaf] {
      ScanCount(columns, a, leaf);
      ScanCount(columns, b, leaf);
    }
  }

  // Two unlimited answers to one query are permutations of each other, and equal if it is totally
  // ordered.
  lemma AnswersAgree<R(!new)>(a: seq<R>, b: seq<R>, matching: seq<R>, order: Order<R>, rows: seq<R>)
    requires Answers(a, matching, order, 0, 0) && Answers(b, matching, order, 0, 0)
    ensures multiset(a) == multiset(b)
    ensures |a| == |b| && (|a| <= 1 ==> a == b)
    ensures Separates(order, rows) && (forall r | r in matching :: r in rows) ==> a == b
  {
    UnlimitedAnswer(a, matching, order);
    UnlimitedAnswer(b, matching, order);
    SameLength(a, b);
    if |a| == 1 {
      assert a == [a[0]] && b == [b[0]];
      assert a[0] in multiset(b);
    }
    if Separates(order, rows) && forall r | r in matching :: r in rows {
      forall r | r in a ensures r in rows {
        assert r in multiset(matching);
      }
      SortedUnique(a, b, order, rows);
    }
  }

  lemma LeavesAgree(db: Database, q: LeafQueryValue, matching: seq<LeafRow>, a: seq<Leaf>, b: seq<Leaf>)
    requires q.offset == 0 && q.limit == 0 && forall r | r in matching :: r in db.Rows(q.table)
    requires Answers(LeafRows(a), matching, q.order, 0, 0) && a == ScanLeaves(LeafSpecColumns(q), LeafRows(a))
    requires Answers(LeafRows(b), matching, q.order, 0, 0) && b == ScanLeaves(LeafSpecColumns(q), LeafRows(b))
    ensures multiset(a) == multiset(b)
    ensures Separates(q.order, db.Rows(q.table)) ==> a == b
  {
    AnswersAgree(LeafRows(a), LeafRows(b), matching, q.order, db.Rows(q.table));
    ScannedAlike(LeafSpecColumns(q), LeafRows(a), LeafRows(b));
  }

  lemma OwnedAgree(db: Database, q: Option<LeafQueryValue>, a: AccountV, b: AccountV, edgeA: seq<Leaf>,
      edgeB: seq<Leaf>)
    requires NoWindow(q) && NaiveOwned(db, q, a, edgeA) && NaiveOwned(db, q, b, edgeB)
    requires a.fields == b.fields
    ensures multiset(edgeA) == multiset(edgeB)
    ensures SeparatesLeaves(db, q) ==> edgeA == edgeB
  {
    if q.Some? {
      var single := OwnedQuery(q.value, [a.fields.ints.id]);
      var matching := MatchingLeaves(db.Rows(single.table), single.preds);
      forall r | r in matching ensures r in db.Rows(single.table) {
        MatchedLeaf(db.Rows(single.table), single.preds, r);
      }
      LeavesAgree(db, single, matching, edgeA, edgeB);
    }
  }

  lemma {:induction false} GroupMembers(links: seq<LeafRow>, groups: seq<LeafRow>, account: int)
    ensures forall r | r in MatchingGroups(links, groups, account) :: r in groups
  {
    if groups != [] {
      GroupMembers(links, groups[1..], account);
    }
  }

  lemma GroupsAgree(db: Database, t: QueryTree, a: AccountV, b: AccountV)
    requires NoWindow(t.groups) && OnTable(t.groups, Groups) && NaiveGroups(db, t, a) && NaiveGroups(db, t, b)
    requires a.fields == b.fields
    ensures multiset(a.edges.groups) == multiset(b.edges.groups)
    ensures SeparatesLeaves(db, t.groups) ==> a.edges.groups == b.edges.groups
  {
    if t.groups.Some? {
      var id := a.fields.ints.id;
      var q := GroupQuery(t.groups.value, [id]);
      var groups := Joinable(db.accountGroups, db.groups, q.preds);
      var matching := MatchingGroups(db.accountGroups, groups, id);
      GroupMembers(db.accountGroups, groups, id);
      forall r | r in matching ensures r in db.Rows(q.table) {
        JoinedGroup(db.accountGroups, db.groups, q.preds, r);
      }
      LeavesAgree(db, q, matching, a.edges.groups, b.edges.groups);
    }
  }

  lemma ProxiesAgree(db: Database, t: QueryTree, a: AccountV, b: AccountV)
    requires NoWindow(t.proxy) && NaiveProxy(db, t, a) && NaiveProxy(db, t, b) && a.fields == b.fields
    ensures a.edges.proxy == b.edges.proxy
  {
  }

  lemma LeafEdgesAgree(db: Database, t: QueryTree, a: AccountV, b: AccountV)
    requires Fits(t) && Naive(db, t, a) && Naive(db, t, b) && a.row == b.row
    ensures a.fields == b.fields && a.edges.loadedTypes == b.edges.loadedTypes && a.edges.proxy == b.edges.proxy
    ensures multiset(a.edges.groups) == multiset(b.edges.groups)
    ensures multiset(a.edges.usageLogs) == multiset(b.edges.usageLogs)
    ensures multiset(a.edges.accountGroups) == multiset(b.edges.accountGroups)
    ensures NestedTotal(db, t) ==>
      && a.edges.groups == b.edges.groups && a.edges.usageLogs == b.edges.usageLogs
      && a.edges.accountGroups == b.edges.accountGroups
  {
    NaiveParts(db, t, a);
    NaiveParts(db, t, b);
    hide Naive, NaiveGroups, NaiveProxy, NaiveOwned;
    GroupsAgree(db, t, a, b);
    ProxiesAgree(db, t, a, b);
    OwnedAgree(db, t.usageLogs, a, b, a.edges.usageLogs, b.edges.usageLogs);
    OwnedAgree(db, t.accountGroups, a, b, a.edges.accountGroups, b.edges.accountGroups);
  }

  lemma NaiveParts(db: Database, t: QueryTree, v: AccountV)
    requires Naive(db, t, v)
    ensures ScannedBy(db, t, v) && NaiveGroups(db, t, v) && NaiveProxy(db, t, v)
    ensures NaiveParent(db, t, v) && NaiveChildren(db, t, v)
    ensures NaiveOwned(db, t.usageLogs, v, v.edges.usageLogs)
      && NaiveOwned(db, t.accountGroups, v, v.edges.accountGroups)
  {
  }

  // The parents two plain results were given are the same row, if any.
  lemma ParentRowsAgree(db: Database, t: QueryTree, a: AccountV, b: AccountV)
    requires Fits(t) && NaiveParent(db, t, a) && NaiveParent(db, t, b) && a.fields == b.fields
    ensures a.edges.parent.Some? == b.edges.parent.Some?
    ensures a.edges.parent.Some? ==>
      && t.parent.Some? && a.fields.ints.parentAccountID.Some?
      && a.edges.parent.value.row == b.edges.parent.value.row
      && var q := ParentQuery(t.parent.value, [a.fields.ints.parentAccountID.value]);
         Naive(db, q, a.edges.parent.value) && Naive(db, q, b.edges.parent.value)
  {
    hide Naive;
    var key, x, y := a.fields.ints.parentAccountID, a.edges.parent, b.edges.parent;
    if t.parent.Some? && key.Some? {
      var q := ParentQuery(t.parent.value, [key.value]);
      AnswersAgree(if x.Some? then [x.value.row] else [], if y.Some? then [y.value.row] else [],
                   MatchingAccounts(db.accounts, q.preds), q.order, []);
    }
  }

  lemma ChildRowsAgree(db: Database, t: QueryTree, a: AccountV, b: AccountV)
    requires Fits(t) && NaiveChildren(db, t, a) && NaiveChildren(db, t, b) && a.fields == b.fields
    ensures multiset(NodeRows(a.edges.children)) == multiset(NodeRows(b.edges.children))
    ensures NestedTotal(db, t) ==> NodeRows(a.edges.children) == NodeRows(b.edges.children)
  {
    hide Naive;
    if t.children.Some? {
      var q := ChildQuery(t.children.value, [a.fields.ints.id]);
      var matching := MatchingAccounts(db.accounts, q.preds);
      forall r | r in matching ensures r in db.accounts {
        MatchedRow(db.accounts, q.preds, r);
      }
      AnswersAgree(NodeRows(a.edges.children), NodeRows(b.edges.children), matching, q.order, db.accounts);
    }
  }

  // ---- The plain meaning is unique ----

  lemma RestrictionFits(db: Database, t: QueryTree, ids: seq<int>)
    ensures Fits(t) == Fits(ParentQuery(t, ids)) == Fits(ChildQuery(t, ids))
    ensures NestedTotal(db, t) == NestedTotal(db, ParentQuery(t, ids)) == NestedTotal(db, ChildQuery(t, ids))
  {
  }

  lemma NestedFit(db: Database, t: QueryTree, ids: seq<int>)
    requires Fits(t)
    ensures t.parent.Some? ==>
      && Fits(ParentQuery(t.parent.value, ids))
      && (NestedTotal(db, t) ==> NestedTotal(db, ParentQuery(t.parent.value, ids)))
    ensures t.children.Some? ==>
      && Fits(ChildQuery(t.children.value, ids))
      && (NestedTotal(db, t) ==> NestedTotal(db, ChildQuery(t.children.value, ids)))
  {
    if t.parent.Some? {
      RestrictionFits(db, t.parent.value, ids);
    }
    if t.children.Some? {
      RestrictionFits(db, t.children.value, ids);
    }
  }

  // Loading one row alone gives the same node every time, up to the sequence of to-many edges, and
  // exactly the same node if the nested queries are totally ordered.
  lemma {:induction false} NaiveIsUnique(db: Database, t: QueryTree, a: AccountV, b: AccountV)
    requires Fits(t) && Naive(db, t, a) && Naive(db, t, b) && a.row == b.row
    ensures Alike(a, b)
    ensures NestedTotal(db, t) ==> a == b
    decreases Depth(t)
  {
    hide Naive, NaiveParent, NaiveChildren, NaiveGroups, NaiveProxy, NaiveOwned, ScannedBy, Shaped, NestedUnlimited,
         NestedTotal;
    NaiveParts(db, t, a);
    NaiveParts(db, t, b);
    LeafEdgesAgree(db, t, a, b);
    ParentRowsAgree(db, t, a, b);
    if a.edges.parent.Some? {
      var ids := [a.fields.ints.parentAccountID.value];
      NestedFit(db, t, ids);
      NaiveIsUnique(db, ParentQuery(t.parent.value, ids), a.edges.parent.value, b.edges.parent.value);
    }
    ChildRowsAgree(db, t, a, b);
    ChildrenUnique(db, t, a, b);
  }

  lemma ChildrenUnique(db: Database, t: QueryTree, a: AccountV, b: AccountV)
    requires Fits(t) && NaiveChildren(db, t, a) && NaiveChildren(db, t, b) && a.fields == b.fields
    ensures forall i, j | 0 <= i < |a.edges.children| && 0 <= j < |b.edges.children| ::
      a.edges.children[i].row == b.edges.children[j].row ==> Alike(a.edges.children[i], b.edges.children[j])
    ensures NestedTotal(db, t) ==> a.edges.children == b.edges.children
    decreases Depth(t), 0
  {
    hide Naive, Alike, Shaped, NestedUnlimited, NestedTotal, AccountAnswer, NodeRows;
    var xs, ys := a.edges.children, b.edges.children;
    if t.children.Some? {
      var q := ChildQuery(t.children.value, [a.fields.ints.id]);
      NestedFit(db, t, [a.fields.ints.id]);
      ChildRowsAgree(db, t, a, b);
      forall i, j | 0 <= i < |xs| && 0 <= j < |ys| && xs[i].row == ys[j].row
        ensures Alike(xs[i], ys[j]) && (NestedTotal(db, t) ==> xs[i] == ys[j])
      {
        NaiveIsUnique(db, q, xs[i], ys[j]);
      }
      if NestedTotal(db, t) {
        assert |xs| == |NodeRows(xs)| == |ys|;
        forall i | 0 <= i < |xs| ensures xs[i] == ys[i] {
          RowAt(xs, i);
          RowAt(ys, i);
        }
      }
    }
  }

  // A batched run agrees with loading each of its rows alone.
  lemma BatchedAgreesWithNaive(db: Database, t: QueryTree, run: Run, alone: seq<AccountV>)
    requires Consistent(db) && Fits(t) && Batched(db, t, run)
    requires NodeRows(alone) == NodeRows(run.nodes) && forall v | v in alone :: Naive(db, t, v)
    ensures |alone| == |run.nodes| && forall i | 0 <= i < |alone| :: Alike(run.nodes[i], alone[i])
    ensures NestedTotal(db, t) ==> run.nodes == alone
  {
    hide Batched, Naive, Alike, NestedTotal, Shaped, NestedUnlimited, NodeRows, Consistent;
    BatchedIsNaive(db, t, run);
    assert |alone| == |NodeRows(alone)| == |run.nodes|;
    forall i | 0 <= i < |alone|
      ensures Alike(run.nodes[i], alone[i]) && (NestedTotal(db, t) ==> run.nodes[i] == alone[i])
    {
      RowAt(alone, i);
      RowAt(run.nodes, i);
      NaiveIsUnique(db, t, run.nodes[i], alone[i]);
    }
  }

  lemma RowAt(vs: seq<AccountV>, i: nat)
    requires i < |vs|
    ensures NodeRows(vs)[i] == vs[i].row
  {
  }
}
