// A database engine of the kind that the loaders ask for: it sorts by insertion.
module Engines {
  import opened Leaves
  import opened AccountEntity
  import opened QueryModel
  import opened Builders

  function Insert<R>(le: (R, R) -> bool, r: R, rows: seq<R>): seq<R> {
    if rows == [] then [r]
    else if le(r, rows[0]) then [r] + rows
    else [rows[0]] + Insert(le, r, rows[1..])
  }

  function Sort<R>(le: (R, R) -> bool, rows: seq<R>): seq<R> {
    if rows == [] then [] else Insert(le, rows[0], Sort(le, rows[1..]))
  }

  ghost predicate Preorder<R(!new)>(le: (R, R) -> bool) {
    && (forall a, b :: le(a, b) || le(b, a))
    && (forall a, b, c :: le(a, b) && le(b, c) ==> le(a, c))
  }

  ghost predicate InOrder<R>(le: (R, R) -> bool, rows: seq<R>) {
    forall i, j | 0 <= i < j < |rows| :: le(rows[i], rows[j])
  }

  lemma InFront<R>(le: (R, R) -> bool, r: R, rows: seq<R>)
    requires InOrder(le, rows) && forall x | x in rows :: le(r, x)
    ensures InOrder(le, [r] + rows)
  {
  }

  lemma BelowAll<R(!new)>(le: (R, R) -> bool, r: R, rows: seq<R>)
    requires Preorder(le) && InOrder(le, rows) && rows != [] && le(r, rows[0])
    ensures forall x | x in rows :: le(r, x)
  {
    forall i | 0 <= i < |rows| ensures le(r, rows[i]) {
      assert i > 0 ==> le(rows[0], rows[i]);
    }
  }

  lemma FirstIsBelow<R>(le: (R, R) -> bool, rows: seq<R>)
    requires InOrder(le, rows) && rows != []
    ensures InOrder(le, rows[1..]) && forall x | x in rows[1..] :: le(rows[0], x)
  {
  }

  lemma {:induction false} InsertKeeps<R(!new)>(le: (R, R) -> bool, r: R, rows: seq<R>)
    requires Preorder(le) && InOrder(le, rows)
    ensures InOrder(le, Insert(le, r, rows)) && multiset(Insert(le, r, rows)) == multiset(rows) + multiset{r}
  {
    if rows != [] {
      assert rows == [rows[0]] + rows[1..];
      FirstIsBelow(le, rows);
      if le(r, rows[0]) {
        BelowAll(le, r, rows);
        InFront(le, r, rows);
      } else {
        var rest := Insert(le, r, rows[1..]);
        InsertKeeps(le, r, rows[1..]);
        assert le(rows[0], r);
        hide InOrder, Preorder, Insert;
        forall x | x in rest ensures le(rows[0], x) {
          assert x in multiset(rest);
        }
        InFront(le, rows[0], rest);
      }
    }
  }

  lemma {:induction false} SortSorts<R(!new)>(le: (R, R) -> bool, rows: seq<R>)
    requires Preorder(le)
    ensures InOrder(le, Sort(le, rows)) && multiset(Sort(le, rows)) == multiset(rows)
  {
    if rows != [] {
      assert rows == [rows[0]] + rows[1..];
      SortSorts(le, rows[1..]);
      InsertKeeps(le, rows[0], Sort(le, rows[1..]));
    }
  }

  lemma {:induction false} LexTotal<R>(order: Order<R>, a: R, b: R)
    ensures LexLe(order, a, b) || LexLe(order, b, a)
  {
    if order != [] {
      LexTotal(order[1..], a, b);
    }
  }

  lemma {:induction false} LexTransitive<R>(order: Order<R>, a: R, b: R, c: R)
    requires LexLe(order, a, b) && LexLe(order, b, c)
    ensures LexLe(order, a, c)
  {
    if order != [] && order[0](a) == order[0](b) == order[0](c) {
      LexTransitive(order[1..], a, b, c);
    }
  }

  function RowsLe<R>(order: Order<R>): (R, R) -> bool { (a, b) => LexLe(order, a, b) }

  function PairsLe(order: Order<LeafRow>): ((int, LeafRow), (int, LeafRow)) -> bool {
    (p: (int, LeafRow), q: (int, LeafRow)) => LexLe(order, p.1, q.1)
  }

  lemma RowsPreorder<R(!new)>(order: Order<R>)
    ensures Preorder(RowsLe(order))
  {
    hide LexLe;
    forall a, b ensures LexLe(order, a, b) || LexLe(order, b, a) {
      LexTotal(order, a, b);
    }
    forall a, b, c | LexLe(order, a, b) && LexLe(order, b, c) ensures LexLe(order, a, c) {
      LexTransitive(order, a, b, c);
    }
  }

  lemma PairsPreorder(order: Order<LeafRow>)
    ensures Preorder(PairsLe(order))
  {
    hide LexLe;
    RowsPreorder(order);
    forall a, b ensures PairsLe(order)(a, b) || PairsLe(order)(b, a) {
      assert RowsLe(order)(a.1, b.1) || RowsLe(order)(b.1, a.1);
    }
    forall a, b, c | PairsLe(order)(a, b) && PairsLe(order)(b, c) ensures PairsLe(order)(a, c) {
      assert RowsLe(order)(a.1, b.1) && RowsLe(order)(b.1, c.1);
    }
  }

  function Sorting(): Engine {
    Engine((_, order, rows) => Sort(RowsLe(order), rows), (_, order, rows) => Sort(RowsLe(order), rows),
           (_, order, pairs) => Sort(PairsLe(order), pairs))
  }

  // What the loaders require of the engine can be met.
  lemma SortingIsValid()
    ensures ValidEngine(Sorting())
  {
    hide Sort, LexLe;
    forall order: Order<AccountRow>, rows ensures Arranges(Sort(RowsLe(order), rows), rows, order) {
      RowsPreorder(order);
      SortSorts(RowsLe(order), rows);
    }
    forall order: Order<LeafRow>, rows ensures Arranges(Sort(RowsLe(order), rows), rows, order) {
      RowsPreorder(order);
      SortSorts(RowsLe(order), rows);
    }
    forall order: Order<LeafRow>, pairs ensures ArrangesPairs(Sort(PairsLe(order), pairs), pairs, order) {
      PairsPreorder(order);
      SortSorts(PairsLe(order), pairs);
    }
  }
}
