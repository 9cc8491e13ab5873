// Facts about filtering a database answer by key: what is kept, and in which sequence.
module Selection {
  import opened Wrappers
  import opened Leaves
  import opened AccountEntity
  import opened QueryModel

  // ---- Select ----

  lemma {:induction false} SelectMembers<R>(xs: seq<R>, keys: seq<Option<int>>, k: int)
    requires |xs| == |keys|
    ensures forall x :: x in Select(xs, keys, k) ==> x in xs
  {
    if xs != [] {
      SelectMembers(xs[1..], keys[1..], k);
    }
  }

  // The positions of key `k`, counted from `base`.
  function Positions(keys: seq<Option<int>>, k: int, base: nat): seq<nat> {
    if keys == [] then []
    else (if keys[0] == Some(k) then [base] else []) + Positions(keys[1..], k, base + 1)
  }

  // Select keeps the elements at those positions, in sequence.
  lemma {:induction false} SelectAt<T>(xs: seq<T>, keys: seq<Option<int>>, k: int, base: nat)
    requires |xs| == |keys|
    ensures |Positions(keys, k, base)| == |Select(xs, keys, k)|
    ensures forall i | 0 <= i < |Positions(keys, k, base)| ::
      && base <= Positions(keys, k, base)[i] < base + |xs| && keys[Positions(keys, k, base)[i] - base] == Some(k)
      && Select(xs, keys, k)[i] == xs[Positions(keys, k, base)[i] - base]
  {
    if xs != [] {
      SelectAt(xs[1..], keys[1..], k, base + 1);
      var rest, found := Positions(keys[1..], k, base + 1), Select(xs[1..], keys[1..], k);
      forall i | 0 <= i < |rest|
        ensures base < rest[i] < base + |xs| && keys[rest[i] - base] == Some(k) && found[i] == xs[rest[i] - base]
      {
        assert xs[1..][rest[i] - base - 1] == xs[rest[i] - base];
      }
    }
  }

  // They are all the positions of the key, ascending.
  lemma {:induction false} PositionsExact(keys: seq<Option<int>>, k: int, base: nat)
    ensures forall i | 0 <= i < |Positions(keys, k, base)| :: base <= Positions(keys, k, base)[i]
    ensures forall i, j | 0 <= i < j < |Positions(keys, k, base)| ::
      Positions(keys, k, base)[i] < Positions(keys, k, base)[j]
    ensures forall j | 0 <= j < |keys| && keys[j] == Some(k) :: base + j in Positions(keys, k, base)
  {
    if keys != [] {
      PositionsExact(keys[1..], k, base + 1);
      var rest := Positions(keys[1..], k, base + 1);
      forall j | 0 <= j < |keys| && keys[j] == Some(k) ensures base + j in Positions(keys, k, base) {
        if j > 0 {
          assert keys[1..][j - 1] == Some(k);
          assert base + 1 + (j - 1) in rest;
        }
      }
    }
  }

  // With keys computed from the elements, Select keeps every occurrence of the elements under `k`.
  lemma {:induction false} SelectCount<R>(xs: seq<R>, keys: seq<Option<int>>, key: R -> Option<int>, k: int, r: R)
    requires |xs| == |keys| && forall j | 0 <= j < |xs| :: keys[j] == key(xs[j])
    ensures multiset(Select(xs, keys, k))[r] == if key(r) == Some(k) then multiset(xs)[r] else 0
  {
    if xs != [] {
      SelectCount(xs[1..], keys[1..], key, k, r);
      assert xs == [xs[0]] + xs[1..];
    }
  }

  lemma {:induction false} SelectSorted<R>(order: Order<R>, xs: seq<R>, keys: seq<Option<int>>, k: int)
    requires |xs| == |keys| && Sorted(order, xs)
    ensures Sorted(order, Select(xs, keys, k))
  {
    if xs != [] {
      var rest := Select(xs[1..], keys[1..], k);
      SelectSorted(order, xs[1..], keys[1..], k);
      SelectMembers(xs[1..], keys[1..], k);
      forall j | 0 <= j < |rest| ensures LexLe(order, xs[0], rest[j]) {
        assert rest[j] in xs[1..];
      }
    }
  }

  // `single` is the part of `batch` whose key is `k`.
  ghost predicate PartWithKey<R(!new)>(single: multiset<R>, batch: multiset<R>, key: R -> Option<int>, k: int) {
    forall r :: single[r] == if key(r) == Some(k) then batch[r] else 0
  }

  lemma PartIsUnique<R(!new)>(a: multiset<R>, b: multiset<R>, batch: multiset<R>, key: R -> Option<int>, k: int)
    requires PartWithKey(a, batch, key, k) && PartWithKey(b, batch, key, k)
    ensures a == b
  {
  }

  // A batch sorted and filtered by key arranges exactly the rows a query for that key would match.
  lemma SelectArranges<R(!new)>(
    xs: seq<R>, keys: seq<Option<int>>, key: R -> Option<int>, k: int,
    batch: seq<R>, single: seq<R>, order: Order<R>
  )
    requires |xs| == |keys| && forall j | 0 <= j < |xs| :: keys[j] == key(xs[j])
    requires Arranges(xs, batch, order)
    requires PartWithKey(multiset(single), multiset(batch), key, k)
    ensures Arranges(Select(xs, keys, k), single, order)
  {
    SelectSorted(order, xs, keys, k);
    assert PartWithKey(multiset(Select(xs, keys, k)), multiset(xs), key, k) by {
      forall r ensures multiset(Select(xs, keys, k))[r] == if key(r) == Some(k) then multiset(xs)[r] else 0 {
        SelectCount(xs, keys, key, k, r);
      }
    }
    PartIsUnique(multiset(Select(xs, keys, k)), multiset(single), multiset(xs), key, k);
  }

  lemma UnlimitedAnswer<R(!new)>(rows: seq<R>, matching: seq<R>, order: Order<R>)
    ensures Answers(rows, matching, order, 0, 0) <==> Arranges(rows, matching, order)
  {
  }

  lemma UnlimitedPairs(pairs: seq<(int, LeafRow)>, matching: seq<(int, LeafRow)>, order: Order<LeafRow>)
    ensures AnswersPairs(pairs, matching, order, 0, 0) <==> ArrangesPairs(pairs, matching, order)
  {
  }

  lemma AnswerMembers<R(!new)>(rows: seq<R>, matching: seq<R>, order: Order<R>, offset: nat, limit: nat)
    requires Answers(rows, matching, order, offset, limit)
    ensures forall r :: r in rows ==> r in matching
  {
    var full :| Arranges(full, matching, order) && rows == Window(full, offset, limit);
    forall r | r in rows ensures r in matching {
      assert r in full;
      assert r in multiset(full);
    }
  }

  lemma PairAnswerMembers(
    pairs: seq<(int, LeafRow)>, matching: seq<(int, LeafRow)>, order: Order<LeafRow>, offset: nat, limit: nat)
    requires AnswersPairs(pairs, matching, order, offset, limit)
    ensures forall p :: p in pairs ==> p in matching
  {
    var full :| ArrangesPairs(full, matching, order) && pairs == Window(full, offset, limit);
    forall p | p in pairs ensures p in matching {
      assert p in full;
      assert p in multiset(full);
    }
  }

  // ---- Matching ----

  lemma HoldsAllMore(ps: seq<AccountPred>, p: AccountPred, row: AccountRow)
    ensures HoldsAll(ps + [p], row) <==> HoldsAll(ps, row) && Holds(p, row)
  {
    var qs := ps + [p];
    if HoldsAll(qs, row) {
      assert forall i | 0 <= i < |ps| :: ps[i] == qs[i];
      assert qs[|ps|] == p;
    }
  }

  lemma LeafHoldsAllMore(ps: seq<LeafPred>, p: LeafPred, row: LeafRow)
    ensures LeafHoldsAll(ps + [p], row) <==> LeafHoldsAll(ps, row) && LeafHolds(p, row)
  {
    var qs := ps + [p];
    if LeafHoldsAll(qs, row) {
      assert forall i | 0 <= i < |ps| :: ps[i] == qs[i];
      assert qs[|ps|] == p;
    }
  }

  lemma {:induction false} MatchingCount(rows: seq<AccountRow>, ps: seq<AccountPred>, r: AccountRow)
    ensures multiset(MatchingAccounts(rows, ps))[r] == if HoldsAll(ps, r) then multiset(rows)[r] else 0
  {
    if rows != [] {
      MatchingCount(rows[1..], ps, r);
      assert rows == [rows[0]] + rows[1..];
    }
  }

  lemma {:induction false} MatchingLeafCount(rows: seq<LeafRow>, ps: seq<LeafPred>, r: LeafRow)
    ensures multiset(MatchingLeaves(rows, ps))[r] == if LeafHoldsAll(ps, r) then multiset(rows)[r] else 0
  {
    if rows != [] {
      MatchingLeafCount(rows[1..], ps, r);
      assert rows == [rows[0]] + rows[1..];
    }
  }

  // A query restricted to one key matches that key's part of the query restricted to many.
  lemma RestrictedMatching(
    rows: seq<AccountRow>, ps: seq<AccountPred>, wide: AccountPred, narrow: AccountPred,
    key: AccountRow -> Option<int>, k: int
  )
    requires forall r :: Holds(narrow, r) <==> key(r) == Some(k)
    requires forall r :: Holds(narrow, r) ==> Holds(wide, r)
    ensures PartWithKey(multiset(MatchingAccounts(rows, ps + [narrow])), multiset(MatchingAccounts(rows, ps + [wide])),
                        key, k)
  {
    var single, batch := multiset(MatchingAccounts(rows, ps + [narrow])), multiset(MatchingAccounts(rows, ps + [wide]));
    forall r ensures single[r] == if key(r) == Some(k) then batch[r] else 0 {
      MatchingCount(rows, ps + [narrow], r);
      MatchingCount(rows, ps + [wide], r);
      HoldsAllMore(ps, narrow, r);
      HoldsAllMore(ps, wide, r);
    }
  }

  lemma RestrictedLeaves(
    rows: seq<LeafRow>, ps: seq<LeafPred>, wide: LeafPred, narrow: LeafPred, key: LeafRow -> Option<int>, k: int)
    requires forall r :: LeafHolds(narrow, r) <==> key(r) == Some(k)
    requires forall r :: LeafHolds(narrow, r) ==> LeafHolds(wide, r)
    ensures PartWithKey(multiset(MatchingLeaves(rows, ps + [narrow])), multiset(MatchingLeaves(rows, ps + [wide])),
                        key, k)
  {
    var single, batch := multiset(MatchingLeaves(rows, ps + [narrow])), multiset(MatchingLeaves(rows, ps + [wide]));
    forall r ensures single[r] == if key(r) == Some(k) then batch[r] else 0 {
      MatchingLeafCount(rows, ps + [narrow], r);
      MatchingLeafCount(rows, ps + [wide], r);
      LeafHoldsAllMore(ps, narrow, r);
      LeafHoldsAllMore(ps, wide, r);
    }
  }

  lemma MatchedRow(rows: seq<AccountRow>, ps: seq<AccountPred>, r: AccountRow)
    ensures r in MatchingAccounts(rows, ps) <==> r in rows && HoldsAll(ps, r)
  {
  }

  lemma MatchedLeaf(rows: seq<LeafRow>, ps: seq<LeafPred>, r: LeafRow)
    ensures r in MatchingLeaves(rows, ps) <==> r in rows && LeafHoldsAll(ps, r)
  {
  }

  // ---- Orders and windows ----

  // The first order option that tells two rows apart decides; without one they tie.
  lemma {:induction false} FirstOptionDecides<R>(order: Order<R>, a: R, b: R)
    ensures LexLe(order, a, b) <==>
      || (forall i | 0 <= i < |order| :: order[i](a) == order[i](b))
      || exists i | 0 <= i < |order| :: order[i](a) < order[i](b) && forall j | 0 <= j < i :: order[j](a) == order[j](b)
  {
    if order != [] {
      var rest := order[1..];
      FirstOptionDecides(rest, a, b);
      assert forall i | 0 <= i < |rest| :: rest[i] == order[i + 1];
      if order[0](a) == order[0](b) {
        if i :| 0 <= i < |rest| && rest[i](a) < rest[i](b) && forall j | 0 <= j < i :: rest[j](a) == rest[j](b) {
          assert order[i + 1](a) < order[i + 1](b);
          assert forall j | 0 <= j < i + 1 :: order[j](a) == order[j](b);
        }
        if i :| 0 <= i < |order| && order[i](a) < order[i](b) && forall j | 0 <= j < i :: order[j](a) == order[j](b) {
          assert rest[i - 1](a) < rest[i - 1](b);
        }
      }
    }
  }

  // A window skips the offset and then takes as many rows as the limit says, or all if none is set.
  lemma WindowTakes<R>(rows: seq<R>, offset: nat, limit: nat)
    ensures var window, left := Window(rows, offset, limit), if offset <= |rows| then |rows| - offset else 0;
      && |window| == (if limit > 0 && limit < left then limit else left)
      && forall i | 0 <= i < |window| :: window[i] == rows[offset + i]
  {
  }

  // ---- Primary keys ----

  ghost predicate UniqueIDs(rows: seq<AccountRow>) {
    && (forall i | 0 <= i < |rows| :: AccountID(rows[i]).Some?)
    && (forall i, j | 0 <= i < j < |rows| :: AccountID(rows[i]) != AccountID(rows[j]))
  }

  // A primary key matches at most one row.
  lemma {:induction false} OneMatch(rows: seq<AccountRow>, ps: seq<AccountPred>, id: int)
    requires UniqueIDs(rows) && IDIn([id]) in ps
    ensures |MatchingAccounts(rows, ps)| <= 1
    ensures forall r :: r in MatchingAccounts(rows, ps) ==> AccountID(r) == Some(id)
  {
    if rows != [] {
      OneMatch(rows[1..], ps, id);
      if HoldsAll(ps, rows[0]) {
        assert AccountID(rows[0]) == Some(id) by {
          var i :| 0 <= i < |ps| && ps[i] == IDIn([id]);
          assert Holds(ps[i], rows[0]);
        }
        var rest := MatchingAccounts(rows[1..], ps);
        if rest != [] {
          MatchedRow(rows[1..], ps, rest[0]);
        }
      }
    }
  }

  lemma {:induction false} OneLeafMatch(rows: seq<LeafRow>, ps: seq<LeafPred>, id: int)
    requires UniqueLeafIDs(rows) && LeafIDIn([id]) in ps
    ensures |MatchingLeaves(rows, ps)| <= 1
    ensures forall r :: r in MatchingLeaves(rows, ps) ==> LeafInt(r, Id) == Some(id)
  {
    if rows != [] {
      OneLeafMatch(rows[1..], ps, id);
      if LeafHoldsAll(ps, rows[0]) {
        assert LeafInt(rows[0], Id) == Some(id) by {
          var i :| 0 <= i < |ps| && ps[i] == LeafIDIn([id]);
          assert LeafHolds(ps[i], rows[0]);
        }
        var rest := MatchingLeaves(rows[1..], ps);
        if rest != [] {
          MatchedLeaf(rows[1..], ps, rest[0]);
        }
      }
    }
  }

  lemma Twice<R>(xs: seq<R>, i: nat, j: nat)
    requires i < j < |xs| && xs[i] == xs[j]
    ensures multiset(xs)[xs[i]] >= 2
  {
    assert xs == xs[..j] + xs[j..];
    assert xs[..j][i] in xs[..j] && xs[j..][0] in xs[j..];
  }

  lemma {:induction false} AtMostOnce(rows: seq<AccountRow>, r: AccountRow)
    requires UniqueIDs(rows)
    ensures multiset(rows)[r] <= 1
  {
    if rows != [] {
      AtMostOnce(rows[1..], r);
      assert rows == [rows[0]] + rows[1..];
    }
  }

  // A database answer never repeats a primary key.
  lemma AnswerIDs(
    table: seq<AccountRow>, rows: seq<AccountRow>, ps: seq<AccountPred>, order: Order<AccountRow>,
    offset: nat, limit: nat
  )
    requires UniqueIDs(table) && Answers(rows, MatchingAccounts(table, ps), order, offset, limit)
    ensures UniqueIDs(rows)
  {
    hide MatchingAccounts, AccountID, HoldsAll, LexLe;
    var full :| Arranges(full, MatchingAccounts(table, ps), order) && rows == Window(full, offset, limit);
    forall i | 0 <= i < |full| ensures AccountID(full[i]).Some? && full[i] in table {
      assert full[i] in multiset(full);
      MatchedRow(table, ps, full[i]);
    }
    forall i, j | 0 <= i < j < |full| ensures AccountID(full[i]) != AccountID(full[j]) {
      var a :| 0 <= a < |table| && table[a] == full[i];
      var b :| 0 <= b < |table| && table[b] == full[j];
      if a == b {
        Twice(full, i, j);
        MatchingCount(table, ps, full[i]);
        AtMostOnce(table, full[i]);
      } else if a < b {
        assert AccountID(table[a]) != AccountID(table[b]);
      } else {
        assert AccountID(table[b]) != AccountID(table[a]);
      }
    }
  }
}
