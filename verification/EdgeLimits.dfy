// A nested limit or offset on the other edges: usage logs, join rows, proxies and parents.
module EdgeLimits {
  import opened Wrappers
  import opened Leaves
  import opened AccountEntity
  import opened QueryModel
  import opened EagerSpec
  import opened Selection
  import opened EagerRefinement
  import opened NestedLimits

  // Every key's share of a windowed batch answers the query for that key alone exactly if the batch fits the window
  // or has one key.
  lemma SharesExact<R(!new)>(
    full: seq<R>, keys: seq<Option<int>>, offset: nat, limit: nat, ids: seq<int>, alone: map<int, seq<R>>,
      order: Order<R>)
    requires |full| == |keys| && Keyed(keys) && Windowed(offset, limit) && forall k | Some(k) in keys :: k in ids
    requires forall k | k in ids :: k in alone && Arranges(Select(full, keys, k), alone[k], order)
    ensures |Window(keys, offset, limit)| == |Window(full, offset, limit)|
    ensures
      (forall k | k in ids ::
         Answers(Select(Window(full, offset, limit), Window(keys, offset, limit), k), alone[k], order, offset, limit))
      <==> |full| <= offset + limit || AllOneKey(keys)
  {
    hide Select, Window, Arranges, AllOneKey, Keyed;
    if |full| <= offset + limit || AllOneKey(keys) {
      forall k | k in ids
        ensures |Window(keys, offset, limit)| == |Window(full, offset, limit)|
        ensures Answers(Select(Window(full, offset, limit), Window(keys, offset, limit), k), alone[k], order, offset,
          limit)
      {
        RightShares(full, keys, offset, limit, k);
      }
      RightShares(full, keys, offset, limit, 0);
    } else {
      var k := WrongShare(full, keys, offset, limit);
      var share := Select(Window(full, offset, limit), Window(keys, offset, limit), k);
      forall other | Arranges(other, alone[k], order) ensures share != Window(other, offset, limit) {
        SameSize(other, Select(full, keys, k), alone[k], order);
        WindowSizes(other, Select(full, keys, k), offset, limit);
      }
    }
  }

  lemma WindowSizes<R, S>(a: seq<R>, b: seq<S>, offset: nat, limit: nat)
    requires |a| == |b|
    ensures |Window(a, offset, limit)| == |Window(b, offset, limit)|
  {
  }

  // ---- Usage logs and join rows ----

  function ColumnOf(rows: seq<LeafRow>, c: LeafColumn): (keys: seq<Option<int>>)
    ensures |keys| == |rows|
  {
    seq(|rows|, i requires 0 <= i < |rows| => LeafInt(rows[i], c))
  }

  lemma WindowOfColumn(full: seq<LeafRow>, c: LeafColumn, offset: nat, limit: nat)
    ensures Window(ColumnOf(full, c), offset, limit) == ColumnOf(Window(full, offset, limit), c)
  {
  }

  // The keys read back are those of the rows.
  lemma KeysRead(columns: seq<LeafColumn>, rows: seq<LeafRow>, c: LeafColumn)
    requires c in columns && forall r | r in rows :: LeafInt(r, c).Some?
    ensures LeafKeys(ScanLeaves(columns, rows), c) == ColumnOf(rows, c)
  {
    forall i | 0 <= i < |rows| ensures LeafKeys(ScanLeaves(columns, rows), c)[i] == LeafInt(rows[i], c) {
      assert rows[i] in rows;
      LeafKeyScanned(columns, rows[i], c);
    }
  }

  ghost predicate OneOf(batch: seq<LeafRow>, c: LeafColumn) {
    forall a, b | a in batch && b in batch :: LeafInt(a, c) == LeafInt(b, c)
  }

  // The batch and any arrangement of it.
  lemma ArrangedBatch(full: seq<LeafRow>, batch: seq<LeafRow>, order: Order<LeafRow>, c: LeafColumn)
    requires Arranges(full, batch, order)
    ensures |full| == |batch| && (forall r :: r in full <==> r in batch)
    ensures AllOneKey(ColumnOf(full, c)) <==> OneOf(batch, c)
  {
    SameLength(full, batch);
    forall r ensures r in full <==> r in batch {
      assert r in multiset(full) <==> r in multiset(batch);
    }
    if AllOneKey(ColumnOf(full, c)) {
      forall a, b | a in batch && b in batch ensures LeafInt(a, c) == LeafInt(b, c) {
        var i :| 0 <= i < |full| && full[i] == a;
        var j :| 0 <= j < |full| && full[j] == b;
        assert ColumnOf(full, c)[i] == ColumnOf(full, c)[j];
      }
    } else {
      var i, j :| 0 <= i < j < |full| && ColumnOf(full, c)[i] != ColumnOf(full, c)[j];
      assert full[i] in batch && full[j] in batch;
    }
  }

  lemma OwnedShareArranges(db: Database, q: LeafQueryValue, ids: seq<int>, full: seq<LeafRow>, id: int)
    requires Arranges(full, MatchingLeaves(db.Rows(q.table), OwnedQuery(q, ids).preds), q.order) && id in ids
    ensures Arranges(Select(full, ColumnOf(full, AccountId), id),
                     MatchingLeaves(db.Rows(q.table), OwnedQuery(q, [id]).preds), q.order)
  {
    var key := r => LeafInt(r, AccountId);
    RestrictedLeaves(db.Rows(q.table), q.preds, AccountIn(ids), AccountIn([id]), key, id);
    SelectArranges(full, ColumnOf(full, AccountId), key, id, MatchingLeaves(db.Rows(q.table), OwnedQuery(q, ids).preds),
                   MatchingLeaves(db.Rows(q.table), OwnedQuery(q, [id]).preds), q.order);
  }

  ghost predicate OwnedTable(db: Database, q: LeafQueryValue) {
    && KeysListed(q.table, q.columns) && (q.table.UsageLogs? || q.table.AccountGroups?)
    && forall r | r in db.Rows(q.table) :: LeafInt(r, AccountId).Some?
  }

  // What a node is given is its share of the windowed batch, and naive exactly if that is an answer for it alone.
  lemma OwnedShare(db: Database, q: LeafQueryValue, ids: seq<int>, full: seq<LeafRow>, v: AccountV, edge: seq<Leaf>)
    requires OwnedTable(db, q)
    requires Arranges(full, MatchingLeaves(db.Rows(q.table), OwnedQuery(q, ids).preds), q.order)
    requires var columns, rows := LeafSpecColumns(OwnedQuery(q, ids)), Window(full, q.offset, q.limit);
      var leaves := ScanLeaves(columns, rows);
      edge == Select(leaves, LeafKeys(leaves, AccountId), v.fields.ints.id)
    ensures |Window(ColumnOf(full, AccountId), q.offset, q.limit)| == |Window(full, q.offset, q.limit)|
    ensures NaiveOwned(db, Some(q), v, edge) <==>
      var share := Select(Window(full, q.offset, q.limit), Window(ColumnOf(full, AccountId), q.offset, q.limit),
                          v.fields.ints.id);
      Answers(share, MatchingLeaves(db.Rows(q.table), OwnedQuery(q, [v.fields.ints.id]).preds), q.order, q.offset,
        q.limit)
  {
    hide Select, Window, MatchingLeaves, Arranges, Answers, LeafKeys;
    var id, columns, rows := v.fields.ints.id, LeafSpecColumns(OwnedQuery(q, ids)), Window(full, q.offset, q.limit);
    BatchRows(db, OwnedQuery(q, ids), full);
    LeafColumnsCover(q, ids);
    WindowMembers(full, q.offset, q.limit);
    KeysRead(columns, rows, AccountId);
    WindowOfColumn(full, AccountId, q.offset, q.limit);
    SelectLeafRows(columns, rows, ColumnOf(rows, AccountId), id);
    RowsOfScanned(columns, Select(rows, ColumnOf(rows, AccountId), id));
    assert LeafSpecColumns(OwnedQuery(q, [id])) == columns;
  }

  lemma WindowMembers<R>(full: seq<R>, offset: nat, limit: nat)
    ensures forall r | r in Window(full, offset, limit) :: r in full
  {
  }

  lemma BatchRows(db: Database, q: LeafQueryValue, full: seq<LeafRow>)
    requires Arranges(full, MatchingLeaves(db.Rows(q.table), q.preds), q.order)
    ensures forall r | r in full :: r in db.Rows(q.table) && LeafHoldsAll(q.preds, r)
  {
    forall r | r in full ensures r in db.Rows(q.table) && LeafHoldsAll(q.preds, r) {
      assert r in multiset(full) && r in multiset(MatchingLeaves(db.Rows(q.table), q.preds));
      MatchedLeaf(db.Rows(q.table), q.preds, r);
    }
  }

  // Under a limit or an offset every node gets the usage logs or join rows that its own query may return exactly if the
  // batch fits the window or belongs to one account.
  lemma OwnedWindowExact(
    db: Database, q: LeafQueryValue, nodes: seq<AccountV>, rows: seq<LeafRow>, edges: seq<seq<Leaf>>)
    requires OwnedTable(db, q) && Windowed(q.offset, q.limit) && |edges| == |nodes| && nodes != []
    requires forall j | 0 <= j < |nodes| :: IsLast(NodeIDs(nodes), j)
    requires BatchedOwned(db, Some(q), nodes, Some(rows), edges)
    ensures var batch := MatchingLeaves(db.Rows(q.table), OwnedQuery(q, NodeIDs(nodes)).preds);
      (forall i | 0 <= i < |nodes| :: NaiveOwned(db, Some(q), nodes[i], edges[i]))
      <==> |batch| <= q.offset + q.limit || OneOf(batch, AccountId)
  {
    hide Select, Window, MatchingLeaves, Arranges, ScanLeaves, LeafKeys, NaiveOwned, LeafSpecColumns, Keyed, AllOneKey,
      OneOf;
    hide OwnedTable, LeafHoldsAll;
    var ids := NodeIDs(nodes);
    var wide := OwnedQuery(q, ids);
    var batch := MatchingLeaves(db.Rows(q.table), wide.preds);
    var full :| Arranges(full, batch, q.order) && rows == Window(full, q.offset, q.limit);
    var keys := ColumnOf(full, AccountId);
    ArrangedBatch(full, batch, q.order, AccountId);
    OwnedKeys(db, q, ids, full);
    var alone := map id | id in ids :: MatchingLeaves(db.Rows(q.table), OwnedQuery(q, [id]).preds);
    forall id | id in ids ensures Arranges(Select(full, keys, id), alone[id], q.order) {
      OwnedShareArranges(db, q, ids, full, id);
    }
    SharesExact(full, keys, q.offset, q.limit, ids, alone, q.order);
    forall i | 0 <= i < |nodes|
      ensures NaiveOwned(db, Some(q), nodes[i], edges[i]) <==>
        Answers(Select(rows, Window(keys, q.offset, q.limit), ids[i]), alone[ids[i]], q.order, q.offset, q.limit)
    {
      OwnedShare(db, q, ids, full, nodes[i], edges[i]);
    }
  }

  lemma OwnedKeys(db: Database, q: LeafQueryValue, ids: seq<int>, full: seq<LeafRow>)
    requires Arranges(full, MatchingLeaves(db.Rows(q.table), OwnedQuery(q, ids).preds), q.order)
    ensures Keyed(ColumnOf(full, AccountId)) && forall k | Some(k) in ColumnOf(full, AccountId) :: k in ids
  {
    BatchRows(db, OwnedQuery(q, ids), full);
    forall i | 0 <= i < |full| ensures LeafInt(full[i], AccountId).Some? && LeafInt(full[i], AccountId).value in ids {
      assert full[i] in full;
      LeafHoldsAllMore(q.preds, AccountIn(ids), full[i]);
    }
  }

  // ---- Edges to one ----

  // What comes before a key's share of the window, the share, and what comes after.
  lemma ShareParts<R>(full: seq<R>, keys: seq<Option<int>>, offset: nat, limit: nat, k: int)
    returns (before: seq<R>, after: seq<R>)
    requires |full| == |keys|
    ensures |Window(keys, offset, limit)| == |Window(full, offset, limit)|
    ensures Select(full, keys, k)
         == before + Select(Window(full, offset, limit), Window(keys, offset, limit), k) + after
    ensures before == if offset <= |full| then Select(full[..offset], keys[..offset], k) else Select(full, keys, k)
    ensures |before| <= offset
  {
    if offset <= |full| {
      var rest, restKeys := full[offset..], keys[offset..];
      SelectSplit(full, keys, offset, k);
      before := Select(full[..offset], keys[..offset], k);
      SelectLength(full[..offset], keys[..offset], k);
      if limit == 0 || |rest| <= limit {
        after := [];
      } else {
        SelectSplit(rest, restKeys, limit, k);
        after := Select(rest[limit..], restKeys[limit..], k);
      }
    } else {
      SelectLength(full, keys, k);
      before, after := Select(full, keys, k), [];
    }
  }

  lemma ShareOfWindow<R>(full: seq<R>, keys: seq<Option<int>>, offset: nat, limit: nat, k: int)
    requires |full| == |keys|
    ensures |Window(keys, offset, limit)| == |Window(full, offset, limit)|
    ensures |Select(Window(full, offset, limit), Window(keys, offset, limit), k)| <= |Select(full, keys, k)|
  {
    hide Select, Window;
    var before, after := ShareParts(full, keys, offset, limit, k);
  }

  // A batch with one row at most per key is of one key only if it is of one row.
  lemma UniqueShares<R>(full: seq<R>, keys: seq<Option<int>>)
    requires |full| == |keys| && Keyed(keys) && AllOneKey(keys)
    requires forall k | Some(k) in keys :: |Select(full, keys, k)| <= 1
    ensures |full| <= 1
  {
    if full != [] {
      var k := keys[0].value;
      assert keys[0] in keys;
      OneKeyShare(full, keys, k);
    }
  }

  // How many rows a limit leaves alone, or an offset keeps away.
  function Room(offset: nat, limit: nat): nat { if offset == 0 then limit else offset }

  // Where no key has two rows, every share answers the query for its key alone exactly if all rows fit; under an offset
  // no key has a row to return.
  lemma UniqueSharesExact<R(!new)>(
    full: seq<R>, keys: seq<Option<int>>, offset: nat, limit: nat, ids: seq<int>, alone: map<int, seq<R>>,
      order: Order<R>)
    requires |full| == |keys| && Keyed(keys) && (forall k | Some(k) in keys :: k in ids) && (offset > 0 || limit > 0)
    requires forall k | k in ids ::
               k in alone && Arranges(Select(full, keys, k), alone[k], order) && |Select(full, keys, k)| <= 1
    ensures |Window(keys, offset, limit)| == |Window(full, offset, limit)|
    ensures
      (forall k | k in ids ::
         Answers(Select(Window(full, offset, limit), Window(keys, offset, limit), k), alone[k], order, offset, limit))
      <==> |full| <= Room(offset, limit)
  {
    hide Select, Window, Arranges, AllOneKey, Answers;
    ShareOfWindow(full, keys, offset, limit, 0);
    if offset == 0 {
      hide Keyed;
      SharesExact(full, keys, offset, limit, ids, alone, order);
      if AllOneKey(keys) {
        UniqueShares(full, keys);
      }
    } else {
      forall k | k in ids
        ensures Answers(Select(Window(full, offset, limit), Window(keys, offset, limit), k), alone[k], order, offset,
                        limit)
          <==> Select(Window(full, offset, limit), Window(keys, offset, limit), k) == []
      {
        NothingOffset(Select(full, keys, k), alone[k], order, offset, limit);
      }
      if |full| <= offset {
        EmptyWindow(full, keys, offset, limit);
      } else {
        FirstShare(full, keys, offset, limit);
      }
    }
  }

  lemma EmptyWindow<R>(full: seq<R>, keys: seq<Option<int>>, offset: nat, limit: nat)
    requires |full| == |keys| && |full| <= offset
    ensures |Window(keys, offset, limit)| == |Window(full, offset, limit)|
    ensures forall k :: Select(Window(full, offset, limit), Window(keys, offset, limit), k) == []
  {
  }

  // The key of the first row that an offset lets through has a share.
  lemma FirstShare<R>(full: seq<R>, keys: seq<Option<int>>, offset: nat, limit: nat)
    requires |full| == |keys| && Keyed(keys) && offset < |full|
    ensures |Window(keys, offset, limit)| == |Window(full, offset, limit)|
    ensures Some(keys[offset].value) in keys
    ensures Select(Window(full, offset, limit), Window(keys, offset, limit), keys[offset].value) != []
  {
    var k := keys[offset].value;
    assert keys[offset] == Some(k);
    assert Window(keys, offset, limit)[0] == Some(k);
    SelectLength(Window(full, offset, limit), Window(keys, offset, limit), k);
  }

  // A query with no more rows than its offset returns none.
  lemma NothingOffset<R(!new)>(full: seq<R>, matching: seq<R>, order: Order<R>, offset: nat, limit: nat)
    requires Arranges(full, matching, order) && |full| <= offset
    ensures forall rows :: Answers(rows, matching, order, offset, limit) <==> rows == []
  {
    hide Arranges;
    assert Window(full, offset, limit) == [];
    forall other | Arranges(other, matching, order) ensures Window(other, offset, limit) == [] {
      SameSize(other, full, matching, order);
    }
  }

  lemma ProxyShareArranges(db: Database, q: LeafQueryValue, ids: seq<int>, full: seq<LeafRow>, k: int)
    requires UniqueLeafIDs(db.Rows(q.table)) && k in ids
    requires Arranges(full, MatchingLeaves(db.Rows(q.table), ProxyQuery(q, ids).preds), q.order)
    ensures Arranges(Select(full, ColumnOf(full, Id), k),
                     MatchingLeaves(db.Rows(q.table), ProxyQuery(q, [k]).preds), q.order)
    ensures |Select(full, ColumnOf(full, Id), k)| <= 1
  {
    var key, single := r => LeafInt(r, Id), MatchingLeaves(db.Rows(q.table), ProxyQuery(q, [k]).preds);
    RestrictedLeaves(db.Rows(q.table), q.preds, LeafIDIn(ids), LeafIDIn([k]), key, k);
    SelectArranges(full, ColumnOf(full, Id), key, k, MatchingLeaves(db.Rows(q.table), ProxyQuery(q, ids).preds),
                   single, q.order);
    HoldsLast(q.preds, k);
    OneLeafMatch(db.Rows(q.table), ProxyQuery(q, [k]).preds, k);
    SameLength(Select(full, ColumnOf(full, Id), k), single);
  }

  lemma HoldsLast(ps: seq<LeafPred>, k: int)
    ensures forall r | LeafHoldsAll(ps + [LeafIDIn([k])], r) :: LeafInt(r, Id) == Some(k)
  {
    forall r | LeafHoldsAll(ps + [LeafIDIn([k])], r) ensures LeafInt(r, Id) == Some(k) {
      LeafHoldsAllMore(ps, LeafIDIn([k]), r);
    }
  }

  lemma ProxyKeysAsked(db: Database, q: LeafQueryValue, ids: seq<int>, full: seq<LeafRow>)
    requires Arranges(full, MatchingLeaves(db.Rows(q.table), ProxyQuery(q, ids).preds), q.order)
    ensures Keyed(ColumnOf(full, Id)) && forall k | Some(k) in ColumnOf(full, Id) :: k in ids
  {
    BatchRows(db, ProxyQuery(q, ids), full);
    forall i | 0 <= i < |full| ensures LeafInt(full[i], Id).Some? && LeafInt(full[i], Id).value in ids {
      assert full[i] in full;
      LeafHoldsAllMore(q.preds, LeafIDIn(ids), full[i]);
    }
  }

  // What a node is given is its share of the windowed batch, one proxy at most.
  lemma ProxyShare(db: Database, t: QueryTree, ids: seq<int>, full: seq<LeafRow>, v: AccountV)
    requires OnTable(t.proxy, Proxies) && t.proxy.Some? && v.fields.ints.proxyID.Some?
      && v.fields.ints.proxyID.value in ids
    requires UniqueLeafIDs(db.proxies)
    requires var q := t.proxy.value;
      Arranges(full, MatchingLeaves(db.proxies, ProxyQuery(q, ids).preds), q.order)
    requires var q := t.proxy.value;
      var leaves := ScanLeaves(LeafSpecColumns(q), Window(full, q.offset, q.limit));
      v.edges.proxy == ToOne(leaves, LeafKeys(leaves, Id), v.fields.ints.proxyID)
    ensures var q, k := t.proxy.value, v.fields.ints.proxyID.value;
      && |Window(ColumnOf(full, Id), q.offset, q.limit)| == |Window(full, q.offset, q.limit)|
      && (NaiveProxy(db, t, v) <==>
            Answers(Select(Window(full, q.offset, q.limit), Window(ColumnOf(full, Id), q.offset, q.limit), k),
                    MatchingLeaves(db.proxies, ProxyQuery(q, [k]).preds), q.order, q.offset, q.limit))
  {
    hide Select, Window, MatchingLeaves, Arranges, Answers, LeafKeys, UniqueLeafIDs;
    var q, k := t.proxy.value, v.fields.ints.proxyID.value;
    var columns, rows := LeafSpecColumns(q), Window(full, q.offset, q.limit);
    BatchRows(db, ProxyQuery(q, ids), full);
    ProxyKeysAsked(db, q, ids, full);
    AllSet(full);
    LeafColumnsCover(q, []);
    WindowMembers(full, q.offset, q.limit);
    KeysRead(columns, rows, Id);
    WindowOfColumn(full, Id, q.offset, q.limit);
    SelectLeafRows(columns, rows, ColumnOf(rows, Id), k);
    ShareOfWindow(full, ColumnOf(full, Id), q.offset, q.limit, k);
    ProxyShareArranges(db, q, ids, full, k);
    var share := Select(rows, ColumnOf(rows, Id), k);
    assert share == (if v.edges.proxy.Some? then [v.edges.proxy.value.row] else []) by {
      if share != [] {
        assert share == [share[0]];
      }
    }
    assert LeafSpecColumns(ProxyQuery(q, [k])) == columns;
  }

  lemma AllSet(full: seq<LeafRow>)
    requires Keyed(ColumnOf(full, Id))
    ensures forall r | r in full :: LeafInt(r, Id).Some?
  {
    forall r | r in full ensures LeafInt(r, Id).Some? {
      var i :| 0 <= i < |full| && full[i] == r;
      assert ColumnOf(full, Id)[i] == LeafInt(r, Id);
    }
  }

  // Under a limit, an offset or both every node gets the proxy that its own query may return exactly if all matching
  // proxies fit.
  lemma ProxyWindowExact(db: Database, t: QueryTree, run: Run)
    requires UniqueLeafIDs(db.proxies) && OnTable(t.proxy, Proxies) && BatchedProxy(db, t, run) && run.proxies.Some?
    requires t.proxy.Some? && (t.proxy.value.offset > 0 || t.proxy.value.limit > 0)
    ensures var q := t.proxy.value;
      var batch := MatchingLeaves(db.proxies, ProxyQuery(q, DistinctKeys(ProxyKeys(run.nodes))).preds);
      (forall i | 0 <= i < |run.nodes| :: NaiveProxy(db, t, run.nodes[i])) <==> |batch| <= Room(q.offset, q.limit)
  {
    hide Select, Window, MatchingLeaves, Arranges, ScanLeaves, LeafKeys, NaiveProxy, LeafSpecColumns, Keyed, AllOneKey,
      ToOne;
    hide DistinctKeys, UniqueLeafIDs;
    var q, asked := t.proxy.value, ProxyKeys(run.nodes);
    var ids := DistinctKeys(asked);
    DistinctKeysExact(asked);
    EveryKey(ids, asked);
    SameLeafColumns(q, ids);
    var batch := MatchingLeaves(db.proxies, ProxyQuery(q, ids).preds);
    var full :| Arranges(full, batch, q.order) && run.proxies.value == Window(full, q.offset, q.limit);
    var keys, rows := ColumnOf(full, Id), run.proxies.value;
    ArrangedBatch(full, batch, q.order, Id);
    ProxyKeysAsked(db, q, ids, full);
    var alone := map k | k in ids :: MatchingLeaves(db.proxies, ProxyQuery(q, [k]).preds);
    forall k | k in ids ensures Arranges(Select(full, keys, k), alone[k], q.order) && |Select(full, keys, k)| <= 1 {
      ProxyShareArranges(db, q, ids, full, k);
    }
    UniqueSharesExact(full, keys, q.offset, q.limit, ids, alone, q.order);
    forall i | 0 <= i < |run.nodes| && asked[i].Some?
      ensures NaiveProxy(db, t, run.nodes[i]) <==>
        Answers(Select(rows, Window(keys, q.offset, q.limit), asked[i].value), alone[asked[i].value], q.order,
          q.offset, q.limit)
    {
      ProxyShare(db, t, ids, full, run.nodes[i]);
    }
    forall i | 0 <= i < |run.nodes| && asked[i].None? ensures NaiveProxy(db, t, run.nodes[i]) {
      NoProxy(db, t, run, i);
    }
  }

  lemma NoProxy(db: Database, t: QueryTree, run: Run, i: nat)
    requires BatchedProxy(db, t, run) && run.proxies.Some? && i < |run.nodes| && ProxyKeys(run.nodes)[i].None?
    ensures NaiveProxy(db, t, run.nodes[i])
  {
  }

  lemma EveryKey(ids: seq<int>, keys: seq<Option<int>>)
    requires forall k :: k in ids <==> Some(k) in keys
    ensures forall k | k in ids :: exists i | 0 <= i < |keys| :: keys[i] == Some(k)
    ensures forall i | 0 <= i < |keys| && keys[i].Some? :: keys[i].value in ids
  {
    forall i | 0 <= i < |keys| && keys[i].Some? ensures keys[i].value in ids {
      var k := keys[i].value;
      assert keys[i] == Some(k) && Some(k) in keys;
    }
  }

  lemma SameLeafColumns(q: LeafQueryValue, ids: seq<int>)
    ensures LeafSpecColumns(ProxyQuery(q, ids)) == LeafSpecColumns(q)
  {
  }

  function AccountIDs(rows: seq<AccountRow>): (keys: seq<Option<int>>)
    ensures |keys| == |rows|
  {
    seq(|rows|, i requires 0 <= i < |rows| => AccountID(rows[i]))
  }

  lemma WindowOfIDs(full: seq<AccountRow>, offset: nat, limit: nat)
    ensures Window(AccountIDs(full), offset, limit) == AccountIDs(Window(full, offset, limit))
  {
  }

  lemma ParentShareArranges(db: Database, tp: QueryTree, ids: seq<int>, full: seq<AccountRow>, k: int)
    requires Consistent(db) && k in ids
    requires Arranges(full, MatchingAccounts(db.accounts, ParentQuery(tp, ids).preds), tp.order)
    ensures Arranges(Select(full, AccountIDs(full), k), MatchingAccounts(db.accounts, ParentQuery(tp, [k]).preds),
      tp.order)
    ensures |Select(full, AccountIDs(full), k)| <= 1
  {
    var single := MatchingAccounts(db.accounts, ParentQuery(tp, [k]).preds);
    RestrictedMatching(db.accounts, tp.preds, IDIn(ids), IDIn([k]), AccountID, k);
    SelectArranges(full, AccountIDs(full), AccountID, k, MatchingAccounts(db.accounts, ParentQuery(tp, ids).preds),
                   single, tp.order);
    OneMatch(db.accounts, ParentQuery(tp, [k]).preds, k);
    SameLength(Select(full, AccountIDs(full), k), single);
  }

  lemma ParentIDsAsked(db: Database, tp: QueryTree, ids: seq<int>, full: seq<AccountRow>)
    requires Arranges(full, MatchingAccounts(db.accounts, ParentQuery(tp, ids).preds), tp.order)
    ensures Keyed(AccountIDs(full)) && forall k | Some(k) in AccountIDs(full) :: k in ids
  {
    var matching := MatchingAccounts(db.accounts, ParentQuery(tp, ids).preds);
    forall i | 0 <= i < |full| ensures AccountID(full[i]).Some? && AccountID(full[i]).value in ids {
      assert full[i] in multiset(full) && full[i] in multiset(matching);
      MatchedRow(db.accounts, ParentQuery(tp, ids).preds, full[i]);
      HoldsAllMore(tp.preds, IDIn(ids), full[i]);
    }
  }

  // The keys of the parents read back are their rows' ids.
  lemma ParentKeysRead(db: Database, q: QueryTree, run: Run)
    requires Consistent(db) && Batched(db, q, run)
    ensures NodeKeys(run.nodes) == AccountIDs(NodeRows(run.nodes))
  {
    hide Batched, ScannedBy, AccountID, Consistent, AccountAnswer;
    BatchedAnswer(db, q, run);
    NodesAreRows(db, q, NodeRows(run.nodes));
    forall j | 0 <= j < |run.nodes| ensures NodeKeys(run.nodes)[j] == AccountID(NodeRows(run.nodes)[j]) {
      assert NodeRows(run.nodes)[j] in NodeRows(run.nodes);
      ScannedKeys(db, q, run.nodes[j]);
    }
  }

  // What a node is given is its share of the windowed batch, one parent at most.
  lemma ParentShare(db: Database, t: QueryTree, ids: seq<int>, parents: Run, full: seq<AccountRow>, v: AccountV)
    requires Consistent(db) && t.parent.Some? && v.fields.ints.parentAccountID.Some?
    requires v.fields.ints.parentAccountID.value in ids && Batched(db, ParentQuery(t.parent.value, ids), parents)
    requires Shaped(t.parent.value) && NestedUnlimited(t.parent.value)
    requires var tp := t.parent.value;
      && Arranges(full, MatchingAccounts(db.accounts, ParentQuery(tp, ids).preds), tp.order)
      && NodeRows(parents.nodes) == Window(full, tp.offset, tp.limit)
    requires v.edges.parent == ToOne(parents.nodes, NodeKeys(parents.nodes), v.fields.ints.parentAccountID)
    ensures var tp, k := t.parent.value, v.fields.ints.parentAccountID.value;
      && |Window(AccountIDs(full), tp.offset, tp.limit)| == |Window(full, tp.offset, tp.limit)|
      && (NaiveParent(db, t, v) <==>
            Answers(Select(Window(full, tp.offset, tp.limit), Window(AccountIDs(full), tp.offset, tp.limit), k),
                    MatchingAccounts(db.accounts, ParentQuery(tp, [k]).preds), tp.order, tp.offset, tp.limit))
  {
    hide Select, Window, MatchingAccounts, Arranges, Answers, Batched, Naive, Consistent, Shaped, NestedUnlimited,
      AccountIDs;
    var tp, k := t.parent.value, v.fields.ints.parentAccountID.value;
    var neighbors, keys := parents.nodes, NodeKeys(parents.nodes);
    ParentKeysRead(db, ParentQuery(tp, ids), parents);
    WindowOfIDs(full, tp.offset, tp.limit);
    SelectRows(neighbors, keys, k);
    SelectMembers(neighbors, keys, k);
    ShareOfWindow(full, AccountIDs(full), tp.offset, tp.limit, k);
    ParentShareArranges(db, tp, ids, full, k);
    ParentQueryFits(tp, ids);
    BatchedIsNaive(db, ParentQuery(tp, ids), parents);
    var found := Select(neighbors, keys, k);
    if found != [] {
      assert found == [found[0]] && found[0] in found;
      NaiveIgnoresPreds(db, ParentQuery(tp, ids), ParentQuery(tp, [k]), found[0]);
    }
    assert NodeRows(found) == if v.edges.parent.Some? then [v.edges.parent.value.row] else [];
  }

  lemma ParentQueryFits(tp: QueryTree, ids: seq<int>)
    requires Shaped(tp) && NestedUnlimited(tp)
    ensures Shaped(ParentQuery(tp, ids)) && NestedUnlimited(ParentQuery(tp, ids))
  {
  }

  // Under a limit, an offset or both every node gets the parent that its own query may return exactly if all matching
  // parents fit.
  lemma ParentWindowExact(db: Database, t: QueryTree, run: Run)
    requires Consistent(db) && BatchedParent(db, t, run) && t.parent.Some? && run.parents.Some?
    requires t.parent.value.offset > 0 || t.parent.value.limit > 0
    requires Shaped(t.parent.value) && NestedUnlimited(t.parent.value)
    ensures var tp := t.parent.value;
      var batch := MatchingAccounts(db.accounts, ParentQuery(tp, DistinctKeys(ParentKeys(run.nodes))).preds);
      (forall i | 0 <= i < |run.nodes| :: NaiveParent(db, t, run.nodes[i])) <==> |batch| <= Room(tp.offset, tp.limit)
  {
    hide Select, Window, MatchingAccounts, Arranges, NaiveParent, Keyed, AllOneKey, ToOne, DistinctKeys, Consistent,
      Batched;
    hide Shaped, NestedUnlimited, AccountIDs, Answers, AccountAnswer, NodeRows;
    var tp, asked := t.parent.value, ParentKeys(run.nodes);
    var ids, rows := DistinctKeys(asked), NodeRows(run.parents.value.nodes);
    DistinctKeysExact(asked);
    EveryKey(ids, asked);
    var batch := MatchingAccounts(db.accounts, ParentQuery(tp, ids).preds);
    BatchedAnswer(db, ParentQuery(tp, ids), run.parents.value);
    var full := BeforeWindow(db, ParentQuery(tp, ids), rows);
    var keys := AccountIDs(full);
    ArrangedSize(full, batch, tp.order);
    ParentIDsAsked(db, tp, ids, full);
    var alone := map k | k in ids :: MatchingAccounts(db.accounts, ParentQuery(tp, [k]).preds);
    forall k | k in ids ensures Arranges(Select(full, keys, k), alone[k], tp.order) && |Select(full, keys, k)| <= 1 {
      ParentShareArranges(db, tp, ids, full, k);
    }
    UniqueSharesExact(full, keys, tp.offset, tp.limit, ids, alone, tp.order);
    forall i | 0 <= i < |run.nodes| && asked[i].Some?
      ensures NaiveParent(db, t, run.nodes[i]) <==>
        Answers(Select(rows, Window(keys, tp.offset, tp.limit), asked[i].value), alone[asked[i].value], tp.order,
                tp.offset, tp.limit)
    {
      ParentShare(db, t, ids, run.parents.value, full, run.nodes[i]);
    }
    forall i | 0 <= i < |run.nodes| && asked[i].None? ensures NaiveParent(db, t, run.nodes[i]) {
      NoParent(db, t, run, i);
    }
  }

  // The batch before its window.
  lemma BeforeWindow(db: Database, q: QueryTree, rows: seq<AccountRow>) returns (full: seq<AccountRow>)
    requires AccountAnswer(db, q, rows)
    ensures Arranges(full, MatchingAccounts(db.accounts, q.preds), q.order) && rows == Window(full, q.offset, q.limit)
  {
    hide Arranges, MatchingAccounts, Window;
    full :| Arranges(full, MatchingAccounts(db.accounts, q.preds), q.order) && rows == Window(full, q.offset, q.limit);
  }

  lemma ArrangedSize<R>(full: seq<R>, batch: seq<R>, order: Order<R>)
    requires Arranges(full, batch, order)
    ensures |full| == |batch|
  {
    SameLength(full, batch);
  }

  lemma NoParent(db: Database, t: QueryTree, run: Run, i: nat)
    requires BatchedParent(db, t, run) && run.parents.Some? && i < |run.nodes| && ParentKeys(run.nodes)[i].None?
    ensures NaiveParent(db, t, run.nodes[i])
  {
  }
}
