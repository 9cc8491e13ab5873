// A nested limit or offset on the groups edge, where the batch is a join.
module GroupWindows {
  import opened Wrappers
  import opened Leaves
  import opened QueryModel
  import opened EagerSpec
  import opened Selection
  import opened EagerRefinement
  import opened GroupsRefinement
  import opened NestedLimits
  import opened EdgeLimits
  import opened BothWindows

  type Pair = (int, LeafRow)

  // The primary key of the join table is an account and a group.
  ghost predicate DistinctLinks(links: seq<LeafRow>) {
    forall i, j | 0 <= i < j < |links| ::
      LeafInt(links[i], AccountId) != LeafInt(links[j], AccountId)
      || LeafInt(links[i], GroupId) != LeafInt(links[j], GroupId)
  }

  function AccountsOf(pairs: seq<Pair>): (keys: seq<Option<int>>)
    ensures |keys| == |pairs|
  {
    seq(|pairs|, i requires 0 <= i < |pairs| => Some(pairs[i].0))
  }

  lemma WindowOfAccounts(full: seq<Pair>, offset: nat, limit: nat)
    ensures Window(AccountsOf(full), offset, limit) == AccountsOf(Window(full, offset, limit))
    ensures Window(PairRows(full), offset, limit) == PairRows(Window(full, offset, limit))
  {
  }

  // ---- A join without repetitions ----

  lemma {:induction false} LinkPairOnce(link: LeafRow, groups: seq<LeafRow>, accounts: seq<int>, p: Pair)
    requires UniqueLeafIDs(groups)
    ensures multiset(PairsOfLink(link, groups, accounts))[p] <= 1
  {
    hide Links;
    if groups != [] {
      var rest := PairsOfLink(link, groups[1..], accounts);
      LinkPairOnce(link, groups[1..], accounts, p);
      LinkPairMembers(link, groups[1..], accounts, p);
      forall i | 0 <= i < |groups[1..]| ensures groups[1..][i] != groups[0] {
        assert groups[1..][i] == groups[i + 1];
      }
      assert p in rest <==> multiset(rest)[p] > 0;
    }
  }

  lemma {:induction false} JoinPairOnce(links: seq<LeafRow>, groups: seq<LeafRow>, accounts: seq<int>, p: Pair)
    requires DistinctLinks(links) && UniqueLeafIDs(groups)
    ensures multiset(JoinPairs(links, groups, accounts))[p] <= 1
  {
    hide UniqueLeafIDs, LinkedToAny;
    if links != [] {
      var here, rest := PairsOfLink(links[0], groups, accounts), JoinPairs(links[1..], groups, accounts);
      JoinPairOnce(links[1..], groups, accounts, p);
      LinkPairOnce(links[0], groups, accounts, p);
      LinkPairMembers(links[0], groups, accounts, p);
      JoinPairMembers(links[1..], groups, accounts, p);
      if p in here && p in rest {
        OtherLink(links, p);
      }
      assert p in rest <==> multiset(rest)[p] > 0;
      assert p in here <==> multiset(here)[p] > 0;
    }
  }

  // No other join row links the same account to the same group.
  lemma OtherLink(links: seq<LeafRow>, p: Pair)
    requires DistinctLinks(links) && links != []
    requires LeafInt(links[0], AccountId) == Some(p.0) && LeafInt(links[0], GroupId) == LeafInt(p.1, Id)
    ensures !HasLink(links[1..], p.0, p.1)
  {
    forall i | 0 <= i < |links[1..]| ensures !Links(links[1..][i], [p.0], p.1) {
      assert links[1..][i] == links[i + 1];
    }
  }

  lemma UniqueIsOnce(pairs: seq<Pair>)
    requires forall p :: multiset(pairs)[p] <= 1
    ensures NoRepeats(pairs)
  {
    forall i, j | 0 <= i < j < |pairs| ensures pairs[i] != pairs[j] {
      if pairs[i] == pairs[j] {
        Twice(pairs, i, j);
      }
    }
  }

  // ---- The groups an account is given, counted ----

  lemma {:induction false} ShareCount(pairs: seq<Pair>, account: int, r: LeafRow)
    ensures multiset(PairRows(Select(pairs, AccountsOf(pairs), account)))[r] == multiset(pairs)[(account, r)]
  {
    if pairs != [] {
      var rest := pairs[1..];
      ShareCount(rest, account, r);
      assert AccountsOf(pairs)[1..] == AccountsOf(rest);
      assert pairs == [pairs[0]] + rest;
      var share := Select(rest, AccountsOf(rest), account);
      assert PairRows([pairs[0]] + share) == [pairs[0].1] + PairRows(share);
      assert [] + share == share;
    }
  }

  // They are those of the account's pairs.
  lemma LinkedIsShare(pairs: seq<Pair>, account: int)
    requires IDsDecide(PairRows(pairs)) && NoRepeats(pairs)
    ensures multiset(LinkedGroups(FirstMentions(pairs, {}), pairs, account))
         == multiset(PairRows(Select(pairs, AccountsOf(pairs), account)))
  {
    hide Select, LinkedGroups, FirstMentions, Linked, IDsDecide, NoRepeats;
    var got, want := multiset(LinkedGroups(FirstMentions(pairs, {}), pairs, account)),
      multiset(PairRows(Select(pairs, AccountsOf(pairs), account)));
    forall r ensures got[r] == want[r] {
      LinkedCount(FirstMentions(pairs, {}), pairs, account, r);
      MentionCount(pairs, {}, r);
      ShareCount(pairs, account, r);
      LinkedPair(pairs, account, r);
      OnceOnly(pairs, (account, r));
      assert (account, r) in pairs <==> multiset(pairs)[(account, r)] > 0;
    }
  }

  lemma LinkedPair(pairs: seq<Pair>, account: int, r: LeafRow)
    requires IDsDecide(PairRows(pairs))
    ensures Linked(pairs, account, r) && r in PairRows(pairs) <==> (account, r) in pairs
  {
    if Linked(pairs, account, r) && r in PairRows(pairs) {
      var i :| 0 <= i < |pairs| && pairs[i].0 == account && LeafInt(pairs[i].1, Id) == LeafInt(r, Id);
      assert PairRows(pairs)[i] in PairRows(pairs);
    }
    if (account, r) in pairs {
      var i :| 0 <= i < |pairs| && pairs[i] == (account, r);
      assert PairRows(pairs)[i] == r;
    }
  }

  lemma PairCount(a: seq<LeafRow>, b: seq<LeafRow>)
    requires multiset(a) == multiset(b)
    ensures |a| == |b|
  {
    assert |multiset(a)| == |a| && |multiset(b)| == |b|;
  }

  // Where one account has all pairs it is given their groups in sequence.
  lemma {:induction false} MentionsInOrder(pairs: seq<Pair>, seen: set<Option<int>>)
    requires forall i | 0 <= i < |pairs| :: LeafInt(pairs[i].1, Id) !in seen
    requires forall i, j | 0 <= i < j < |pairs| :: LeafInt(pairs[i].1, Id) != LeafInt(pairs[j].1, Id)
    ensures FirstMentions(pairs, seen) == PairRows(pairs)
  {
    if pairs != [] {
      MentionsInOrder(pairs[1..], seen + {LeafInt(pairs[0].1, Id)});
      assert PairRows(pairs) == [pairs[0].1] + PairRows(pairs[1..]);
    }
  }

  lemma {:induction false} AllLinked(mentioned: seq<LeafRow>, pairs: seq<Pair>, account: int)
    requires forall i | 0 <= i < |mentioned| :: Linked(pairs, account, mentioned[i])
    ensures LinkedGroups(mentioned, pairs, account) == mentioned
  {
    if mentioned != [] {
      AllLinked(mentioned[1..], pairs, account);
    }
  }

  lemma OnlyAccount(pairs: seq<Pair>, account: int)
    requires IDsDecide(PairRows(pairs)) && NoRepeats(pairs)
    requires forall i | 0 <= i < |pairs| :: pairs[i].0 == account
    ensures LinkedGroups(FirstMentions(pairs, {}), pairs, account) == PairRows(pairs)
  {
    forall i, j | 0 <= i < j < |pairs| ensures LeafInt(pairs[i].1, Id) != LeafInt(pairs[j].1, Id) {
      assert PairRows(pairs)[i] in PairRows(pairs) && PairRows(pairs)[j] in PairRows(pairs);
      assert pairs[i] != pairs[j];
    }
    MentionsInOrder(pairs, {});
    forall i | 0 <= i < |pairs| ensures Linked(pairs, account, PairRows(pairs)[i]) {
      assert pairs[i].0 == account && LeafInt(pairs[i].1, Id) == LeafInt(PairRows(pairs)[i], Id);
    }
    AllLinked(PairRows(pairs), pairs, account);
  }

  // ---- A windowed join ----

  // A join without repetitions, sorted: what the database cuts.
  ghost predicate SortedJoin(full: seq<Pair>, links: seq<LeafRow>, groups: seq<LeafRow>, ids: seq<int>,
      order: Order<LeafRow>)
  {
    && ArrangesPairs(full, JoinPairs(links, groups, ids), order)
    && NoRepeats(full) && IDsDecide(PairRows(full)) && (forall p | p in full :: p.0 in ids)
    && forall id | id in ids ::
         Arranges(LinkedGroups(FirstMentions(full, {}), full, id), MatchingGroups(links, groups, id), order)
  }

  lemma JoinIsSorted(links: seq<LeafRow>, groups: seq<LeafRow>, ids: seq<int>, full: seq<Pair>, order: Order<LeafRow>)
    requires DistinctLinks(links) && UniqueLeafIDs(groups)
    requires ArrangesPairs(full, JoinPairs(links, groups, ids), order)
    ensures SortedJoin(full, links, groups, ids, order)
  {
    hide DistinctLinks, UniqueLeafIDs, JoinPairs, Sorted, IDsDecide, MatchingGroups, FirstMentions, LinkedGroups,
      HasLink, Arranges;
    forall p ensures multiset(full)[p] <= 1 {
      JoinPairOnce(links, groups, ids, p);
    }
    UniqueIsOnce(full);
    forall r ensures multiset(groups)[r] <= 1 {
      UniqueDecides(groups, r);
    }
    UniqueDecides(groups, map[]);
    PairsFromJoin(links, groups, ids, full, order);
    forall id | id in ids
      ensures Arranges(LinkedGroups(FirstMentions(full, {}), full, id), MatchingGroups(links, groups, id), order)
    {
      LinkedGroupsArrange(links, groups, ids, id, full, order);
    }
  }

  // A window of it has no repetitions either.
  lemma WindowOfJoin(full: seq<Pair>, offset: nat, limit: nat)
    requires NoRepeats(full) && IDsDecide(PairRows(full))
    ensures NoRepeats(Window(full, offset, limit)) && IDsDecide(PairRows(Window(full, offset, limit)))
  {
    hide IDsDecide;
    var pairs := Window(full, offset, limit);
    WindowOfAccounts(full, offset, limit);
    WindowMembers(PairRows(full), offset, limit);
    PartDecides(PairRows(full), PairRows(pairs));
    hide Window;
    PieceDiffers(full, offset, limit);
  }

  lemma PieceDiffers(full: seq<Pair>, offset: nat, limit: nat)
    requires NoRepeats(full)
    ensures NoRepeats(Window(full, offset, limit))
  {
  }

  lemma PartDecides(rows: seq<LeafRow>, part: seq<LeafRow>)
    requires IDsDecide(rows) && forall r | r in part :: r in rows
    ensures IDsDecide(part)
  {
  }

  // What a run gives the nodes with this id.
  function Given(pairs: seq<Pair>, id: int): seq<LeafRow> { LinkedGroups(FirstMentions(pairs, {}), pairs, id) }

  lemma GivenSize(pairs: seq<Pair>, id: int)
    requires IDsDecide(PairRows(pairs)) && NoRepeats(pairs)
    ensures |Given(pairs, id)| == |Select(pairs, AccountsOf(pairs), id)|
  {
    hide Select, LinkedGroups, FirstMentions, IDsDecide, NoRepeats;
    LinkedIsShare(pairs, id);
    PairCount(Given(pairs, id), PairRows(Select(pairs, AccountsOf(pairs), id)));
  }

  // A join that fits the window: nothing is cut, or everything is and no account has more.
  lemma FittingJoin(links: seq<LeafRow>, groups: seq<LeafRow>, ids: seq<int>, full: seq<Pair>, order: Order<LeafRow>,
      offset: nat, limit: nat, id: int)
    requires SortedJoin(full, links, groups, ids, order) && id in ids && Windowed(offset, limit)
    requires |full| <= offset + limit
    ensures Answers(Given(Window(full, offset, limit), id), MatchingGroups(links, groups, id), order, offset, limit)
  {
    hide Arranges, LinkedGroups, MatchingGroups, ArrangesPairs, IDsDecide, NoRepeats;
    GivenSize(full, id);
    SelectLength(full, AccountsOf(full), id);
    var own := Given(full, id);
    assert |own| <= |full| && Arranges(own, MatchingGroups(links, groups, id), order);
    if offset == 0 {
      assert Window(full, offset, limit) == full && Window(own, offset, limit) == own;
    } else {
      assert Window(full, offset, limit) == [] && Window(own, offset, limit) == [];
      assert Given([], id) == [] by {
        NoneLinked(id);
      }
    }
  }

  lemma NoneLinked(id: int)
    ensures Given([], id) == []
  {
  }

  // A join of one account alone.
  lemma OneAccountJoin(links: seq<LeafRow>, groups: seq<LeafRow>, ids: seq<int>, full: seq<Pair>,
      order: Order<LeafRow>, offset: nat, limit: nat, id: int)
    requires SortedJoin(full, links, groups, ids, order) && id in ids && AllOneKey(AccountsOf(full))
    ensures Answers(Given(Window(full, offset, limit), id), MatchingGroups(links, groups, id), order, offset, limit)
  {
    hide Arranges, LinkedGroups, MatchingGroups, ArrangesPairs, IDsDecide, NoRepeats, Window, FirstMentions, Select;
    var pairs, own := Window(full, offset, limit), Given(full, id);
    WindowOfJoin(full, offset, limit);
    WindowMembers(full, offset, limit);
    WindowOfAccounts(full, offset, limit);
    if full != [] && full[0].0 == id {
      forall i | 0 <= i < |full| ensures full[i].0 == id {
        assert AccountsOf(full)[i] == AccountsOf(full)[0];
      }
      forall i | 0 <= i < |pairs| ensures pairs[i].0 == id {
        assert pairs[i] in full;
      }
      OnlyAccount(full, id);
      OnlyAccount(pairs, id);
      assert Given(pairs, id) == Window(own, offset, limit);
    } else {
      OneKeyShare(full, AccountsOf(full), id);
      GivenSize(full, id);
      var before, after := ShareParts(full, AccountsOf(full), offset, limit, id);
      GivenSize(pairs, id);
      EmptyStays(own, offset, limit);
    }
  }

  lemma EmptyStays<R>(own: seq<R>, offset: nat, limit: nat)
    requires own == []
    ensures Window(own, offset, limit) == []
  {
  }

  // A join that is larger and of several accounts has one that is given too many or too few.
  lemma CutJoin(links: seq<LeafRow>, groups: seq<LeafRow>, ids: seq<int>, full: seq<Pair>, order: Order<LeafRow>,
      offset: nat, limit: nat) returns (id: int)
    requires SortedJoin(full, links, groups, ids, order) && Windowed(offset, limit)
    requires |full| > offset + limit && !AllOneKey(AccountsOf(full))
    ensures id in ids
    ensures !Answers(Given(Window(full, offset, limit), id), MatchingGroups(links, groups, id), order, offset, limit)
  {
    hide Arranges, LinkedGroups, MatchingGroups, ArrangesPairs, IDsDecide, NoRepeats, Window, FirstMentions, Select;
    var pairs, keys := Window(full, offset, limit), AccountsOf(full);
    id := WrongShare(full, keys, offset, limit);
    var i :| 0 <= i < |keys| && keys[i] == Some(id);
    assert full[i] in full && full[i].0 == id;
    WindowOfJoin(full, offset, limit);
    WindowOfAccounts(full, offset, limit);
    GivenSize(pairs, id);
    GivenSize(full, id);
    forall other | Arranges(other, MatchingGroups(links, groups, id), order)
      ensures Given(pairs, id) != Window(other, offset, limit)
    {
      SameSize(other, Given(full, id), MatchingGroups(links, groups, id), order);
      WindowSizes(other, Select(full, keys, id), offset, limit);
    }
  }

  // ---- The groups edge ----

  // The rows of the join for a batch of accounts.
  function Join(db: Database, q: LeafQueryValue, ids: seq<int>): seq<Pair> {
    JoinPairs(db.accountGroups, Joinable(db.accountGroups, db.groups, GroupQuery(q, ids).preds), ids)
  }

  // What a node is given is naive exactly if it is an answer for it alone.
  lemma GroupsShare(db: Database, t: QueryTree, run: Run, i: nat)
    requires BatchedGroups(db, t, run) && t.groups.Some? && run.groups.Some? && i < |run.nodes|
    requires IsLast(NodeIDs(run.nodes), i)
    ensures var q, ids, links := t.groups.value, NodeIDs(run.nodes), db.accountGroups;
      NaiveGroups(db, t, run.nodes[i]) <==>
        Answers(Given(run.groups.value, ids[i]),
                MatchingGroups(links, Joinable(links, db.groups, GroupQuery(q, ids).preds), ids[i]),
                q.order, q.offset, q.limit)
  {
    hide Joinable, JoinPairs, MatchingGroups, FirstMentions, LinkedGroups, Answers, AnswersPairs, Unreadable;
    var q, ids, v := t.groups.value, NodeIDs(run.nodes), run.nodes[i];
    var links, id := db.accountGroups, NodeIDs(run.nodes)[i];
    JoinIgnored(links, db.groups, q.preds, ids, id);
    JoinIgnored(links, db.groups, q.preds, [id], id);
    RowsOfScanned(LeafSpecColumns(q), Given(run.groups.value, id));
  }

  // Under a limit or an offset every node gets the groups that its own query may return exactly if all rows of the join
  // fit the window or belong to one account.
  lemma GroupsWindowExact(db: Database, t: QueryTree, run: Run)
    requires UniqueLeafIDs(db.groups) && DistinctLinks(db.accountGroups)
    requires BatchedGroups(db, t, run) && t.groups.Some? && run.groups.Some?
    requires forall j | 0 <= j < |run.nodes| :: IsLast(NodeIDs(run.nodes), j)
    requires Windowed(t.groups.value.offset, t.groups.value.limit)
    ensures var q, batch := t.groups.value, Join(db, t.groups.value, NodeIDs(run.nodes));
      (forall i | 0 <= i < |run.nodes| :: NaiveGroups(db, t, run.nodes[i]))
      <==> |batch| <= q.offset + q.limit || forall a, b | a in batch && b in batch :: a.0 == b.0
  {
    hide Joinable, JoinPairs, MatchingGroups, Given, Answers, Unreadable, UniqueLeafIDs, DistinctLinks, NaiveGroups,
      SortedJoin, Window, AllOneKey, IsLast, ScanLeaves, GroupsOf, Sorted;
    var q, ids, links := t.groups.value, NodeIDs(run.nodes), db.accountGroups;
    var groups, batch := Joinable(links, db.groups, GroupQuery(q, ids).preds), Join(db, q, ids);
    var full :| ArrangesPairs(full, batch, q.order) && run.groups.value == Window(full, q.offset, q.limit);
    MatchingKeepsUnique(links, db.groups, GroupQuery(q, ids).preds);
    JoinIsSorted(links, groups, ids, full, q.order);
    JoinAccounts(full, batch, q.order);
    forall i | 0 <= i < |run.nodes|
      ensures NaiveGroups(db, t, run.nodes[i]) <==>
        Answers(Given(run.groups.value, ids[i]), MatchingGroups(links, groups, ids[i]), q.order, q.offset, q.limit)
    {
      GroupsShare(db, t, run, i);
    }
    if |full| <= q.offset + q.limit {
      forall i | 0 <= i < |run.nodes| ensures NaiveGroups(db, t, run.nodes[i]) {
        FittingJoin(links, groups, ids, full, q.order, q.offset, q.limit, ids[i]);
      }
    } else if AllOneKey(AccountsOf(full)) {
      forall i | 0 <= i < |run.nodes| ensures NaiveGroups(db, t, run.nodes[i]) {
        OneAccountJoin(links, groups, ids, full, q.order, q.offset, q.limit, ids[i]);
      }
    } else {
      var id := CutJoin(links, groups, ids, full, q.order, q.offset, q.limit);
      var i :| 0 <= i < |ids| && ids[i] == id;
      assert !NaiveGroups(db, t, run.nodes[i]);
    }
  }

  lemma JoinAccounts(full: seq<Pair>, batch: seq<Pair>, order: Order<LeafRow>)
    requires ArrangesPairs(full, batch, order)
    ensures |full| == |batch|
    ensures AllOneKey(AccountsOf(full)) <==> forall a, b | a in batch && b in batch :: a.0 == b.0
  {
    assert |multiset(full)| == |full| && |multiset(batch)| == |batch|;
    forall p ensures p in full <==> p in batch {
      assert p in multiset(full) <==> p in multiset(batch);
    }
    if AllOneKey(AccountsOf(full)) {
      forall a, b | a in batch && b in batch ensures a.0 == b.0 {
        var i :| 0 <= i < |full| && full[i] == a;
        var j :| 0 <= j < |full| && full[j] == b;
        assert AccountsOf(full)[i] == AccountsOf(full)[j];
      }
    } else {
      var i, j :| 0 <= i < j < |full| && AccountsOf(full)[i] != AccountsOf(full)[j];
      assert full[i] in batch && full[j] in batch;
    }
  }
}
