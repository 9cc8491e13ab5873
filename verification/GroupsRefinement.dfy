// The many-to-many loader: from a sequence of join rows to each account's groups.
module GroupsRefinement {
  import opened Wrappers
  import opened Leaves
  import opened QueryModel
  import opened EagerSpec
  import opened Selection

  // Rows of one table agree when their ids do.
  ghost predicate IDsDecide(rows: seq<LeafRow>) {
    forall a, b | a in rows && b in rows && LeafInt(a, Id) == LeafInt(b, Id) :: a == b
  }

  lemma {:induction false} LinkPairMembers(link: LeafRow, groups: seq<LeafRow>, accounts: seq<int>, p: (int, LeafRow))
    ensures p in PairsOfLink(link, groups, accounts) <==>
      p.1 in groups && Links(link, accounts, p.1) && LeafInt(link, AccountId) == Some(p.0)
  {
    if groups != [] {
      LinkPairMembers(link, groups[1..], accounts, p);
      assert groups == [groups[0]] + groups[1..];
    }
  }

  // A pair is in the join exactly when some join row links its account to its group.
  lemma {:induction false} JoinPairMembers(
    links: seq<LeafRow>, groups: seq<LeafRow>, accounts: seq<int>, p: (int, LeafRow))
    ensures p in JoinPairs(links, groups, accounts) <==>
      p.1 in groups && p.0 in accounts && HasLink(links, p.0, p.1)
  {
    if links != [] {
      LinkPairMembers(links[0], groups, accounts, p);
      JoinPairMembers(links[1..], groups, accounts, p);
      assert links == [links[0]] + links[1..];
      if HasLink(links[1..], p.0, p.1) {
        var i :| 0 <= i < |links[1..]| && Links(links[1..][i], [p.0], p.1);
        assert Links(links[i + 1], [p.0], p.1);
      }
      if HasLink(links, p.0, p.1) && !Links(links[0], [p.0], p.1) {
        var i :| 0 <= i < |links| && Links(links[i], [p.0], p.1);
        assert links[1..][i - 1] == links[i];
      }
    }
  }

  lemma {:induction false} MentionCount(pairs: seq<(int, LeafRow)>, seen: set<Option<int>>, r: LeafRow)
    requires IDsDecide(PairRows(pairs))
    ensures multiset(FirstMentions(pairs, seen))[r]
         == if r in PairRows(pairs) && LeafInt(r, Id) !in seen then 1 else 0
  {
    if pairs != [] {
      var id, rest := LeafInt(pairs[0].1, Id), pairs[1..];
      assert PairRows(pairs) == [pairs[0].1] + PairRows(rest);
      MentionCount(rest, if id in seen then seen else seen + {id}, r);
    }
  }

  lemma MentionMembers(pairs: seq<(int, LeafRow)>, seen: set<Option<int>>)
    requires IDsDecide(PairRows(pairs))
    ensures forall r :: r in FirstMentions(pairs, seen) <==> r in PairRows(pairs) && LeafInt(r, Id) !in seen
  {
    forall r ensures r in FirstMentions(pairs, seen) <==> r in PairRows(pairs) && LeafInt(r, Id) !in seen {
      MentionCount(pairs, seen, r);
      assert r in FirstMentions(pairs, seen) <==> r in multiset(FirstMentions(pairs, seen));
    }
  }

  lemma {:induction false} MentionsSorted(order: Order<LeafRow>, pairs: seq<(int, LeafRow)>, seen: set<Option<int>>)
    requires IDsDecide(PairRows(pairs)) && Sorted(order, PairRows(pairs))
    ensures Sorted(order, FirstMentions(pairs, seen))
  {
    if pairs != [] {
      var id, rest := LeafInt(pairs[0].1, Id), pairs[1..];
      var seen' := if id in seen then seen else seen + {id};
      assert PairRows(pairs) == [pairs[0].1] + PairRows(rest);
      assert Sorted(order, PairRows(rest)) by {
        forall i, j | 0 <= i < j < |PairRows(rest)| ensures LexLe(order, PairRows(rest)[i], PairRows(rest)[j]) {
          assert PairRows(rest)[i] == PairRows(pairs)[i + 1] && PairRows(rest)[j] == PairRows(pairs)[j + 1];
        }
      }
      MentionsSorted(order, rest, seen');
      MentionMembers(rest, seen');
      var mentions := FirstMentions(rest, seen');
      forall j | 0 <= j < |mentions| ensures LexLe(order, pairs[0].1, mentions[j]) {
        assert mentions[j] in PairRows(rest);
        var k :| 0 <= k < |PairRows(rest)| && PairRows(rest)[k] == mentions[j];
        assert LexLe(order, PairRows(pairs)[0], PairRows(pairs)[k + 1]);
      }
    }
  }

  lemma {:induction false} LinkedCount(mentioned: seq<LeafRow>, pairs: seq<(int, LeafRow)>, account: int, r: LeafRow)
    ensures multiset(LinkedGroups(mentioned, pairs, account))[r]
         == if Linked(pairs, account, r) then multiset(mentioned)[r] else 0
  {
    if mentioned != [] {
      LinkedCount(mentioned[1..], pairs, account, r);
      assert mentioned == [mentioned[0]] + mentioned[1..];
    }
  }

  lemma {:induction false} LinkedSorted(
    order: Order<LeafRow>, mentioned: seq<LeafRow>, pairs: seq<(int, LeafRow)>, account: int)
    requires Sorted(order, mentioned)
    ensures Sorted(order, LinkedGroups(mentioned, pairs, account))
  {
    if mentioned != [] {
      var rest := LinkedGroups(mentioned[1..], pairs, account);
      LinkedSorted(order, mentioned[1..], pairs, account);
      forall j | 0 <= j < |rest| ensures LexLe(order, mentioned[0], rest[j]) {
        assert rest[j] in rest && multiset(rest)[rest[j]] > 0;
        LinkedCount(mentioned[1..], pairs, account, rest[j]);
        assert rest[j] in mentioned[1..];
      }
    }
  }

  lemma {:induction false} MatchingGroupCount(links: seq<LeafRow>, groups: seq<LeafRow>, account: int, r: LeafRow)
    ensures multiset(MatchingGroups(links, groups, account))[r]
         == if HasLink(links, account, r) then multiset(groups)[r] else 0
  {
    if groups != [] {
      MatchingGroupCount(links, groups[1..], account, r);
      assert groups == [groups[0]] + groups[1..];
    }
  }

  lemma {:induction false} UniqueDecides(rows: seq<LeafRow>, r: LeafRow)
    requires UniqueLeafIDs(rows)
    ensures IDsDecide(rows) && multiset(rows)[r] <= 1
  {
    if rows != [] {
      UniqueDecides(rows[1..], r);
      assert rows == [rows[0]] + rows[1..];
    }
  }

  // Whatever the join rows, repeated or not, an account linked by them is given exactly the groups
  // it is linked to, each once, in the sequence the join first mentions them; that sequence follows
  // the query's order.
  lemma LinkedGroupsArrange(
    links: seq<LeafRow>, groups: seq<LeafRow>, accounts: seq<int>, account: int,
    pairs: seq<(int, LeafRow)>, order: Order<LeafRow>
  )
    requires IDsDecide(groups) && (forall r :: multiset(groups)[r] <= 1) && account in accounts
    requires ArrangesPairs(pairs, JoinPairs(links, groups, accounts), order)
    ensures Arranges(LinkedGroups(FirstMentions(pairs, {}), pairs, account), MatchingGroups(links, groups, account),
      order)
  {
    var mentioned := FirstMentions(pairs, {});
    PairsFromJoin(links, groups, accounts, pairs, order);
    MentionsSorted(order, pairs, {});
    LinkedSorted(order, mentioned, pairs, account);
    var got, want := multiset(LinkedGroups(mentioned, pairs, account)),
      multiset(MatchingGroups(links, groups, account));
    forall r ensures got[r] == want[r] {
      LinkedCount(mentioned, pairs, account, r);
      MentionCount(pairs, {}, r);
      MatchingGroupCount(links, groups, account, r);
      LinkedInJoin(links, groups, accounts, account, pairs, r);
    }
  }

  lemma PairsFromJoin(
    links: seq<LeafRow>, groups: seq<LeafRow>, accounts: seq<int>, pairs: seq<(int, LeafRow)>, order: Order<LeafRow>)
    requires IDsDecide(groups) && ArrangesPairs(pairs, JoinPairs(links, groups, accounts), order)
    ensures forall p :: p in pairs <==> p.1 in groups && p.0 in accounts && HasLink(links, p.0, p.1)
    ensures IDsDecide(PairRows(pairs))
  {
    forall p ensures p in pairs <==> p.1 in groups && p.0 in accounts && HasLink(links, p.0, p.1) {
      JoinPairMembers(links, groups, accounts, p);
      assert p in pairs <==> p in multiset(pairs);
      assert p in JoinPairs(links, groups, accounts) <==> p in multiset(JoinPairs(links, groups, accounts));
    }
    forall r | r in PairRows(pairs) ensures r in groups {
      var i :| 0 <= i < |PairRows(pairs)| && PairRows(pairs)[i] == r;
      assert pairs[i] in pairs;
    }
  }

  lemma LinkedInJoin(
    links: seq<LeafRow>, groups: seq<LeafRow>, accounts: seq<int>, account: int, pairs: seq<(int, LeafRow)>, r: LeafRow)
    requires IDsDecide(groups) && account in accounts
    requires forall p :: p in pairs <==> p.1 in groups && p.0 in accounts && HasLink(links, p.0, p.1)
    ensures r in PairRows(pairs) && Linked(pairs, account, r) <==> r in groups && HasLink(links, account, r)
  {
    if r in PairRows(pairs) && Linked(pairs, account, r) {
      var j :| 0 <= j < |PairRows(pairs)| && PairRows(pairs)[j] == r;
      assert pairs[j] in pairs;
      var i :| 0 <= i < |pairs| && pairs[i].0 == account && LeafInt(pairs[i].1, Id) == LeafInt(r, Id);
      assert pairs[i] in pairs;
    }
    if r in groups && HasLink(links, account, r) {
      assert (account, r) in pairs;
      var i :| 0 <= i < |pairs| && pairs[i] == (account, r);
      assert PairRows(pairs)[i] == r;
    }
  }

  lemma {:induction false} JoinedGroup(links: seq<LeafRow>, groups: seq<LeafRow>, ps: seq<LeafPred>, r: LeafRow)
    ensures r in Joinable(links, groups, ps) <==> r in groups && LeafHoldsAll(ps, r) && Joins(links, ps, r)
  {
    if groups != [] {
      JoinedGroup(links, groups[1..], ps, r);
      assert groups == [groups[0]] + groups[1..];
    }
  }

  lemma JoinsMore(links: seq<LeafRow>, ps: seq<LeafPred>, p: LeafPred, r: LeafRow)
    ensures Joins(links, ps + [p], r) <==> Joins(links, ps, r) && (p.JoinedTo? ==> LinkedToAny(links, p.accounts, r))
  {
    hide LinkedToAny;
    forall i | 0 <= i < |ps| ensures (ps + [p])[i] == ps[i] {
    }
    assert (ps + [p])[|ps|] == p;
  }

  lemma WiderLink(links: seq<LeafRow>, accounts: seq<int>, account: int, r: LeafRow)
    requires account in accounts && HasLink(links, account, r)
    ensures LinkedToAny(links, accounts, r)
  {
    var i :| 0 <= i < |links| && Links(links[i], [account], r);
    assert Links(links[i], accounts, r);
  }

  // A join to several accounts keeps all groups of each of them.
  lemma {:induction false} JoinIgnored(
    links: seq<LeafRow>, groups: seq<LeafRow>, ps: seq<LeafPred>, accounts: seq<int>, account: int)
    requires account in accounts
    ensures MatchingGroups(links, Joinable(links, groups, ps + [JoinedTo(accounts)]), account)
         == MatchingGroups(links, Joinable(links, groups, ps), account)
  {
    hide LeafHoldsAll, Joins, HasLink, LinkedToAny;
    if groups != [] {
      var r, wide := groups[0], ps + [JoinedTo(accounts)];
      JoinIgnored(links, groups[1..], ps, accounts, account);
      LeafHoldsAllMore(ps, JoinedTo(accounts), r);
      assert LeafHolds(JoinedTo(accounts), r);
      JoinsMore(links, ps, JoinedTo(accounts), r);
      if HasLink(links, account, r) {
        WiderLink(links, accounts, account, r);
      }
      MatchingSnoc(links, r, Joinable(links, groups[1..], ps), account);
      MatchingSnoc(links, r, Joinable(links, groups[1..], wide), account);
    }
  }

  lemma {:induction false} LinksCounted(links: seq<LeafRow>, accounts: seq<int>, r: LeafRow)
    ensures LinkedToAny(links, accounts, r) ==> LinkCount(links, accounts, r) >= 1
  {
    if links != [] {
      LinksCounted(links[1..], accounts, r);
      if LinkedToAny(links, accounts, r) && !Links(links[0], accounts, r) {
        var i :| 0 <= i < |links| && Links(links[i], accounts, r);
        assert links[1..][i - 1] == links[i];
      }
    }
  }

  // A group that all joins let through comes back at least as often as under one of them.
  lemma {:induction false} MultiplicityBound(links: seq<LeafRow>, ps: seq<LeafPred>, r: LeafRow)
    requires Joins(links, ps, r)
    ensures Multiplicity(links, ps, r) >= 1
    ensures forall p | p in ps && p.JoinedTo? :: Multiplicity(links, ps, r) >= LinkCount(links, p.accounts, r)
  {
    hide LinkedToAny, LinkCount;
    if ps != [] {
      var rest := ps[1..];
      assert forall i | 0 <= i < |rest| :: rest[i] == ps[i + 1];
      MultiplicityBound(links, rest, r);
      assert ps == [ps[0]] + rest;
      if ps[0].JoinedTo? {
        LinksCounted(links, ps[0].accounts, r);
        Grows(LinkCount(links, ps[0].accounts, r), Multiplicity(links, rest, r));
      }
    }
  }

  lemma Grows(a: nat, b: nat)
    requires a >= 1 && b >= 1
    ensures a * b >= a && a * b >= b
  {
  }

  lemma {:induction false} PairsCounted(links: seq<LeafRow>, r: LeafRow, rest: seq<LeafRow>, accounts: seq<int>)
    ensures |JoinPairs(links, [r] + rest, accounts)|
      == LinkCount(links, accounts, r) + |JoinPairs(links, rest, accounts)|
  {
    if links != [] {
      assert ([r] + rest)[1..] == rest;
      PairsCounted(links[1..], r, rest, accounts);
    }
  }

  lemma {:induction false} NoPairs(links: seq<LeafRow>, accounts: seq<int>)
    ensures JoinPairs(links, [], accounts) == []
  {
    if links != [] {
      NoPairs(links[1..], accounts);
    }
  }

  // One join has no more rows than all joins of the query together.
  lemma {:induction false} JoinSizeBound(links: seq<LeafRow>, groups: seq<LeafRow>, ps: seq<LeafPred>,
      accounts: seq<int>)
    requires JoinedTo(accounts) in ps
    ensures |JoinPairs(links, Joinable(links, groups, ps), accounts)| <= JoinSize(links, groups, ps)
  {
    hide LeafHoldsAll, Joins, LinkCount, Multiplicity, JoinPairs;
    if groups == [] {
      NoPairs(links, accounts);
    } else {
      var r, rest := groups[0], Joinable(links, groups[1..], ps);
      JoinSizeBound(links, groups[1..], ps, accounts);
      if LeafHoldsAll(ps, r) && Joins(links, ps, r) {
        MultiplicityBound(links, ps, r);
        PairsCounted(links, r, rest, accounts);
      } else {
        assert [] + rest == rest;
      }
    }
  }

  lemma MatchingSnoc(links: seq<LeafRow>, r: LeafRow, rest: seq<LeafRow>, account: int)
    ensures MatchingGroups(links, [r] + rest, account)
         == if HasLink(links, account, r) then [r] + MatchingGroups(links, rest, account)
            else MatchingGroups(links, rest, account)
    ensures [] + rest == rest
  {
    assert ([r] + rest)[1..] == rest;
  }

  lemma {:induction false} MatchingKeepsUnique(links: seq<LeafRow>, rows: seq<LeafRow>, ps: seq<LeafPred>)
    requires UniqueLeafIDs(rows)
    ensures UniqueLeafIDs(Joinable(links, rows, ps))
  {
    hide LeafHoldsAll, Joins;
    if rows != [] {
      var rest := Joinable(links, rows[1..], ps);
      MatchingKeepsUnique(links, rows[1..], ps);
      forall j | 0 <= j < |rest| ensures LeafInt(rest[j], Id) != LeafInt(rows[0], Id) {
        JoinedGroup(links, rows[1..], ps, rest[j]);
      }
    }
  }

  lemma {:induction false} JoinSizePositive(links: seq<LeafRow>, groups: seq<LeafRow>, ps: seq<LeafPred>)
    ensures JoinSize(links, groups, ps) > 0 <==> Joinable(links, groups, ps) != []
  {
    hide LeafHoldsAll, Joins, Multiplicity;
    if groups != [] {
      JoinSizePositive(links, groups[1..], ps);
      MultiplicityPositive(links, ps, groups[0]);
    }
  }

  lemma {:induction false} MultiplicityPositive(links: seq<LeafRow>, ps: seq<LeafPred>, r: LeafRow)
    ensures Multiplicity(links, ps, r) > 0 <==> Joins(links, ps, r)
  {
    hide LinkedToAny, LinkCount;
    if ps != [] {
      MultiplicityPositive(links, ps[1..], r);
      JoinsFirst(links, ps, r);
      if ps[0].JoinedTo? {
        LinksExact(links, ps[0].accounts, r);
        ProductPositive(LinkCount(links, ps[0].accounts, r), Multiplicity(links, ps[1..], r));
      }
    }
  }

  lemma ProductPositive(a: nat, b: nat)
    ensures a * b > 0 <==> a > 0 && b > 0
  {
  }

  lemma JoinsFirst(links: seq<LeafRow>, ps: seq<LeafPred>, r: LeafRow)
    requires ps != []
    ensures Joins(links, ps, r)
      <==> (ps[0].JoinedTo? ==> LinkedToAny(links, ps[0].accounts, r)) && Joins(links, ps[1..], r)
  {
    hide LinkedToAny;
    assert forall i | 0 < i < |ps| :: ps[i] == ps[1..][i - 1];
    assert forall i | 0 <= i < |ps| - 1 :: ps[1..][i] == ps[i + 1];
  }

  lemma {:induction false} LinksExact(links: seq<LeafRow>, accounts: seq<int>, r: LeafRow)
    ensures LinkCount(links, accounts, r) > 0 <==> LinkedToAny(links, accounts, r)
  {
    LinksCounted(links, accounts, r);
    if links != [] {
      LinksExact(links[1..], accounts, r);
      if LinkedToAny(links[1..], accounts, r) {
        var i :| 0 <= i < |links[1..]| && Links(links[1..][i], accounts, r);
        assert links[i + 1] == links[1..][i];
      }
      if Links(links[0], accounts, r) {
        assert LinkedToAny(links, accounts, r);
      }
    }
  }

  lemma OneAccountLinked(links: seq<LeafRow>, accounts: seq<int>, r: LeafRow)
    ensures LinkedToAny(links, accounts, r) <==> exists account | account in accounts :: HasLink(links, account, r)
  {
    if LinkedToAny(links, accounts, r) {
      var i :| 0 <= i < |links| && Links(links[i], accounts, r);
      var account := LeafInt(links[i], AccountId).value;
      assert Links(links[i], [account], r);
      assert HasLink(links, account, r);
    }
    forall account | account in accounts && HasLink(links, account, r) ensures LinkedToAny(links, accounts, r) {
      WiderLink(links, accounts, account, r);
    }
  }

  lemma JoinedTwice(links: seq<LeafRow>, groups: seq<LeafRow>, ps: seq<LeafPred>, ids: seq<int>, r: LeafRow)
    ensures r in Joinable(links, groups, ps + [JoinedTo(ids)] + [JoinedTo(ids)])
      <==> r in Joinable(links, groups, ps + [JoinedTo(ids)])
    ensures r in Joinable(links, groups, ps + [JoinedTo(ids)]) ==> LinkedToAny(links, ids, r)
  {
    hide LeafHoldsAll, Joins, LinkedToAny;
    var once := ps + [JoinedTo(ids)];
    JoinedGroup(links, groups, once, r);
    JoinedGroup(links, groups, once + [JoinedTo(ids)], r);
    JoinsMore(links, ps, JoinedTo(ids), r);
    JoinsMore(links, once, JoinedTo(ids), r);
    LeafHoldsAllMore(once, JoinedTo(ids), r);
  }

  // Each node of a batch ends with the groups it would be given alone.
  lemma GroupsRefine(db: Database, t: QueryTree, run: Run, i: nat)
    requires UniqueLeafIDs(db.groups) && NoWindow(t.groups) && BatchedGroups(db, t, run)
    requires i < |run.nodes| && t.groups.Some? && IsLast(NodeIDs(run.nodes), i)
    ensures NaiveGroups(db, t, run.nodes[i])
  {
    hide Joinable, JoinPairs, MatchingGroups, FirstMentions, LinkedGroups, Arranges, ArrangesPairs;
    var ids, pairs, v := NodeIDs(run.nodes), run.groups.value, run.nodes[i];
    var id := ids[i];
    var wide, single := GroupQuery(t.groups.value, ids), GroupQuery(t.groups.value, [id]);
    var links, ps := db.accountGroups, t.groups.value.preds;
    var groups, rows := Joinable(links, db.groups, wide.preds), LinkedGroups(FirstMentions(pairs, {}), pairs, id);
    JoinIgnored(links, db.groups, ps, ids, id);
    JoinIgnored(links, db.groups, ps, [id], id);
    MatchingKeepsUnique(links, db.groups, wide.preds);
    UniqueDecides(groups, map[]);
    forall r ensures multiset(groups)[r] <= 1 {
      UniqueDecides(groups, r);
    }
    UnlimitedPairs(pairs, JoinPairs(db.accountGroups, groups, ids), wide.order);
    LinkedGroupsArrange(db.accountGroups, groups, ids, id, pairs, wide.order);
    UnlimitedAnswer(rows, MatchingGroups(db.accountGroups, groups, id), wide.order);
    assert LeafRows(v.edges.groups) == rows;
  }
}
