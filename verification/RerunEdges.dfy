// Running a query again whose root returns other rows: which edges the restrictions of earlier runs take away.
module RerunEdges {
  import opened Wrappers
  import opened Sql
  import opened Leaves
  import opened AccountEntity
  import opened QueryModel
  import opened EagerSpec
  import opened Selection
  import opened EagerRefinement
  import opened Agreement
  import opened GroupsRefinement
  import opened NestedLimits
  import opened Reruns
  import RunFacts

  datatype Edge = ViaGroups | ViaProxy | ViaParent | ViaChildren | ViaUsageLogs | ViaJoinRows

  // A run that issued the edge's query asked for what node `v` would be given.
  predicate Asks(run: Run, e: Edge, v: AccountV) {
    match e
    case ViaGroups => AsksGroups(run, v)
    case ViaProxy => AsksProxy(run, v)
    case ViaParent => AsksParent(run, v)
    case ViaChildren => AsksChildren(run, v)
    case ViaUsageLogs => AsksOwned(run.usageLogs, run, v)
    case ViaJoinRows => AsksOwned(run.accountGroups, run, v)
  }

  predicate Empty(e: Edge, v: AccountV) {
    match e
    case ViaGroups => v.edges.groups == []
    case ViaProxy => v.edges.proxy == None
    case ViaParent => v.edges.parent == None
    case ViaChildren => v.edges.children == []
    case ViaUsageLogs => v.edges.usageLogs == []
    case ViaJoinRows => v.edges.accountGroups == []
  }

  // The edge of `v` is one that asking for it alone may give.
  ghost predicate NaiveEdge(db: Database, t: QueryTree, e: Edge, v: AccountV) {
    match e
    case ViaGroups => NaiveGroups(db, t, v)
    case ViaProxy => NaiveProxy(db, t, v)
    case ViaParent => NaiveParent(db, t, v)
    case ViaChildren => NaiveChildren(db, t, v)
    case ViaUsageLogs => NaiveOwned(db, t.usageLogs, v, v.edges.usageLogs)
    case ViaJoinRows => NaiveOwned(db, t.accountGroups, v, v.edges.accountGroups)
  }

  predicate NoneOwned(db: Database, q: Option<LeafQueryValue>, v: AccountV) {
    q.Some? ==> MatchingLeaves(db.Rows(q.value.table), OwnedQuery(q.value, [v.fields.ints.id]).preds) == []
  }

  // The edge's query for `v` alone matches nothing.
  predicate MatchesNone(db: Database, t: QueryTree, e: Edge, v: AccountV) {
    match e
    case ViaGroups =>
      t.groups.Some? ==>
        var links := db.accountGroups;
        MatchingGroups(links, Joinable(links, db.groups, t.groups.value.preds), v.fields.ints.id) == []
    case ViaProxy =>
      t.proxy.Some? && v.fields.ints.proxyID.Some? ==>
        var q := t.proxy.value;
        MatchingLeaves(db.Rows(q.table), ProxyQuery(q, [v.fields.ints.proxyID.value]).preds) == []
    case ViaParent =>
      t.parent.Some? && v.fields.ints.parentAccountID.Some? ==>
        MatchingAccounts(db.accounts, ParentQuery(t.parent.value, [v.fields.ints.parentAccountID.value]).preds) == []
    case ViaChildren =>
      t.children.Some? ==>
        MatchingAccounts(db.accounts, ChildQuery(t.children.value, [v.fields.ints.id]).preds) == []
    case ViaUsageLogs => NoneOwned(db, t.usageLogs, v)
    case ViaJoinRows => NoneOwned(db, t.accountGroups, v)
  }

  // ---- Empty edges ----

  lemma EmptyAnswers<R(!new)>(matching: seq<R>, order: Order<R>)
    ensures Answers([], matching, order, 0, 0) <==> matching == []
    ensures matching == [] ==> forall rows :: Answers(rows, matching, order, 0, 0) <==> rows == []
  {
    forall rows ensures Answers(rows, matching, order, 0, 0) <==> Arranges(rows, matching, order) {
      UnlimitedAnswer(rows, matching, order);
    }
    if matching == [] {
      forall rows ensures Arranges(rows, matching, order) <==> rows == [] {
        if Arranges(rows, matching, order) {
          SameLength(rows, matching);
        }
      }
    } else if Arranges([], matching, order) {
      SameLength([], matching);
    }
  }

  // An edge that is empty is naive exactly if there is nothing to match; and then it has to be empty.
  lemma EmptyExact(db: Database, t: QueryTree, e: Edge, v: AccountV)
    requires Fits(t)
    ensures Empty(e, v) ==> (NaiveEdge(db, t, e, v) <==> MatchesNone(db, t, e, v))
    ensures NaiveEdge(db, t, e, v) && MatchesNone(db, t, e, v) ==> Empty(e, v)
  {
    match e {
      case ViaGroups => EmptyGroups(db, t, v);
      case ViaProxy => EmptyProxy(db, t, v);
      case ViaParent => EmptyParent(db, t, v);
      case ViaChildren => EmptyChildren(db, t, v);
      case ViaUsageLogs => EmptyOwned(db, t.usageLogs, v, v.edges.usageLogs);
      case ViaJoinRows => EmptyOwned(db, t.accountGroups, v, v.edges.accountGroups);
    }
  }

  lemma EmptyGroups(db: Database, t: QueryTree, v: AccountV)
    requires NoWindow(t.groups)
    ensures v.edges.groups == [] ==> (NaiveGroups(db, t, v) <==> MatchesNone(db, t, ViaGroups, v))
    ensures NaiveGroups(db, t, v) && MatchesNone(db, t, ViaGroups, v) ==> v.edges.groups == []
  {
    hide Answers, Joinable, MatchingGroups, LeafSpecColumns;
    if t.groups.Some? {
      var q, id, links := t.groups.value, v.fields.ints.id, db.accountGroups;
      JoinIgnored(links, db.groups, q.preds, [id], id);
      EmptyAnswers(MatchingGroups(links, Joinable(links, db.groups, q.preds), id), q.order);
      assert LeafRows([]) == [];
    }
  }

  lemma EmptyProxy(db: Database, t: QueryTree, v: AccountV)
    requires NoWindow(t.proxy)
    ensures v.edges.proxy == None ==> (NaiveProxy(db, t, v) <==> MatchesNone(db, t, ViaProxy, v))
    ensures NaiveProxy(db, t, v) && MatchesNone(db, t, ViaProxy, v) ==> v.edges.proxy == None
  {
    hide Answers, MatchingLeaves, LeafSpecColumns;
    if t.proxy.Some? && v.fields.ints.proxyID.Some? {
      var q := ProxyQuery(t.proxy.value, [v.fields.ints.proxyID.value]);
      EmptyAnswers(MatchingLeaves(db.Rows(q.table), q.preds), q.order);
    }
  }

  lemma EmptyParent(db: Database, t: QueryTree, v: AccountV)
    requires Fits(t)
    ensures v.edges.parent == None ==> (NaiveParent(db, t, v) <==> MatchesNone(db, t, ViaParent, v))
    ensures NaiveParent(db, t, v) && MatchesNone(db, t, ViaParent, v) ==> v.edges.parent == None
  {
    hide Answers, MatchingAccounts, Naive;
    ChildrenFit(t);
    if t.parent.Some? && v.fields.ints.parentAccountID.Some? {
      var q := ParentQuery(t.parent.value, [v.fields.ints.parentAccountID.value]);
      EmptyAnswers(MatchingAccounts(db.accounts, q.preds), q.order);
    }
  }

  lemma EmptyChildren(db: Database, t: QueryTree, v: AccountV)
    requires Fits(t)
    ensures v.edges.children == [] ==> (NaiveChildren(db, t, v) <==> MatchesNone(db, t, ViaChildren, v))
    ensures NaiveChildren(db, t, v) && MatchesNone(db, t, ViaChildren, v) ==> v.edges.children == []
  {
    hide Answers, MatchingAccounts, Naive;
    ChildrenFit(t);
    if t.children.Some? {
      var q := ChildQuery(t.children.value, [v.fields.ints.id]);
      EmptyAnswers(MatchingAccounts(db.accounts, q.preds), q.order);
      assert NodeRows([]) == [];
    }
  }

  lemma EmptyOwned(db: Database, q: Option<LeafQueryValue>, v: AccountV, edge: seq<Leaf>)
    requires NoWindow(q)
    ensures edge == [] ==> (NaiveOwned(db, q, v, edge) <==> NoneOwned(db, q, v))
    ensures NaiveOwned(db, q, v, edge) && NoneOwned(db, q, v) ==> edge == []
  {
    hide Answers, MatchingLeaves, LeafSpecColumns;
    if q.Some? {
      var single := OwnedQuery(q.value, [v.fields.ints.id]);
      EmptyAnswers(MatchingLeaves(db.Rows(single.table), single.preds), single.order);
      assert LeafRows([]) == [] && ScanLeaves(LeafSpecColumns(single), []) == [];
    }
  }

  // ---- What a run leaves ----

  // Rows that match more conditions match these.
  lemma {:induction false} FewerAccounts(rows: seq<AccountRow>, ps: seq<AccountPred>, qs: seq<AccountPred>)
    requires forall r | HoldsAll(qs, r) :: HoldsAll(ps, r)
    ensures MatchingAccounts(rows, ps) == [] ==> MatchingAccounts(rows, qs) == []
  {
    hide HoldsAll;
    if rows != [] {
      FewerAccounts(rows[1..], ps, qs);
    }
  }

  lemma {:induction false} FewerLeaves(rows: seq<LeafRow>, ps: seq<LeafPred>, qs: seq<LeafPred>)
    requires forall r | LeafHoldsAll(qs, r) :: LeafHoldsAll(ps, r)
    ensures MatchingLeaves(rows, ps) == [] ==> MatchingLeaves(rows, qs) == []
  {
    hide LeafHoldsAll;
    if rows != [] {
      FewerLeaves(rows[1..], ps, qs);
    }
  }

  lemma {:induction false} NoAccounts(rows: seq<AccountRow>, qs: seq<AccountPred>)
    requires forall r :: !HoldsAll(qs, r)
    ensures MatchingAccounts(rows, qs) == []
  {
    hide HoldsAll;
    if rows != [] {
      NoAccounts(rows[1..], qs);
    }
  }

  lemma {:induction false} NoLeaves(rows: seq<LeafRow>, qs: seq<LeafPred>)
    requires forall r :: !LeafHoldsAll(qs, r)
    ensures MatchingLeaves(rows, qs) == []
  {
    hide LeafHoldsAll;
    if rows != [] {
      NoLeaves(rows[1..], qs);
    }
  }

  // A query that has been restricted to `wide` matches nothing for a key outside it, and otherwise no more than before.
  lemma RestrictedAccounts(rows: seq<AccountRow>, ps: seq<AccountPred>, wide: AccountPred, narrow: AccountPred)
    ensures MatchingAccounts(rows, ps + [narrow]) == [] ==> MatchingAccounts(rows, ps + [wide] + [narrow]) == []
    ensures (forall r :: !(Holds(wide, r) && Holds(narrow, r))) ==> MatchingAccounts(rows, ps + [wide] + [narrow]) == []
  {
    hide Holds, HoldsAll;
    forall r ensures HoldsAll(ps + [wide] + [narrow], r) <==> HoldsAll(ps + [narrow], r) && Holds(wide, r) {
      HoldsAllMore(ps, wide, r);
      HoldsAllMore(ps + [wide], narrow, r);
      HoldsAllMore(ps, narrow, r);
    }
    FewerAccounts(rows, ps + [narrow], ps + [wide] + [narrow]);
    if forall r :: !(Holds(wide, r) && Holds(narrow, r)) {
      forall r ensures !HoldsAll(ps + [wide] + [narrow], r) {
        HoldsAllMore(ps, narrow, r);
      }
      NoAccounts(rows, ps + [wide] + [narrow]);
    }
  }

  lemma RestrictedRows(rows: seq<LeafRow>, ps: seq<LeafPred>, wide: LeafPred, narrow: LeafPred)
    ensures MatchingLeaves(rows, ps + [narrow]) == [] ==> MatchingLeaves(rows, ps + [wide] + [narrow]) == []
    ensures (forall r :: !(LeafHolds(wide, r) && LeafHolds(narrow, r))) ==>
      MatchingLeaves(rows, ps + [wide] + [narrow]) == []
  {
    hide LeafHolds, LeafHoldsAll;
    forall r ensures LeafHoldsAll(ps + [wide] + [narrow], r) <==> LeafHoldsAll(ps + [narrow], r) && LeafHolds(wide, r) {
      LeafHoldsAllMore(ps, wide, r);
      LeafHoldsAllMore(ps + [wide], narrow, r);
      LeafHoldsAllMore(ps, narrow, r);
    }
    FewerLeaves(rows, ps + [narrow], ps + [wide] + [narrow]);
    if forall r :: !(LeafHolds(wide, r) && LeafHolds(narrow, r)) {
      forall r ensures !LeafHoldsAll(ps + [wide] + [narrow], r) {
        LeafHoldsAllMore(ps, narrow, r);
      }
      NoLeaves(rows, ps + [wide] + [narrow]);
    }
  }

  // After a run the edge matches nothing for `v` where it did not before, and, but for groups, where `v` was not asked
  // for.
  lemma AfterMatches(db: Database, t: QueryTree, run: Run, e: Edge, v: AccountV)
    ensures MatchesNone(db, t, e, v) ==> MatchesNone(db, After(t, run), e, v)
    ensures !e.ViaGroups? && !Asks(run, e, v) ==> MatchesNone(db, After(t, run), e, v)
  {
    hide After, DistinctKeys, MatchingLeaves, MatchingAccounts, MatchingGroups, Joinable;
    AfterParts(t, run);
    match e {
      case ViaGroups =>
        if t.groups.Some? {
          GroupsStay(db, t.groups.value.preds, NodeIDs(run.nodes), v.fields.ints.id);
        }
      case ViaProxy =>
        if t.proxy.Some? && v.fields.ints.proxyID.Some? {
          var q, k := t.proxy.value, v.fields.ints.proxyID.value;
          RestrictedRows(db.Rows(q.table), q.preds, LeafIDIn(DistinctKeys(ProxyKeys(run.nodes))), LeafIDIn([k]));
        }
      case ViaParent =>
        if t.parent.Some? && v.fields.ints.parentAccountID.Some? {
          var q, k, ids := t.parent.value, v.fields.ints.parentAccountID.value, DistinctKeys(ParentKeys(run.nodes));
          if run.parents.Some? {
            AfterParts(ParentQuery(q, ids), run.parents.value);
          }
          RestrictedAccounts(db.accounts, q.preds, IDIn(ids), IDIn([k]));
        }
      case ViaChildren =>
        if t.children.Some? {
          var q, ids := t.children.value, NodeIDs(run.nodes);
          if run.children.Some? {
            AfterParts(ChildQuery(q, ids), run.children.value);
          }
          RestrictedAccounts(db.accounts, q.preds, ParentIn(ids), ParentIn([v.fields.ints.id]));
        }
      case ViaUsageLogs => OwnedAfterMatches(db, t.usageLogs, NodeIDs(run.nodes), run.usageLogs, v);
      case ViaJoinRows => OwnedAfterMatches(db, t.accountGroups, NodeIDs(run.nodes), run.accountGroups, v);
    }
  }

  lemma OwnedAfterMatches(
    db: Database, q: Option<LeafQueryValue>, ids: seq<int>, rows: Option<seq<LeafRow>>, v: AccountV)
    ensures NoneOwned(db, q, v) ==> NoneOwned(db, OwnedAfter(q, ids, rows), v)
    ensures rows.Some? && v.fields.ints.id !in ids ==> NoneOwned(db, OwnedAfter(q, ids, rows), v)
  {
    hide MatchingLeaves;
    if q.Some? {
      RestrictedRows(db.Rows(q.value.table), q.value.preds, AccountIn(ids), AccountIn([v.fields.ints.id]));
    }
  }

  lemma {:induction false} NoLinked(links: seq<LeafRow>, groups: seq<LeafRow>, account: int)
    ensures MatchingGroups(links, groups, account) == [] <==> forall r | r in groups :: !HasLink(links, account, r)
  {
    hide HasLink;
    if groups != [] {
      NoLinked(links, groups[1..], account);
      assert groups == [groups[0]] + groups[1..];
    }
  }

  lemma GroupsStay(db: Database, ps: seq<LeafPred>, ids: seq<int>, account: int)
    ensures
      MatchingGroups(db.accountGroups, Joinable(db.accountGroups, db.groups, ps), account) == [] ==>
      MatchingGroups(db.accountGroups, Joinable(db.accountGroups, db.groups, ps + [JoinedTo(ids)]), account) == []
  {
    hide HasLink, Joinable, LeafHoldsAll, Joins, LinkedToAny;
    var links, before, after := db.accountGroups, Joinable(db.accountGroups, db.groups, ps),
      Joinable(db.accountGroups, db.groups, ps + [JoinedTo(ids)]);
    NoLinked(links, before, account);
    NoLinked(links, after, account);
    forall r | r in after ensures r in before {
      JoinedGroup(links, db.groups, ps, r);
      JoinedGroup(links, db.groups, ps + [JoinedTo(ids)], r);
      JoinsMore(links, ps, JoinedTo(ids), r);
      LeafHoldsAllMore(ps, JoinedTo(ids), r);
    }
  }

  // ---- One run back ----

  // An edge that the restricted tree gives, and that the run asked for, is one the original tree gives.
  lemma AskedOnce(db: Database, t: QueryTree, run: Run, e: Edge, v: AccountV)
    requires Consistent(db) && Fits(t) && Batched(db, t, run)
    requires Asks(run, e, v) && NaiveEdge(db, After(t, run), e, v)
    ensures NaiveEdge(db, t, e, v)
  {
    hide Consistent, Fits, Batched, After;
    hide AsksGroups, AsksProxy, AsksParent, AsksChildren, AsksOwned;
    hide NaiveGroups, NaiveProxy, NaiveParent, NaiveChildren, NaiveOwned;
    match e {
      case ViaGroups => RerunGroups(db, t, run, v);
      case ViaProxy => RerunProxy(db, t, run, v);
      case ViaParent => RerunParent(db, t, run, v);
      case ViaChildren => RerunChildren(db, t, run, v);
      case ViaUsageLogs => RerunUsageLogs(db, t, run, v);
      case ViaJoinRows => RerunJoinRows(db, t, run, v);
    }
  }

  lemma ByEdges(db: Database, t: QueryTree, v: AccountV)
    ensures Naive(db, t, v) <==> ScannedBy(db, t, v) && forall e :: NaiveEdge(db, t, e, v)
  {
    hide ScannedBy, NaiveGroups, NaiveProxy, NaiveParent, NaiveChildren, NaiveOwned;
    if ScannedBy(db, t, v) && forall e :: NaiveEdge(db, t, e, v) {
      assert NaiveEdge(db, t, ViaGroups, v) && NaiveEdge(db, t, ViaProxy, v) && NaiveEdge(db, t, ViaParent, v);
      assert NaiveEdge(db, t, ViaChildren, v) && NaiveEdge(db, t, ViaUsageLogs, v) && NaiveEdge(db, t, ViaJoinRows, v);
    }
  }

  lemma FirstIsNaive(db: Database, t: QueryTree, run: Run, e: Edge, v: AccountV)
    requires Consistent(db) && Fits(t) && Batched(db, t, run) && v in run.nodes
    ensures ScannedBy(db, t, v) && NaiveEdge(db, t, e, v)
  {
    hide Consistent, Batched, ScannedBy, Naive, NaiveEdge;
    BatchedIsNaive(db, t, run);
    ByEdges(db, t, v);
  }

  // ---- Any number of runs ----

  lemma {:induction false} AskedKept(db: Database, t: QueryTree, runs: seq<Run>, j: nat, e: Edge, v: AccountV)
    requires Consistent(db) && Fits(t) && Repeated(db, t, runs) && j < |runs| && v in runs[j].nodes
    requires forall k | 0 <= k < j :: Asks(runs[k], e, v)
    ensures NaiveEdge(db, t, e, v)
    decreases j
  {
    hide Consistent, Fits, Batched, After, Asks, NaiveEdge;
    if j == 0 {
      FirstIsNaive(db, t, runs[0], e, v);
    } else {
      AfterFits(t, runs[0]);
      forall k | 0 <= k < j - 1 ensures Asks(runs[1..][k], e, v) {
        assert runs[1..][k] == runs[k + 1];
      }
      AskedKept(db, After(t, runs[0]), runs[1..], j - 1, e, v);
      AskedOnce(db, t, runs[0], e, v);
    }
  }

  lemma {:induction false} NothingStaysEmpty(db: Database, t: QueryTree, runs: seq<Run>, j: nat, e: Edge, v: AccountV)
    requires Consistent(db) && Fits(t) && Repeated(db, t, runs) && j < |runs| && v in runs[j].nodes
    requires MatchesNone(db, t, e, v)
    ensures Empty(e, v)
    decreases j
  {
    hide Consistent, Fits, Batched, After, MatchesNone, NaiveEdge, Empty;
    if j == 0 {
      FirstIsNaive(db, t, runs[0], e, v);
      EmptyExact(db, t, e, v);
    } else {
      AfterFits(t, runs[0]);
      AfterMatches(db, t, runs[0], e, v);
      NothingStaysEmpty(db, After(t, runs[0]), runs[1..], j - 1, e, v);
    }
  }

  // A groups query that has been joined before gives no group in a completed run.
  lemma JoinedBefore(db: Database, t: QueryTree, run: Run, v: AccountV)
    requires Fits(t) && Batched(db, t, run) && v in run.nodes
    requires t.groups.Some? && AlreadyJoined(t.groups.value.preds)
    ensures MatchesNone(db, t, ViaGroups, v)
  {
    hide Batched, AlreadyJoined, Joinable, JoinSize, MatchingGroups;
    var ps, ids, id, links := t.groups.value.preds, NodeIDs(run.nodes), v.fields.ints.id, db.accountGroups;
    Readable(db, t, run);
    JoinSizePositive(links, db.groups, ps + [JoinedTo(ids)]);
    var i :| 0 <= i < |run.nodes| && run.nodes[i] == v;
    assert ids[i] == id;
    JoinIgnored(links, db.groups, ps, ids, id);
    assert MatchingGroups(links, [], id) == [] by {
      NoLinked(links, [], id);
    }
  }

  lemma Readable(db: Database, t: QueryTree, run: Run)
    requires Batched(db, t, run) && t.groups.Some? && run.nodes != []
    ensures run.groups.Some? && !Unreadable(db, t.groups.value, NodeIDs(run.nodes))
  {
    hide GroupAnswer, LeafAnswer, AccountAnswer, ScannedBy, ScanLeaves, GroupsOf, ToOne, ToMany, DistinctKeys,
      Unreadable;
  }

  lemma {:induction false} JoinedStaysEmpty(db: Database, t: QueryTree, runs: seq<Run>, j: nat, v: AccountV)
    requires Consistent(db) && Fits(t) && Repeated(db, t, runs) && j < |runs| && v in runs[j].nodes
    requires t.groups.Some? && AlreadyJoined(t.groups.value.preds)
    ensures v.edges.groups == []
    decreases j
  {
    hide Consistent, Fits, Batched, After, MatchesNone, NaiveEdge;
    var u := After(t, runs[0]);
    if j == 0 {
      FirstIsNaive(db, t, runs[0], ViaGroups, v);
      JoinedBefore(db, t, runs[0], v);
      EmptyExact(db, t, ViaGroups, v);
    } else {
      AfterFits(t, runs[0]);
      StillJoined(t, runs[0]);
      JoinedStaysEmpty(db, u, runs[1..], j - 1, v);
    }
  }

  lemma StillJoined(t: QueryTree, run: Run)
    requires t.groups.Some?
    ensures After(t, run).groups.Some?
    ensures run.groups.Some? || AlreadyJoined(t.groups.value.preds) ==> AlreadyJoined(After(t, run).groups.value.preds)
  {
    hide After;
    AfterParts(t, run);
    var ps, p := t.groups.value.preds, JoinedTo(NodeIDs(run.nodes));
    assert (ps + [p])[|ps|] == p && forall i | 0 <= i < |ps| :: (ps + [p])[i] == ps[i];
  }

  // An edge that an earlier run issued and did not ask for the node comes back empty.
  lemma {:induction false} MissedIsEmpty(
    db: Database, t: QueryTree, runs: seq<Run>, j: nat, k: nat, e: Edge, v: AccountV)
    requires Consistent(db) && Fits(t) && Repeated(db, t, runs) && k < j < |runs| && v in runs[j].nodes
    requires !Asks(runs[k], e, v)
    ensures Empty(e, v)
    decreases j
  {
    hide Consistent, Fits, Batched, After, MatchesNone, AlreadyJoined;
    var u := After(t, runs[0]);
    AfterFits(t, runs[0]);
    if k > 0 {
      MissedIsEmpty(db, u, runs[1..], j - 1, k - 1, e, v);
    } else if e.ViaGroups? {
      RunFacts.NestedRuns(db, t, runs[0]);
      StillJoined(t, runs[0]);
      JoinedStaysEmpty(db, u, runs[1..], j - 1, v);
    } else {
      AfterMatches(db, t, runs[0], e, v);
      NothingStaysEmpty(db, u, runs[1..], j - 1, e, v);
    }
  }

  lemma {:induction false} ScannedThroughout(db: Database, t: QueryTree, runs: seq<Run>, j: nat, v: AccountV)
    requires Consistent(db) && Fits(t) && Repeated(db, t, runs) && j < |runs| && v in runs[j].nodes
    ensures ScannedBy(db, t, v)
    decreases j
  {
    hide Consistent, Fits, Batched, After, ScannedBy;
    if j == 0 {
      FirstIsNaive(db, t, runs[0], ViaGroups, v);
    } else {
      AfterFits(t, runs[0]);
      ScannedThroughout(db, After(t, runs[0]), runs[1..], j - 1, v);
      StillScanned(db, t, runs[0], v);
    }
  }

  // Every earlier run that issued the edge's query asked for the node, or there is nothing to lose.
  ghost predicate Kept(db: Database, t: QueryTree, runs: seq<Run>, j: nat, e: Edge, v: AccountV)
    requires j <= |runs|
  {
    (forall k | 0 <= k < j :: Asks(runs[k], e, v)) || MatchesNone(db, t, e, v)
  }

  // Whatever rows the runs returned, an edge of a node is what the query as it first stood gives exactly if every
  // earlier run that issued the edge's query asked for the node, or the node's own query matches nothing.
  lemma EdgeExactly(db: Database, t: QueryTree, runs: seq<Run>, j: nat, e: Edge, v: AccountV)
    requires Consistent(db) && Fits(t) && Repeated(db, t, runs) && j < |runs| && v in runs[j].nodes
    ensures NaiveEdge(db, t, e, v) <==> Kept(db, t, runs, j, e, v)
  {
    hide Consistent, Fits, Repeated, MatchesNone, NaiveEdge, Empty, Asks;
    EmptyExact(db, t, e, v);
    if MatchesNone(db, t, e, v) {
      NothingStaysEmpty(db, t, runs, j, e, v);
    } else if forall k | 0 <= k < j :: Asks(runs[k], e, v) {
      AskedKept(db, t, runs, j, e, v);
    } else {
      var k: nat :| k < j && !Asks(runs[k], e, v);
      MissedIsEmpty(db, t, runs, j, k, e, v);
    }
  }

  // So a later run gives a node of the query as it first stood exactly if it kept all six edges.
  lemma RerunExactly(db: Database, t: QueryTree, runs: seq<Run>, j: nat, v: AccountV)
    requires Consistent(db) && Fits(t) && Repeated(db, t, runs) && j < |runs| && v in runs[j].nodes
    ensures Naive(db, t, v) <==> forall e :: Kept(db, t, runs, j, e, v)
  {
    hide Consistent, Fits, Repeated, Naive, NaiveEdge, Kept, ScannedBy;
    ByEdges(db, t, v);
    ScannedThroughout(db, t, runs, j, v);
    forall e ensures NaiveEdge(db, t, e, v) <==> Kept(db, t, runs, j, e, v) {
      EdgeExactly(db, t, runs, j, e, v);
    }
  }

  // ---- A row that an earlier run did not return ----

  // The query asks for a to-many edge.
  predicate WantsMany(t: QueryTree, e: Edge) {
    match e
    case ViaGroups => t.groups.Some?
    case ViaChildren => t.children.Some?
    case ViaUsageLogs => t.usageLogs.Some?
    case ViaJoinRows => t.accountGroups.Some?
    case _ => false
  }

  predicate IssuedMany(run: Run, e: Edge) {
    match e
    case ViaGroups => run.groups.Some?
    case ViaChildren => run.children.Some?
    case ViaUsageLogs => run.usageLogs.Some?
    case ViaJoinRows => run.accountGroups.Some?
    case _ => false
  }

  lemma {:induction false} EveryRunIssues(db: Database, t: QueryTree, runs: seq<Run>, k: nat, e: Edge)
    requires Repeated(db, t, runs) && k < |runs| && WantsMany(t, e) && runs[k].nodes != []
    ensures IssuedMany(runs[k], e)
    decreases k
  {
    hide Batched, After;
    if k == 0 {
      IssuesWanted(db, t, runs[0], e);
    } else {
      AfterParts(t, runs[0]);
      EveryRunIssues(db, After(t, runs[0]), runs[1..], k - 1, e);
    }
  }

  lemma IssuesWanted(db: Database, t: QueryTree, run: Run, e: Edge)
    requires Batched(db, t, run) && WantsMany(t, e) && run.nodes != []
    ensures IssuedMany(run, e)
  {
    hide Batched, GroupAnswer, LeafAnswer, AccountAnswer, ScanLeaves, GroupsOf, ToMany, Unreadable;
    BatchedParts(db, t, run);
  }

  // After a run that returned rows no completed run gives any node a group.
  lemma {:induction false} NoGroupsAgain(db: Database, t: QueryTree, runs: seq<Run>, k: nat, j: nat, v: AccountV)
    requires Consistent(db) && Fits(t) && Repeated(db, t, runs) && k < j < |runs| && v in runs[j].nodes
    requires t.groups.Some? && runs[k].nodes != []
    ensures v.edges.groups == []
    decreases k
  {
    hide Consistent, Fits, Batched, After, AlreadyJoined;
    var u := After(t, runs[0]);
    AfterFits(t, runs[0]);
    StillJoined(t, runs[0]);
    if k > 0 {
      NoGroupsAgain(db, u, runs[1..], k - 1, j - 1, v);
    } else {
      IssuesWanted(db, t, runs[0], ViaGroups);
      JoinedStaysEmpty(db, u, runs[1..], j - 1, v);
    }
  }

  // Two accounts with the same id are the same row.
  lemma SameAccount(db: Database, t: QueryTree, a: AccountV, b: AccountV)
    requires Consistent(db) && ScannedBy(db, t, a) && ScannedBy(db, t, b)
    requires a.row in db.accounts && b.row in db.accounts
    requires a.fields.ints.id == b.fields.ints.id
    ensures a.row == b.row
  {
    hide ScannedBy, AccountID, WellTyped;
    ScannedKeys(db, t, a);
    ScannedKeys(db, t, b);
    var i :| 0 <= i < |db.accounts| && db.accounts[i] == a.row;
    var j :| 0 <= j < |db.accounts| && db.accounts[j] == b.row;
    assert AccountID(db.accounts[i]) == AccountID(db.accounts[j]);
  }

  lemma RunRow(db: Database, t: QueryTree, runs: seq<Run>, j: nat, v: AccountV)
    requires Repeated(db, t, runs) && j < |runs| && v in runs[j].nodes
    ensures v.row in db.accounts
  {
    hide Repeated, AccountAnswer, HoldsAll, NodeRows;
    RepeatedRoot(db, t, runs, j);
    NodesAreRows(db, t, NodeRows(runs[j].nodes));
    RowsOfNodes(runs[j].nodes, v);
  }

  // A row that an earlier run with other rows did not return gets its to-many edges if and only if they are empty.
  lemma UnreturnedExactly(db: Database, t: QueryTree, runs: seq<Run>, k: nat, j: nat, e: Edge, v: AccountV)
    requires Consistent(db) && Fits(t) && Repeated(db, t, runs) && k < j < |runs| && v in runs[j].nodes
    requires WantsMany(t, e) && runs[k].nodes != [] && v.row !in NodeRows(runs[k].nodes)
    ensures NaiveEdge(db, t, e, v) <==> MatchesNone(db, t, e, v)
    ensures Empty(e, v)
  {
    hide Consistent, Fits, Repeated, MatchesNone, NaiveEdge, Empty, ScannedBy, NodeRows;
    EveryRunIssues(db, t, runs, k, e);
    ScannedThroughout(db, t, runs, j, v);
    RunRow(db, t, runs, j, v);
    forall i | 0 <= i < |runs[k].nodes| ensures NodeIDs(runs[k].nodes)[i] != v.fields.ints.id {
      var w := runs[k].nodes[i];
      ScannedThroughout(db, t, runs, k, w);
      RunRow(db, t, runs, k, w);
      RowsOfNodes(runs[k].nodes, w);
      if w.fields.ints.id == v.fields.ints.id {
        SameAccount(db, t, v, w);
      }
    }
    assert !Asks(runs[k], e, v);
    EdgeExactly(db, t, runs, j, e, v);
    MissedIsEmpty(db, t, runs, j, k, e, v);
  }

  // ---- One account a time ----

  // One account without a parent, whichever comes first, with all its children.
  function OneRoot(): QueryTree {
    Tree([AccountPred.Where(row => ParentOf(row).None?)], 1, Some(Tree([], 0, None)))
  }

  function RunOf(nodes: seq<AccountV>, children: Option<Run>): Run {
    Run(nodes, None, None, None, children, None, None)
  }

  // The first run returns account 1 with account 3.
  function FirstOne(codec: JsonCodec): Run {
    var t := OneRoot();
    var child := NodeOf(codec, ChildQuery(t.children.value, [1]), KeyRow(3, Some(1)), []);
    RunOf([NodeOf(codec, t, KeyRow(1, None), [child])], Some(RunOf([child], None)))
  }

  // The second one returns account 2 and no child.
  function SecondOne(codec: JsonCodec): Run {
    RunOf([NodeOf(codec, OneRoot(), KeyRow(2, None), [])], Some(RunOf([], None)))
  }

  lemma OneRootKeys(codec: JsonCodec)
    ensures NodeIDs(FirstOne(codec).nodes) == [1] && NodeIDs(SecondOne(codec).nodes) == [2]
    ensures ParentKeys(FirstOne(codec).children.value.nodes) == [Some(1)]
  {
    var db, t, one, two := TwoFamilies(codec), OneRoot(), FirstOne(codec), SecondOne(codec);
    FamiliesConsistent(codec);
    KeyRowFits(codec, 1, None);
    KeyRowFits(codec, 2, None);
    KeyRowFits(codec, 3, Some(1));
    hide Scan, KeyRow, AccountID, ParentOf, Consistent;
    ScannedKeys(db, t, one.nodes[0]);
    ScannedKeys(db, t, two.nodes[0]);
    ScannedKeys(db, ChildQuery(t.children.value, [1]), one.children.value.nodes[0]);
  }

  lemma OneRootMatching(codec: JsonCodec)
    ensures var rows := TwoFamilies(codec).accounts;
      && MatchingAccounts(rows, OneRoot().preds) == [KeyRow(1, None), KeyRow(2, None)]
      && MatchingAccounts(rows, [ParentIn([1])]) == [KeyRow(3, Some(1))]
      && MatchingAccounts(rows, [ParentIn([2])]) == [KeyRow(4, Some(2))]
      && MatchingAccounts(rows, [ParentIn([1]), ParentIn([2])]) == []
  {
    hide KeyRow, ParentOf, AccountID, MatchingAccounts;
    var one, two, three, four := KeyRow(1, None), KeyRow(2, None), KeyRow(3, Some(1)), KeyRow(4, Some(2));
    KeyRowFits(codec, 1, None);
    KeyRowFits(codec, 2, None);
    KeyRowFits(codec, 3, Some(1));
    KeyRowFits(codec, 4, Some(2));
    MatchingFour(one, two, three, four, OneRoot().preds[0]);
    assert OneRoot().preds == [OneRoot().preds[0]];
    MatchingFour(one, two, three, four, ParentIn([1]));
    MatchingFour(one, two, three, four, ParentIn([2]));
    assert [] + [ParentIn([1])] + [ParentIn([2])] == [ParentIn([1]), ParentIn([2])];
    RestrictedAccounts(TwoFamilies(codec).accounts, [], ParentIn([1]), ParentIn([2]));
  }

  // Either account can be the one.
  lemma EitherAnswer(a: AccountRow, b: AccountRow)
    ensures Answers([a], [a, b], [], 0, 1) && Answers([b], [a, b], [], 0, 1)
  {
    assert Arranges([a, b], [a, b], []) && Arranges([b, a], [a, b], []);
    assert Window([a, b], 0, 1) == [a] && Window([b, a], 0, 1) == [b];
  }

  lemma OneNodeShare(neighbors: seq<AccountV>, id: int)
    requires forall i | 0 <= i < |neighbors| :: ParentKeys(neighbors)[i] == Some(id)
    ensures ToMany(neighbors, ParentKeys(neighbors), [id], 0) == neighbors
  {
    var keys := ParentKeys(neighbors);
    OneKeyShare(neighbors, keys, id);
    assert IsLast([id], 0);
  }

  lemma FirstOneBatched(codec: JsonCodec)
    ensures Batched(TwoFamilies(codec), OneRoot(), FirstOne(codec))
  {
    hide Scan, KeyRow, MatchingAccounts, SpecColumns, Answers, ToMany;
    var db, t, run := TwoFamilies(codec), OneRoot(), FirstOne(codec);
    var q, inner := ChildQuery(t.children.value, [1]), run.children.value;
    OneRootMatching(codec);
    OneRootKeys(codec);
    EitherAnswer(KeyRow(1, None), KeyRow(2, None));
    AnyArrangement([KeyRow(3, Some(1))], 0);
    assert NodeRows(run.nodes) == [KeyRow(1, None)] && NodeRows(inner.nodes) == [KeyRow(3, Some(1))];
    assert AccountAnswer(db, t, NodeRows(run.nodes));
    assert q.preds == [ParentIn([1])];
    assert AccountAnswer(db, q, NodeRows(inner.nodes));
    assert Batched(db, q, inner);
    OneNodeShare(inner.nodes, 1);
    assert BatchedChildren(db, t, run);
  }

  lemma SecondOneBatched(codec: JsonCodec)
    ensures Batched(TwoFamilies(codec), After(OneRoot(), FirstOne(codec)), SecondOne(codec))
  {
    hide Scan, KeyRow, MatchingAccounts, SpecColumns, Answers, ToMany;
    var db, t, run := TwoFamilies(codec), After(OneRoot(), FirstOne(codec)), SecondOne(codec);
    OneRootMatching(codec);
    OneRootKeys(codec);
    EitherAnswer(KeyRow(1, None), KeyRow(2, None));
    AnyArrangement([], 0);
    AfterParts(OneRoot(), FirstOne(codec));
    StillScanned(db, OneRoot(), FirstOne(codec), run.nodes[0]);
    var q, inner := ChildQuery(t.children.value, [2]), run.children.value;
    assert q.preds == [ParentIn([1]), ParentIn([2])];
    assert NodeRows(run.nodes) == [KeyRow(2, None)] && NodeRows(inner.nodes) == [];
    assert AccountAnswer(db, t, NodeRows(run.nodes));
    assert AccountAnswer(db, q, NodeRows(inner.nodes));
    assert Batched(db, q, inner);
    OneNodeShare(inner.nodes, 2);
    assert BatchedChildren(db, t, run);
  }

  // Account 2 has a child, which the first run's restriction takes away in silence.
  lemma LimitedRerunLosesChild(codec: JsonCodec)
    ensures var db, t, one, two := TwoFamilies(codec), OneRoot(), FirstOne(codec), SecondOne(codec);
      && Consistent(db) && Fits(t) && Repeated(db, t, [one, two])
      && !NaiveChildren(db, t, two.nodes[0]) && !Naive(db, t, two.nodes[0])
  {
    hide Batched, Consistent, After, MatchingAccounts, KeyRow, Scan, SpecColumns, Naive, NaiveChildren;
    var db, t, one, two := TwoFamilies(codec), OneRoot(), FirstOne(codec), SecondOne(codec);
    FamiliesConsistent(codec);
    FirstOneBatched(codec);
    SecondOneBatched(codec);
    OneRootMatching(codec);
    OneRootKeys(codec);
    var v, runs := two.nodes[0], [one, two];
    assert runs[1..] == [two] && [two][1..] == [] && Repeated(db, After(t, one), [two]);
    assert NodeIDs(two.nodes)[0] == v.fields.ints.id == 2;
    assert !Asks(one, ViaChildren, v);
    assert ChildQuery(t.children.value, [2]).preds == [ParentIn([2])];
    EdgeExactly(db, t, runs, 1, ViaChildren, v);
    ByEdges(db, t, v);
  }
}
