// The query builders on the heap, and the driver they run against.
module Builders {
  import opened Wrappers
  import opened Sql
  import opened Leaves
  import opened AccountEntity
  import opened QueryModel
  import opened EagerSpec

  // How the database arranges matching rows; the number of queries so far lets equal queries be
  // answered in different arrangements.
  datatype Engine = Engine(
    accounts: (nat, Order<AccountRow>, seq<AccountRow>) -> seq<AccountRow>,
    leaves: (nat, Order<LeafRow>, seq<LeafRow>) -> seq<LeafRow>,
    pairs: (nat, Order<LeafRow>, seq<(int, LeafRow)>) -> seq<(int, LeafRow)>
  )

  ghost predicate ValidEngine(e: Engine) {
    && (forall tick, order, rows :: Arranges(e.accounts(tick, order, rows), rows, order))
    && (forall tick, order, rows :: Arranges(e.leaves(tick, order, rows), rows, order))
    && (forall tick, order, pairs :: ArrangesPairs(e.pairs(tick, order, pairs), pairs, order))
  }

  datatype LoadError =
    | InvalidField
    | DriverError
    | Assigning(cause: AssignError)
    | UnexpectedForeignKey(key: int)
    | NilForeignKey
    | UnexpectedNode(id: int)
    | Rejoined

  class Driver {
    const db: Database
    const engine: Engine
    var queries: nat

    constructor (db: Database, engine: Engine)
      ensures this.db == db && this.engine == engine && queries == 0
    {
      this.db := db;
      this.engine := engine;
      queries := 0;
    }

    method QueryAccounts(ps: seq<AccountPred>, order: Order<AccountRow>, offset: nat, limit: nat)
      returns (rows: seq<AccountRow>)
      requires ValidEngine(engine)
      modifies this`queries
      ensures queries == old(queries) + 1
      ensures Answers(rows, MatchingAccounts(db.accounts, ps), order, offset, limit)
    {
      var full := engine.accounts(queries, order, MatchingAccounts(db.accounts, ps));
      rows := Window(full, offset, limit);
      queries := queries + 1;
    }

    method QueryLeaves(table: LeafTable, ps: seq<LeafPred>, order: Order<LeafRow>, offset: nat, limit: nat)
      returns (rows: seq<LeafRow>)
      requires ValidEngine(engine)
      modifies this`queries
      ensures queries == old(queries) + 1
      ensures Answers(rows, MatchingLeaves(db.Rows(table), ps), order, offset, limit)
    {
      var full := engine.leaves(queries, order, MatchingLeaves(db.Rows(table), ps));
      rows := Window(full, offset, limit);
      queries := queries + 1;
    }

    // One join: a row is an account id and a group.
    method QueryJoin(accounts: seq<int>, ps: seq<LeafPred>, order: Order<LeafRow>, offset: nat, limit: nat)
      returns (pairs: seq<(int, LeafRow)>)
      requires ValidEngine(engine)
      modifies this`queries
      ensures queries == old(queries) + 1
      ensures AnswersPairs(pairs, JoinPairs(db.accountGroups, Joinable(db.accountGroups, db.groups, ps), accounts),
                           order, offset, limit)
    {
      var full := engine.pairs(
        queries, order, JoinPairs(db.accountGroups, Joinable(db.accountGroups, db.groups, ps), accounts));
      pairs := Window(full, offset, limit);
      queries := queries + 1;
    }

    // More than one join: a row has an account id for each of them in front of the group. Whether there is one.
    method QueryJoins(ps: seq<LeafPred>, offset: nat) returns (any: bool)
      modifies this`queries
      ensures queries == old(queries) + 1
      ensures any <==> JoinSize(db.accountGroups, db.groups, ps) > offset
    {
      any := JoinSize(db.accountGroups, db.groups, ps) > offset;
      queries := queries + 1;
    }

    // rows.Scan: fills the buffers `scanValues` made from the cells of a row.
    method ScanRow(columns: seq<Column>, row: AccountRow, values: array<Buffer>) returns (ok: bool)
      requires values[..] == EmptyBuffers(columns)
      modifies values
      ensures ok ==> values[..] == FilledBuffers(columns, row)
      ensures (forall c | c in columns :: Fill(EmptyBuffer(c), Cell(row, c)).Some?) ==> ok
    {
      for i := 0 to values.Length
        invariant forall k :: 0 <= k < i ==> values[k] == FilledBuffer(columns[k], row)
        invariant forall k :: i <= k < values.Length ==> values[k] == EmptyBuffer(columns[k])
      {
        var filled := Fill(values[i], Cell(row, columns[i]));
        if filled.None? {
          assert columns[i] in columns;
          return false;
        }
        values[i] := filled.value;
      }
      return true;
    }
  }

  lemma Added<T>(xs: seq<T>, x: T)
    ensures AddOnce(xs, x) == if x in xs then xs else xs + [x]
  {
  }

  function Count(o: Option<nat>): nat { if o.Some? then o.value else 0 }

  // The builder of a query on an entity that is loaded whole.
  class LeafQuery {
    const table: LeafTable
    const columns: seq<LeafColumn>
    var predicates: seq<LeafPred>
    var fields: seq<LeafColumn>
    var order: Order<LeafRow>
    var offset: Option<nat>
    var limit: Option<nat>
    var modifiers: seq<Lock>

    function Value(): LeafQueryValue
      reads this
    {
      LeafQueryValue(table, columns, predicates, fields, order, Count(offset), Count(limit), modifiers)
    }

    constructor (table: LeafTable, columns: seq<LeafColumn>)
      ensures Value() == LeafQueryValue(table, columns, [], [], [], 0, 0, [])
      ensures this.table == table
    {
      this.table := table;
      this.columns := columns;
      predicates, fields, order, modifiers := [], [], [], [];
      offset, limit := None, None;
    }

    method Where(p: LeafPred)
      modifies this`predicates
      ensures Value() == old(Value()).(preds := old(Value()).preds + [p])
    {
      predicates := predicates + [p];
    }

    method AppendFieldOnce(c: LeafColumn)
      modifies this`fields
      ensures Value() == old(Value()).(fields := AddOnce(old(Value()).fields, c))
    {
      if c !in fields {
        fields := fields + [c];
      }
    }

    // A copy on its own; the modifiers are not copied.
    method Clone() returns (q: LeafQuery)
      ensures fresh(q) && q.Value() == Value().(modifiers := []) && q.table == table
    {
      q := new LeafQuery(table, columns);
      q.predicates := predicates;
      q.fields := fields;
      q.order := order;
      q.offset := offset;
      q.limit := limit;
    }

    method All(driver: Driver) returns (leaves: seq<Leaf>, err: Option<LoadError>, ghost rows: seq<LeafRow>)
      requires ValidEngine(driver.engine)
      modifies driver`queries
      ensures err.None? <==> ValidLeafFields(Value())
      ensures err.Some? ==> err == Some(InvalidField)
      ensures err.None? ==>
        && driver.queries == old(driver.queries) + 1
        && LeafAnswer(driver.db, Value(), rows)
        && leaves == ScanLeaves(LeafSpecColumns(Value()), rows)
    {
      if !ValidLeafFields(Value()) {
        return [], Some(InvalidField), [];
      }
      var answer := driver.QueryLeaves(table, predicates, order, Count(offset), Count(limit));
      rows := answer;
      leaves := ScanLeaves(LeafSpecColumns(Value()), answer);
      err := None;
    }
  }

  ghost function LeafValue(q: LeafQuery?): Option<LeafQueryValue>
    reads q
  {
    if q == null then None else Some(q.Value())
  }

  method CloneLeaf(q: LeafQuery?, ghost table: LeafTable) returns (c: LeafQuery?)
    requires LeafOn(q, table)
    ensures LeafValue(c) == UnlockedLeaf(LeafValue(q)) && fresh(AsSet(c))
    ensures LeafOn(c, table)
  {
    if q == null {
      c := null;
    } else {
      c := q.Clone();
    }
  }

  // The builder of a query on accounts. Its nested builders are those the With methods gave it; the
  // two ghost sets hold the builders of the whole tree.
  class AccountQuery {
    var predicates: seq<AccountPred>
    var fields: seq<Column>
    var order: Order<AccountRow>
    var offset: Option<nat>
    var limit: Option<nat>
    var modifiers: seq<Lock>
    const withGroups: LeafQuery?
    const withProxy: LeafQuery?
    const withParent: AccountQuery?
    const withChildren: AccountQuery?
    const withUsageLogs: LeafQuery?
    const withAccountGroups: LeafQuery?
    ghost const accountQueries: set<AccountQuery>
    ghost const leafQueries: set<LeafQuery>

    // Every nested query belongs to one builder only.
    ghost predicate Valid()
      decreases accountQueries
    {
      && this in accountQueries
      && LeafOn(withGroups, Groups) && LeafOn(withProxy, Proxies)
      && LeafOn(withUsageLogs, UsageLogs) && LeafOn(withAccountGroups, AccountGroups)
      && OwnLeaves() <= leafQueries
      && (withParent != null ==> Nests(withParent) && withParent.Valid())
      && (withChildren != null ==> Nests(withChildren) && withChildren.Valid())
      && (withParent != null && withChildren != null ==>
            withParent.accountQueries !! withChildren.accountQueries
              && withParent.leafQueries !! withChildren.leafQueries)
    }

    ghost function OwnLeaves(): set<LeafQuery> {
      AsSet(withGroups) + AsSet(withProxy) + AsSet(withUsageLogs) + AsSet(withAccountGroups)
    }

    ghost predicate Nests(q: AccountQuery) {
      && q.accountQueries <= accountQueries - {this}
      && this in accountQueries && q.accountQueries < accountQueries
      && q.leafQueries <= leafQueries - OwnLeaves()
    }

    ghost function Tree(): (t: QueryTree)
      requires Valid()
      reads accountQueries, leafQueries
      decreases accountQueries
    {
      QueryTree(predicates, fields, order, Count(offset), Count(limit), modifiers,
                LeafValue(withGroups), LeafValue(withProxy),
                if withParent == null then None else Some(withParent.Tree()),
                if withChildren == null then None else Some(withChildren.Tree()),
                LeafValue(withUsageLogs), LeafValue(withAccountGroups))
    }

    constructor (
      groups: LeafQuery?, proxy: LeafQuery?, parent: AccountQuery?, children: AccountQuery?, usageLogs: LeafQuery?,
      accountGroups: LeafQuery?
    )
      requires CanNest(groups, proxy, parent, children, usageLogs, accountGroups)
      ensures Valid()
      ensures accountQueries == {this} + AccountBuilders(parent) + AccountBuilders(children)
      ensures leafQueries == AsSet(groups) + AsSet(proxy) + AsSet(usageLogs) + AsSet(accountGroups)
                             + LeafBuilders(parent) + LeafBuilders(children)
      ensures withGroups == groups && withProxy == proxy && withParent == parent && withChildren == children
      ensures withUsageLogs == usageLogs && withAccountGroups == accountGroups
      ensures predicates == [] && fields == [] && order == [] && modifiers == [] && offset == None && limit == None
    {
      predicates, fields, order, modifiers := [], [], [], [];
      offset, limit := None, None;
      withGroups, withProxy, withUsageLogs, withAccountGroups := groups, proxy, usageLogs, accountGroups;
      withParent, withChildren := parent, children;
      accountQueries := {this} + AccountBuilders(parent) + AccountBuilders(children);
      leafQueries := AsSet(groups) + AsSet(proxy) + AsSet(usageLogs) + AsSet(accountGroups)
                     + LeafBuilders(parent) + LeafBuilders(children);
    }

    // A copy that shares no builder with the original, at any level.
    method Clone() returns (q: AccountQuery)
      requires Valid()
      ensures q.Valid() && fresh(q.accountQueries) && fresh(q.leafQueries)
      ensures q.Tree() == Unlocked(Tree())
      decreases accountQueries, 2
    {
      hide *;
      Parts();
      TreeParts(this);
      UnlockedParts(Tree());
      var groups, proxy, parent, children, usageLogs, accountGroups := CloneNested();
      q := CopyAround(groups, proxy, parent, children, usageLogs, accountGroups);
    }

    // A new builder with this one's own settings around the given nested builders.
    method CopyAround(
      groups: LeafQuery?, proxy: LeafQuery?, parent: AccountQuery?, children: AccountQuery?, usageLogs: LeafQuery?,
      accountGroups: LeafQuery?
    ) returns (q: AccountQuery)
      requires CanNest(groups, proxy, parent, children, usageLogs, accountGroups)
      ensures q.Valid() && fresh(q)
      ensures q.accountQueries == {q} + AccountBuilders(parent) + AccountBuilders(children)
      ensures q.leafQueries == AsSet(groups) + AsSet(proxy) + AsSet(usageLogs) + AsSet(accountGroups)
                               + LeafBuilders(parent) + LeafBuilders(children)
      ensures q.Tree() == QueryTree(
        predicates, fields, order, Count(offset), Count(limit), [], LeafValue(groups), LeafValue(proxy), TreeOf(parent),
        TreeOf(children), LeafValue(usageLogs), LeafValue(accountGroups))
    {
      hide *;
      q := new AccountQuery(groups, proxy, parent, children, usageLogs, accountGroups);
      q.predicates, q.fields, q.order := predicates, fields, order;
      q.offset, q.limit := offset, limit;
      TreeParts(q);
    }

    method CloneLeaves() returns (groups: LeafQuery?, proxy: LeafQuery?, usageLogs: LeafQuery?,
        accountGroups: LeafQuery?)
      requires LeafOn(withGroups, Groups) && LeafOn(withProxy, Proxies)
      requires LeafOn(withUsageLogs, UsageLogs) && LeafOn(withAccountGroups, AccountGroups)
      ensures LeafOn(groups, Groups) && LeafOn(proxy, Proxies)
      ensures LeafOn(usageLogs, UsageLogs) && LeafOn(accountGroups, AccountGroups)
      ensures fresh(AsSet(groups)) && fresh(AsSet(proxy)) && fresh(AsSet(usageLogs)) && fresh(AsSet(accountGroups))
      ensures LeafValue(groups) == UnlockedLeaf(LeafValue(withGroups))
      ensures LeafValue(proxy) == UnlockedLeaf(LeafValue(withProxy))
      ensures LeafValue(usageLogs) == UnlockedLeaf(LeafValue(withUsageLogs))
      ensures LeafValue(accountGroups) == UnlockedLeaf(LeafValue(withAccountGroups))
    {
      hide *;
      groups := CloneLeaf(withGroups, Groups);
      proxy := CloneLeaf(withProxy, Proxies);
      usageLogs := CloneLeaf(withUsageLogs, UsageLogs);
      accountGroups := CloneLeaf(withAccountGroups, AccountGroups);
    }

    method CloneAccounts() returns (parent: AccountQuery?, children: AccountQuery?)
      requires Valid()
      ensures (parent != null ==> parent.Valid()) && (children != null ==> children.Valid())
      ensures fresh(AccountBuilders(parent)) && fresh(AccountBuilders(children))
      ensures fresh(LeafBuilders(parent)) && fresh(LeafBuilders(children))
      ensures AccountBuilders(parent) !! AccountBuilders(children) && LeafBuilders(parent) !! LeafBuilders(children)
      ensures withParent != null ==> withParent.Valid()
      ensures withChildren != null ==> withChildren.Valid()
      ensures TreeOf(parent) == UnlockedNested(TreeOf(withParent))
      ensures TreeOf(children) == UnlockedNested(TreeOf(withChildren))
      decreases accountQueries, 0
    {
      hide *;
      Parts();
      parent := CloneAccount(withParent);
      children := CloneAccount(withChildren);
    }

    method CloneNested()
      returns (groups: LeafQuery?, proxy: LeafQuery?, parent: AccountQuery?, children: AccountQuery?,
        usageLogs: LeafQuery?,
               accountGroups: LeafQuery?)
      requires Valid()
      ensures CanNest(groups, proxy, parent, children, usageLogs, accountGroups)
      ensures fresh(AsSet(groups)) && fresh(AsSet(proxy)) && fresh(AsSet(usageLogs)) && fresh(AsSet(accountGroups))
      ensures fresh(AccountBuilders(parent)) && fresh(AccountBuilders(children))
      ensures fresh(LeafBuilders(parent)) && fresh(LeafBuilders(children))
      ensures withParent != null ==> withParent.Valid()
      ensures withChildren != null ==> withChildren.Valid()
      ensures TreeOf(parent) == UnlockedNested(TreeOf(withParent))
      ensures TreeOf(children) == UnlockedNested(TreeOf(withChildren))
      ensures LeafValue(groups) == UnlockedLeaf(LeafValue(withGroups))
      ensures LeafValue(proxy) == UnlockedLeaf(LeafValue(withProxy))
      ensures LeafValue(usageLogs) == UnlockedLeaf(LeafValue(withUsageLogs))
      ensures LeafValue(accountGroups) == UnlockedLeaf(LeafValue(withAccountGroups))
      decreases accountQueries, 1
    {
      hide *;
      Parts();
      parent, children := CloneAccounts();
      groups, proxy, usageLogs, accountGroups := CloneLeaves();
      Nestable(groups, proxy, parent, children, usageLogs, accountGroups);
    }

    lemma Parts()
      requires Valid()
      ensures LeafOn(withGroups, Groups) && LeafOn(withProxy, Proxies)
      ensures LeafOn(withUsageLogs, UsageLogs) && LeafOn(withAccountGroups, AccountGroups)
      ensures AccountBuilders(withParent) < accountQueries && AccountBuilders(withChildren) < accountQueries
      ensures LeafBuilders(withParent) <= leafQueries && LeafBuilders(withChildren) <= leafQueries
      ensures AsSet(withGroups) <= leafQueries && AsSet(withProxy) <= leafQueries
      ensures AsSet(withUsageLogs) <= leafQueries && AsSet(withAccountGroups) <= leafQueries
      ensures (withParent != null ==> withParent.Valid()) && (withChildren != null ==> withChildren.Valid())
    {
    }

    method Where(p: AccountPred)
      requires Valid()
      modifies this`predicates
      ensures Tree() == old(Tree()).(preds := old(Tree()).preds + [p])
    {
      hide *;
      Alone();
      TreeParts(this);
      Nested();
      predicates := predicates + [p];
      Nested();
      TreeParts(this);
    }

    lemma Nested()
      requires Valid()
      ensures withParent != null ==> withParent.Valid() && TreeOf(withParent) == Some(withParent.Tree())
      ensures withParent == null ==> TreeOf(withParent) == None
      ensures withChildren != null ==> withChildren.Valid() && TreeOf(withChildren) == Some(withChildren.Tree())
      ensures withChildren == null ==> TreeOf(withChildren) == None
    {
    }

    // The nested builders are others.
    lemma Alone()
      requires Valid()
      ensures this !in AccountBuilders(withParent) && this !in AccountBuilders(withChildren)
      ensures withParent != null ==> withParent.Valid()
      ensures withChildren != null ==> withChildren.Valid()
    {
    }

    method AppendFieldOnce(c: Column)
      requires Valid()
      modifies this`fields
      ensures Tree() == old(Tree()).(fields := AddOnce(old(Tree()).fields, c))
    {
      hide *;
      Alone();
      TreeParts(this);
      Nested();
      Added(fields, c);
      if c !in fields {
        fields := fields + [c];
      }
      Nested();
      TreeParts(this);
    }
  }

  method CloneAccount(q: AccountQuery?) returns (c: AccountQuery?)
    requires q != null ==> q.Valid()
    ensures (c == null <==> q == null) && (c != null ==> c.Valid())
    ensures fresh(AccountBuilders(c)) && fresh(LeafBuilders(c))
    ensures TreeOf(c) == UnlockedNested(TreeOf(q))
    decreases AccountBuilders(q), 3
  {
    if q == null {
      c := null;
    } else {
      c := q.Clone();
    }
  }

  ghost function TreeOf(q: AccountQuery?): Option<QueryTree>
    requires q != null ==> q.Valid()
    reads AccountBuilders(q), LeafBuilders(q)
  {
    if q == null then None else Some(q.Tree())
  }

  lemma TreeParts(q: AccountQuery)
    requires q.Valid()
    ensures q.withParent != null ==> q.withParent.Valid()
    ensures q.withChildren != null ==> q.withChildren.Valid()
    ensures q.Tree() == QueryTree(
      q.predicates, q.fields, q.order, Count(q.offset), Count(q.limit), q.modifiers,
      LeafValue(q.withGroups), LeafValue(q.withProxy), TreeOf(q.withParent), TreeOf(q.withChildren),
      LeafValue(q.withUsageLogs), LeafValue(q.withAccountGroups))
  {
  }

  lemma UnlockedParts(t: QueryTree)
    ensures Unlocked(t) == QueryTree(
      t.preds, t.fields, t.order, t.offset, t.limit, [], UnlockedLeaf(t.groups), UnlockedLeaf(t.proxy),
      UnlockedNested(t.parent), UnlockedNested(t.children), UnlockedLeaf(t.usageLogs), UnlockedLeaf(t.accountGroups))
  {
  }

  // Builders that do not overlap can be nested in a new one.
  ghost predicate CanNest(
    groups: LeafQuery?, proxy: LeafQuery?, parent: AccountQuery?, children: AccountQuery?, usageLogs: LeafQuery?,
    accountGroups: LeafQuery?
  ) {
    && LeafOn(groups, Groups) && LeafOn(proxy, Proxies)
    && LeafOn(usageLogs, UsageLogs) && LeafOn(accountGroups, AccountGroups)
    && (parent != null ==> parent.Valid()) && (children != null ==> children.Valid())
    && (var own := AsSet(groups) + AsSet(proxy) + AsSet(usageLogs) + AsSet(accountGroups);
        LeafBuilders(parent) !! own && LeafBuilders(children) !! own)
    && AccountBuilders(parent) !! AccountBuilders(children) && LeafBuilders(parent) !! LeafBuilders(children)
  }

  lemma Nestable(
    groups: LeafQuery?, proxy: LeafQuery?, parent: AccountQuery?, children: AccountQuery?, usageLogs: LeafQuery?,
    accountGroups: LeafQuery?
  )
    requires LeafOn(groups, Groups) && LeafOn(proxy, Proxies)
    requires LeafOn(usageLogs, UsageLogs) && LeafOn(accountGroups, AccountGroups)
    requires (parent != null ==> parent.Valid()) && (children != null ==> children.Valid())
    requires groups !in LeafBuilders(parent) && groups !in LeafBuilders(children)
    requires proxy !in LeafBuilders(parent) && proxy !in LeafBuilders(children)
    requires usageLogs !in LeafBuilders(parent) && usageLogs !in LeafBuilders(children)
    requires accountGroups !in LeafBuilders(parent) && accountGroups !in LeafBuilders(children)
    requires AccountBuilders(parent) !! AccountBuilders(children) && LeafBuilders(parent) !! LeafBuilders(children)
    ensures CanNest(groups, proxy, parent, children, usageLogs, accountGroups)
  {
  }

  ghost predicate LeafOn(q: LeafQuery?, table: LeafTable) {
    q != null ==> q.table == table && KeysListed(table, q.columns)
  }

  ghost function AsSet(q: LeafQuery?): (s: set<LeafQuery>)
    ensures s == if q == null then {} else {q}
  {
    if q == null then {} else {q}
  }

  ghost function AccountBuilders(q: AccountQuery?): (s: set<AccountQuery>)
    ensures s == if q == null then {} else q.accountQueries
  {
    if q == null then {} else q.accountQueries
  }

  ghost function LeafBuilders(q: AccountQuery?): (s: set<LeafQuery>)
    ensures s == if q == null then {} else q.leafQueries
  {
    if q == null then {} else q.leafQueries
  }
}
