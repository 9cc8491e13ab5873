// What a query tree asks for and what the database may answer: tables, predicates, orders, and the
// value of an AccountQuery builder with its nested eager-load queries.
module QueryModel {
  import opened Wrappers
  import opened Sql
  import opened Leaves
  import opened AccountEntity

  // ---- Tables ----

  datatype LeafTable = Proxies | Groups | UsageLogs | AccountGroups

  datatype Database = Database(
    codec: JsonCodec,
    accounts: seq<AccountRow>,
    proxies: seq<LeafRow>,
    groups: seq<LeafRow>,
    usageLogs: seq<LeafRow>,
    accountGroups: seq<LeafRow>
  ) {
    function Rows(table: LeafTable): seq<LeafRow> {
      match table
      case Proxies => proxies
      case Groups => groups
      case UsageLogs => usageLogs
      case AccountGroups => accountGroups
    }
  }

  function IntCell(v: SqlValue): Option<int> {
    if v.Int? then Some(v.i) else None
  }

  function AccountID(row: AccountRow): Option<int> { IntCell(Cell(row, ID)) }

  function ProxyOf(row: AccountRow): Option<int> { IntCell(Cell(row, ProxyID)) }

  function ParentOf(row: AccountRow): Option<int> { IntCell(Cell(row, ParentAccountID)) }

  function LeafInt(row: LeafRow, column: LeafColumn): Option<int> {
    if column in row then IntCell(row[column]) else None
  }

  // Cells have their column's type, primary keys are set and unique, and the required foreign keys
  // of usage logs and join rows are set.
  ghost predicate Consistent(db: Database) {
    && (forall i | 0 <= i < |db.accounts| ::
          WellTyped(db.codec, db.accounts[i]) && AccountID(db.accounts[i]).Some?)
    && (forall i, j | 0 <= i < j < |db.accounts| :: AccountID(db.accounts[i]) != AccountID(db.accounts[j]))
    && UniqueLeafIDs(db.proxies) && UniqueLeafIDs(db.groups) && UniqueLeafIDs(db.usageLogs)
    && (forall i | 0 <= i < |db.usageLogs| :: LeafInt(db.usageLogs[i], AccountId).Some?)
    && (forall i | 0 <= i < |db.accountGroups| :: LeafInt(db.accountGroups[i], AccountId).Some?)
  }

  ghost predicate UniqueLeafIDs(rows: seq<LeafRow>) {
    && (forall i | 0 <= i < |rows| :: LeafInt(rows[i], Id).Some?)
    && (forall i, j | 0 <= i < j < |rows| :: LeafInt(rows[i], Id) != LeafInt(rows[j], Id))
  }

  // ---- Predicates ----

  // A caller's filter, `account.IDIn`, or the restriction on the children's foreign key.
  datatype AccountPred =
    | Where(test: AccountRow -> bool)
    | IDIn(ids: seq<int>)
    | ParentIn(fks: seq<int>)

  predicate Holds(p: AccountPred, row: AccountRow) {
    match p
    case Where(test) => test(row)
    case IDIn(ids) => AccountID(row).Some? && AccountID(row).value in ids
    case ParentIn(fks) => ParentOf(row).Some? && ParentOf(row).value in fks
  }

  predicate HoldsAll(ps: seq<AccountPred>, row: AccountRow) {
    forall i | 0 <= i < |ps| :: Holds(ps[i], row)
  }

  // `JoinedTo` is the join the groups loader adds: as a condition on a group see `Joins`; it also multiplies rows.
  datatype LeafPred =
    | LeafWhere(test: LeafRow -> bool)
    | LeafIDIn(ids: seq<int>)
    | AccountIn(fks: seq<int>)
    | JoinedTo(accounts: seq<int>)

  predicate LeafHolds(p: LeafPred, row: LeafRow) {
    match p
    case LeafWhere(test) => test(row)
    case LeafIDIn(ids) => LeafInt(row, Id).Some? && LeafInt(row, Id).value in ids
    case AccountIn(fks) => LeafInt(row, AccountId).Some? && LeafInt(row, AccountId).value in fks
    case JoinedTo(_) => true
  }

  predicate LeafHoldsAll(ps: seq<LeafPred>, row: LeafRow) {
    forall i | 0 <= i < |ps| :: LeafHolds(ps[i], row)
  }

  function MatchingAccounts(rows: seq<AccountRow>, ps: seq<AccountPred>): seq<AccountRow> {
    if rows == [] then []
    else (if HoldsAll(ps, rows[0]) then [rows[0]] else []) + MatchingAccounts(rows[1..], ps)
  }

  function MatchingLeaves(rows: seq<LeafRow>, ps: seq<LeafPred>): seq<LeafRow> {
    if rows == [] then []
    else (if LeafHoldsAll(ps, rows[0]) then [rows[0]] else []) + MatchingLeaves(rows[1..], ps)
  }

  // The rows of the join: one (account id, group row) pair per join row that links a listed account
  // to a matching group.
  function JoinPairs(links: seq<LeafRow>, groups: seq<LeafRow>, accounts: seq<int>): seq<(int, LeafRow)> {
    if links == [] then []
    else PairsOfLink(links[0], groups, accounts) + JoinPairs(links[1..], groups, accounts)
  }

  function PairsOfLink(link: LeafRow, groups: seq<LeafRow>, accounts: seq<int>): seq<(int, LeafRow)> {
    if groups == [] then []
    else
      var rest := PairsOfLink(link, groups[1..], accounts);
      if Links(link, accounts, groups[0]) then [(LeafInt(link, AccountId).value, groups[0])] + rest else rest
  }

  predicate Links(link: LeafRow, accounts: seq<int>, group: LeafRow) {
    var account, id := LeafInt(link, AccountId), LeafInt(link, GroupId);
    account.Some? && account.value in accounts && id.Some? && LeafInt(group, Id) == id
  }

  predicate LinkedToAny(links: seq<LeafRow>, accounts: seq<int>, group: LeafRow) {
    exists i | 0 <= i < |links| :: Links(links[i], accounts, group)
  }

  // Every join of a query has a row for the group.
  predicate Joins(links: seq<LeafRow>, ps: seq<LeafPred>, group: LeafRow) {
    forall i | 0 <= i < |ps| && ps[i].JoinedTo? :: LinkedToAny(links, ps[i].accounts, group)
  }

  // The groups that a query with joins lets through.
  function Joinable(links: seq<LeafRow>, groups: seq<LeafRow>, ps: seq<LeafPred>): seq<LeafRow> {
    if groups == [] then []
    else
      (if LeafHoldsAll(ps, groups[0]) && Joins(links, ps, groups[0]) then [groups[0]] else [])
      + Joinable(links, groups[1..], ps)
  }

  function LinkCount(links: seq<LeafRow>, accounts: seq<int>, group: LeafRow): nat {
    if links == [] then 0
    else (if Links(links[0], accounts, group) then 1 else 0) + LinkCount(links[1..], accounts, group)
  }

  // How often a group comes back under all joins of a query.
  function Multiplicity(links: seq<LeafRow>, ps: seq<LeafPred>, group: LeafRow): nat {
    if ps == [] then 1
    else
      (if ps[0].JoinedTo? then LinkCount(links, ps[0].accounts, group) else 1) * Multiplicity(links, ps[1..], group)
  }

  // The number of rows of a query with joins.
  function JoinSize(links: seq<LeafRow>, groups: seq<LeafRow>, ps: seq<LeafPred>): nat {
    if groups == [] then 0
    else
      (if LeafHoldsAll(ps, groups[0]) then Multiplicity(links, ps, groups[0]) else 0)
      + JoinSize(links, groups[1..], ps)
  }

  // Whether a groups query has been given a join.
  predicate AlreadyJoined(ps: seq<LeafPred>) { exists i | 0 <= i < |ps| :: ps[i].JoinedTo? }

  // ---- Orders and windows ----

  // An order option ranks rows; later options break the ties of earlier ones.
  type Order<!R> = seq<R -> int>

  predicate LexLe<R>(order: Order<R>, a: R, b: R) {
    if order == [] then true
    else if order[0](a) != order[0](b) then order[0](a) < order[0](b)
    else LexLe(order[1..], a, b)
  }

  ghost predicate Sorted<R>(order: Order<R>, rows: seq<R>) {
    forall i, j | 0 <= i < j < |rows| :: LexLe(order, rows[i], rows[j])
  }

  // The rows in some sequence the order allows; rows that tie may come either way round.
  ghost predicate Arranges<R>(rows: seq<R>, matching: seq<R>, order: Order<R>) {
    multiset(rows) == multiset(matching) && Sorted(order, rows)
  }

  // Offset then limit; zero means not set, as in the query spec.
  function Window<R>(rows: seq<R>, offset: nat, limit: nat): seq<R> {
    var rest := if offset <= |rows| then rows[offset..] else [];
    if limit == 0 || |rest| <= limit then rest else rest[..limit]
  }

  // A possible answer of the database to one query.
  ghost predicate Answers<R(!new)>(rows: seq<R>, matching: seq<R>, order: Order<R>, offset: nat, limit: nat) {
    exists full: seq<R> :: Arranges(full, matching, order) && rows == Window(full, offset, limit)
  }

  function PairRows(pairs: seq<(int, LeafRow)>): (rows: seq<LeafRow>)
    ensures |rows| == |pairs|
  {
    seq(|pairs|, i requires 0 <= i < |pairs| => pairs[i].1)
  }

  ghost predicate ArrangesPairs(pairs: seq<(int, LeafRow)>, matching: seq<(int, LeafRow)>, order: Order<LeafRow>) {
    multiset(pairs) == multiset(matching) && Sorted(order, PairRows(pairs))
  }

  ghost predicate AnswersPairs(
    pairs: seq<(int, LeafRow)>, matching: seq<(int, LeafRow)>, order: Order<LeafRow>, offset: nat, limit: nat
  ) {
    exists full :: ArrangesPairs(full, matching, order) && pairs == Window(full, offset, limit)
  }

  // ---- Query trees ----

  // FOR UPDATE and FOR SHARE without options: rows that others hold are waited for.
  datatype Lock = ForUpdate | ForShare

  // `columns` is the entity package's column list.
  datatype LeafQueryValue = LeafQueryValue(
    table: LeafTable,
    columns: seq<LeafColumn>,
    preds: seq<LeafPred>,
    fields: seq<LeafColumn>,
    order: Order<LeafRow>,
    offset: nat,
    limit: nat,
    modifiers: seq<Lock>
  )

  // The column list holds the keys: the id first, and the account of a usage log or join row.
  predicate KeysListed(table: LeafTable, columns: seq<LeafColumn>) {
    && (!table.AccountGroups? ==> columns != [] && columns[0] == Id)
    && (table.UsageLogs? || table.AccountGroups? ==> AccountId in columns)
  }

  // The value of an AccountQuery builder: its own settings and the nested queries of its edges.
  datatype QueryTree = QueryTree(
    preds: seq<AccountPred>,
    fields: seq<Column>,
    order: Order<AccountRow>,
    offset: nat,
    limit: nat,
    modifiers: seq<Lock>,
    groups: Option<LeafQueryValue>,
    proxy: Option<LeafQueryValue>,
    parent: Option<QueryTree>,
    children: Option<QueryTree>,
    usageLogs: Option<LeafQueryValue>,
    accountGroups: Option<LeafQueryValue>
  )

  function Max(a: nat, b: nat): nat { if a < b then b else a }

  // How deep the eager loading goes.
  function Depth(t: QueryTree): nat {
    1 + Max(if t.parent.Some? then Depth(t.parent.value) else 0,
            if t.children.Some? then Depth(t.children.value) else 0)
  }

  function LeafCount(q: Option<LeafQueryValue>): nat { if q.Some? then 1 else 0 }

  // The number of queries in the tree.
  function Size(t: QueryTree): nat {
    1 + LeafCount(t.groups) + LeafCount(t.proxy) + LeafCount(t.usageLogs) + LeafCount(t.accountGroups)
      + (if t.parent.Some? then Size(t.parent.value) else 0)
      + (if t.children.Some? then Size(t.children.value) else 0)
  }

  function Requested(t: QueryTree): LoadedTypes {
    LoadedTypes(t.groups.Some?, t.proxy.Some?, t.parent.Some?, t.children.Some?, t.usageLogs.Some?,
                t.accountGroups.Some?)
  }

  // The fields without the id, which is always selected first.
  function WithoutID(fields: seq<Column>): seq<Column> {
    if fields == [] then []
    else (if fields[0] == ID then [] else [fields[0]]) + WithoutID(fields[1..])
  }

  function AddOnce<T(==)>(xs: seq<T>, x: T): seq<T> {
    if x in xs then xs else xs + [x]
  }

  // The projected columns of `querySpec`.
  function SpecColumns(t: QueryTree): seq<Column> {
    if t.fields == [] then COLUMNS
    else
      var columns := [ID] + WithoutID(t.fields);
      var columns := if t.proxy.Some? then AddOnce(columns, ProxyID) else columns;
      if t.parent.Some? then AddOnce(columns, ParentAccountID) else columns
  }

  function WithoutLeafID(fields: seq<LeafColumn>): seq<LeafColumn> {
    if fields == [] then []
    else (if fields[0] == Id then [] else [fields[0]]) + WithoutLeafID(fields[1..])
  }

  // Join rows have no id of their own.
  function LeafSpecColumns(q: LeafQueryValue): seq<LeafColumn> {
    if q.fields == [] then q.columns
    else if q.table.AccountGroups? then q.fields
    else [Id] + WithoutLeafID(q.fields)
  }

  // `prepareQuery` rejects a selected field that is not a column.
  predicate ValidFields(fields: seq<Column>) {
    forall i | 0 <= i < |fields| :: ValidColumn(fields[i])
  }

  predicate ValidLeafFields(q: LeafQueryValue) {
    forall i | 0 <= i < |q.fields| :: q.fields[i] in q.columns
  }

  predicate AllFieldsValid(t: QueryTree) {
    && ValidFields(t.fields)
    && (t.groups.Some? ==> ValidLeafFields(t.groups.value))
    && (t.proxy.Some? ==> ValidLeafFields(t.proxy.value))
    && (t.parent.Some? ==> AllFieldsValid(t.parent.value))
    && (t.children.Some? ==> AllFieldsValid(t.children.value))
    && (t.usageLogs.Some? ==> ValidLeafFields(t.usageLogs.value))
    && (t.accountGroups.Some? ==> ValidLeafFields(t.accountGroups.value))
  }

  // ---- Copies ----

  function UnlockedLeaf(q: Option<LeafQueryValue>): Option<LeafQueryValue> {
    if q.Some? then Some(q.value.(modifiers := [])) else None
  }

  // What `Clone` keeps: everything but the modifiers, at every level.
  function Unlocked(t: QueryTree): (u: QueryTree)
    ensures Depth(u) == Depth(t)
    decreases Depth(t), 0
  {
    t.(modifiers := [],
       groups := UnlockedLeaf(t.groups),
       proxy := UnlockedLeaf(t.proxy),
       parent := UnlockedNested(t.parent),
       children := UnlockedNested(t.children),
       usageLogs := UnlockedLeaf(t.usageLogs),
       accountGroups := UnlockedLeaf(t.accountGroups))
  }

  function UnlockedNested(t: Option<QueryTree>): (u: Option<QueryTree>)
    ensures u.Some? == t.Some? && (t.Some? ==> Depth(u.value) == Depth(t.value))
    decreases if t.Some? then Depth(t.value) else 0, 1
  {
    if t.Some? then Some(Unlocked(t.value)) else None
  }

  // ---- How a loader restricts a nested query ----

  function AppendFieldOnce<T(==)>(fields: seq<T>, field: T): seq<T> {
    if fields == [] then fields else AddOnce(fields, field)
  }

  function ParentQuery(t: QueryTree, ids: seq<int>): (q: QueryTree)
    ensures Depth(q) == Depth(t)
  {
    t.(preds := t.preds + [IDIn(ids)])
  }

  function ChildQuery(t: QueryTree, fks: seq<int>): (q: QueryTree)
    ensures Depth(q) == Depth(t)
  {
    t.(fields := AppendFieldOnce(t.fields, ParentAccountID), preds := t.preds + [ParentIn(fks)])
  }

  function ProxyQuery(q: LeafQueryValue, ids: seq<int>): LeafQueryValue {
    q.(preds := q.preds + [LeafIDIn(ids)])
  }

  // Usage logs and join rows, by their account.
  function OwnedQuery(q: LeafQueryValue, fks: seq<int>): LeafQueryValue {
    q.(fields := AppendFieldOnce(q.fields, AccountId), preds := q.preds + [AccountIn(fks)])
  }

  function GroupQuery(q: LeafQueryValue, accounts: seq<int>): LeafQueryValue {
    q.(preds := q.preds + [JoinedTo(accounts)])
  }

  // ---- Indexing results by key ----

  // The elements filed under key `k`, in sequence.
  function Select<T>(xs: seq<T>, keys: seq<Option<int>>, k: int): seq<T>
    requires |xs| == |keys|
  {
    if xs == [] then []
    else (if keys[0] == Some(k) then [xs[0]] else []) + Select(xs[1..], keys[1..], k)
  }

  // The last element filed under key `k`.
  function FindLast<T>(xs: seq<T>, keys: seq<Option<int>>, k: int): Option<T>
    requires |xs| == |keys|
  {
    var found := Select(xs, keys, k);
    if found == [] then None else Some(found[|found| - 1])
  }

  // A map from id to node keeps the last node stored under an id.
  predicate IsLast(ids: seq<int>, i: nat)
    requires i < |ids|
  {
    forall j | i < j < |ids| :: ids[j] != ids[i]
  }

  // Groups in the sequence in which the join rows first mention them.
  function FirstMentions(pairs: seq<(int, LeafRow)>, seen: set<Option<int>>): seq<LeafRow> {
    if pairs == [] then []
    else
      var id := LeafInt(pairs[0].1, Id);
      if id in seen then FirstMentions(pairs[1..], seen)
      else [pairs[0].1] + FirstMentions(pairs[1..], seen + {id})
  }

  predicate Linked(pairs: seq<(int, LeafRow)>, account: int, group: LeafRow) {
    LinkedTo(pairs, account, LeafInt(group, Id))
  }

  predicate LinkedTo(pairs: seq<(int, LeafRow)>, account: int, group: Option<int>) {
    exists i | 0 <= i < |pairs| :: pairs[i].0 == account && LeafInt(pairs[i].1, Id) == group
  }

  // The mentioned groups that are linked to `account`.
  function LinkedGroups(mentioned: seq<LeafRow>, pairs: seq<(int, LeafRow)>, account: int): seq<LeafRow> {
    if mentioned == [] then []
    else
      var rest := LinkedGroups(mentioned[1..], pairs, account);
      if Linked(pairs, account, mentioned[0]) then [mentioned[0]] + rest else rest
  }

  function ScanLeaves(columns: seq<LeafColumn>, rows: seq<LeafRow>): (leaves: seq<Leaf>)
    ensures |leaves| == |rows|
  {
    seq(|rows|, i requires 0 <= i < |rows| => ScanLeaf(columns, rows[i]))
  }

  function LeafRows(leaves: seq<Leaf>): (rows: seq<LeafRow>)
    ensures |rows| == |leaves|
  {
    seq(|leaves|, i requires 0 <= i < |leaves| => leaves[i].row)
  }

  function LeafKeys(leaves: seq<Leaf>, column: LeafColumn): (keys: seq<Option<int>>)
    ensures |keys| == |leaves|
  {
    seq(|leaves|, i requires 0 <= i < |leaves| => Some(IntField(leaves[i], column)))
  }
}
