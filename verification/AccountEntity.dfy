// The Account entity: its columns, the record its rows decode to, and the two loops that carry a
// row from the database into a node (`scanValues`, then `assignValues`).
module AccountEntity {
  import opened Wrappers
  import opened Sql
  import opened Leaves

  // The table's columns; `Other` stands for a column name outside that list.
  datatype Column =
    | ID | CreatedAt | UpdatedAt | DeletedAt
    | Name | Notes | Platform | Type
    | Credentials | Extra | ProxyID | ProxyFallbackOriginID
    | Concurrency | LoadFactor | Priority | RateMultiplier
    | Status | ErrorMessage | LastUsedAt | ExpiresAt
    | AutoPauseOnExpired | Schedulable | RateLimitedAt | RateLimitResetAt
    | OverloadUntil | TempUnschedulableUntil | TempUnschedulableReason | SessionWindowStart
    | SessionWindowEnd | SessionWindowStatus | ParentAccountID | QuotaDimension
    | Other(name: string)

  const COLUMNS_0_7: seq<Column> := [ID, CreatedAt, UpdatedAt, DeletedAt, Name, Notes, Platform, Type]
  const COLUMNS_8_15: seq<Column> := [Credentials, Extra, ProxyID, ProxyFallbackOriginID, Concurrency, LoadFactor,
    Priority, RateMultiplier]
  const COLUMNS_16_23: seq<Column> := [Status, ErrorMessage, LastUsedAt, ExpiresAt, AutoPauseOnExpired, Schedulable,
    RateLimitedAt, RateLimitResetAt]
  const COLUMNS_24_31: seq<Column> := [
    OverloadUntil, TempUnschedulableUntil, TempUnschedulableReason, SessionWindowStart,
    SessionWindowEnd, SessionWindowStatus, ParentAccountID, QuotaDimension]

  const COLUMNS: seq<Column> := COLUMNS_0_7 + COLUMNS_8_15 + COLUMNS_16_23 + COLUMNS_24_31

  predicate ValidColumn(c: Column) { !c.Other? }

  type AccountRow = map<Column, SqlValue>

  function Cell(row: AccountRow, c: Column): SqlValue {
    if c in row then row[c] else Null
  }

  // The scalar fields of an Account struct, grouped by the type they are scanned as. A nullable
  // column is nullable, hence an Option.
  datatype Times = Times(
    createdAt: int, updatedAt: int, deletedAt: Option<int>, lastUsedAt: Option<int>, expiresAt: Option<int>,
    rateLimitedAt: Option<int>, rateLimitResetAt: Option<int>, overloadUntil: Option<int>,
    tempUnschedulableUntil: Option<int>, sessionWindowStart: Option<int>, sessionWindowEnd: Option<int>)

  datatype Texts = Texts(
    name: string, notes: Option<string>, platform: string, kind: string, status: string,
    errorMessage: Option<string>, tempUnschedulableReason: Option<string>, sessionWindowStatus: Option<string>,
    quotaDimension: string)

  datatype Ints = Ints(
    id: int, proxyID: Option<int>, proxyFallbackOriginID: Option<int>, concurrency: int,
    loadFactor: Option<int>, priority: int, parentAccountID: Option<int>)

  datatype AccountFields = AccountFields(
    times: Times,
    texts: Texts,
    ints: Ints,
    credentials: Json,
    extra: Json,
    rateMultiplier: real,
    autoPauseOnExpired: bool,
    schedulable: bool,
    selectValues: map<Column, Buffer>
  )

  // A struct nothing has been assigned to yet.
  const ZERO: AccountFields := AccountFields(
    Times(0, 0, None, None, None, None, None, None, None, None, None),
    Texts("", None, "", "", "", None, None, None, ""),
    Ints(0, None, None, 0, None, 0, None),
    JsonNull, JsonNull, 0.0, false, false, map[])

  // The scan buffer each column asks for.
  function EmptyBuffer(c: Column): Buffer {
    match c
    case Credentials | Extra => Bytes([])
    case AutoPauseOnExpired | Schedulable => NullBool(false, false)
    case RateMultiplier => NullFloat64(0.0, false)
    case ID | ProxyID | ProxyFallbackOriginID | Concurrency => NullInt64(0, false)
    case LoadFactor | Priority | ParentAccountID => NullInt64(0, false)
    case Name | Notes | Platform | Type => NullString("", false)
    case Status | ErrorMessage | TempUnschedulableReason | SessionWindowStatus => NullString("", false)
    case QuotaDimension => NullString("", false)
    case CreatedAt | UpdatedAt | DeletedAt | LastUsedAt => NullTime(0, false)
    case ExpiresAt | RateLimitedAt | RateLimitResetAt | OverloadUntil => NullTime(0, false)
    case TempUnschedulableUntil | SessionWindowStart | SessionWindowEnd => NullTime(0, false)
    case Other(_) => UnknownType(Null)
  }

  function EmptyBuffers(columns: seq<Column>): (bs: seq<Buffer>)
    ensures |bs| == |columns|
  {
    seq(|columns|, i requires 0 <= i < |columns| => EmptyBuffer(columns[i]))
  }

  method ScanValues(columns: seq<Column>) returns (values: array<Buffer>)
    ensures fresh(values)
    ensures values[..] == EmptyBuffers(columns)
  {
    values := new Buffer[|columns|];
    for i := 0 to |columns|
      invariant forall k :: 0 <= k < i ==> values[k] == EmptyBuffer(columns[k])
    {
      values[i] := EmptyBuffer(columns[i]);
    }
  }

  datatype AssignError =
    | Mismatch(values: nat, columns: nat)
    | UnexpectedType(column: Column)
    | BadDocument(column: Column)

  // json.Unmarshal into a field holding `current`; no bytes leave the field alone.
  function Decode(codec: JsonCodec, current: Json, bytes: seq<bv8>): Option<Json> {
    if bytes == [] then Some(current) else codec.unmarshal(current, bytes)
  }

  // The arms of the switch in `assignValues`, for a buffer of the type they assert: column `c` takes
  // the value in `b`, unless that is NULL.
  function AssignTime(f: Times, c: Column, b: Buffer): Times
    requires EmptyBuffer(c).NullTime? && b.NullTime?
  {
    if !b.valid then f else match c
    case CreatedAt => f.(createdAt := b.time)
    case UpdatedAt => f.(updatedAt := b.time)
    case DeletedAt => f.(deletedAt := Some(b.time))
    case LastUsedAt => f.(lastUsedAt := Some(b.time))
    case ExpiresAt => f.(expiresAt := Some(b.time))
    case RateLimitedAt => f.(rateLimitedAt := Some(b.time))
    case RateLimitResetAt => f.(rateLimitResetAt := Some(b.time))
    case OverloadUntil => f.(overloadUntil := Some(b.time))
    case TempUnschedulableUntil => f.(tempUnschedulableUntil := Some(b.time))
    case SessionWindowStart => f.(sessionWindowStart := Some(b.time))
    case SessionWindowEnd => f.(sessionWindowEnd := Some(b.time))
  }

  function AssignText(f: Texts, c: Column, b: Buffer): Texts
    requires EmptyBuffer(c).NullString? && b.NullString?
  {
    if !b.valid then f else match c
    case Name => f.(name := b.text)
    case Notes => f.(notes := Some(b.text))
    case Platform => f.(platform := b.text)
    case Type => f.(kind := b.text)
    case Status => f.(status := b.text)
    case ErrorMessage => f.(errorMessage := Some(b.text))
    case TempUnschedulableReason => f.(tempUnschedulableReason := Some(b.text))
    case SessionWindowStatus => f.(sessionWindowStatus := Some(b.text))
    case QuotaDimension => f.(quotaDimension := b.text)
  }

  function AssignInt(f: Ints, c: Column, b: Buffer): Ints
    requires EmptyBuffer(c).NullInt64? && b.NullInt64?
  {
    if c == ID then f.(id := b.int64) else if !b.valid then f else match c
    case ProxyID => f.(proxyID := Some(b.int64))
    case ProxyFallbackOriginID => f.(proxyFallbackOriginID := Some(b.int64))
    case Concurrency => f.(concurrency := b.int64)
    case LoadFactor => f.(loadFactor := Some(b.int64))
    case Priority => f.(priority := b.int64)
    case ParentAccountID => f.(parentAccountID := Some(b.int64))
  }

  function AssignBool(f: AccountFields, c: Column, b: Buffer): AccountFields
    requires EmptyBuffer(c).NullBool? && b.NullBool?
  {
    if !b.valid then f else match c
    case AutoPauseOnExpired => f.(autoPauseOnExpired := b.flag)
    case Schedulable => f.(schedulable := b.flag)
  }

  function AssignDocument(codec: JsonCodec, f: AccountFields, c: Column, b: Buffer): Result<AccountFields, AssignError>
    requires EmptyBuffer(c).Bytes? && b.Bytes?
  {
    var doc := Decode(codec, if c == Credentials then f.credentials else f.extra, b.bytes);
    if doc.None? then Failure(BadDocument(c))
    else if c == Credentials then Success(f.(credentials := doc.value))
    else Success(f.(extra := doc.value))
  }

  // The buffer type that the arm for each column asserts.
  datatype ArmType = TimeArm | TextArm | IntArm | BoolArm | FloatArm | DocumentArm | ExtraArm

  function Arm(c: Column): ArmType {
    match c
    case ID => IntArm
    case CreatedAt | UpdatedAt | DeletedAt => TimeArm
    case Name | Notes | Platform | Type => TextArm
    case Credentials | Extra => DocumentArm
    case ProxyID | ProxyFallbackOriginID | Concurrency | LoadFactor => IntArm
    case Priority => IntArm
    case RateMultiplier => FloatArm
    case Status | ErrorMessage => TextArm
    case LastUsedAt | ExpiresAt => TimeArm
    case AutoPauseOnExpired | Schedulable => BoolArm
    case RateLimitedAt | RateLimitResetAt | OverloadUntil | TempUnschedulableUntil => TimeArm
    case TempUnschedulableReason => TextArm
    case SessionWindowStart | SessionWindowEnd => TimeArm
    case SessionWindowStatus => TextArm
    case ParentAccountID => IntArm
    case QuotaDimension => TextArm
    case Other(_) => ExtraArm
  }

  // `scanValues` and `assignValues` agree on every column.
  lemma ArmMatchesBuffer(c: Column)
    ensures match Arm(c)
      case TimeArm => EmptyBuffer(c).NullTime?
      case TextArm => EmptyBuffer(c).NullString?
      case IntArm => EmptyBuffer(c).NullInt64?
      case BoolArm => EmptyBuffer(c).NullBool?
      case FloatArm => EmptyBuffer(c).NullFloat64?
      case DocumentArm => EmptyBuffer(c).Bytes?
      case ExtraArm => EmptyBuffer(c).UnknownType?
    ensures Arm(c).BoolArm? <==> c.AutoPauseOnExpired? || c.Schedulable?
    ensures Arm(c).FloatArm? <==> c.RateMultiplier?
    ensures Arm(c).DocumentArm? <==> c.Credentials? || c.Extra?
    ensures Arm(c).ExtraArm? <==> c.Other?
  {
  }

  // One turn of the loop in `assignValues`.
  function AssignOne(codec: JsonCodec, f: AccountFields, c: Column, b: Buffer): Result<AccountFields, AssignError> {
    var wrong := Failure(UnexpectedType(c));
    ArmMatchesBuffer(c);
    match Arm(c)
    case TimeArm => if b.NullTime? then Success(f.(times := AssignTime(f.times, c, b))) else wrong
    case TextArm => if b.NullString? then Success(f.(texts := AssignText(f.texts, c, b))) else wrong
    case IntArm => if b.NullInt64? then Success(f.(ints := AssignInt(f.ints, c, b))) else wrong
    case BoolArm => if b.NullBool? then Success(AssignBool(f, c, b)) else wrong
    case FloatArm => if b.NullFloat64? then Success(if b.valid then f.(rateMultiplier := b.float64) else f) else wrong
    case DocumentArm => if b.Bytes? then AssignDocument(codec, f, c, b) else wrong
    case ExtraArm => Success(f.(selectValues := f.selectValues[c := b]))
  }

  // The whole switch loop, keeping what was assigned before an error stopped it.
  function AssignFrom(codec: JsonCodec, f: AccountFields, columns: seq<Column>, values: seq<Buffer>)
    : (AccountFields, Option<AssignError>)
    requires |columns| <= |values|
    decreases |columns|
  {
    if columns == [] then (f, None)
    else match AssignOne(codec, f, columns[0], values[0])
      case Failure(e) => (f, Some(e))
      case Success(f') => AssignFrom(codec, f', columns[1..], values[1..])
  }

  function AssignAll(codec: JsonCodec, f: AccountFields, columns: seq<Column>, values: seq<Buffer>)
    : (AccountFields, Option<AssignError>)
  {
    if |values| < |columns| then (f, Some(Mismatch(|values|, |columns|)))
    else AssignFrom(codec, f, columns, values)
  }

  // Why an edge accessor returns no value.
  datatype EdgeError = NotFound(entity: string) | NotLoaded(edge: string)

  datatype LoadedTypes = LoadedTypes(
    groups: bool, proxy: bool, parent: bool, children: bool, usageLogs: bool, accountGroups: bool)

  // The edges of a node, with `A` for the account nodes it points to.
  datatype Edges<A> = Edges(
    groups: seq<Leaf>,
    proxy: Option<Leaf>,
    parent: Option<A>,
    children: seq<A>,
    usageLogs: seq<Leaf>,
    accountGroups: seq<Leaf>,
    loadedTypes: LoadedTypes
  ) {
    function GroupsOrErr(): Result<seq<Leaf>, EdgeError> {
      if loadedTypes.groups then Success(groups) else Failure(NotLoaded("groups"))
    }

    function ProxyOrErr(): Result<Leaf, EdgeError> {
      if proxy.Some? then Success(proxy.value)
      else if loadedTypes.proxy then Failure(NotFound("proxy"))
      else Failure(NotLoaded("proxy"))
    }

    function ParentOrErr(): Result<A, EdgeError> {
      if parent.Some? then Success(parent.value)
      else if loadedTypes.parent then Failure(NotFound("account"))
      else Failure(NotLoaded("parent"))
    }

    function ChildrenOrErr(): Result<seq<A>, EdgeError> {
      if loadedTypes.children then Success(children) else Failure(NotLoaded("children"))
    }

    function UsageLogsOrErr(): Result<seq<Leaf>, EdgeError> {
      if loadedTypes.usageLogs then Success(usageLogs) else Failure(NotLoaded("usage_logs"))
    }

    function AccountGroupsOrErr(): Result<seq<Leaf>, EdgeError> {
      if loadedTypes.accountGroups then Success(accountGroups) else Failure(NotLoaded("account_groups"))
    }
  }

  function NoEdges<A>(loaded: LoadedTypes): Edges<A> {
    Edges([], None, None, [], [], [], loaded)
  }

  // A node on the heap. `height` bounds how deep its edges go; `row` is the row it was scanned from.
  class Account {
    var fields: AccountFields
    var edges: Edges<Account>
    ghost const row: AccountRow
    ghost const height: nat

    constructor (loaded: LoadedTypes, ghost row: AccountRow, ghost height: nat)
      ensures fields == ZERO && edges == NoEdges(loaded)
      ensures this.row == row && this.height == height
    {
      fields := ZERO;
      edges := NoEdges(loaded);
      this.row := row;
      this.height := height;
    }

    method AssignValues(codec: JsonCodec, columns: seq<Column>, values: array<Buffer>)
      returns (err: Option<AssignError>)
      modifies this`fields
      ensures (fields, err) == AssignAll(codec, old(fields), columns, values[..])
    {
      if values.Length < |columns| {
        return Some(Mismatch(values.Length, |columns|));
      }
      for i := 0 to |columns|
        invariant AssignFrom(codec, fields, columns[i..], values[i..])
               == AssignFrom(codec, old(fields), columns, values[..])
      {
        assert columns[i..][0] == columns[i] && columns[i..][1..] == columns[i + 1..];
        assert values[i..][0] == values[i] && values[i..][1..] == values[i + 1..];
        match AssignOne(codec, fields, columns[i], values[i]) {
          case Failure(e) => return Some(e);
          case Success(f) => fields := f;
        }
      }
      return None;
    }
  }

  // Every cell has its column's type or is NULL, and non-empty documents decode.
  ghost predicate WellTyped(codec: JsonCodec, row: AccountRow) {
    forall c: Column :: WellTypedCell(codec, c, Cell(row, c))
  }

  predicate WellTypedCell(codec: JsonCodec, c: Column, v: SqlValue) {
    ValidColumn(c) ==>
      && Fill(EmptyBuffer(c), v).Some?
      && (v.Encoded? && v.bytes != [] ==> Decodes(codec, v.bytes))
  }

  // The buffers the driver hands to `assignValues` for a row.
  function FilledBuffers(columns: seq<Column>, row: AccountRow): (bs: seq<Buffer>)
    ensures |bs| == |columns|
  {
    seq(|columns|, i requires 0 <= i < |columns| => FilledBuffer(columns[i], row))
  }

  function FilledBuffer(c: Column, row: AccountRow): Buffer {
    var filled := Fill(EmptyBuffer(c), Cell(row, c));
    if filled.Some? then filled.value else EmptyBuffer(c)
  }

  // The struct a row is read into.
  function Scan(codec: JsonCodec, columns: seq<Column>, row: AccountRow): AccountFields {
    AssignAll(codec, ZERO, columns, FilledBuffers(columns, row)).0
  }

  // What a selected column should read as: the zero value or nil when it is NULL or was
  // not selected.
  function IntAt(row: AccountRow, selected: set<Column>, c: Column): int {
    if c in selected && Cell(row, c).Int? then Cell(row, c).i else 0
  }

  function TimeAt(row: AccountRow, selected: set<Column>, c: Column): int {
    if c in selected && Cell(row, c).Time? then Cell(row, c).t else 0
  }

  function TextAt(row: AccountRow, selected: set<Column>, c: Column): string {
    if c in selected && Cell(row, c).Text? then Cell(row, c).s else ""
  }

  function BoolAt(row: AccountRow, selected: set<Column>, c: Column): bool {
    if c in selected && Cell(row, c).Bool? then Cell(row, c).b else false
  }

  function FloatAt(row: AccountRow, selected: set<Column>, c: Column): real {
    if c in selected && Cell(row, c).Float? then Cell(row, c).r else 0.0
  }

  function IntPtrAt(row: AccountRow, selected: set<Column>, c: Column): Option<int> {
    if c in selected && Cell(row, c).Int? then Some(Cell(row, c).i) else None
  }

  function TimePtrAt(row: AccountRow, selected: set<Column>, c: Column): Option<int> {
    if c in selected && Cell(row, c).Time? then Some(Cell(row, c).t) else None
  }

  function TextPtrAt(row: AccountRow, selected: set<Column>, c: Column): Option<string> {
    if c in selected && Cell(row, c).Text? then Some(Cell(row, c).s) else None
  }

  function DocumentAt(codec: JsonCodec, row: AccountRow, selected: set<Column>, c: Column): Json {
    if c in selected && Cell(row, c).Encoded? then
      var doc := Decode(codec, JsonNull, Cell(row, c).bytes);
      if doc.Some? then doc.value else JsonNull
    else JsonNull
  }

  // Values of columns outside the table's list, kept aside under their names.
  function ExtraValues(row: AccountRow, selected: set<Column>): map<Column, Buffer> {
    map c | c in selected && c.Other? :: UnknownType(Cell(row, c))
  }

  function TimesAt(row: AccountRow, selected: set<Column>): Times {
    Times(
      createdAt := TimeAt(row, selected, CreatedAt),
      updatedAt := TimeAt(row, selected, UpdatedAt),
      deletedAt := TimePtrAt(row, selected, DeletedAt),
      lastUsedAt := TimePtrAt(row, selected, LastUsedAt),
      expiresAt := TimePtrAt(row, selected, ExpiresAt),
      rateLimitedAt := TimePtrAt(row, selected, RateLimitedAt),
      rateLimitResetAt := TimePtrAt(row, selected, RateLimitResetAt),
      overloadUntil := TimePtrAt(row, selected, OverloadUntil),
      tempUnschedulableUntil := TimePtrAt(row, selected, TempUnschedulableUntil),
      sessionWindowStart := TimePtrAt(row, selected, SessionWindowStart),
      sessionWindowEnd := TimePtrAt(row, selected, SessionWindowEnd))
  }

  function TextsAt(row: AccountRow, selected: set<Column>): Texts {
    Texts(
      name := TextAt(row, selected, Name),
      notes := TextPtrAt(row, selected, Notes),
      platform := TextAt(row, selected, Platform),
      kind := TextAt(row, selected, Type),
      status := TextAt(row, selected, Status),
      errorMessage := TextPtrAt(row, selected, ErrorMessage),
      tempUnschedulableReason := TextPtrAt(row, selected, TempUnschedulableReason),
      sessionWindowStatus := TextPtrAt(row, selected, SessionWindowStatus),
      quotaDimension := TextAt(row, selected, QuotaDimension))
  }

  function IntsAt(row: AccountRow, selected: set<Column>): Ints {
    Ints(
      id := IntAt(row, selected, ID),
      proxyID := IntPtrAt(row, selected, ProxyID),
      proxyFallbackOriginID := IntPtrAt(row, selected, ProxyFallbackOriginID),
      concurrency := IntAt(row, selected, Concurrency),
      loadFactor := IntPtrAt(row, selected, LoadFactor),
      priority := IntAt(row, selected, Priority),
      parentAccountID := IntPtrAt(row, selected, ParentAccountID))
  }

  // The struct a row should be read into when `selected` columns are projected.
  function Projected(codec: JsonCodec, row: AccountRow, selected: set<Column>): AccountFields {
    AccountFields(
      times := TimesAt(row, selected),
      texts := TextsAt(row, selected),
      ints := IntsAt(row, selected),
      credentials := DocumentAt(codec, row, selected, Credentials),
      extra := DocumentAt(codec, row, selected, Extra),
      rateMultiplier := FloatAt(row, selected, RateMultiplier),
      autoPauseOnExpired := BoolAt(row, selected, AutoPauseOnExpired),
      schedulable := BoolAt(row, selected, Schedulable),
      selectValues := ExtraValues(row, selected))
  }

  // `larger` is `selected` with column `c` added.
  ghost predicate Adds(selected: set<Column>, c: Column, larger: set<Column>) {
    c in larger && forall d | d != c :: d in larger <==> d in selected
  }

  lemma TimeColumns(c: Column)
    ensures EmptyBuffer(c).NullTime? <==>
      || c.CreatedAt? || c.UpdatedAt? || c.DeletedAt? || c.LastUsedAt? || c.ExpiresAt?
      || c.RateLimitedAt? || c.RateLimitResetAt? || c.OverloadUntil? || c.TempUnschedulableUntil?
      || c.SessionWindowStart?
      || c.SessionWindowEnd?
  {
  }

  lemma TimesRead(row: AccountRow, selected: set<Column>, c: Column, larger: set<Column>)
    requires Adds(selected, c, larger)
    ensures forall d | d != c || !Cell(row, c).Time? ::
      TimeAt(row, selected, d) == TimeAt(row, larger, d) && TimePtrAt(row, selected, d) == TimePtrAt(row, larger, d)
    ensures Cell(row, c).Time? ==>
      TimeAt(row, larger, c) == Cell(row, c).t && TimePtrAt(row, larger, c) == Some(Cell(row, c).t)
  {
  }

  lemma AssignTimeProjects(row: AccountRow, selected: set<Column>, c: Column, larger: set<Column>, b: Buffer)
    requires Adds(selected, c, larger)
    requires EmptyBuffer(c).NullTime? && b.NullTime?
    requires b == if Cell(row, c).Time? then NullTime(Cell(row, c).t, true) else NullTime(0, false)
    ensures AssignTime(TimesAt(row, selected), c, b) == TimesAt(row, larger)
  {
    TimesRead(row, selected, c, larger);
    TimeColumns(c);
    hide TimeAt, TimePtrAt, Cell, Adds, EmptyBuffer;
  }

  lemma TimesKept(row: AccountRow, selected: set<Column>, c: Column, larger: set<Column>)
    requires Adds(selected, c, larger)
    requires !EmptyBuffer(c).NullTime?
    ensures TimesAt(row, selected) == TimesAt(row, larger)
  {
    TimesRead(row, selected, c, larger);
    TimeColumns(c);
    hide TimeAt, TimePtrAt, Cell, Adds, EmptyBuffer;
  }

  lemma TextColumns(c: Column)
    ensures EmptyBuffer(c).NullString? <==>
      || c.Name? || c.Notes? || c.Platform? || c.Type? || c.Status?
      || c.ErrorMessage? || c.TempUnschedulableReason? || c.SessionWindowStatus? || c.QuotaDimension?
  {
  }

  lemma TextsRead(row: AccountRow, selected: set<Column>, c: Column, larger: set<Column>)
    requires Adds(selected, c, larger)
    ensures forall d | d != c || !Cell(row, c).Text? ::
      TextAt(row, selected, d) == TextAt(row, larger, d) && TextPtrAt(row, selected, d) == TextPtrAt(row, larger, d)
    ensures Cell(row, c).Text? ==>
      TextAt(row, larger, c) == Cell(row, c).s && TextPtrAt(row, larger, c) == Some(Cell(row, c).s)
  {
  }

  lemma AssignTextProjects(row: AccountRow, selected: set<Column>, c: Column, larger: set<Column>, b: Buffer)
    requires Adds(selected, c, larger)
    requires EmptyBuffer(c).NullString? && b.NullString?
    requires b == if Cell(row, c).Text? then NullString(Cell(row, c).s, true) else NullString("", false)
    ensures AssignText(TextsAt(row, selected), c, b) == TextsAt(row, larger)
  {
    TextsRead(row, selected, c, larger);
    TextColumns(c);
    hide TextAt, TextPtrAt, Cell, Adds, EmptyBuffer;
  }

  lemma TextsKept(row: AccountRow, selected: set<Column>, c: Column, larger: set<Column>)
    requires Adds(selected, c, larger)
    requires !EmptyBuffer(c).NullString?
    ensures TextsAt(row, selected) == TextsAt(row, larger)
  {
    TextsRead(row, selected, c, larger);
    TextColumns(c);
    hide TextAt, TextPtrAt, Cell, Adds, EmptyBuffer;
  }

  lemma IntColumns(c: Column)
    ensures EmptyBuffer(c).NullInt64? <==>
      || c.ID? || c.ProxyID? || c.ProxyFallbackOriginID? || c.Concurrency? || c.LoadFactor?
      || c.Priority? || c.ParentAccountID?
  {
  }

  lemma IntsRead(row: AccountRow, selected: set<Column>, c: Column, larger: set<Column>)
    requires Adds(selected, c, larger)
    ensures forall d | d != c || !Cell(row, c).Int? ::
      IntAt(row, selected, d) == IntAt(row, larger, d) && IntPtrAt(row, selected, d) == IntPtrAt(row, larger, d)
    ensures Cell(row, c).Int? ==>
      IntAt(row, larger, c) == Cell(row, c).i && IntPtrAt(row, larger, c) == Some(Cell(row, c).i)
  {
  }

  lemma AssignIntProjects(row: AccountRow, selected: set<Column>, c: Column, larger: set<Column>, b: Buffer)
    requires Adds(selected, c, larger)
    requires EmptyBuffer(c).NullInt64? && b.NullInt64?
    requires b == if Cell(row, c).Int? then NullInt64(Cell(row, c).i, true) else NullInt64(0, false)
    ensures AssignInt(IntsAt(row, selected), c, b) == IntsAt(row, larger)
  {
    IntsRead(row, selected, c, larger);
    IntColumns(c);
    hide IntAt, IntPtrAt, Cell, Adds, EmptyBuffer;
  }

  lemma IntsKept(row: AccountRow, selected: set<Column>, c: Column, larger: set<Column>)
    requires Adds(selected, c, larger)
    requires !EmptyBuffer(c).NullInt64?
    ensures IntsAt(row, selected) == IntsAt(row, larger)
  {
    IntsRead(row, selected, c, larger);
    IntColumns(c);
    hide IntAt, IntPtrAt, Cell, Adds, EmptyBuffer;
  }

  lemma ExtraKept(row: AccountRow, selected: set<Column>, c: Column, larger: set<Column>)
    requires Adds(selected, c, larger) && !c.Other?
    ensures ExtraValues(row, larger) == ExtraValues(row, selected)
  {
  }

  lemma ExtraAdded(row: AccountRow, selected: set<Column>, c: Column, larger: set<Column>)
    requires Adds(selected, c, larger) && c.Other?
    ensures ExtraValues(row, larger) == ExtraValues(row, selected)[c := UnknownType(Cell(row, c))]
  {
  }

  // One arm of the switch adds exactly its own column to the projection.
  lemma AssignOneProjects(codec: JsonCodec, row: AccountRow, selected: set<Column>, c: Column, larger: set<Column>)
    requires WellTypedCell(codec, c, Cell(row, c))
    requires Adds(selected, c, larger)
    ensures AssignOne(codec, Projected(codec, row, selected), c, FilledBuffer(c, row))
         == Success(Projected(codec, row, larger))
  {
    hide Projected, AssignOne, FilledBuffer;
    match EmptyBuffer(c) {
      case NullTime(_, _) => TimeProjects(codec, row, selected, c, larger);
      case NullString(_, _) => TextProjects(codec, row, selected, c, larger);
      case NullInt64(_, _) => IntProjects(codec, row, selected, c, larger);
      case Bytes(_) => DocumentProjects(codec, row, selected, c, larger);
      case UnknownType(_) => ExtraProjects(codec, row, selected, c, larger);
      case _ => FlagOrFloatProjects(codec, row, selected, c, larger);
    }
  }

  // A well-typed cell fills its buffer with its value, or leaves it invalid when it is NULL.
  lemma Filled(codec: JsonCodec, row: AccountRow, c: Column)
    requires WellTypedCell(codec, c, Cell(row, c))
    ensures var v, b := Cell(row, c), FilledBuffer(c, row);
      && (EmptyBuffer(c).NullTime? ==> b == if v.Time? then NullTime(v.t, true) else NullTime(0, false))
      && (EmptyBuffer(c).NullString? ==> b == if v.Text? then NullString(v.s, true) else NullString("", false))
      && (EmptyBuffer(c).NullInt64? ==> b == if v.Int? then NullInt64(v.i, true) else NullInt64(0, false))
      && (EmptyBuffer(c).NullBool? ==> b == if v.Bool? then NullBool(v.b, true) else NullBool(false, false))
      && (EmptyBuffer(c).NullFloat64? ==> b == if v.Float? then NullFloat64(v.r, true) else NullFloat64(0.0, false))
  {
  }

  lemma ArmOf(c: Column)
    ensures EmptyBuffer(c).NullTime? ==> Arm(c) == TimeArm && !c.Other?
    ensures EmptyBuffer(c).NullString? ==> Arm(c) == TextArm && !c.Other?
    ensures EmptyBuffer(c).NullInt64? ==> Arm(c) == IntArm && !c.Other?
  {
  }

  // The columns of a kind of their own are not touched by the others.
  lemma SingleColumnsKept(codec: JsonCodec, row: AccountRow, selected: set<Column>, c: Column, larger: set<Column>)
    requires Adds(selected, c, larger)
    requires EmptyBuffer(c).NullTime? || EmptyBuffer(c).NullString? || EmptyBuffer(c).NullInt64?
    ensures DocumentAt(codec, row, selected, Credentials) == DocumentAt(codec, row, larger, Credentials)
    ensures DocumentAt(codec, row, selected, Extra) == DocumentAt(codec, row, larger, Extra)
    ensures FloatAt(row, selected, RateMultiplier) == FloatAt(row, larger, RateMultiplier)
    ensures BoolAt(row, selected, AutoPauseOnExpired) == BoolAt(row, larger, AutoPauseOnExpired)
    ensures BoolAt(row, selected, Schedulable) == BoolAt(row, larger, Schedulable)
  {
    assert c != Credentials && c != Extra && c != RateMultiplier && c != AutoPauseOnExpired && c != Schedulable;
    hide EmptyBuffer;
  }

  lemma TimeAssigned(codec: JsonCodec, f: AccountFields, c: Column, b: Buffer)
    requires EmptyBuffer(c).NullTime? && b.NullTime?
    ensures AssignOne(codec, f, c, b) == Success(f.(times := AssignTime(f.times, c, b)))
  {
  }

  lemma TimesGrow(codec: JsonCodec, row: AccountRow, selected: set<Column>, c: Column, larger: set<Column>)
    requires EmptyBuffer(c).NullTime? && Adds(selected, c, larger)
    ensures Projected(codec, row, selected).times == TimesAt(row, selected)
    ensures Projected(codec, row, larger) == Projected(codec, row, selected).(times := TimesAt(row, larger))
  {
    ArmOf(c);
    hide EmptyBuffer, Adds, TimesAt, TextsAt, IntsAt, ExtraValues, DocumentAt, BoolAt, FloatAt;
    SingleColumnsKept(codec, row, selected, c, larger);
    TextsKept(row, selected, c, larger);
    IntsKept(row, selected, c, larger);
    ExtraKept(row, selected, c, larger);
  }

  lemma TimeProjects(codec: JsonCodec, row: AccountRow, selected: set<Column>, c: Column, larger: set<Column>)
    requires EmptyBuffer(c).NullTime?
    requires WellTypedCell(codec, c, Cell(row, c))
    requires Adds(selected, c, larger)
    ensures AssignOne(codec, Projected(codec, row, selected), c, FilledBuffer(c, row))
         == Success(Projected(codec, row, larger))
  {
    hide *;
    var b := FilledBuffer(c, row);
    Filled(codec, row, c);
    TimeAssigned(codec, Projected(codec, row, selected), c, b);
    TimesGrow(codec, row, selected, c, larger);
    AssignTimeProjects(row, selected, c, larger, b);
  }

  lemma TextAssigned(codec: JsonCodec, f: AccountFields, c: Column, b: Buffer)
    requires EmptyBuffer(c).NullString? && b.NullString?
    ensures AssignOne(codec, f, c, b) == Success(f.(texts := AssignText(f.texts, c, b)))
  {
  }

  lemma TextsGrow(codec: JsonCodec, row: AccountRow, selected: set<Column>, c: Column, larger: set<Column>)
    requires EmptyBuffer(c).NullString? && Adds(selected, c, larger)
    ensures Projected(codec, row, selected).texts == TextsAt(row, selected)
    ensures Projected(codec, row, larger) == Projected(codec, row, selected).(texts := TextsAt(row, larger))
  {
    ArmOf(c);
    hide EmptyBuffer, Adds, TimesAt, TextsAt, IntsAt, ExtraValues, DocumentAt, BoolAt, FloatAt;
    SingleColumnsKept(codec, row, selected, c, larger);
    TimesKept(row, selected, c, larger);
    IntsKept(row, selected, c, larger);
    ExtraKept(row, selected, c, larger);
  }

  lemma TextProjects(codec: JsonCodec, row: AccountRow, selected: set<Column>, c: Column, larger: set<Column>)
    requires EmptyBuffer(c).NullString?
    requires WellTypedCell(codec, c, Cell(row, c))
    requires Adds(selected, c, larger)
    ensures AssignOne(codec, Projected(codec, row, selected), c, FilledBuffer(c, row))
         == Success(Projected(codec, row, larger))
  {
    hide *;
    var b := FilledBuffer(c, row);
    Filled(codec, row, c);
    TextAssigned(codec, Projected(codec, row, selected), c, b);
    TextsGrow(codec, row, selected, c, larger);
    AssignTextProjects(row, selected, c, larger, b);
  }

  lemma IntAssigned(codec: JsonCodec, f: AccountFields, c: Column, b: Buffer)
    requires EmptyBuffer(c).NullInt64? && b.NullInt64?
    ensures AssignOne(codec, f, c, b) == Success(f.(ints := AssignInt(f.ints, c, b)))
  {
  }

  lemma IntsGrow(codec: JsonCodec, row: AccountRow, selected: set<Column>, c: Column, larger: set<Column>)
    requires EmptyBuffer(c).NullInt64? && Adds(selected, c, larger)
    ensures Projected(codec, row, selected).ints == IntsAt(row, selected)
    ensures Projected(codec, row, larger) == Projected(codec, row, selected).(ints := IntsAt(row, larger))
  {
    ArmOf(c);
    hide EmptyBuffer, Adds, TimesAt, TextsAt, IntsAt, ExtraValues, DocumentAt, BoolAt, FloatAt;
    SingleColumnsKept(codec, row, selected, c, larger);
    TimesKept(row, selected, c, larger);
    TextsKept(row, selected, c, larger);
    ExtraKept(row, selected, c, larger);
  }

  lemma IntProjects(codec: JsonCodec, row: AccountRow, selected: set<Column>, c: Column, larger: set<Column>)
    requires EmptyBuffer(c).NullInt64?
    requires WellTypedCell(codec, c, Cell(row, c))
    requires Adds(selected, c, larger)
    ensures AssignOne(codec, Projected(codec, row, selected), c, FilledBuffer(c, row))
         == Success(Projected(codec, row, larger))
  {
    hide *;
    var b := FilledBuffer(c, row);
    Filled(codec, row, c);
    IntAssigned(codec, Projected(codec, row, selected), c, b);
    IntsGrow(codec, row, selected, c, larger);
    AssignIntProjects(row, selected, c, larger, b);
  }

  lemma DocumentProjects(codec: JsonCodec, row: AccountRow, selected: set<Column>, c: Column, larger: set<Column>)
    requires EmptyBuffer(c).Bytes?
    requires WellTypedCell(codec, c, Cell(row, c))
    requires Adds(selected, c, larger)
    ensures AssignOne(codec, Projected(codec, row, selected), c, FilledBuffer(c, row))
         == Success(Projected(codec, row, larger))
  {
    ArmMatchesBuffer(c);
    hide TimesAt, TextsAt, IntsAt, AssignTime, AssignText, AssignInt, ExtraValues, EmptyBuffer, Arm;
    TimesKept(row, selected, c, larger);
    TextsKept(row, selected, c, larger);
    IntsKept(row, selected, c, larger);
    ExtraKept(row, selected, c, larger);
  }

  lemma FlagOrFloatProjects(codec: JsonCodec, row: AccountRow, selected: set<Column>, c: Column, larger: set<Column>)
    requires EmptyBuffer(c).NullBool? || EmptyBuffer(c).NullFloat64?
    requires WellTypedCell(codec, c, Cell(row, c))
    requires Adds(selected, c, larger)
    ensures AssignOne(codec, Projected(codec, row, selected), c, FilledBuffer(c, row))
         == Success(Projected(codec, row, larger))
  {
    Filled(codec, row, c);
    ArmMatchesBuffer(c);
    hide TimesAt, TextsAt, IntsAt, AssignTime, AssignText, AssignInt, ExtraValues, EmptyBuffer, Arm, FilledBuffer,
      WellTypedCell;
    TimesKept(row, selected, c, larger);
    TextsKept(row, selected, c, larger);
    IntsKept(row, selected, c, larger);
    ExtraKept(row, selected, c, larger);
  }

  lemma ExtraProjects(codec: JsonCodec, row: AccountRow, selected: set<Column>, c: Column, larger: set<Column>)
    requires EmptyBuffer(c).UnknownType?
    requires WellTypedCell(codec, c, Cell(row, c))
    requires Adds(selected, c, larger)
    ensures AssignOne(codec, Projected(codec, row, selected), c, FilledBuffer(c, row))
         == Success(Projected(codec, row, larger))
  {
    ArmMatchesBuffer(c);
    hide TimesAt, TextsAt, IntsAt, AssignTime, AssignText, AssignInt, ExtraValues, EmptyBuffer, Arm;
    TimesKept(row, selected, c, larger);
    TextsKept(row, selected, c, larger);
    IntsKept(row, selected, c, larger);
    ExtraAdded(row, selected, c, larger);
  }

  // Reading a row over any column list, whatever its order and repetitions, hits no type or length
  // error and yields exactly the projection.
  lemma {:induction false} ScanProjects(
    codec: JsonCodec, row: AccountRow, seen: set<Column>, columns: seq<Column>, all: set<Column>)
    requires WellTyped(codec, row) && all == seen + set c | c in columns
    ensures AssignFrom(codec, Projected(codec, row, seen), columns, FilledBuffers(columns, row))
         == (Projected(codec, row, all), None)
    decreases |columns|
  {
    hide Projected, AssignOne, FilledBuffer;
    if columns == [] {
      assert all == seen;
    } else {
      var c := columns[0];
      AssignOneProjects(codec, row, seen, c, seen + {c});
      assert FilledBuffers(columns, row)[1..] == FilledBuffers(columns[1..], row);
      ScanProjects(codec, row, seen + {c}, columns[1..], all);
    }
  }

  lemma ScanIsProjected(codec: JsonCodec, columns: seq<Column>, row: AccountRow)
    requires WellTyped(codec, row)
    ensures AssignAll(codec, ZERO, columns, FilledBuffers(columns, row))
         == (Projected(codec, row, set c | c in columns), None)
  {
    assert Projected(codec, row, {}) == ZERO;
    ScanProjects(codec, row, {}, columns, set c | c in columns);
  }
}
