// Creating an account: default values, checks, the insert specification, and the row it becomes.
module AccountCreation {
  import opened Wrappers
  import opened Sql
  import opened AccountEntity

  // The fields and edges set on a mutation so far.
  datatype TimeChanges = TimeChanges(
    createdAt: Option<int>, updatedAt: Option<int>, deletedAt: Option<int>, lastUsedAt: Option<int>,
    expiresAt: Option<int>, rateLimitedAt: Option<int>, rateLimitResetAt: Option<int>, overloadUntil: Option<int>,
    tempUnschedulableUntil: Option<int>, sessionWindowStart: Option<int>, sessionWindowEnd: Option<int>)

  datatype TextChanges = TextChanges(
    name: Option<string>, notes: Option<string>, platform: Option<string>, kind: Option<string>,
    status: Option<string>, errorMessage: Option<string>, tempUnschedulableReason: Option<string>,
    sessionWindowStatus: Option<string>, quotaDimension: Option<string>)

  // `proxy` and `parent` are edges to one; their field setters set the same members.
  datatype IntChanges = IntChanges(
    proxy: Option<int>, proxyFallbackOriginID: Option<int>, concurrency: Option<int>, loadFactor: Option<int>,
    priority: Option<int>, parent: Option<int>)

  datatype Changes = Changes(
    times: TimeChanges, texts: TextChanges, ints: IntChanges,
    credentials: Option<Json>, extra: Option<Json>, rateMultiplier: Option<real>,
    autoPauseOnExpired: Option<bool>, schedulable: Option<bool>,
    groups: set<int>, children: set<int>, usageLogs: set<int>)

  // The account package's variables as one builder meets them: what the default functions return (None
  // when the function is nil), the default values, and the validators.
  datatype Runtime = Runtime(
    createdAt: Option<int>, updatedAt: Option<int>, credentials: Option<Json>, extra: Option<Json>,
    concurrency: int, priority: int, rateMultiplier: real, status: string,
    autoPauseOnExpired: bool, schedulable: bool, quotaDimension: string,
    linkedAt: int,
    validName: string -> bool, validPlatform: string -> bool, validType: string -> bool,
    validStatus: string -> bool, validSessionWindowStatus: string -> bool, validQuotaDimension: string -> bool)

  // ---- Values ----

  // A value of a field specification; documents are encoded when they are stored.
  datatype Value = Plain(cell: SqlValue) | Document(doc: Json)

  function OfTime(o: Option<int>): Option<Value> { if o.Some? then Some(Plain(Time(o.value))) else None }

  function OfText(o: Option<string>): Option<Value> { if o.Some? then Some(Plain(Text(o.value))) else None }

  function OfInt(o: Option<int>): Option<Value> { if o.Some? then Some(Plain(Int(o.value))) else None }

  function OfBool(o: Option<bool>): Option<Value> { if o.Some? then Some(Plain(Bool(o.value))) else None }

  function OfReal(o: Option<real>): Option<Value> { if o.Some? then Some(Plain(Float(o.value))) else None }

  function OfDocument(o: Option<Json>): Option<Value> { if o.Some? then Some(Document(o.value)) else None }

  // The mutation's getters: the value set for a column. The id is assigned by the database.
  function Entry(m: Changes, c: Column): Option<Value> {
    match c
    case CreatedAt => OfTime(m.times.createdAt)
    case UpdatedAt => OfTime(m.times.updatedAt)
    case DeletedAt => OfTime(m.times.deletedAt)
    case LastUsedAt => OfTime(m.times.lastUsedAt)
    case ExpiresAt => OfTime(m.times.expiresAt)
    case RateLimitedAt => OfTime(m.times.rateLimitedAt)
    case RateLimitResetAt => OfTime(m.times.rateLimitResetAt)
    case OverloadUntil => OfTime(m.times.overloadUntil)
    case TempUnschedulableUntil => OfTime(m.times.tempUnschedulableUntil)
    case SessionWindowStart => OfTime(m.times.sessionWindowStart)
    case SessionWindowEnd => OfTime(m.times.sessionWindowEnd)
    case Name => OfText(m.texts.name)
    case Notes => OfText(m.texts.notes)
    case Platform => OfText(m.texts.platform)
    case Type => OfText(m.texts.kind)
    case Status => OfText(m.texts.status)
    case ErrorMessage => OfText(m.texts.errorMessage)
    case TempUnschedulableReason => OfText(m.texts.tempUnschedulableReason)
    case SessionWindowStatus => OfText(m.texts.sessionWindowStatus)
    case QuotaDimension => OfText(m.texts.quotaDimension)
    case ProxyID => OfInt(m.ints.proxy)
    case ProxyFallbackOriginID => OfInt(m.ints.proxyFallbackOriginID)
    case Concurrency => OfInt(m.ints.concurrency)
    case LoadFactor => OfInt(m.ints.loadFactor)
    case Priority => OfInt(m.ints.priority)
    case ParentAccountID => OfInt(m.ints.parent)
    case Credentials => OfDocument(m.credentials)
    case Extra => OfDocument(m.extra)
    case RateMultiplier => OfReal(m.rateMultiplier)
    case AutoPauseOnExpired => OfBool(m.autoPauseOnExpired)
    case Schedulable => OfBool(m.schedulable)
    case ID | Other(_) => None
  }

  // Values have their column's type.
  predicate Fits(c: Column, v: Value) {
    match v
    case Plain(Time(_)) => EmptyBuffer(c).NullTime?
    case Plain(Text(_)) => EmptyBuffer(c).NullString?
    case Plain(Int(_)) => EmptyBuffer(c).NullInt64?
    case Plain(Bool(_)) => EmptyBuffer(c).NullBool?
    case Plain(Float(_)) => c == RateMultiplier
    case Document(_) => c == Credentials || c == Extra
    case _ => false
  }

  lemma EntryFits(m: Changes, c: Column)
    ensures Entry(m, c).Some? ==> Fits(c, Entry(m, c).value)
  {
  }

  // Assigning a value to the node's field for a column.
  function Write(f: AccountFields, c: Column, v: Value): AccountFields
    requires Fits(c, v)
  {
    match v
    case Plain(Time(t)) => f.(times := AssignTime(f.times, c, NullTime(t, true)))
    case Plain(Text(s)) => f.(texts := AssignText(f.texts, c, NullString(s, true)))
    case Plain(Int(i)) => f.(ints := AssignInt(f.ints, c, NullInt64(i, true)))
    case Plain(Bool(b)) => AssignBool(f, c, NullBool(b, true))
    case Plain(Float(r)) => f.(rateMultiplier := r)
    case Document(d) => if c == Credentials then f.(credentials := d) else f.(extra := d)
  }

  // ---- defaults ----

  function Or<T>(o: Option<T>, d: T): Option<T> { if o.Some? then o else Some(d) }

  // The times a default function supplies; the name of the first one that is nil but needed.
  function DefaultedTimes(r: Runtime, m: Changes): (Changes, Option<string>) {
    if m.times.createdAt.None? && r.createdAt.None? then (m, Some("created_at"))
    else
      var m := if m.times.createdAt.Some? then m else m.(times := m.times.(createdAt := r.createdAt));
      if m.times.updatedAt.None? && r.updatedAt.None? then (m, Some("updated_at"))
      else (if m.times.updatedAt.Some? then m else m.(times := m.times.(updatedAt := r.updatedAt)), None)
  }

  function DefaultedDocuments(r: Runtime, m: Changes): (Changes, Option<string>) {
    if m.credentials.None? && r.credentials.None? then (m, Some("credentials"))
    else
      var m := if m.credentials.Some? then m else m.(credentials := r.credentials);
      if m.extra.None? && r.extra.None? then (m, Some("extra"))
      else (if m.extra.Some? then m else m.(extra := r.extra), None)
  }

  function DefaultedValues(r: Runtime, m: Changes): Changes {
    m.(ints := m.ints.(concurrency := Or(m.ints.concurrency, r.concurrency),
      priority := Or(m.ints.priority, r.priority)),
       rateMultiplier := Or(m.rateMultiplier, r.rateMultiplier),
       texts := m.texts.(status := Or(m.texts.status, r.status),
         quotaDimension := Or(m.texts.quotaDimension, r.quotaDimension)),
       autoPauseOnExpired := Or(m.autoPauseOnExpired, r.autoPauseOnExpired),
       schedulable := Or(m.schedulable, r.schedulable))
  }

  function Defaulted(r: Runtime, m: Changes): (Changes, Option<string>) {
    var (timed, err) := DefaultedTimes(r, m);
    if err.Some? then (timed, err)
    else
      var (documented, err) := DefaultedDocuments(r, timed);
      if err.Some? then (documented, err) else (DefaultedValues(r, documented), None)
  }

  // Columns that have a default.
  predicate HasDefault(c: Column) {
    || c.CreatedAt? || c.UpdatedAt? || c.Credentials? || c.Extra? || c.Concurrency? || c.Priority?
    || c.RateMultiplier? || c.Status? || c.AutoPauseOnExpired? || c.Schedulable? || c.QuotaDimension?
  }

  lemma TimesFill(r: Runtime, m: Changes, c: Column)
    ensures var (m', err) := DefaultedTimes(r, m);
      && (Entry(m, c).Some? || !(c.CreatedAt? || c.UpdatedAt?) ==> Entry(m', c) == Entry(m, c))
      && (err.None? && (c.CreatedAt? || c.UpdatedAt?) ==> Entry(m', c).Some?)
      && m'.groups == m.groups && m'.children == m.children && m'.usageLogs == m.usageLogs
      && m'.credentials == m.credentials && m'.extra == m.extra
      && (err.Some? <==>
            (m.times.createdAt.None? && r.createdAt.None?) || (m.times.updatedAt.None? && r.updatedAt.None?))
  {
  }

  lemma DocumentsFill(r: Runtime, m: Changes, c: Column)
    ensures var (m', err) := DefaultedDocuments(r, m);
      && (Entry(m, c).Some? || !(c.Credentials? || c.Extra?) ==> Entry(m', c) == Entry(m, c))
      && (err.None? && (c.Credentials? || c.Extra?) ==> Entry(m', c).Some?)
      && m'.groups == m.groups && m'.children == m.children && m'.usageLogs == m.usageLogs
      && (err.Some? <==> (m.credentials.None? && r.credentials.None?) || (m.extra.None? && r.extra.None?))
  {
  }

  lemma ValuesFill(r: Runtime, m: Changes, c: Column)
    ensures var m' := DefaultedValues(r, m);
      && (Entry(m, c).Some? || !HasDefault(c) ==> Entry(m', c) == Entry(m, c))
      && (HasDefault(c) && !(c.CreatedAt? || c.UpdatedAt? || c.Credentials? || c.Extra?) ==> Entry(m', c).Some?)
      && (c.CreatedAt? || c.UpdatedAt? || c.Credentials? || c.Extra? ==> Entry(m', c) == Entry(m, c))
      && m'.groups == m.groups && m'.children == m.children && m'.usageLogs == m.usageLogs
  {
  }

  // Defaults never overwrite, touch only the columns that have one, and on success fill all of those.
  // They fail exactly if a default function is nil and its field is unset.
  lemma DefaultsFill(r: Runtime, m: Changes, c: Column)
    ensures var (m', err) := Defaulted(r, m);
      && (Entry(m, c).Some? || !HasDefault(c) ==> Entry(m', c) == Entry(m, c))
      && (err.None? && HasDefault(c) ==> Entry(m', c).Some?)
      && m'.groups == m.groups && m'.children == m.children && m'.usageLogs == m.usageLogs
      && (err.Some? <==>
            || (m.times.createdAt.None? && r.createdAt.None?) || (m.times.updatedAt.None? && r.updatedAt.None?)
            || (m.credentials.None? && r.credentials.None?) || (m.extra.None? && r.extra.None?))
  {
    hide Entry, DefaultedTimes, DefaultedDocuments, DefaultedValues;
    var timed := DefaultedTimes(r, m).0;
    TimesFill(r, m, c);
    DocumentsFill(r, timed, c);
    ValuesFill(r, DefaultedDocuments(r, timed).0, c);
  }

  // ---- check ----

  datatype CheckError = Missing(field: string) | Invalid(field: string)

  // The first check that fails, in the order they run.
  function Checked(r: Runtime, m: Changes): Option<CheckError> {
    if m.times.createdAt.None? then Some(Missing("created_at"))
    else if m.times.updatedAt.None? then Some(Missing("updated_at"))
    else if m.texts.name.None? then Some(Missing("name"))
    else if !r.validName(m.texts.name.value) then Some(Invalid("name"))
    else if m.texts.platform.None? then Some(Missing("platform"))
    else if !r.validPlatform(m.texts.platform.value) then Some(Invalid("platform"))
    else if m.texts.kind.None? then Some(Missing("type"))
    else if !r.validType(m.texts.kind.value) then Some(Invalid("type"))
    else if m.credentials.None? then Some(Missing("credentials"))
    else if m.extra.None? then Some(Missing("extra"))
    else if m.ints.concurrency.None? then Some(Missing("concurrency"))
    else if m.ints.priority.None? then Some(Missing("priority"))
    else if m.rateMultiplier.None? then Some(Missing("rate_multiplier"))
    else if m.texts.status.None? then Some(Missing("status"))
    else if !r.validStatus(m.texts.status.value) then Some(Invalid("status"))
    else if m.autoPauseOnExpired.None? then Some(Missing("auto_pause_on_expired"))
    else if m.schedulable.None? then Some(Missing("schedulable"))
    else if m.texts.sessionWindowStatus.Some?
            && !r.validSessionWindowStatus(m.texts.sessionWindowStatus.value)
    then Some(Invalid("session_window_status"))
    else if m.texts.quotaDimension.None? then Some(Missing("quota_dimension"))
    else if !r.validQuotaDimension(m.texts.quotaDimension.value) then Some(Invalid("quota_dimension"))
    else None
  }

  // Columns the table does not accept NULL in, apart from the id.
  predicate Required(c: Column) { HasDefault(c) || c.Name? || c.Platform? || c.Type? }

  // Every value the package validates is valid.
  predicate AllValid(r: Runtime, m: Changes) {
    && (m.texts.name.Some? ==> r.validName(m.texts.name.value))
    && (m.texts.platform.Some? ==> r.validPlatform(m.texts.platform.value))
    && (m.texts.kind.Some? ==> r.validType(m.texts.kind.value))
    && (m.texts.status.Some? ==> r.validStatus(m.texts.status.value))
    && (m.texts.sessionWindowStatus.Some? ==> r.validSessionWindowStatus(m.texts.sessionWindowStatus.value))
    && (m.texts.quotaDimension.Some? ==> r.validQuotaDimension(m.texts.quotaDimension.value))
  }

  // The check passes exactly if every required field is set and every validated value is valid.
  lemma CheckPasses(r: Runtime, m: Changes)
    ensures Checked(r, m) == None <==> (forall c | Required(c) :: Entry(m, c).Some?) && AllValid(r, m)
  {
    hide Entry, Required;
    RequiredEntries(m);
  }

  lemma RequiredEntries(m: Changes)
    ensures (forall c | Required(c) :: Entry(m, c).Some?) <==>
      && m.times.createdAt.Some? && m.times.updatedAt.Some? && m.texts.name.Some? && m.texts.platform.Some?
      && m.texts.kind.Some? && m.credentials.Some? && m.extra.Some? && m.ints.concurrency.Some? && m.ints.priority.Some?
      && m.rateMultiplier.Some? && m.texts.status.Some? && m.autoPauseOnExpired.Some? && m.schedulable.Some?
      && m.texts.quotaDimension.Some?
  {
    hide Entry;
    RequiredGetters(m);
    if forall c | Required(c) :: Entry(m, c).Some? {
      assert Required(CreatedAt) && Required(UpdatedAt) && Required(Name) && Required(Platform) && Required(Type);
      assert Required(Credentials) && Required(Extra) && Required(Concurrency) && Required(Priority);
      assert Required(RateMultiplier) && Required(Status) && Required(AutoPauseOnExpired) && Required(Schedulable);
      assert Required(QuotaDimension);
    }
  }

  lemma RequiredGetters(m: Changes)
    ensures Entry(m, CreatedAt).Some? == m.times.createdAt.Some? && Entry(m, UpdatedAt).Some? == m.times.updatedAt.Some?
    ensures Entry(m, Name).Some? == m.texts.name.Some? && Entry(m, Platform).Some? == m.texts.platform.Some?
    ensures Entry(m, Type).Some? == m.texts.kind.Some? && Entry(m, Status).Some? == m.texts.status.Some?
    ensures Entry(m, QuotaDimension).Some? == m.texts.quotaDimension.Some?
    ensures Entry(m, Credentials).Some? == m.credentials.Some? && Entry(m, Extra).Some? == m.extra.Some?
    ensures Entry(m, Concurrency).Some? == m.ints.concurrency.Some? && Entry(m, Priority).Some? == m.ints.priority.Some?
    ensures Entry(m, RateMultiplier).Some? == m.rateMultiplier.Some?
    ensures Entry(m, AutoPauseOnExpired).Some? == m.autoPauseOnExpired.Some?
    ensures Entry(m, Schedulable).Some? == m.schedulable.Some?
  {
    hide *;
    TextGetters(m);
    OtherGetters(m);
  }

  lemma TextGetters(m: Changes)
    ensures Entry(m, Name).Some? == m.texts.name.Some? && Entry(m, Platform).Some? == m.texts.platform.Some?
    ensures Entry(m, Type).Some? == m.texts.kind.Some? && Entry(m, Status).Some? == m.texts.status.Some?
    ensures Entry(m, QuotaDimension).Some? == m.texts.quotaDimension.Some?
  {
  }

  lemma OtherGetters(m: Changes)
    ensures Entry(m, CreatedAt).Some? == m.times.createdAt.Some? && Entry(m, UpdatedAt).Some? == m.times.updatedAt.Some?
    ensures Entry(m, Credentials).Some? == m.credentials.Some? && Entry(m, Extra).Some? == m.extra.Some?
    ensures Entry(m, Concurrency).Some? == m.ints.concurrency.Some? && Entry(m, Priority).Some? == m.ints.priority.Some?
    ensures Entry(m, RateMultiplier).Some? == m.rateMultiplier.Some?
    ensures Entry(m, AutoPauseOnExpired).Some? == m.autoPauseOnExpired.Some?
    ensures Entry(m, Schedulable).Some? == m.schedulable.Some?
  {
  }

  // What a default function that is nil leaves unset, the check finds: a bulk save may drop its error.
  lemma CheckFindsUnset(r: Runtime, m: Changes)
    ensures Defaulted(r, m).1.Some? ==> Checked(r, Defaulted(r, m).0).Some?
  {
  }

  // After defaults, all a caller can have left out is the name, the platform and the type.
  lemma CheckAfterDefaults(r: Runtime, m: Changes)
    requires Defaulted(r, m).1 == None
    ensures Checked(r, Defaulted(r, m).0) == None <==>
      m.texts.name.Some? && m.texts.platform.Some? && m.texts.kind.Some? && AllValid(r, Defaulted(r, m).0)
  {
  }

  // ---- createSpec ----

  datatype FieldSpec = FieldSpec(column: Column, value: Value)

  // An edge of the insert: the join rows to groups carry the join entity's default, the edges to one
  // are stored in the row itself, the edges to many in the rows of the neighbours.
  datatype EdgeSpec =
    | ToGroups(ids: set<int>, createdAt: int)
    | ToProxy(id: int)
    | ToParent(id: int)
    | ToChildren(ids: set<int>)
    | ToUsageLogs(ids: set<int>)

  // The columns written as fields, in the order they are added.
  const FIRST_COLUMNS: seq<Column> := [
    CreatedAt, UpdatedAt, DeletedAt, Name, Notes, Platform, Type, Credentials, Extra, ProxyFallbackOriginID
  ]

  const SECOND_COLUMNS: seq<Column> := [
    Concurrency, LoadFactor, Priority, RateMultiplier, Status, ErrorMessage, LastUsedAt, ExpiresAt,
    AutoPauseOnExpired, Schedulable
  ]

  const THIRD_COLUMNS: seq<Column> := [
    RateLimitedAt, RateLimitResetAt, OverloadUntil, TempUnschedulableUntil, TempUnschedulableReason,
    SessionWindowStart, SessionWindowEnd, SessionWindowStatus, QuotaDimension
  ]

  const FIELD_COLUMNS: seq<Column> := FIRST_COLUMNS + SECOND_COLUMNS + THIRD_COLUMNS

  function FieldOf(m: Changes, c: Column): seq<FieldSpec> {
    var v := Entry(m, c);
    if v.Some? then [FieldSpec(c, v.value)] else []
  }

  function FieldsFor(m: Changes, columns: seq<Column>): seq<FieldSpec> {
    if columns == [] then []
    else FieldsFor(m, columns[..|columns| - 1]) + FieldOf(m, columns[|columns| - 1])
  }

  // The struct after the fields of `columns` have been set on it.
  function NodeFor(m: Changes, columns: seq<Column>): AccountFields {
    if columns == [] then ZERO
    else
      var front, c := NodeFor(m, columns[..|columns| - 1]), columns[|columns| - 1];
      EntryFits(m, c);
      if Entry(m, c).Some? then Write(front, c, Entry(m, c).value) else front
  }

  function EdgesFor(r: Runtime, m: Changes): seq<EdgeSpec> {
    (if m.groups != {} then [ToGroups(m.groups, r.linkedAt)] else [])
      + (if m.ints.proxy.Some? then [ToProxy(m.ints.proxy.value)] else [])
      + (if m.ints.parent.Some? then [ToParent(m.ints.parent.value)] else [])
      + (if m.children != {} then [ToChildren(m.children)] else [])
      + (if m.usageLogs != {} then [ToUsageLogs(m.usageLogs)] else [])
  }

  // The columns set on the node: the fields, then the keys of the edges to one.
  function NodeColumns(): seq<Column> { FIELD_COLUMNS + [ProxyID, ParentAccountID] }

  function NodeOf(m: Changes): AccountFields { NodeFor(m, NodeColumns()) }

  // The insert specification of one account; the database fills in the id.
  class CreateSpec {
    var fields: seq<FieldSpec>
    var edges: seq<EdgeSpec>
    var id: Option<int>

    constructor ()
      ensures fields == [] && edges == [] && id == None
    {
      fields, edges, id := [], [], None;
    }
  }

  // A mutation; its id points to the id of a created node.
  class AccountMutation {
    var changes: Changes
    var id: Account?
    var done: bool

    constructor (changes: Changes)
      ensures this.changes == changes && id == null && !done
    {
      this.changes := changes;
      id, done := null, false;
    }

    method Defaults(r: Runtime) returns (err: Option<string>)
      modifies this`changes
      ensures (changes, err) == Defaulted(r, old(changes))
    {
      if changes.times.createdAt.None? {
        if r.createdAt.None? {
          return Some("created_at");
        }
        changes := changes.(times := changes.times.(createdAt := r.createdAt));
      }
      if changes.times.updatedAt.None? {
        if r.updatedAt.None? {
          return Some("updated_at");
        }
        changes := changes.(times := changes.times.(updatedAt := r.updatedAt));
      }
      assert (changes, None) == DefaultedTimes(r, old(changes));
      ghost var timed := changes;
      if changes.credentials.None? {
        if r.credentials.None? {
          return Some("credentials");
        }
        changes := changes.(credentials := r.credentials);
      }
      if changes.extra.None? {
        if r.extra.None? {
          return Some("extra");
        }
        changes := changes.(extra := r.extra);
      }
      assert (changes, None) == DefaultedDocuments(r, timed);
      DefaultValues(r);
      return None;
    }

    method DefaultValues(r: Runtime)
      modifies this`changes
      ensures changes == DefaultedValues(r, old(changes))
    {
      if changes.ints.concurrency.None? {
        changes := changes.(ints := changes.ints.(concurrency := Some(r.concurrency)));
      }
      if changes.ints.priority.None? {
        changes := changes.(ints := changes.ints.(priority := Some(r.priority)));
      }
      if changes.rateMultiplier.None? {
        changes := changes.(rateMultiplier := Some(r.rateMultiplier));
      }
      if changes.texts.status.None? {
        changes := changes.(texts := changes.texts.(status := Some(r.status)));
      }
      if changes.autoPauseOnExpired.None? {
        changes := changes.(autoPauseOnExpired := Some(r.autoPauseOnExpired));
      }
      if changes.schedulable.None? {
        changes := changes.(schedulable := Some(r.schedulable));
      }
      if changes.texts.quotaDimension.None? {
        changes := changes.(texts := changes.texts.(quotaDimension := Some(r.quotaDimension)));
      }
    }

    method Check(r: Runtime) returns (err: Option<CheckError>)
      ensures err == Checked(r, changes)
    {
      if changes.times.createdAt.None? {
        return Some(Missing("created_at"));
      }
      if changes.times.updatedAt.None? {
        return Some(Missing("updated_at"));
      }
      if changes.texts.name.None? {
        return Some(Missing("name"));
      }
      if !r.validName(changes.texts.name.value) {
        return Some(Invalid("name"));
      }
      if changes.texts.platform.None? {
        return Some(Missing("platform"));
      }
      if !r.validPlatform(changes.texts.platform.value) {
        return Some(Invalid("platform"));
      }
      if changes.texts.kind.None? {
        return Some(Missing("type"));
      }
      if !r.validType(changes.texts.kind.value) {
        return Some(Invalid("type"));
      }
      if changes.credentials.None? {
        return Some(Missing("credentials"));
      }
      if changes.extra.None? {
        return Some(Missing("extra"));
      }
      if changes.ints.concurrency.None? {
        return Some(Missing("concurrency"));
      }
      if changes.ints.priority.None? {
        return Some(Missing("priority"));
      }
      if changes.rateMultiplier.None? {
        return Some(Missing("rate_multiplier"));
      }
      if changes.texts.status.None? {
        return Some(Missing("status"));
      }
      if !r.validStatus(changes.texts.status.value) {
        return Some(Invalid("status"));
      }
      if changes.autoPauseOnExpired.None? {
        return Some(Missing("auto_pause_on_expired"));
      }
      if changes.schedulable.None? {
        return Some(Missing("schedulable"));
      }
      if changes.texts.sessionWindowStatus.Some?
         && !r.validSessionWindowStatus(changes.texts.sessionWindowStatus.value)
      {
        return Some(Invalid("session_window_status"));
      }
      if changes.texts.quotaDimension.None? {
        return Some(Missing("quota_dimension"));
      }
      if !r.validQuotaDimension(changes.texts.quotaDimension.value) {
        return Some(Invalid("quota_dimension"));
      }
      return None;
    }

    // One optional field: on the specification and on the node.
    method Put(node: Account, spec: CreateSpec, c: Column, ghost k: nat)
      requires k < |FIELD_COLUMNS| && FIELD_COLUMNS[k] == c
      requires spec.fields == FieldsFor(changes, FIELD_COLUMNS[..k])
        && node.fields == NodeFor(changes, FIELD_COLUMNS[..k])
      modifies node`fields, spec`fields
      ensures spec.fields == FieldsFor(changes, FIELD_COLUMNS[..k + 1])
      ensures node.fields == NodeFor(changes, FIELD_COLUMNS[..k + 1])
    {
      hide Entry, Write, Fits;
      ghost var columns := FIELD_COLUMNS[..k + 1];
      assert columns[..|columns| - 1] == FIELD_COLUMNS[..k];
      var value := Entry(changes, c);
      EntryFits(changes, c);
      if value.Some? {
        spec.fields := spec.fields + [FieldSpec(c, value.value)];
        node.fields := Write(node.fields, c, value.value);
      }
    }

    method CreateSpec(r: Runtime) returns (node: Account, spec: CreateSpec)
      ensures fresh(node) && fresh(spec)
      ensures node.fields == NodeOf(changes)
      ensures spec.fields == FieldsFor(changes, FIELD_COLUMNS) && spec.edges == EdgesFor(r, changes) && spec.id == None
    {
      hide FieldsFor, NodeFor;
      node := new Account(LoadedTypes(false, false, false, false, false, false), map[], 0);
      spec := new CreateSpec();
      NoColumns(changes);
      PutFirst(node, spec);
      PutSecond(node, spec);
      PutThird(node, spec);
      AllColumns();
      AddEdges(r, node, spec);
    }

    method PutFirst(node: Account, spec: CreateSpec)
      requires spec.fields == FieldsFor(changes, FIELD_COLUMNS[..0])
        && node.fields == NodeFor(changes, FIELD_COLUMNS[..0])
      modifies node`fields, spec`fields
      ensures spec.fields == FieldsFor(changes, FIELD_COLUMNS[..10])
        && node.fields == NodeFor(changes, FIELD_COLUMNS[..10])
    {
      hide *;
      FirstColumns();
      Put(node, spec, CreatedAt, 0);
      Put(node, spec, UpdatedAt, 1);
      Put(node, spec, DeletedAt, 2);
      Put(node, spec, Name, 3);
      Put(node, spec, Notes, 4);
      Put(node, spec, Platform, 5);
      Put(node, spec, Type, 6);
      Put(node, spec, Credentials, 7);
      Put(node, spec, Extra, 8);
      Put(node, spec, ProxyFallbackOriginID, 9);
    }

    method PutSecond(node: Account, spec: CreateSpec)
      requires spec.fields == FieldsFor(changes, FIELD_COLUMNS[..10])
        && node.fields == NodeFor(changes, FIELD_COLUMNS[..10])
      modifies node`fields, spec`fields
      ensures spec.fields == FieldsFor(changes, FIELD_COLUMNS[..20])
        && node.fields == NodeFor(changes, FIELD_COLUMNS[..20])
    {
      hide *;
      SecondColumns();
      Put(node, spec, Concurrency, 10);
      Put(node, spec, LoadFactor, 11);
      Put(node, spec, Priority, 12);
      Put(node, spec, RateMultiplier, 13);
      Put(node, spec, Status, 14);
      Put(node, spec, ErrorMessage, 15);
      Put(node, spec, LastUsedAt, 16);
      Put(node, spec, ExpiresAt, 17);
      Put(node, spec, AutoPauseOnExpired, 18);
      Put(node, spec, Schedulable, 19);
    }

    method PutThird(node: Account, spec: CreateSpec)
      requires spec.fields == FieldsFor(changes, FIELD_COLUMNS[..20])
        && node.fields == NodeFor(changes, FIELD_COLUMNS[..20])
      modifies node`fields, spec`fields
      ensures spec.fields == FieldsFor(changes, FIELD_COLUMNS[..29])
        && node.fields == NodeFor(changes, FIELD_COLUMNS[..29])
    {
      hide *;
      ThirdColumns();
      Put(node, spec, RateLimitedAt, 20);
      Put(node, spec, RateLimitResetAt, 21);
      Put(node, spec, OverloadUntil, 22);
      Put(node, spec, TempUnschedulableUntil, 23);
      Put(node, spec, TempUnschedulableReason, 24);
      Put(node, spec, SessionWindowStart, 25);
      Put(node, spec, SessionWindowEnd, 26);
      Put(node, spec, SessionWindowStatus, 27);
      Put(node, spec, QuotaDimension, 28);
    }

    method AddEdges(r: Runtime, node: Account, spec: CreateSpec)
      requires spec.edges == [] && node.fields == NodeFor(changes, FIELD_COLUMNS)
      modifies node`fields, spec`edges
      ensures spec.edges == EdgesFor(r, changes) && node.fields == NodeOf(changes)
    {
      KeysLast(changes);
      hide NodeFor, NodeOf;
      if changes.groups != {} {
        spec.edges := spec.edges + [ToGroups(changes.groups, r.linkedAt)];
      }
      if changes.ints.proxy.Some? {
        node.fields := node.fields.(ints := node.fields.ints.(proxyID := changes.ints.proxy));
        spec.edges := spec.edges + [ToProxy(changes.ints.proxy.value)];
      }
      if changes.ints.parent.Some? {
        node.fields := node.fields.(ints := node.fields.ints.(parentAccountID := changes.ints.parent));
        spec.edges := spec.edges + [ToParent(changes.ints.parent.value)];
      }
      if changes.children != {} {
        spec.edges := spec.edges + [ToChildren(changes.children)];
      }
      if changes.usageLogs != {} {
        spec.edges := spec.edges + [ToUsageLogs(changes.usageLogs)];
      }
    }
  }

  lemma FirstColumns()
    ensures |FIELD_COLUMNS| == 29
    ensures FIELD_COLUMNS[0] == CreatedAt && FIELD_COLUMNS[1] == UpdatedAt && FIELD_COLUMNS[2] == DeletedAt
    ensures FIELD_COLUMNS[3] == Name && FIELD_COLUMNS[4] == Notes && FIELD_COLUMNS[5] == Platform
    ensures FIELD_COLUMNS[6] == Type && FIELD_COLUMNS[7] == Credentials && FIELD_COLUMNS[8] == Extra
    ensures FIELD_COLUMNS[9] == ProxyFallbackOriginID
  {
  }

  lemma SecondColumns()
    ensures |FIELD_COLUMNS| == 29
    ensures FIELD_COLUMNS[10] == Concurrency && FIELD_COLUMNS[11] == LoadFactor && FIELD_COLUMNS[12] == Priority
    ensures FIELD_COLUMNS[13] == RateMultiplier && FIELD_COLUMNS[14] == Status && FIELD_COLUMNS[15] == ErrorMessage
    ensures FIELD_COLUMNS[16] == LastUsedAt && FIELD_COLUMNS[17] == ExpiresAt && FIELD_COLUMNS[18] == AutoPauseOnExpired
    ensures FIELD_COLUMNS[19] == Schedulable
  {
  }

  lemma ThirdColumns()
    ensures |FIELD_COLUMNS| == 29
    ensures FIELD_COLUMNS[20] == RateLimitedAt && FIELD_COLUMNS[21] == RateLimitResetAt
      && FIELD_COLUMNS[22] == OverloadUntil
    ensures FIELD_COLUMNS[23] == TempUnschedulableUntil && FIELD_COLUMNS[24] == TempUnschedulableReason
      && FIELD_COLUMNS[25] == SessionWindowStart
    ensures FIELD_COLUMNS[26] == SessionWindowEnd && FIELD_COLUMNS[27] == SessionWindowStatus
      && FIELD_COLUMNS[28] == QuotaDimension
  {
  }

  lemma AllColumns()
    ensures FIELD_COLUMNS[..29] == FIELD_COLUMNS
  {
  }

  lemma NoColumns(m: Changes)
    ensures FieldsFor(m, FIELD_COLUMNS[..0]) == [] && NodeFor(m, FIELD_COLUMNS[..0]) == ZERO
  {
  }

  // The last two columns of a node are its keys.
  lemma KeysLast(m: Changes)
    ensures var node := NodeFor(m, FIELD_COLUMNS);
      var proxied := if m.ints.proxy.Some? then node.(ints := node.ints.(proxyID := m.ints.proxy)) else node;
      NodeOf(m)
        == if m.ints.parent.Some? then proxied.(ints := proxied.ints.(parentAccountID := m.ints.parent)) else proxied
  {
    var columns, node := NodeColumns(), NodeFor(m, FIELD_COLUMNS);
    var proxied := columns[..|columns| - 1];
    assert columns[|columns| - 1] == ParentAccountID && proxied[|proxied| - 1] == ProxyID;
    assert proxied[..|proxied| - 1] == FIELD_COLUMNS;
    assert NodeFor(m, proxied)
      == if m.ints.proxy.Some? then Write(node, ProxyID, Plain(Int(m.ints.proxy.value))) else node;
    var last := NodeFor(m, proxied);
    assert NodeFor(m, columns)
      == if m.ints.parent.Some? then Write(last, ParentAccountID, Plain(Int(m.ints.parent.value))) else last;
  }
}
