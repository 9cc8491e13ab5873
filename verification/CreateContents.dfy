// What a create takes from its mutation: every field of the node and every cell of the row, the default values, and the
// requirement that a check reports.
module CreateContents {
  import opened Wrappers
  import opened Sql
  import opened AccountEntity
  import opened AccountCreation
  import opened CreateRoundTrip
  import opened FieldCells

  // ---- The cells of the row ----

  function TimeCell(o: Option<int>): SqlValue { if o.Some? then Time(o.value) else Null }

  function TextCell(o: Option<string>): SqlValue { if o.Some? then Text(o.value) else Null }

  function IntCell(o: Option<int>): SqlValue { if o.Some? then Int(o.value) else Null }

  function BoolCell(o: Option<bool>): SqlValue { if o.Some? then Bool(o.value) else Null }

  function FloatCell(o: Option<real>): SqlValue { if o.Some? then Float(o.value) else Null }

  function DocumentCell(codec: JsonCodec, o: Option<Json>): SqlValue {
    if o.Some? then Encoded(codec.marshal(o.value)) else Null
  }

  predicate HoldsTimes(row: AccountRow, m: TimeChanges) {
    && Cell(row, CreatedAt) == TimeCell(m.createdAt)
    && Cell(row, UpdatedAt) == TimeCell(m.updatedAt)
    && Cell(row, DeletedAt) == TimeCell(m.deletedAt)
    && Cell(row, LastUsedAt) == TimeCell(m.lastUsedAt)
    && Cell(row, ExpiresAt) == TimeCell(m.expiresAt)
    && Cell(row, RateLimitedAt) == TimeCell(m.rateLimitedAt)
    && Cell(row, RateLimitResetAt) == TimeCell(m.rateLimitResetAt)
    && Cell(row, OverloadUntil) == TimeCell(m.overloadUntil)
    && Cell(row, TempUnschedulableUntil) == TimeCell(m.tempUnschedulableUntil)
    && Cell(row, SessionWindowStart) == TimeCell(m.sessionWindowStart)
    && Cell(row, SessionWindowEnd) == TimeCell(m.sessionWindowEnd)
  }

  predicate HoldsTexts(row: AccountRow, m: TextChanges) {
    && Cell(row, Name) == TextCell(m.name)
    && Cell(row, Notes) == TextCell(m.notes)
    && Cell(row, Platform) == TextCell(m.platform)
    && Cell(row, Type) == TextCell(m.kind)
    && Cell(row, Status) == TextCell(m.status)
    && Cell(row, ErrorMessage) == TextCell(m.errorMessage)
    && Cell(row, TempUnschedulableReason) == TextCell(m.tempUnschedulableReason)
    && Cell(row, SessionWindowStatus) == TextCell(m.sessionWindowStatus)
    && Cell(row, QuotaDimension) == TextCell(m.quotaDimension)
  }

  predicate HoldsInts(row: AccountRow, m: IntChanges) {
    && Cell(row, ProxyID) == IntCell(m.proxy)
    && Cell(row, ProxyFallbackOriginID) == IntCell(m.proxyFallbackOriginID)
    && Cell(row, Concurrency) == IntCell(m.concurrency)
    && Cell(row, LoadFactor) == IntCell(m.loadFactor)
    && Cell(row, Priority) == IntCell(m.priority)
    && Cell(row, ParentAccountID) == IntCell(m.parent)
  }

  // Each column holds what the mutation has for it, or NULL.
  predicate HoldsChanges(codec: JsonCodec, row: AccountRow, m: Changes) {
    && HoldsTimes(row, m.times) && HoldsTexts(row, m.texts) && HoldsInts(row, m.ints)
    && Cell(row, Credentials) == DocumentCell(codec, m.credentials)
    && Cell(row, Extra) == DocumentCell(codec, m.extra)
    && Cell(row, RateMultiplier) == FloatCell(m.rateMultiplier)
    && Cell(row, AutoPauseOnExpired) == BoolCell(m.autoPauseOnExpired)
    && Cell(row, Schedulable) == BoolCell(m.schedulable)
  }

  lemma TimeEntries(m: Changes)
    ensures Entry(m, CreatedAt) == OfTime(m.times.createdAt)
    ensures Entry(m, UpdatedAt) == OfTime(m.times.updatedAt)
    ensures Entry(m, DeletedAt) == OfTime(m.times.deletedAt)
    ensures Entry(m, LastUsedAt) == OfTime(m.times.lastUsedAt)
    ensures Entry(m, ExpiresAt) == OfTime(m.times.expiresAt)
    ensures Entry(m, RateLimitedAt) == OfTime(m.times.rateLimitedAt)
  {
  }

  lemma MoreTimeEntries(m: Changes)
    ensures Entry(m, RateLimitResetAt) == OfTime(m.times.rateLimitResetAt)
    ensures Entry(m, OverloadUntil) == OfTime(m.times.overloadUntil)
    ensures Entry(m, TempUnschedulableUntil) == OfTime(m.times.tempUnschedulableUntil)
    ensures Entry(m, SessionWindowStart) == OfTime(m.times.sessionWindowStart)
    ensures Entry(m, SessionWindowEnd) == OfTime(m.times.sessionWindowEnd)
  {
  }

  lemma TimeIsStored(codec: JsonCodec, r: Runtime, m: Changes, id: int, c: Column, o: Option<int>)
    requires ValidColumn(c) && c != ID && Entry(m, c) == OfTime(o)
    ensures Cell(CreatedRow(codec, r, m, id), c) == TimeCell(o)
  {
    hide CreatedRow, Entry, Cell;
    CreatedCell(codec, r, m, id, c);
  }

  lemma TimesCreated(codec: JsonCodec, r: Runtime, m: Changes, id: int)
    ensures HoldsTimes(CreatedRow(codec, r, m, id), m.times)
  {
    hide CreatedRow, Entry, Cell, OfTime, TimeCell;
    TimeEntries(m);
    MoreTimeEntries(m);
    TimeIsStored(codec, r, m, id, CreatedAt, m.times.createdAt);
    TimeIsStored(codec, r, m, id, UpdatedAt, m.times.updatedAt);
    TimeIsStored(codec, r, m, id, DeletedAt, m.times.deletedAt);
    TimeIsStored(codec, r, m, id, LastUsedAt, m.times.lastUsedAt);
    TimeIsStored(codec, r, m, id, ExpiresAt, m.times.expiresAt);
    TimeIsStored(codec, r, m, id, RateLimitedAt, m.times.rateLimitedAt);
    TimeIsStored(codec, r, m, id, RateLimitResetAt, m.times.rateLimitResetAt);
    TimeIsStored(codec, r, m, id, OverloadUntil, m.times.overloadUntil);
    TimeIsStored(codec, r, m, id, TempUnschedulableUntil, m.times.tempUnschedulableUntil);
    TimeIsStored(codec, r, m, id, SessionWindowStart, m.times.sessionWindowStart);
    TimeIsStored(codec, r, m, id, SessionWindowEnd, m.times.sessionWindowEnd);
  }

  lemma TextEntries(m: Changes)
    ensures Entry(m, Name) == OfText(m.texts.name)
    ensures Entry(m, Notes) == OfText(m.texts.notes)
    ensures Entry(m, Platform) == OfText(m.texts.platform)
    ensures Entry(m, Type) == OfText(m.texts.kind)
    ensures Entry(m, Status) == OfText(m.texts.status)
  {
  }

  lemma MoreTextEntries(m: Changes)
    ensures Entry(m, ErrorMessage) == OfText(m.texts.errorMessage)
    ensures Entry(m, TempUnschedulableReason) == OfText(m.texts.tempUnschedulableReason)
    ensures Entry(m, SessionWindowStatus) == OfText(m.texts.sessionWindowStatus)
    ensures Entry(m, QuotaDimension) == OfText(m.texts.quotaDimension)
  {
  }

  lemma TextIsStored(codec: JsonCodec, r: Runtime, m: Changes, id: int, c: Column, o: Option<string>)
    requires ValidColumn(c) && c != ID && Entry(m, c) == OfText(o)
    ensures Cell(CreatedRow(codec, r, m, id), c) == TextCell(o)
  {
    hide CreatedRow, Entry, Cell;
    CreatedCell(codec, r, m, id, c);
  }

  lemma TextsCreated(codec: JsonCodec, r: Runtime, m: Changes, id: int)
    ensures HoldsTexts(CreatedRow(codec, r, m, id), m.texts)
  {
    hide CreatedRow, Entry, Cell, OfText, TextCell;
    TextEntries(m);
    MoreTextEntries(m);
    TextIsStored(codec, r, m, id, Name, m.texts.name);
    TextIsStored(codec, r, m, id, Notes, m.texts.notes);
    TextIsStored(codec, r, m, id, Platform, m.texts.platform);
    TextIsStored(codec, r, m, id, Type, m.texts.kind);
    TextIsStored(codec, r, m, id, Status, m.texts.status);
    TextIsStored(codec, r, m, id, ErrorMessage, m.texts.errorMessage);
    TextIsStored(codec, r, m, id, TempUnschedulableReason, m.texts.tempUnschedulableReason);
    TextIsStored(codec, r, m, id, SessionWindowStatus, m.texts.sessionWindowStatus);
    TextIsStored(codec, r, m, id, QuotaDimension, m.texts.quotaDimension);
  }

  lemma IntEntries(m: Changes)
    ensures Entry(m, ProxyID) == OfInt(m.ints.proxy)
    ensures Entry(m, ProxyFallbackOriginID) == OfInt(m.ints.proxyFallbackOriginID)
    ensures Entry(m, Concurrency) == OfInt(m.ints.concurrency)
    ensures Entry(m, LoadFactor) == OfInt(m.ints.loadFactor)
    ensures Entry(m, Priority) == OfInt(m.ints.priority)
    ensures Entry(m, ParentAccountID) == OfInt(m.ints.parent)
  {
  }

  lemma IntIsStored(codec: JsonCodec, r: Runtime, m: Changes, id: int, c: Column, o: Option<int>)
    requires ValidColumn(c) && c != ID && Entry(m, c) == OfInt(o)
    ensures Cell(CreatedRow(codec, r, m, id), c) == IntCell(o)
  {
    hide CreatedRow, Entry, Cell;
    CreatedCell(codec, r, m, id, c);
  }

  lemma IntsCreated(codec: JsonCodec, r: Runtime, m: Changes, id: int)
    ensures HoldsInts(CreatedRow(codec, r, m, id), m.ints)
  {
    hide CreatedRow, Entry, Cell, OfInt, IntCell;
    IntEntries(m);
    IntIsStored(codec, r, m, id, ProxyID, m.ints.proxy);
    IntIsStored(codec, r, m, id, ProxyFallbackOriginID, m.ints.proxyFallbackOriginID);
    IntIsStored(codec, r, m, id, Concurrency, m.ints.concurrency);
    IntIsStored(codec, r, m, id, LoadFactor, m.ints.loadFactor);
    IntIsStored(codec, r, m, id, Priority, m.ints.priority);
    IntIsStored(codec, r, m, id, ParentAccountID, m.ints.parent);
  }

  lemma OthersCreated(codec: JsonCodec, r: Runtime, m: Changes, id: int)
    ensures var row := CreatedRow(codec, r, m, id);
      && Cell(row, Credentials) == DocumentCell(codec, m.credentials)
      && Cell(row, Extra) == DocumentCell(codec, m.extra)
      && Cell(row, RateMultiplier) == FloatCell(m.rateMultiplier)
      && Cell(row, AutoPauseOnExpired) == BoolCell(m.autoPauseOnExpired)
      && Cell(row, Schedulable) == BoolCell(m.schedulable)
  {
    hide CreatedRow, Cell;
    CreatedCell(codec, r, m, id, Credentials);
    CreatedCell(codec, r, m, id, Extra);
    CreatedCell(codec, r, m, id, RateMultiplier);
    CreatedCell(codec, r, m, id, AutoPauseOnExpired);
    CreatedCell(codec, r, m, id, Schedulable);
  }

  // The new row holds each of the mutation's fields in its own column, the new id, and nothing else.
  lemma RowHoldsChanges(codec: JsonCodec, r: Runtime, m: Changes, id: int)
    ensures var row := CreatedRow(codec, r, m, id);
      && HoldsChanges(codec, row, m) && Cell(row, ID) == Int(id)
      && forall c: Column | c.Other? :: Cell(row, c) == Null
  {
    hide CreatedRow, Cell, HoldsTimes, HoldsTexts, HoldsInts, Entry, DocumentCell, FloatCell, BoolCell, CellOf;
    var row := CreatedRow(codec, r, m, id);
    TimesCreated(codec, r, m, id);
    TextsCreated(codec, r, m, id);
    IntsCreated(codec, r, m, id);
    OthersCreated(codec, r, m, id);
    CreatedCell(codec, r, m, id, ID);
    forall c: Column | c.Other? ensures Cell(row, c) == Null {
      CreatedCell(codec, r, m, id, c);
    }
  }

  // ---- The fields of the node ----

  function NodeTimes(m: TimeChanges): Times {
    Times(
      createdAt := OrZero(m.createdAt, 0), updatedAt := OrZero(m.updatedAt, 0), deletedAt := m.deletedAt,
      lastUsedAt := m.lastUsedAt, expiresAt := m.expiresAt, rateLimitedAt := m.rateLimitedAt,
      rateLimitResetAt := m.rateLimitResetAt, overloadUntil := m.overloadUntil,
      tempUnschedulableUntil := m.tempUnschedulableUntil, sessionWindowStart := m.sessionWindowStart,
      sessionWindowEnd := m.sessionWindowEnd)
  }

  function NodeTexts(m: TextChanges): Texts {
    Texts(
      name := OrZero(m.name, ""), notes := m.notes, platform := OrZero(m.platform, ""), kind := OrZero(m.kind, ""),
      status := OrZero(m.status, ""), errorMessage := m.errorMessage,
      tempUnschedulableReason := m.tempUnschedulableReason, sessionWindowStatus := m.sessionWindowStatus,
      quotaDimension := OrZero(m.quotaDimension, ""))
  }

  function NodeInts(m: IntChanges): Ints {
    Ints(
      id := 0, proxyID := m.proxy, proxyFallbackOriginID := m.proxyFallbackOriginID,
      concurrency := OrZero(m.concurrency, 0), loadFactor := m.loadFactor, priority := OrZero(m.priority, 0),
      parentAccountID := m.parent)
  }

  // A codec under which the mutation's documents survive.
  function Faithful(m: Changes): JsonCodec {
    var one, two := OrZero(m.credentials, JsonNull), OrZero(m.extra, JsonNull);
    JsonCodec(doc => if doc == one then [1] else [2], (current, bytes) => Some(if bytes == [1] then one else two))
  }

  lemma DocumentsSurviveIt(m: Changes)
    ensures DocumentsSurvive(Faithful(m), m)
  {
    var codec := Faithful(m);
    assert codec.marshal(OrZero(m.credentials, JsonNull)) == [1];
  }

  // The node is the projection of the row it becomes.
  lemma NodeIsProjected(r: Runtime, m: Changes, selected: set<Column>)
    requires forall c :: c in selected <==> ValidColumn(c) && c != ID
    ensures NodeOf(m) == Projected(Faithful(m), CreatedRow(Faithful(m), r, m, 0), selected)
  {
    hide NodeFor, Projected, CreatedRow, NodeColumns, Faithful, DocumentsSurvive;
    DocumentsSurviveIt(m);
    forall c ensures c in NodeColumns() <==> ValidColumn(c) && c != ID {
      NodeColumnsExact(c);
    }
    NodeProjects(Faithful(m), r, m, 0, NodeColumns());
    assert selected == set c | c in NodeColumns();
  }

  lemma TimesOfCells(f: Times, row: AccountRow, m: TimeChanges)
    requires ReadsTimes(f, row) && HoldsTimes(row, m)
    ensures f == NodeTimes(m)
  {
    hide Cell;
  }

  lemma TextsOfCells(f: Texts, row: AccountRow, m: TextChanges)
    requires ReadsTexts(f, row) && HoldsTexts(row, m)
    ensures f == NodeTexts(m)
  {
    hide Cell;
  }

  lemma IntsOfCells(f: Ints, row: AccountRow, m: IntChanges)
    requires ReadsInts(f, row) && HoldsInts(row, m) && Cell(row, ID) == Null
    ensures f == NodeInts(m)
  {
    hide Cell;
  }

  function WithoutKey(row: AccountRow): AccountRow { map c | c in row && c != ID :: row[c] }

  lemma KeyDropped(row: AccountRow)
    ensures Cell(WithoutKey(row), ID) == Null && forall c | c != ID :: Cell(WithoutKey(row), c) == Cell(row, c)
  {
  }

  lemma TimesStill(a: AccountRow, b: AccountRow, m: TimeChanges)
    requires HoldsTimes(a, m) && forall c | c != ID :: Cell(b, c) == Cell(a, c)
    ensures HoldsTimes(b, m)
  {
    hide Cell;
  }

  lemma TextsStill(a: AccountRow, b: AccountRow, m: TextChanges)
    requires HoldsTexts(a, m) && forall c | c != ID :: Cell(b, c) == Cell(a, c)
    ensures HoldsTexts(b, m)
  {
    hide Cell;
  }

  lemma IntsStill(a: AccountRow, b: AccountRow, m: IntChanges)
    requires HoldsInts(a, m) && forall c | c != ID :: Cell(b, c) == Cell(a, c)
    ensures HoldsInts(b, m)
  {
    hide Cell;
  }

  lemma HoldsStill(codec: JsonCodec, row: AccountRow, m: Changes)
    requires HoldsChanges(codec, row, m)
    ensures HoldsChanges(codec, WithoutKey(row), m)
  {
    hide Cell, WithoutKey, HoldsTimes, HoldsTexts, HoldsInts, DocumentCell;
    KeyDropped(row);
    TimesStill(row, WithoutKey(row), m.times);
    TextsStill(row, WithoutKey(row), m.texts);
    IntsStill(row, WithoutKey(row), m.ints);
  }

  // The node is read from the row it becomes, but for the id.
  lemma NodeReads(r: Runtime, m: Changes)
    ensures ReadsWholeRow(Faithful(m), NodeOf(m), WithoutKey(CreatedRow(Faithful(m), r, m, 0)))
  {
    hide CreatedRow, Cell, WithoutKey, NodeOf, COLUMNS, Faithful, ReadsWholeRow, Projected, HoldsChanges;
    var row := CreatedRow(Faithful(m), r, m, 0);
    var selected := set c | c in COLUMNS && c != ID;
    forall c ensures c in selected <==> ValidColumn(c) && c != ID {
      ColumnsExact(c);
    }
    NodeIsProjected(r, m, selected);
    RowHoldsChanges(Faithful(m), r, m, 0);
    KeyDropped(row);
    CellsProjected(Faithful(m), row, selected, WithoutKey(row));
  }

  lemma DocumentsBack(m: Changes)
    ensures var codec := Faithful(m);
      && DocumentIn(codec, DocumentCell(codec, m.credentials)) == OrZero(m.credentials, JsonNull)
      && DocumentIn(codec, DocumentCell(codec, m.extra)) == OrZero(m.extra, JsonNull)
  {
    DocumentsSurviveIt(m);
    hide Faithful;
  }

  // Each field of the node is the mutation's member of that name, zero where a required one is not set.
  predicate TakesChanges(node: AccountFields, m: Changes) {
    && node.times == NodeTimes(m.times) && node.texts == NodeTexts(m.texts) && node.ints == NodeInts(m.ints)
    && node.credentials == OrZero(m.credentials, JsonNull) && node.extra == OrZero(m.extra, JsonNull)
    && node.rateMultiplier == OrZero(m.rateMultiplier, 0.0)
    && node.autoPauseOnExpired == OrZero(m.autoPauseOnExpired, false)
    && node.schedulable == OrZero(m.schedulable, false)
    && node.selectValues == map[]
  }

  lemma NodeOfCells(codec: JsonCodec, f: AccountFields, row: AccountRow, m: Changes)
    requires ReadsWholeRow(codec, f, row) && HoldsChanges(codec, row, m) && Cell(row, ID) == Null
    requires DocumentIn(codec, DocumentCell(codec, m.credentials)) == OrZero(m.credentials, JsonNull)
    requires DocumentIn(codec, DocumentCell(codec, m.extra)) == OrZero(m.extra, JsonNull)
    ensures TakesChanges(f, m)
  {
    hide Cell, ReadsTimes, ReadsTexts, ReadsInts, HoldsTimes, HoldsTexts, HoldsInts, DocumentIn, DocumentCell;
    hide NodeTimes, NodeTexts, NodeInts;
    TimesOfCells(f.times, row, m.times);
    TextsOfCells(f.texts, row, m.texts);
    IntsOfCells(f.ints, row, m.ints);
  }

  lemma NodeTakesChanges(r: Runtime, m: Changes)
    ensures TakesChanges(NodeOf(m), m)
  {
    hide *;
    var row := CreatedRow(Faithful(m), r, m, 0);
    RowHoldsChanges(Faithful(m), r, m, 0);
    NodeReads(r, m);
    HoldsStill(Faithful(m), row, m);
    KeyDropped(row);
    DocumentsBack(m);
    NodeOfCells(Faithful(m), NodeOf(m), WithoutKey(row), m);
  }

  // ---- The edges of the specification ----

  // The edges that a mutation asks for; the join rows to its groups carry their default time.
  predicate Asked(r: Runtime, m: Changes, edge: EdgeSpec) {
    match edge
    case ToGroups(ids, createdAt) => ids == m.groups && ids != {} && createdAt == r.linkedAt
    case ToProxy(id) => m.ints.proxy == Some(id)
    case ToParent(id) => m.ints.parent == Some(id)
    case ToChildren(ids) => ids == m.children && ids != {}
    case ToUsageLogs(ids) => ids == m.usageLogs && ids != {}
  }

  function KindOf(edge: EdgeSpec): nat {
    match edge
    case ToGroups(_, _) => 0
    case ToProxy(_) => 1
    case ToParent(_) => 2
    case ToChildren(_) => 3
    case ToUsageLogs(_) => 4
  }

  // The specification has exactly the edges that are asked for, each once and in this sequence.
  lemma EdgesExact(r: Runtime, m: Changes)
    ensures forall edge :: edge in EdgesFor(r, m) <==> Asked(r, m, edge)
    ensures forall i, j | 0 <= i < j < |EdgesFor(r, m)| :: KindOf(EdgesFor(r, m)[i]) < KindOf(EdgesFor(r, m)[j])
  {
  }

  // ---- Default values ----

  // What is set stays, and otherwise the default is taken.
  function Defaulting<T>(own: Option<T>, default: Option<T>): Option<T> { if own.Some? then own else default }

  // The first of the four default functions that is needed and nil.
  function StoppedAt(r: Runtime, m: Changes): Option<string> {
    if m.times.createdAt.None? && r.createdAt.None? then Some("created_at")
    else if m.times.updatedAt.None? && r.updatedAt.None? then Some("updated_at")
    else if m.credentials.None? && r.credentials.None? then Some("credentials")
    else if m.extra.None? && r.extra.None? then Some("extra")
    else None
  }

  // Defaults run in this sequence and stop at a nil function: each column takes its own default, unless the run has
  // stopped before it, and nothing else changes.
  lemma DefaultsExactly(r: Runtime, m: Changes)
    ensures var (m', err) := Defaulted(r, m);
      && err == StoppedAt(r, m)
      && m'.times.createdAt == Defaulting(m.times.createdAt, r.createdAt)
      && m'.times.updatedAt
         == (if err == Some("created_at") then m.times.updatedAt else Defaulting(m.times.updatedAt, r.updatedAt))
      && m'.credentials == (if err == Some("created_at") || err == Some("updated_at") then m.credentials
                            else Defaulting(m.credentials, r.credentials))
      && m'.extra == (if err.Some? && err != Some("extra") then m.extra else Defaulting(m.extra, r.extra))
      && m'.ints.concurrency
         == (if err.Some? then m.ints.concurrency else Defaulting(m.ints.concurrency, Some(r.concurrency)))
      && m'.ints.priority == (if err.Some? then m.ints.priority else Defaulting(m.ints.priority, Some(r.priority)))
      && m'.rateMultiplier
         == (if err.Some? then m.rateMultiplier else Defaulting(m.rateMultiplier, Some(r.rateMultiplier)))
      && m'.texts.status == (if err.Some? then m.texts.status else Defaulting(m.texts.status, Some(r.status)))
      && m'.autoPauseOnExpired
         == (if err.Some? then m.autoPauseOnExpired else Defaulting(m.autoPauseOnExpired, Some(r.autoPauseOnExpired)))
      && m'.schedulable == (if err.Some? then m.schedulable else Defaulting(m.schedulable, Some(r.schedulable)))
      && m'.texts.quotaDimension
         == (if err.Some? then m.texts.quotaDimension else Defaulting(m.texts.quotaDimension, Some(r.quotaDimension)))
      && m == m'.(times := m'.times.(createdAt := m.times.createdAt, updatedAt := m.times.updatedAt),
                  texts := m'.texts.(status := m.texts.status, quotaDimension := m.texts.quotaDimension),
                  ints := m'.ints.(concurrency := m.ints.concurrency, priority := m.ints.priority),
                  credentials := m.credentials, extra := m.extra, rateMultiplier := m.rateMultiplier,
                  autoPauseOnExpired := m.autoPauseOnExpired, schedulable := m.schedulable)
  {
  }

  // ---- The check ----

  predicate Passes(o: Option<string>, valid: string -> bool) { o.Some? ==> valid(o.value) }

  // The requirements in the sequence in which they are checked: whether each is met, and the error if not.
  function Requirements(r: Runtime, m: Changes): seq<(bool, CheckError)> {
    [(m.times.createdAt.Some?, Missing("created_at")), (m.times.updatedAt.Some?, Missing("updated_at")),
     (m.texts.name.Some?, Missing("name")), (Passes(m.texts.name, r.validName), Invalid("name")),
     (m.texts.platform.Some?, Missing("platform"))]
    + [(Passes(m.texts.platform, r.validPlatform), Invalid("platform")), (m.texts.kind.Some?, Missing("type")),
       (Passes(m.texts.kind, r.validType), Invalid("type")), (m.credentials.Some?, Missing("credentials")),
       (m.extra.Some?, Missing("extra"))]
    + [(m.ints.concurrency.Some?, Missing("concurrency")), (m.ints.priority.Some?, Missing("priority")),
       (m.rateMultiplier.Some?, Missing("rate_multiplier")), (m.texts.status.Some?, Missing("status")),
       (Passes(m.texts.status, r.validStatus), Invalid("status"))]
    + [(m.autoPauseOnExpired.Some?, Missing("auto_pause_on_expired")), (m.schedulable.Some?, Missing("schedulable")),
       (Passes(m.texts.sessionWindowStatus, r.validSessionWindowStatus), Invalid("session_window_status")),
       (m.texts.quotaDimension.Some?, Missing("quota_dimension")),
       (Passes(m.texts.quotaDimension, r.validQuotaDimension), Invalid("quota_dimension"))]
  }

  function FirstUnmet(requirements: seq<(bool, CheckError)>): Option<CheckError> {
    if requirements == [] then None
    else if !requirements[0].0 then Some(requirements[0].1)
    else FirstUnmet(requirements[1..])
  }

  // The error is that of a requirement that is not met while all before it are.
  lemma {:induction false} FirstUnmetExact(requirements: seq<(bool, CheckError)>)
    ensures FirstUnmet(requirements).None? <==> forall i | 0 <= i < |requirements| :: requirements[i].0
    ensures FirstUnmet(requirements).Some? ==> exists i | 0 <= i < |requirements| ::
      && !requirements[i].0 && FirstUnmet(requirements) == Some(requirements[i].1)
      && forall j | 0 <= j < i :: requirements[j].0
  {
    if requirements != [] {
      var rest := requirements[1..];
      FirstUnmetExact(rest);
      if requirements[0].0 && FirstUnmet(rest).Some? {
        var i :| 0 <= i < |rest| && !rest[i].0 && FirstUnmet(rest) == Some(rest[i].1)
          && forall j | 0 <= j < i :: rest[j].0;
        assert requirements[i + 1] == rest[i];
        assert forall j | 0 <= j < i :: requirements[j + 1] == rest[j];
      }
    }
  }

  lemma {:induction false} FirstUnmetAppend(a: seq<(bool, CheckError)>, b: seq<(bool, CheckError)>)
    ensures FirstUnmet(a + b) == if FirstUnmet(a).Some? then FirstUnmet(a) else FirstUnmet(b)
  {
    if a == [] {
      assert a + b == b;
    } else {
      assert (a + b)[1..] == a[1..] + b;
      FirstUnmetAppend(a[1..], b);
    }
  }

  lemma FirstOfFive(five: seq<(bool, CheckError)>)
    requires |five| == 5
    ensures FirstUnmet(five) ==
      if !five[0].0 then Some(five[0].1) else if !five[1].0 then Some(five[1].1) else if !five[2].0 then Some(five[2].1)
      else if !five[3].0 then Some(five[3].1) else if !five[4].0 then Some(five[4].1) else None
  {
    var four := five[1..];
    var three := four[1..];
    var two := three[1..];
    assert two[1..][1..] == [];
    assert FirstUnmet(two[1..]) == if !five[4].0 then Some(five[4].1) else None;
    assert FirstUnmet(three) == if !five[2].0 then Some(five[2].1) else FirstUnmet(two);
  }

  // The check reports the first requirement of the list that is not met.
  lemma CheckReports(r: Runtime, m: Changes)
    ensures var all, error := Requirements(r, m), Checked(r, m);
      && (error.None? <==> forall i | 0 <= i < |all| :: all[i].0)
      && (error.Some? ==> exists i | 0 <= i < |all| ::
            !all[i].0 && error == Some(all[i].1) && forall j | 0 <= j < i :: all[j].0)
  {
    CheckIsFirstUnmet(r, m);
    hide Requirements, Checked;
    FirstUnmetExact(Requirements(r, m));
  }

  lemma CheckIsFirstUnmet(r: Runtime, m: Changes)
    ensures Checked(r, m) == FirstUnmet(Requirements(r, m))
  {
    hide FirstUnmet;
    var all := Requirements(r, m);
    var a, b, c, d := all[..5], all[5..10], all[10..15], all[15..];
    assert all == a + b + c + d;
    FirstUnmetAppend(a + b + c, d);
    FirstUnmetAppend(a + b, c);
    FirstUnmetAppend(a, b);
    FirstOfFive(a);
    FirstOfFive(b);
    FirstOfFive(c);
    FirstOfFive(d);
  }
}
