// Which cell of its row each field of an account is read from.
module FieldCells {
  import opened Wrappers
  import opened Sql
  import opened AccountEntity

  function TimeOrNil(v: SqlValue): Option<int> { if v.Time? then Some(v.t) else None }

  function TextOrNil(v: SqlValue): Option<string> { if v.Text? then Some(v.s) else None }

  function IntOrNil(v: SqlValue): Option<int> { if v.Int? then Some(v.i) else None }

  function OrZero<T>(o: Option<T>, zero: T): T { if o.Some? then o.value else zero }

  // What the bytes of a cell decode to.
  function DocumentIn(codec: JsonCodec, v: SqlValue): Json {
    if v.Encoded? && v.bytes != [] then OrZero(codec.unmarshal(JsonNull, v.bytes), JsonNull) else JsonNull
  }

  // Each field of a node comes from the cell of its own column.
  predicate ReadsTimes(f: Times, row: AccountRow) {
    && f.createdAt == OrZero(TimeOrNil(Cell(row, CreatedAt)), 0)
    && f.updatedAt == OrZero(TimeOrNil(Cell(row, UpdatedAt)), 0)
    && f.deletedAt == TimeOrNil(Cell(row, DeletedAt))
    && f.lastUsedAt == TimeOrNil(Cell(row, LastUsedAt))
    && f.expiresAt == TimeOrNil(Cell(row, ExpiresAt))
    && f.rateLimitedAt == TimeOrNil(Cell(row, RateLimitedAt))
    && f.rateLimitResetAt == TimeOrNil(Cell(row, RateLimitResetAt))
    && f.overloadUntil == TimeOrNil(Cell(row, OverloadUntil))
    && f.tempUnschedulableUntil == TimeOrNil(Cell(row, TempUnschedulableUntil))
    && f.sessionWindowStart == TimeOrNil(Cell(row, SessionWindowStart))
    && f.sessionWindowEnd == TimeOrNil(Cell(row, SessionWindowEnd))
  }

  predicate ReadsTexts(f: Texts, row: AccountRow) {
    && f.name == OrZero(TextOrNil(Cell(row, Name)), "")
    && f.notes == TextOrNil(Cell(row, Notes))
    && f.platform == OrZero(TextOrNil(Cell(row, Platform)), "")
    && f.kind == OrZero(TextOrNil(Cell(row, Type)), "")
    && f.status == OrZero(TextOrNil(Cell(row, Status)), "")
    && f.errorMessage == TextOrNil(Cell(row, ErrorMessage))
    && f.tempUnschedulableReason == TextOrNil(Cell(row, TempUnschedulableReason))
    && f.sessionWindowStatus == TextOrNil(Cell(row, SessionWindowStatus))
    && f.quotaDimension == OrZero(TextOrNil(Cell(row, QuotaDimension)), "")
  }

  predicate ReadsInts(f: Ints, row: AccountRow) {
    && f.id == OrZero(IntOrNil(Cell(row, ID)), 0)
    && f.proxyID == IntOrNil(Cell(row, ProxyID))
    && f.proxyFallbackOriginID == IntOrNil(Cell(row, ProxyFallbackOriginID))
    && f.concurrency == OrZero(IntOrNil(Cell(row, Concurrency)), 0)
    && f.loadFactor == IntOrNil(Cell(row, LoadFactor))
    && f.priority == OrZero(IntOrNil(Cell(row, Priority)), 0)
    && f.parentAccountID == IntOrNil(Cell(row, ParentAccountID))
  }

  predicate ReadsWholeRow(codec: JsonCodec, f: AccountFields, row: AccountRow) {
    && ReadsTimes(f.times, row) && ReadsTexts(f.texts, row) && ReadsInts(f.ints, row)
    && f.credentials == DocumentIn(codec, Cell(row, Credentials)) && f.extra == DocumentIn(codec, Cell(row, Extra))
    && f.rateMultiplier == (if Cell(row, RateMultiplier).Float? then Cell(row, RateMultiplier).r else 0.0)
    && f.autoPauseOnExpired == (Cell(row, AutoPauseOnExpired) == Bool(true))
    && f.schedulable == (Cell(row, Schedulable) == Bool(true))
    && f.selectValues == map[]
  }

  ghost predicate KeepsCells(row: AccountRow, wanted: set<Column>, kept: AccountRow) {
    forall c: Column :: Cell(kept, c) == if c in wanted then Cell(row, c) else Null
  }

  lemma TimesProjected(row: AccountRow, wanted: set<Column>, kept: AccountRow)
    requires KeepsCells(row, wanted, kept)
    ensures ReadsTimes(TimesAt(row, wanted), kept)
  {
    hide Cell;
  }

  lemma TextsProjected(row: AccountRow, wanted: set<Column>, kept: AccountRow)
    requires KeepsCells(row, wanted, kept)
    ensures ReadsTexts(TextsAt(row, wanted), kept)
  {
    hide Cell;
  }

  lemma IntsProjected(row: AccountRow, wanted: set<Column>, kept: AccountRow)
    requires KeepsCells(row, wanted, kept)
    ensures ReadsInts(IntsAt(row, wanted), kept)
  {
    hide Cell;
  }

  lemma CellsProjected(codec: JsonCodec, row: AccountRow, wanted: set<Column>, kept: AccountRow)
    requires KeepsCells(row, wanted, kept)
    requires forall c: Column | c in wanted :: !c.Other?
    ensures ReadsWholeRow(codec, Projected(codec, row, wanted), kept)
  {
    hide Cell, TimesAt, TextsAt, IntsAt, ReadsTimes, ReadsTexts, ReadsInts;
    TimesProjected(row, wanted, kept);
    TextsProjected(row, wanted, kept);
    IntsProjected(row, wanted, kept);
  }

  lemma SameCells(codec: JsonCodec, f: AccountFields, a: AccountRow, b: AccountRow)
    requires ReadsWholeRow(codec, f, a) && forall c: Column | !c.Other? :: Cell(a, c) == Cell(b, c)
    ensures ReadsWholeRow(codec, f, b)
  {
    hide Cell;
  }
}
