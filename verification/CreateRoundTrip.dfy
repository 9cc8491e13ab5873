// From a mutation through the insert to a row, and back into a node.
module CreateRoundTrip {
  import opened Wrappers
  import opened Sql
  import opened AccountEntity
  import opened AccountCreation

  function Stored(codec: JsonCodec, v: Value): SqlValue {
    match v
    case Plain(cell) => cell
    case Document(doc) => Encoded(codec.marshal(doc))
  }

  // The row an insert leaves: the fields, the keys of the edges to one, and the new id.
  function FieldRow(codec: JsonCodec, fields: seq<FieldSpec>): AccountRow {
    if fields == [] then map[]
    else
      var last := fields[|fields| - 1];
      FieldRow(codec, fields[..|fields| - 1])[last.column := Stored(codec, last.value)]
  }

  function KeyRow(row: AccountRow, edges: seq<EdgeSpec>): AccountRow {
    if edges == [] then row
    else
      var front := KeyRow(row, edges[..|edges| - 1]);
      match edges[|edges| - 1]
      case ToProxy(id) => front[ProxyID := Int(id)]
      case ToParent(id) => front[ParentAccountID := Int(id)]
      case _ => front
  }

  function InsertedRow(codec: JsonCodec, fields: seq<FieldSpec>, edges: seq<EdgeSpec>, id: int): AccountRow {
    KeyRow(FieldRow(codec, fields), edges)[ID := Int(id)]
  }

  // The row for the specification that `CreateSpec` makes of a mutation.
  function CreatedRow(codec: JsonCodec, r: Runtime, m: Changes, id: int): AccountRow {
    InsertedRow(codec, FieldsFor(m, FIELD_COLUMNS), EdgesFor(r, m), id)
  }

  // ---- Cell by cell ----

  function CellOf(codec: JsonCodec, v: Option<Value>): SqlValue { if v.Some? then Stored(codec, v.value) else Null }

  lemma {:induction false} FieldCell(codec: JsonCodec, m: Changes, columns: seq<Column>, c: Column)
    ensures Cell(FieldRow(codec, FieldsFor(m, columns)), c) == if c in columns then CellOf(codec, Entry(m, c)) else Null
  {
    hide Entry, Stored, FieldOf, FieldRow;
    if columns == [] {
      NoFields(codec);
    } else {
      var front, last := columns[..|columns| - 1], columns[|columns| - 1];
      FieldCell(codec, m, front, c);
      assert columns == front + [last];
      FieldAppended(codec, m, FieldsFor(m, front), last, c);
    }
  }

  lemma NoFields(codec: JsonCodec)
    ensures FieldRow(codec, []) == map[]
  {
  }

  lemma FieldAppended(codec: JsonCodec, m: Changes, fields: seq<FieldSpec>, last: Column, c: Column)
    ensures Cell(FieldRow(codec, fields + FieldOf(m, last)), c)
         == if c == last && Entry(m, c).Some? then Stored(codec, Entry(m, c).value)
            else Cell(FieldRow(codec, fields), c)
  {
    hide Entry, Stored;
    if Entry(m, last).Some? {
      assert (fields + FieldOf(m, last))[..|fields|] == fields;
    } else {
      assert fields + FieldOf(m, last) == fields;
    }
  }

  // The key a list of edges stores in a column.
  lemma KeysAppended(row: AccountRow, edges: seq<EdgeSpec>, more: seq<EdgeSpec>)
    requires |more| <= 1
    ensures KeyRow(row, edges + more) == if more == [] then KeyRow(row, edges)
      else match more[0]
        case ToProxy(id) => KeyRow(row, edges)[ProxyID := Int(id)]
        case ToParent(id) => KeyRow(row, edges)[ParentAccountID := Int(id)]
        case _ => KeyRow(row, edges)
  {
    if more == [] {
      assert edges + more == edges;
    } else {
      assert (edges + more)[..|edges|] == edges;
    }
  }

  lemma KeyCell(row: AccountRow, r: Runtime, m: Changes, c: Column)
    ensures Cell(KeyRow(row, EdgesFor(r, m)), c) ==
      if c == ProxyID && m.ints.proxy.Some? then Int(m.ints.proxy.value)
      else if c == ParentAccountID && m.ints.parent.Some? then Int(m.ints.parent.value)
      else Cell(row, c)
  {
    hide KeyRow, EdgesFor;
    KeysStored(row, r, m);
  }

  lemma KeysStored(row: AccountRow, r: Runtime, m: Changes)
    ensures var proxied := if m.ints.proxy.Some? then row[ProxyID := Int(m.ints.proxy.value)] else row;
      KeyRow(row, EdgesFor(r, m))
        == if m.ints.parent.Some? then proxied[ParentAccountID := Int(m.ints.parent.value)] else proxied
  {
    hide KeyRow, EdgesFor;
    var a := if m.groups != {} then [ToGroups(m.groups, r.linkedAt)] else [];
    var b := if m.ints.proxy.Some? then [ToProxy(m.ints.proxy.value)] else [];
    var d := if m.ints.parent.Some? then [ToParent(m.ints.parent.value)] else [];
    var e := if m.children != {} then [ToChildren(m.children)] else [];
    var f := if m.usageLogs != {} then [ToUsageLogs(m.usageLogs)] else [];
    NoKeys(row);
    KeysAppended(row, [], a);
    assert [] + a == a;
    KeysAppended(row, a, b);
    KeysAppended(row, a + b, d);
    KeysAppended(row, a + b + d, e);
    KeysAppended(row, a + b + d + e, f);
    EdgesInOrder(r, m);
  }

  lemma EdgesInOrder(r: Runtime, m: Changes)
    ensures EdgesFor(r, m) == (if m.groups != {} then [ToGroups(m.groups, r.linkedAt)] else [])
      + (if m.ints.proxy.Some? then [ToProxy(m.ints.proxy.value)] else [])
      + (if m.ints.parent.Some? then [ToParent(m.ints.parent.value)] else [])
      + (if m.children != {} then [ToChildren(m.children)] else [])
      + (if m.usageLogs != {} then [ToUsageLogs(m.usageLogs)] else [])
  {
  }

  lemma NoKeys(row: AccountRow)
    ensures KeyRow(row, []) == row
  {
  }

  // Columns written as fields: all but the id and the keys of the edges to one.
  predicate IsField(c: Column) { ValidColumn(c) && !c.ID? && !c.ProxyID? && !c.ParentAccountID? }

  function FieldIndex(c: Column): nat {
    match c
    case CreatedAt => 0
    case UpdatedAt => 1
    case DeletedAt => 2
    case Name => 3
    case Notes => 4
    case Platform => 5
    case Type => 6
    case Credentials => 7
    case Extra => 8
    case ProxyFallbackOriginID => 9
    case Concurrency => 10
    case LoadFactor => 11
    case Priority => 12
    case RateMultiplier => 13
    case Status => 14
    case ErrorMessage => 15
    case LastUsedAt => 16
    case ExpiresAt => 17
    case AutoPauseOnExpired => 18
    case Schedulable => 19
    case RateLimitedAt => 20
    case RateLimitResetAt => 21
    case OverloadUntil => 22
    case TempUnschedulableUntil => 23
    case TempUnschedulableReason => 24
    case SessionWindowStart => 25
    case SessionWindowEnd => 26
    case SessionWindowStatus => 27
    case QuotaDimension => 28
    case _ => 0
  }

  lemma FieldIndexed(c: Column)
    requires IsField(c)
    ensures FieldIndex(c) < |FIELD_COLUMNS| && FIELD_COLUMNS[FieldIndex(c)] == c
  {
  }

  lemma FirstAreFields()
    ensures forall c | c in FIRST_COLUMNS :: IsField(c)
  {
  }

  lemma SecondAreFields()
    ensures forall c | c in SECOND_COLUMNS :: IsField(c)
  {
  }

  lemma ThirdAreFields()
    ensures forall c | c in THIRD_COLUMNS :: IsField(c)
  {
  }

  // A node's columns are all columns but the id.
  lemma NodeColumnsExact(c: Column)
    ensures c in NodeColumns() <==> ValidColumn(c) && c != ID
    ensures c in FIELD_COLUMNS <==> IsField(c)
  {
    hide FIRST_COLUMNS, SECOND_COLUMNS, THIRD_COLUMNS;
    FirstAreFields();
    SecondAreFields();
    ThirdAreFields();
    if IsField(c) {
      FieldIndexed(c);
    }
  }

  lemma NoKeyEntries(m: Changes)
    ensures Entry(m, ProxyID) == OfInt(m.ints.proxy) && Entry(m, ParentAccountID) == OfInt(m.ints.parent)
  {
  }

  // What each column of the new row holds.
  lemma CreatedCell(codec: JsonCodec, r: Runtime, m: Changes, id: int, c: Column)
    ensures Cell(CreatedRow(codec, r, m, id), c)
         == if c == ID then Int(id) else if ValidColumn(c) then CellOf(codec, Entry(m, c)) else Null
  {
    hide FieldsFor, EdgesFor, FieldRow, KeyRow, Entry, FIELD_COLUMNS, NodeColumns;
    NoKeyEntries(m);
    var row := FieldRow(codec, FieldsFor(m, FIELD_COLUMNS));
    FieldCell(codec, m, FIELD_COLUMNS, c);
    KeyCell(row, r, m, c);
    NodeColumnsExact(c);
  }

  // ---- Types ----

  lemma StoredFits(codec: JsonCodec, c: Column, v: Value)
    requires Fits(c, v) && (v.Document? ==> RoundTrips(codec, v.doc))
    ensures WellTypedCell(codec, c, Stored(codec, v))
  {
  }

  // The documents that are set survive encoding.
  predicate DocumentsSurvive(codec: JsonCodec, m: Changes) {
    && (m.credentials.Some? ==> RoundTrips(codec, m.credentials.value))
    && (m.extra.Some? ==> RoundTrips(codec, m.extra.value))
  }

  lemma DocumentsSet(codec: JsonCodec, m: Changes, c: Column)
    requires DocumentsSurvive(codec, m) && Entry(m, c).Some? && Entry(m, c).value.Document?
    ensures RoundTrips(codec, Entry(m, c).value.doc)
  {
  }

  lemma CreatedWellTyped(codec: JsonCodec, r: Runtime, m: Changes, id: int)
    requires DocumentsSurvive(codec, m)
    ensures WellTyped(codec, CreatedRow(codec, r, m, id))
  {
    forall c: Column ensures WellTypedCell(codec, c, Cell(CreatedRow(codec, r, m, id), c)) {
      CreatedCell(codec, r, m, id, c);
      NullFits(codec, c);
      EntryFits(m, c);
      hide CreatedRow, Entry, Fits, EmptyBuffer, DocumentsSurvive, RoundTrips;
      if ValidColumn(c) && c != ID && Entry(m, c).Some? {
        if Entry(m, c).value.Document? {
          DocumentsSet(codec, m, c);
        }
        StoredFits(codec, c, Entry(m, c).value);
      }
    }
  }

  lemma NullFits(codec: JsonCodec, c: Column)
    ensures WellTypedCell(codec, c, Null) && WellTypedCell(codec, ID, Int(0))
    ensures forall i :: WellTypedCell(codec, ID, Int(i))
  {
  }

  // ---- Reading back ----

  function Written(m: Changes, f: AccountFields, c: Column): AccountFields {
    EntryFits(m, c);
    if Entry(m, c).Some? then Write(f, c, Entry(m, c).value) else f
  }

  // The cell of a column and what `createSpec` writes to the node for it do the same to the struct.
  lemma WriteProjects(codec: JsonCodec, row: AccountRow, selected: set<Column>, c: Column, larger: set<Column>,
      m: Changes)
    requires DocumentsSurvive(codec, m) && Adds(selected, c, larger) && ValidColumn(c) && c != ID
    requires WellTypedCell(codec, c, Cell(row, c)) && Cell(row, c) == CellOf(codec, Entry(m, c))
    ensures Written(m, Projected(codec, row, selected), c) == Projected(codec, row, larger)
  {
    hide Projected, Write, AssignOne, Entry, Fits, WellTypedCell, FilledBuffer, EmptyBuffer;
    var f := Projected(codec, row, selected);
    EntryFits(m, c);
    AssignOneProjects(codec, row, selected, c, larger);
    if Entry(m, c).None? {
      NullAssigned(codec, f, c, row);
    } else if Entry(m, c).value.Document? {
      DocumentsSet(codec, m, c);
      DocumentAssigned(codec, row, selected, c, larger, Entry(m, c).value.doc);
    } else {
      PlainAssigned(codec, f, c, row, Entry(m, c).value);
    }
  }

  // A NULL cell changes nothing.
  lemma NullAssigned(codec: JsonCodec, f: AccountFields, c: Column, row: AccountRow)
    requires ValidColumn(c) && c != ID && Cell(row, c) == Null
    ensures AssignOne(codec, f, c, FilledBuffer(c, row)) == Success(f)
  {
    hide Arm, AssignOne;
    ArmMatchesBuffer(c);
    NullArm(codec, f, c, FilledBuffer(c, row));
  }

  lemma NullArm(codec: JsonCodec, f: AccountFields, c: Column, b: Buffer)
    requires ValidColumn(c) && c != ID
    requires match Arm(c)
      case TimeArm => b == NullTime(0, false)
      case TextArm => b == NullString("", false)
      case IntArm => b == NullInt64(0, false)
      case BoolArm => b == NullBool(false, false)
      case FloatArm => b == NullFloat64(0.0, false)
      case DocumentArm => b == Bytes([])
      case ExtraArm => true
    ensures AssignOne(codec, f, c, b) == Success(f)
  {
  }

  lemma PlainAssigned(codec: JsonCodec, f: AccountFields, c: Column, row: AccountRow, v: Value)
    requires Fits(c, v) && v.Plain? && Cell(row, c) == v.cell && WellTypedCell(codec, c, Cell(row, c))
    ensures AssignOne(codec, f, c, FilledBuffer(c, row)) == Success(Write(f, c, v))
  {
    hide AssignOne, FilledBuffer, EmptyBuffer, WellTypedCell, AssignTime, AssignText, AssignInt, AssignBool;
    Filled(codec, row, c);
    var b := FilledBuffer(c, row);
    FloatColumn(codec, f, b);
    if v.cell.Time? {
      TimeAssigned(codec, f, c, b);
    } else if v.cell.Text? {
      TextAssigned(codec, f, c, b);
    } else if v.cell.Int? {
      IntAssigned(codec, f, c, b);
    } else if v.cell.Bool? {
      BoolAssigned(codec, f, c, b);
    }
  }

  lemma FloatColumn(codec: JsonCodec, f: AccountFields, b: Buffer)
    ensures EmptyBuffer(RateMultiplier).NullFloat64?
    ensures b.NullFloat64? && b.valid ==>
      AssignOne(codec, f, RateMultiplier, b) == Success(f.(rateMultiplier := b.float64))
  {
  }

  lemma BoolAssigned(codec: JsonCodec, f: AccountFields, c: Column, b: Buffer)
    requires EmptyBuffer(c).NullBool? && b.NullBool?
    ensures AssignOne(codec, f, c, b) == Success(AssignBool(f, c, b))
  {
  }

  // A document that was encoded on insert decodes to itself.
  lemma DocumentAssigned(codec: JsonCodec, row: AccountRow, selected: set<Column>, c: Column, larger: set<Column>,
      doc: Json)
    requires RoundTrips(codec, doc) && Adds(selected, c, larger) && (c == Credentials || c == Extra)
    requires Cell(row, c) == Encoded(codec.marshal(doc))
    requires AssignOne(codec, Projected(codec, row, selected), c, FilledBuffer(c, row))
      == Success(Projected(codec, row, larger))
    ensures Projected(codec, row, larger) == Write(Projected(codec, row, selected), c, Document(doc))
  {
    hide Projected, TimesAt, TextsAt, IntsAt, ExtraValues, BoolAt, FloatAt;
    var f, next := Projected(codec, row, selected), Projected(codec, row, larger);
    assert codec.marshal(doc) != [];
    DocumentsOf(codec, row, larger);
    assert FilledBuffer(c, row) == Bytes(codec.marshal(doc));
  }

  lemma DocumentsOf(codec: JsonCodec, row: AccountRow, selected: set<Column>)
    ensures Projected(codec, row, selected).credentials == DocumentAt(codec, row, selected, Credentials)
    ensures Projected(codec, row, selected).extra == DocumentAt(codec, row, selected, Extra)
  {
  }

  // The struct that `createSpec` has built up is the projection of the new row on the same columns.
  lemma {:induction false} NodeProjects(codec: JsonCodec, r: Runtime, m: Changes, id: int, columns: seq<Column>)
    requires DocumentsSurvive(codec, m) && forall c | c in columns :: ValidColumn(c) && c != ID
    ensures NodeFor(m, columns) == Projected(codec, CreatedRow(codec, r, m, id), set c | c in columns)
  {
    hide Projected, Write, Entry, CreatedRow, Fits;
    var row := CreatedRow(codec, r, m, id);
    if columns == [] {
      NothingProjected(codec, row);
      assert (set c | c in columns) == {};
    } else {
      var front, c := columns[..|columns| - 1], columns[|columns| - 1];
      assert columns == front + [c];
      NodeProjects(codec, r, m, id, front);
      CreatedCell(codec, r, m, id, c);
      CreatedWellTyped(codec, r, m, id);
      assert WellTypedCell(codec, c, Cell(row, c));
      var selected, larger := set d | d in front, set d | d in columns;
      assert Adds(selected, c, larger);
      WriteProjects(codec, row, selected, c, larger, m);
      assert NodeFor(m, columns) == Written(m, NodeFor(m, front), c);
    }
  }

  lemma NothingProjected(codec: JsonCodec, row: AccountRow)
    ensures Projected(codec, row, {}) == ZERO
  {
  }

  // Reading the new row over all columns yields the node that the insert returned, with its id, if the documents
  // that were set survive encoding.
  lemma CreateThenRead(codec: JsonCodec, r: Runtime, m: Changes, id: int)
    requires DocumentsSurvive(codec, m)
    ensures var node := NodeOf(m);
      Scan(codec, COLUMNS, CreatedRow(codec, r, m, id)) == node.(ints := node.ints.(id := id))
  {
    hide Projected, CreatedRow, NodeFor, NodeColumns, AssignOne, WellTypedCell, AssignAll, COLUMNS, FilledBuffer;
    var row := CreatedRow(codec, r, m, id);
    var most, all := set c | c in NodeColumns(), set c | c in COLUMNS;
    forall c ensures c in NodeColumns() <==> ValidColumn(c) && c != ID {
      NodeColumnsExact(c);
    }
    forall c ensures c in all <==> ValidColumn(c) {
      ColumnsExact(c);
    }
    assert Adds(most, ID, all);
    NodeProjects(codec, r, m, id, NodeColumns());
    CreatedWellTyped(codec, r, m, id);
    CreatedCell(codec, r, m, id, ID);
    assert WellTypedCell(codec, ID, Cell(row, ID));
    AssignOneProjects(codec, row, most, ID, all);
    IDAssigned(codec, NodeOf(m), row, id);
    ScanIsProjected(codec, COLUMNS, row);
  }

  // The table's columns are all columns there are.
  lemma ColumnsExact(c: Column)
    ensures c in COLUMNS <==> ValidColumn(c)
  {
    hide COLUMNS_0_7, COLUMNS_8_15, COLUMNS_16_23, COLUMNS_24_31;
    Listed0To7();
    Listed8To15();
    Listed16To23();
    Listed24To31();
  }

  lemma Listed0To7()
    ensures forall c | c in COLUMNS_0_7 :: ValidColumn(c)
    ensures ID in COLUMNS_0_7 && CreatedAt in COLUMNS_0_7 && UpdatedAt in COLUMNS_0_7 && DeletedAt in COLUMNS_0_7
    ensures Name in COLUMNS_0_7 && Notes in COLUMNS_0_7 && Platform in COLUMNS_0_7 && Type in COLUMNS_0_7
  {
  }

  lemma Listed8To15()
    ensures forall c | c in COLUMNS_8_15 :: ValidColumn(c)
    ensures Credentials in COLUMNS_8_15 && Extra in COLUMNS_8_15 && ProxyID in COLUMNS_8_15
      && ProxyFallbackOriginID in COLUMNS_8_15
    ensures Concurrency in COLUMNS_8_15 && LoadFactor in COLUMNS_8_15 && Priority in COLUMNS_8_15
      && RateMultiplier in COLUMNS_8_15
  {
  }

  lemma Listed16To23()
    ensures forall c | c in COLUMNS_16_23 :: ValidColumn(c)
    ensures Status in COLUMNS_16_23 && ErrorMessage in COLUMNS_16_23 && LastUsedAt in COLUMNS_16_23
      && ExpiresAt in COLUMNS_16_23
    ensures AutoPauseOnExpired in COLUMNS_16_23 && Schedulable in COLUMNS_16_23 && RateLimitedAt in COLUMNS_16_23
      && RateLimitResetAt in COLUMNS_16_23
  {
  }

  lemma Listed24To31()
    ensures forall c | c in COLUMNS_24_31 :: ValidColumn(c)
    ensures OverloadUntil in COLUMNS_24_31 && TempUnschedulableUntil in COLUMNS_24_31
      && TempUnschedulableReason in COLUMNS_24_31 && SessionWindowStart in COLUMNS_24_31
    ensures SessionWindowEnd in COLUMNS_24_31 && SessionWindowStatus in COLUMNS_24_31
      && ParentAccountID in COLUMNS_24_31 && QuotaDimension in COLUMNS_24_31
  {
  }

  lemma IDAssigned(codec: JsonCodec, f: AccountFields, row: AccountRow, id: int)
    requires Cell(row, ID) == Int(id)
    ensures AssignOne(codec, f, ID, FilledBuffer(ID, row)) == Success(f.(ints := f.ints.(id := id)))
  {
  }

  // A mutation that passes the check becomes a row without NULL in any required column.
  lemma RequiredNotNull(codec: JsonCodec, r: Runtime, m: Changes, id: int, c: Column)
    requires Checked(r, m) == None && (Required(c) || c == ID)
    ensures Cell(CreatedRow(codec, r, m, id), c) != Null
  {
    hide Checked, CreatedRow, Entry, Fits;
    CheckPasses(r, m);
    CreatedCell(codec, r, m, id, c);
    EntryFits(m, c);
    if c != ID {
      StoredNotNull(codec, c, Entry(m, c).value);
    }
  }

  lemma StoredNotNull(codec: JsonCodec, c: Column, v: Value)
    requires Fits(c, v)
    ensures Stored(codec, v) != Null
  {
  }
}
