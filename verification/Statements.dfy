/** How one flush becomes INSERT statements with provenance (writeUnits in src/persistence/batchWriter.ts). */
module Statements {
  import opened Values
  import opened Arithmetic
  import opened Ordering

  // ---------------------------------------------------------------------------
  // Work units
  // ---------------------------------------------------------------------------

  type Table = string

  /** A column value; numbers, texts, times and JSON are all just values here. */
  datatype Value = Null | Text(text: string) | Number(number: int)

  datatype Cell = Cell(column: string, value: Value)

  /** The columns a row carries, in insertion order, each once. */
  type Record = seq<Cell>

  datatype NormalizedRow = NormalizedRow(table: Table, values: Record, linkRawEvent: bool)

  datatype RawEvent = RawEvent(session: SessionId, ordinal: int, receivedAt: int, payload: string)

  /** One message's work; derived rows have no raw event. */
  datatype IngestUnit = IngestUnit(raw: Option<RawEvent>, normalized: seq<NormalizedRow>)

  /** What the raw insert returns for a row. */
  datatype RawRef = RawRef(id: int, receivedAt: int)

  function ValueOf(r: Record, column: string): Value {
    if r == [] then Null else if r[0].column == column then r[0].value else ValueOf(r[1..], column)
  }

  /** Assigning a property: in place if it is there, at the end if it is not. */
  function WithColumn(r: Record, column: string, v: Value): Record {
    if r == [] then [Cell(column, v)]
    else if r[0].column == column then [Cell(column, v)] + r[1..]
    else [r[0]] + WithColumn(r[1..], column, v)
  }

  // ---------------------------------------------------------------------------
  // Chunks
  // ---------------------------------------------------------------------------

  const MAX_BIND_PARAMETERS := 60_000

  function MaxRowsPerStatement(columnCount: nat): (n: nat)
    ensures n >= 1
    ensures columnCount <= MAX_BIND_PARAMETERS ==> n * columnCount <= MAX_BIND_PARAMETERS
    ensures 0 < columnCount <= MAX_BIND_PARAMETERS ==> (n + 1) * columnCount > MAX_BIND_PARAMETERS
  {
    var d := Max(1, columnCount);
    var n := MAX_BIND_PARAMETERS / d;
    Quotient(MAX_BIND_PARAMETERS, d);
    Max(1, n)
  }

  lemma Quotient(n: nat, d: nat)
    requires d > 0
    ensures n / d * d <= n < (n / d + 1) * d
    ensures d <= n ==> n / d >= 1
  {
  }

  /** Concatenation of the chunks. */
  function Joined<T>(chunks: seq<seq<T>>): seq<T> {
    if chunks == [] then [] else Joined(chunks[..|chunks| - 1]) + chunks[|chunks| - 1]
  }

  /** Statement-sized pieces that put together give the rows back. */
  method ChunkRows<T>(rows: seq<T>, columnCount: nat) returns (out: seq<seq<T>>)
    ensures Joined(out) == rows
    ensures forall i | 0 <= i < |out| :: |out[i]| <= MaxRowsPerStatement(columnCount)
    ensures rows != [] ==> forall i | 0 <= i < |out| :: out[i] != []
    ensures forall i | 0 <= i < |out| - 1 :: |out[i]| == MaxRowsPerStatement(columnCount)
  {
    var size := MaxRowsPerStatement(columnCount);
    if |rows| <= size {
      assert Joined([rows][..0]) == [];
      return [rows];
    }
    out := [];
    var i := 0;
    while i < |rows|
      invariant 0 <= i && Joined(out) == rows[..Min(i, |rows|)]
      invariant forall k | 0 <= k < |out| :: 0 < |out[k]| <= size && (i <= |rows| || k < |out| - 1 ==> |out[k]| == size)
      invariant i <= |rows| ==> forall k | 0 <= k < |out| :: |out[k]| == size
      decreases |rows| - i
    {
      var chunk := rows[i..Min(i + size, |rows|)];
      assert (out + [chunk])[..|out|] == out;
      assert rows[..i] + chunk == rows[..Min(i + size, |rows|)];
      out := out + [chunk];
      i := i + size;
    }
    assert rows[..|rows|] == rows;
  }

  // ---------------------------------------------------------------------------
  // Columns, placeholders and parameters
  // ---------------------------------------------------------------------------

  datatype Aligned = Aligned(columns: seq<string>, rows: seq<seq<Value>>)

  /** A bind parameter by number, with the cast its column needs. */
  datatype Placeholder = Placeholder(number: nat, jsonb: bool)

  ghost predicate Distinct(columns: seq<string>) {
    forall i, j | 0 <= i < j < |columns| :: columns[i] != columns[j]
  }

  function ColumnsOfRecord(r: Record): set<string> {
    set i | 0 <= i < |r| :: r[i].column
  }

  /** All columns any of the rows carries. */
  function ColumnsOf(rows: seq<Record>): set<string> {
    if rows == [] then {} else ColumnsOf(rows[..|rows| - 1]) + ColumnsOfRecord(rows[|rows| - 1])
  }

  function ColumnSet(columns: seq<string>): set<string> {
    set c | c in columns
  }

  /** The union of the rows' columns, each once, in order of first appearance. */
  method UnionOfColumns(rows: seq<Record>) returns (columns: seq<string>)
    ensures Distinct(columns) && ColumnSet(columns) == ColumnsOf(rows)
  {
    columns := [];
    for i := 0 to |rows|
      invariant Distinct(columns) && ColumnSet(columns) == ColumnsOf(rows[..i])
    {
      assert rows[..i + 1][..i] == rows[..i];
      var r := rows[i];
      for j := 0 to |r|
        invariant Distinct(columns) && ColumnSet(columns) == ColumnsOf(rows[..i]) + ColumnsOfRecord(r[..j])
      {
        RecordColumnsNext(r, j);
        if r[j].column !in columns {
          ColumnSetSnoc(columns, r[j].column);
          columns := columns + [r[j].column];
        }
      }
      assert r[..|r|] == r;
    }
    assert rows[..|rows|] == rows;
  }

  lemma RecordColumnsNext(r: Record, j: nat)
    requires j < |r|
    ensures ColumnsOfRecord(r[..j + 1]) == ColumnsOfRecord(r[..j]) + {r[j].column}
  {
    assert forall k | 0 <= k < j :: r[..j + 1][k] == r[..j][k];
    assert r[..j + 1][j] == r[j];
    forall c | c in ColumnsOfRecord(r[..j]) ensures c in ColumnsOfRecord(r[..j + 1]) {
      var k :| 0 <= k < j && r[..j][k].column == c;
      assert r[..j + 1][k].column == c;
    }
    forall c | c in ColumnsOfRecord(r[..j + 1]) ensures c in ColumnsOfRecord(r[..j]) + {r[j].column} {
      var k :| 0 <= k < j + 1 && r[..j + 1][k].column == c;
      assert k < j ==> r[..j][k].column == c;
    }
  }

  lemma ColumnSetSnoc(columns: seq<string>, c: string)
    ensures ColumnSet(columns + [c]) == ColumnSet(columns) + {c}
  {
  }

  /** A row's values for the given columns, null where it has none. */
  function ValuesFor(r: Record, columns: seq<string>): (vs: seq<Value>)
    ensures |vs| == |columns| && forall j | 0 <= j < |columns| :: vs[j] == ValueOf(r, columns[j])
  {
    if columns == [] then []
    else
      assert columns == columns[..|columns| - 1] + [columns[|columns| - 1]];
      ValuesFor(r, columns[..|columns| - 1]) + [ValueOf(r, columns[|columns| - 1])]
  }

  method AlignColumns(rows: seq<Record>) returns (a: Aligned)
    ensures Distinct(a.columns) && ColumnSet(a.columns) == ColumnsOf(rows)
    ensures |a.rows| == |rows| && forall i | 0 <= i < |rows| :: a.rows[i] == ValuesFor(rows[i], a.columns)
  {
    var columns := UnionOfColumns(rows);
    var out: seq<seq<Value>> := [];
    for i := 0 to |rows|
      invariant |out| == i && forall k | 0 <= k < i :: out[k] == ValuesFor(rows[k], columns)
    {
      out := out + [ValuesFor(rows[i], columns)];
    }
    a := Aligned(columns, out);
  }

  /** Numbers the placeholders of a multi-row VALUES list, row by row. */
  method BuildValuesPlaceholder(a: Aligned, jsonb: set<string>) returns (tuples: seq<seq<Placeholder>>)
    ensures |tuples| == |a.rows| && forall i | 0 <= i < |tuples| :: |tuples[i]| == |a.columns|
    ensures forall i, j | 0 <= i < |a.rows| && 0 <= j < |a.columns| ::
      tuples[i][j] == Placeholder(i * |a.columns| + j + 1, a.columns[j] in jsonb)
  {
    tuples := [];
    var n := 0;
    for i := 0 to |a.rows|
      invariant |tuples| == i && n == i * |a.columns|
      invariant forall k | 0 <= k < i :: TupleIs(tuples[k], k, a.columns, jsonb)
    {
      var tuple: seq<Placeholder> := [];
      for j := 0 to |a.columns|
        invariant n == i * |a.columns| + j && |tuple| == j
        invariant forall l | 0 <= l < j :: tuple[l] == Placeholder(i * |a.columns| + l + 1, a.columns[l] in jsonb)
      {
        n := n + 1;
        tuple := tuple + [Placeholder(n, a.columns[j] in jsonb)];
      }
      assert (i + 1) * |a.columns| == i * |a.columns| + |a.columns|;
      tuples := tuples + [tuple];
    }
  }

  ghost predicate TupleIs(tuple: seq<Placeholder>, i: nat, columns: seq<string>, jsonb: set<string>) {
    |tuple| == |columns|
    && forall j | 0 <= j < |columns| :: tuple[j] == Placeholder(i * |columns| + j + 1, columns[j] in jsonb)
  }

  /** All values, row after row. */
  function FlattenValues(rows: seq<seq<Value>>): seq<Value> {
    if rows == [] then [] else FlattenValues(rows[..|rows| - 1]) + rows[|rows| - 1]
  }

  lemma {:induction false} FlattenedLength(rows: seq<seq<Value>>, width: nat)
    requires forall i | 0 <= i < |rows| :: |rows[i]| == width
    ensures |FlattenValues(rows)| == |rows| * width
  {
    if rows != [] {
      FlattenedLength(rows[..|rows| - 1], width);
      assert |rows| * width == (|rows| - 1) * width + width;
    }
  }

  lemma WithinRow(i: nat, j: nat, n: nat, width: nat)
    requires i < n && j < width
    ensures 0 <= i * width && i * width + j < n * width
  {
    MultiplesAscend(i + 1, n, width);
    Distributes(i + 1, i, width);
    MultiplesAscend(0, i, width);
  }

  /** Bind parameter i * |columns| + j + 1 is row i's value for column j. */
  lemma {:induction false} ParameterIsTheValue(rows: seq<seq<Value>>, width: nat, i: nat, j: nat)
    requires (forall k | 0 <= k < |rows| :: |rows[k]| == width) && i < |rows| && j < width
    ensures i * width + j < |FlattenValues(rows)| && FlattenValues(rows)[i * width + j] == rows[i][j]
  {
    var n := |rows| - 1;
    FlattenedLength(rows, width);
    FlattenedLength(rows[..n], width);
    WithinRow(i, j, |rows|, width);
    if i < n {
      WithinRow(i, j, n, width);
      ParameterIsTheValue(rows[..n], width, i, j);
    }
  }

  // ---------------------------------------------------------------------------
  // Provenance
  // ---------------------------------------------------------------------------

  function RawsOf(units: seq<IngestUnit>): seq<RawEvent> {
    if units == [] then []
    else
      var last := units[|units| - 1];
      RawsOf(units[..|units| - 1]) + (if last.raw.Some? then [last.raw.value] else [])
  }

  /** The row with a reference to its raw event and the order in which that was observed. */
  function Linked(row: NormalizedRow, raw: Option<RawEvent>, link: Option<RawRef>): NormalizedRow {
    if !row.linkRawEvent || link.None? then row
    else
      var v := WithColumn(WithColumn(row.values, "raw_event_id", Number(link.value.id)),
                          "raw_event_received_at", Number(link.value.receivedAt));
      row.(values := if raw.Some? then WithColumn(v, "ingest_ordinal", Number(raw.value.ordinal)) else v)
  }

  function LinkedUnit(unit: IngestUnit, link: Option<RawRef>, n: nat): seq<NormalizedRow>
    requires n <= |unit.normalized|
  {
    if n == 0 then [] else LinkedUnit(unit, link, n - 1) + [Linked(unit.normalized[n - 1], unit.raw, link)]
  }

  /** All rows of the units in order, each linked to the raw row of its own unit. */
  function LinkedAll(units: seq<IngestUnit>, ids: seq<RawRef>): seq<NormalizedRow>
    requires |ids| >= |RawsOf(units)|
  {
    if units == [] then []
    else
      var init, last := units[..|units| - 1], units[|units| - 1];
      LinkedAll(init, ids)
      + LinkedUnit(last, if last.raw.Some? then Some(ids[|RawsOf(init)|]) else None, |last.normalized|)
  }

  function TableRows(rows: seq<NormalizedRow>, t: Table): seq<Record> {
    if rows == [] then []
    else TableRows(rows[..|rows| - 1], t) + (if rows[|rows| - 1].table == t then [rows[|rows| - 1].values] else [])
  }

  lemma TableRowsSnoc(rows: seq<NormalizedRow>, row: NormalizedRow, t: Table)
    ensures TableRows(rows + [row], t) == TableRows(rows, t) + (if row.table == t then [row.values] else [])
  {
    assert (rows + [row])[..|rows|] == rows;
  }

  /** Tables met so far, each with its rows in order. */
  ghost predicate Grouped(byTable: map<Table, seq<Record>>, order: seq<Table>, rows: seq<NormalizedRow>) {
    && Distinct(order)
    && (forall t :: t in order <==> t in byTable)
    && (forall t | t in byTable :: byTable[t] == TableRows(rows, t) && byTable[t] != [])
    && (forall t | t !in byTable :: TableRows(rows, t) == [])
  }

  method PushRow(byTable: map<Table, seq<Record>>, order: seq<Table>, row: NormalizedRow,
      ghost rows: seq<NormalizedRow>)
    returns (byTable': map<Table, seq<Record>>, order': seq<Table>)
    requires Grouped(byTable, order, rows)
    ensures Grouped(byTable', order', rows + [row])
  {
    OneMoreGrouped(byTable, order, row, rows);
    hide Grouped;
    order' := if row.table in byTable then order else order + [row.table];
    byTable' := byTable[row.table := (if row.table in byTable then byTable[row.table] else []) + [row.values]];
  }

  lemma OneMoreGrouped(byTable: map<Table, seq<Record>>, order: seq<Table>, row: NormalizedRow,
      rows: seq<NormalizedRow>)
    requires Grouped(byTable, order, rows)
    ensures Grouped(byTable[row.table := (if row.table in byTable then byTable[row.table] else []) + [row.values]],
                    if row.table in byTable then order else order + [row.table], rows + [row])
  {
    forall t ensures TableRows(rows + [row], t) == TableRows(rows, t) + (if row.table == t then [row.values] else []) {
      TableRowsSnoc(rows, row, t);
    }
    hide TableRows;
  }

  lemma NothingGrouped()
    ensures Grouped(map[], [], [])
  {
  }

  lemma {:induction false} RawsGrow(units: seq<IngestUnit>, i: nat)
    requires i < |units|
    ensures |RawsOf(units[..i])| + (if units[i].raw.Some? then 1 else 0) == |RawsOf(units[..i + 1])| <= |RawsOf(units)|
    decreases |units| - i
  {
    assert units[..i + 1][..i] == units[..i];
    if i + 1 < |units| {
      RawsGrow(units, i + 1);
    } else {
      assert units[..i + 1] == units;
    }
  }

  /** Attaches provenance by walking the raw ids, and groups by table. */
  method GroupByTable(units: seq<IngestUnit>, ids: seq<RawRef>)
      returns (byTable: map<Table, seq<Record>>, order: seq<Table>)
    requires |ids| == |RawsOf(units)|
    ensures Grouped(byTable, order, LinkedAll(units, ids))
  {
    hide Grouped, Linked;
    byTable, order := map[], [];
    NothingGrouped();
    var rawIdx := 0;
    for i := 0 to |units|
      invariant rawIdx == |RawsOf(units[..i])| <= |ids| && Grouped(byTable, order, LinkedAll(units[..i], ids))
    {
      RawsGrow(units, i);
      assert units[..i + 1][..i] == units[..i];
      var unit := units[i];
      var link: Option<RawRef> := None;
      if unit.raw.Some? {
        link := Some(ids[rawIdx]);
        rawIdx := rawIdx + 1;
      }
      ghost var before := LinkedAll(units[..i], ids);
      assert before + [] == before;
      for j := 0 to |unit.normalized|
        invariant Grouped(byTable, order, before + LinkedUnit(unit, link, j))
      {
        var row := Linked(unit.normalized[j], unit.raw, link);
        assert before + LinkedUnit(unit, link, j + 1) == before + LinkedUnit(unit, link, j) + [row];
        byTable, order := PushRow(byTable, order, row, before + LinkedUnit(unit, link, j));
      }
    }
    assert units[..|units|] == units;
  }

  // ---------------------------------------------------------------------------
  // Statements
  // ---------------------------------------------------------------------------

  const TABLE_INSERT_ORDER: seq<Table> := ["event_ladder_sample_groups", "event_ladder_samples"]

  const JSONB_COLUMNS: map<Table, set<string>> := map[
    "orderbook_snapshots" := {"yes_bids", "no_bids"},
    "market_lifecycle_events" := {"payload"},
    "sequence_gaps" := {"affected_markets"},
    "integrity_events" := {"details"},
    "book_validations" := {"difference"},
    "user_order_updates" := {"payload"},
    "user_fills" := {"payload"},
    "external_observations" := {"raw"}]

  function JsonbColumns(t: Table): set<string> {
    if t in JSONB_COLUMNS then JSONB_COLUMNS[t] else {}
  }

  /** Parents first, then everything else in encounter order. */
  method OrderedTables(order: seq<Table>) returns (tables: seq<Table>)
    requires Distinct(order)
    ensures Distinct(tables) && forall t :: t in tables <==> t in order
    ensures forall i, j | 0 <= i < |tables| && 0 <= j < |tables| ::
      tables[i] == "event_ladder_sample_groups" && tables[j] == "event_ladder_samples" ==> i < j
  {
    assert TABLE_INSERT_ORDER[0] == "event_ladder_sample_groups" && TABLE_INSERT_ORDER[1] == "event_ladder_samples";
    tables := [];
    for i := 0 to 2
      invariant Distinct(tables) && |tables| <= i
      invariant forall t :: t in tables <==> t in order && t in TABLE_INSERT_ORDER[..i]
      invariant forall x, y | 0 <= x < |tables| && 0 <= y < |tables| ::
        tables[x] == "event_ladder_sample_groups" && tables[y] == "event_ladder_samples" ==> x < y
    {
      assert TABLE_INSERT_ORDER[..i + 1] == TABLE_INSERT_ORDER[..i] + [TABLE_INSERT_ORDER[i]];
      if TABLE_INSERT_ORDER[i] in order {
        tables := tables + [TABLE_INSERT_ORDER[i]];
      }
    }
    assert TABLE_INSERT_ORDER[..2] == TABLE_INSERT_ORDER;
    for i := 0 to |order|
      invariant Distinct(tables)
      invariant forall t :: t in tables <==> t in order && (t in TABLE_INSERT_ORDER || t in order[..i])
      invariant forall x, y | 0 <= x < |tables| && 0 <= y < |tables| ::
        tables[x] == "event_ladder_sample_groups" && tables[y] == "event_ladder_samples" ==> x < y
    {
      assert order[..i + 1] == order[..i] + [order[i]];
      assert order[i] !in order[..i];
      if order[i] !in TABLE_INSERT_ORDER {
        tables := tables + [order[i]];
      }
    }
    assert order[..|order|] == order;
  }

  datatype Insert = Insert(columns: seq<string>, tuples: seq<seq<Placeholder>>, params: seq<Value>)

  datatype TableInserts = TableInserts(table: Table, inserts: seq<Insert>)

  /** Every placeholder's parameter is its row's value for its column, or null. */
  ghost predicate Shows(s: Insert, rows: seq<Record>, jsonb: set<string>) {
    && Distinct(s.columns) && ColumnSet(s.columns) == ColumnsOf(rows)
    && |s.tuples| == |rows| && |s.params| == |rows| * |s.columns|
    && forall i | 0 <= i < |rows| :: TupleShows(s, i, rows[i], jsonb)
  }

  ghost predicate TupleShows(s: Insert, i: nat, r: Record, jsonb: set<string>)
    requires i < |s.tuples|
  {
    && |s.tuples[i]| == |s.columns|
    && forall j | 0 <= j < |s.columns| ::
         PlaceholderShows(s, s.tuples[i][j], ValueOf(r, s.columns[j]), s.columns[j] in jsonb)
  }

  ghost predicate PlaceholderShows(s: Insert, p: Placeholder, v: Value, jsonb: bool) {
    1 <= p.number <= |s.params| && s.params[p.number - 1] == v && p.jsonb == jsonb
  }

  method BuildInsert(rows: seq<Record>, jsonb: set<string>) returns (s: Insert)
    ensures Shows(s, rows, jsonb)
  {
    hide ValueOf, FlattenValues;
    var a := AlignColumns(rows);
    var tuples := BuildValuesPlaceholder(a, jsonb);
    s := Insert(a.columns, tuples, FlattenValues(a.rows));
    var width := |a.columns|;
    FlattenedLength(a.rows, width);
    forall i | 0 <= i < |rows| ensures TupleShows(s, i, rows[i], jsonb) {
      forall j | 0 <= j < width
        ensures PlaceholderShows(s, s.tuples[i][j], ValueOf(rows[i], s.columns[j]), s.columns[j] in jsonb)
      {
        ParameterIsTheValue(a.rows, width, i, j);
        MultiplesAscend(0, i, width);
      }
    }
  }

  /** One statement per chunk; together they insert exactly these rows, in order. */
  ghost predicate InsertsAll(ss: seq<Insert>, chunks: seq<seq<Record>>, rows: seq<Record>, jsonb: set<string>) {
    && |ss| == |chunks| && Joined(chunks) == rows
    && forall i | 0 <= i < |ss| :: Shows(ss[i], chunks[i], jsonb)
  }

  ghost predicate InsertsExactly(ss: seq<Insert>, rows: seq<Record>, jsonb: set<string>) {
    exists chunks :: InsertsAll(ss, chunks, rows, jsonb)
  }

  ghost predicate WithinParameterLimit(ss: seq<Insert>) {
    forall i | 0 <= i < |ss| :: |ss[i].params| <= MAX_BIND_PARAMETERS
  }

  lemma {:induction false} ColumnsOfPart(all: seq<Record>, part: seq<Record>)
    requires forall i | 0 <= i < |part| :: part[i] in all
    ensures ColumnsOf(part) <= ColumnsOf(all)
  {
    if part != [] {
      ColumnsOfPart(all, part[..|part| - 1]);
      ColumnsOfMember(all, part[|part| - 1]);
    }
  }

  lemma {:induction false} ColumnsOfMember(all: seq<Record>, r: Record)
    requires r in all
    ensures ColumnsOfRecord(r) <= ColumnsOf(all)
  {
    if all[|all| - 1] != r {
      ColumnsOfMember(all[..|all| - 1], r);
    }
  }

  lemma {:induction false} JoinedHas<T>(chunks: seq<seq<T>>, i: nat)
    requires i < |chunks|
    ensures forall x | x in chunks[i] :: x in Joined(chunks)
  {
    if i < |chunks| - 1 {
      JoinedHas(chunks[..|chunks| - 1], i);
    }
  }

  lemma {:induction false} DistinctSize(columns: seq<string>)
    requires Distinct(columns)
    ensures |columns| == |ColumnSet(columns)|
  {
    if columns != [] {
      var n := |columns| - 1;
      DistinctSize(columns[..n]);
      ColumnSetSnoc(columns[..n], columns[n]);
      assert columns == columns[..n] + [columns[n]];
      assert columns[n] !in columns[..n];
    }
  }

  lemma SmallerSet(a: set<string>, b: set<string>)
    requires a <= b
    ensures |a| <= |b|
  {
    assert b == a + (b - a);
  }

  method InsertsFor(t: Table, rows: seq<Record>) returns (ss: seq<Insert>)
    ensures InsertsExactly(ss, rows, JsonbColumns(t))
    ensures |ColumnsOf(rows)| <= MAX_BIND_PARAMETERS ==> WithinParameterLimit(ss)
  {
    hide Shows, ColumnsOf, Joined;
    var all := UnionOfColumns(rows);
    DistinctSize(all);
    var chunks := ChunkRows(rows, |all|);
    ss := [];
    for i := 0 to |chunks|
      invariant |ss| == i && forall k | 0 <= k < i :: Shows(ss[k], chunks[k], JsonbColumns(t))
      invariant |all| <= MAX_BIND_PARAMETERS ==> WithinParameterLimit(ss)
    {
      var s := BuildInsert(chunks[i], JsonbColumns(t));
      JoinedHas(chunks, i);
      StatementFits(s, chunks[i], rows, |all|, JsonbColumns(t));
      ss := ss + [s];
    }
    assert InsertsAll(ss, chunks, rows, JsonbColumns(t));
  }

  lemma StatementFits(s: Insert, chunk: seq<Record>, rows: seq<Record>, columnCount: nat, jsonb: set<string>)
    requires Shows(s, chunk, jsonb) && columnCount == |ColumnsOf(rows)|
    requires (forall x | x in chunk :: x in rows) && |chunk| <= MaxRowsPerStatement(columnCount)
    ensures columnCount <= MAX_BIND_PARAMETERS ==> |s.params| <= MAX_BIND_PARAMETERS
  {
    DistinctSize(s.columns);
    ColumnsOfPart(rows, chunk);
    SmallerSet(ColumnsOf(chunk), ColumnsOf(rows));
    assert |s.columns| <= columnCount;
    MultiplesAscend(|chunk|, MaxRowsPerStatement(columnCount), columnCount);
    ScaledUp(|chunk|, |s.columns|, columnCount);
  }

  lemma ScaledUp(n: nat, a: nat, b: nat)
    requires a <= b
    ensures n * a <= n * b
  {
    MultiplesAscend(a, b, n);
  }

  // ---------------------------------------------------------------------------
  // One flush
  // ---------------------------------------------------------------------------

  /** The raw chunks, then every table's statements. */
  datatype Plan = Plan(raws: seq<seq<RawEvent>>, tables: seq<TableInserts>)

  const RAW_COLUMNS := 16

  predicate LowerId(a: RawRef, b: RawRef) {
    a.id < b.id
  }

  /** The identity column hands out ascending ids in row order. */
  ghost predicate AssignedInOrder(units: seq<IngestUnit>, ids: seq<RawRef>) {
    |ids| == |RawsOf(units)| && StrictlySorted(ids, LowerId)
  }

  /** What a flush inserts: raw events in order, and every table's rows linked to their own raw event. */
  ghost predicate Inserts(plan: Plan, units: seq<IngestUnit>, ids: seq<RawRef>)
    requires |ids| == |RawsOf(units)|
  {
    var rows := LinkedAll(units, ids);
    && Joined(plan.raws) == RawsOf(units)
    && (forall i | 0 <= i < |plan.raws| :: |plan.raws[i]| * RAW_COLUMNS <= MAX_BIND_PARAMETERS)
    && (forall i, j | 0 <= i < j < |plan.tables| :: plan.tables[i].table != plan.tables[j].table)
    && (forall t :: TableRows(rows, t) != [] <==> HasTable(plan, t))
    && (forall i | 0 <= i < |plan.tables| ::
          TableInserted(plan.tables[i], TableRows(rows, plan.tables[i].table)))
    && (forall i, j | 0 <= i < |plan.tables| && 0 <= j < |plan.tables| ::
          plan.tables[i].table == "event_ladder_sample_groups" && plan.tables[j].table == "event_ladder_samples" ==>
              i < j)
  }

  ghost predicate HasTable(plan: Plan, t: Table) {
    exists i :: 0 <= i < |plan.tables| && plan.tables[i].table == t
  }

  ghost predicate TableInserted(ti: TableInserts, rows: seq<Record>) {
    && InsertsExactly(ti.inserts, rows, JsonbColumns(ti.table))
    && (|ColumnsOf(rows)| <= MAX_BIND_PARAMETERS ==> WithinParameterLimit(ti.inserts))
  }

  lemma LowerIdIsOrder()
    ensures StrictWeakOrder(LowerId)
  {
  }

  /** Sorting what the insert returned, in whatever order, gives back the ids in row order. */
  lemma ReturnedIdsSorted(ids: seq<RawRef>, returned: seq<RawRef>)
    requires StrictlySorted(ids, LowerId) && multiset(returned) == multiset(ids)
    ensures SortBy(returned, LowerId) == ids
  {
    LowerIdIsOrder();
    SortBySorts(returned, LowerId);
    SortedPermutationIsUnique(ids, SortBy(returned, LowerId), LowerId);
  }

  /**
   * Turns units into statements. `returned` is the result of the raw inserts, in any order; `ids`
   * are the ids the raw rows really got. Fails when the database returned the wrong number of ids.
   */
  method WriteUnits(units: seq<IngestUnit>, returned: seq<RawRef>, ghost ids: seq<RawRef>) returns (plan: Option<Plan>)
    requires AssignedInOrder(units, ids)
    ensures plan.None? <==> |returned| != |RawsOf(units)|
    ensures multiset(returned) == multiset(ids) ==> plan.Some? && Inserts(plan.value, units, ids)
  {
    hide LinkedAll, TableRows, InsertsExactly, ColumnsOf, RawsOf, Joined, WithinParameterLimit, StrictlySorted, SortBy;
    assert |multiset(returned)| == |returned| && |multiset(ids)| == |ids|;
    var raws := CollectRaws(units);
    var chunks := ChunkRows(raws, RAW_COLUMNS);
    if |returned| != |raws| {
      return None;
    }
    var rawIds := SortBy(returned, LowerId);
    assert |rawIds| == |returned| by {
      assert |multiset(rawIds)| == |rawIds|;
    }
    if multiset(returned) == multiset(ids) {
      ReturnedIdsSorted(ids, returned);
    }
    var byTable, order := GroupByTable(units, rawIds);
    ghost var rows := LinkedAll(units, rawIds);
    var tables := OrderedTables(order);
    var out: seq<TableInserts> := [];
    for i := 0 to |tables|
      invariant |out| == i
      invariant forall k | 0 <= k < i :: out[k].table == tables[k] && TableInserted(out[k], TableRows(rows, tables[k]))
    {
      var ss := InsertsFor(tables[i], byTable[tables[i]]);
      out := out + [TableInserts(tables[i], ss)];
    }
    var p := Plan(chunks, out);
    forall t ensures TableRows(rows, t) != [] <==> HasTable(p, t) {
      if t in tables {
        var k :| 0 <= k < |tables| && tables[k] == t;
        assert out[k].table == t;
      }
    }
    plan := Some(p);
  }

  method CollectRaws(units: seq<IngestUnit>) returns (raws: seq<RawEvent>)
    ensures raws == RawsOf(units)
  {
    raws := [];
    for i := 0 to |units|
      invariant raws == RawsOf(units[..i])
    {
      assert units[..i + 1][..i] == units[..i];
      if units[i].raw.Some? {
        raws := raws + [units[i].raw.value];
      }
    }
    assert units[..|units|] == units;
  }

  // ---------------------------------------------------------------------------
  // What the linking means
  // ---------------------------------------------------------------------------

  /** Setting a column sets that column and no other. */
  lemma {:induction false} WithColumnSets(r: Record, column: string, v: Value)
    ensures ValueOf(WithColumn(r, column, v), column) == v
    ensures forall c | c != column :: ValueOf(WithColumn(r, column, v), c) == ValueOf(r, c)
  {
    var r' := WithColumn(r, column, v);
    if r == [] {
      assert forall c | c != column :: ValueOf(r', c) == ValueOf(r'[1..], c) == Null;
    } else if r[0].column == column {
      assert r'[1..] == r[1..];
    } else {
      WithColumnSets(r[1..], column, v);
      assert r'[1..] == WithColumn(r[1..], column, v);
    }
  }

  /** Where the rows of unit i start among all rows. */
  function RowsBefore(units: seq<IngestUnit>, i: nat): nat
    requires i <= |units|
  {
    if i == 0 then 0 else RowsBefore(units, i - 1) + |units[i - 1].normalized|
  }

  lemma {:induction false} LinkedUnitAt(unit: IngestUnit, link: Option<RawRef>, n: nat, j: nat)
    requires j < n <= |unit.normalized|
    ensures |LinkedUnit(unit, link, n)| == n &&
        LinkedUnit(unit, link, n)[j] == Linked(unit.normalized[j], unit.raw, link)
  {
    if n == 1 {
      assert LinkedUnit(unit, link, 0) == [];
    } else {
      LinkedUnitAt(unit, link, n - 1, if j < n - 1 then j else 0);
    }
  }

  function LinkOf(units: seq<IngestUnit>, ids: seq<RawRef>, i: nat): Option<RawRef>
    requires i < |units| && |RawsOf(units[..i + 1])| <= |ids|
  {
    assert units[..i + 1][..i] == units[..i];
    if units[i].raw.Some? then Some(ids[|RawsOf(units[..i])|]) else None
  }

  lemma LinkedAllNext(units: seq<IngestUnit>, ids: seq<RawRef>, n: nat)
    requires n < |units| && |ids| >= |RawsOf(units)|
    ensures |RawsOf(units[..n])| <= |RawsOf(units[..n + 1])| <= |ids|
    ensures LinkedAll(units[..n + 1], ids)
         == LinkedAll(units[..n], ids) + LinkedUnit(units[n], LinkOf(units, ids, n), |units[n].normalized|)
  {
    RawsGrow(units, n);
    assert units[..n + 1][..n] == units[..n];
  }

  lemma LinkedUnitLength(unit: IngestUnit, link: Option<RawRef>)
    ensures |LinkedUnit(unit, link, |unit.normalized|)| == |unit.normalized|
  {
    if unit.normalized != [] {
      LinkedUnitAt(unit, link, |unit.normalized|, 0);
    }
  }

  lemma {:induction false} LinkedAllAt(units: seq<IngestUnit>, ids: seq<RawRef>, n: nat, i: nat, j: nat)
    requires |ids| >= |RawsOf(units)| && i < n <= |units| && j < |units[i].normalized|
    ensures |RawsOf(units[..i + 1])| <= |ids| && |RawsOf(units[..n])| <= |ids|
    ensures RowsBefore(units, i) + j < |LinkedAll(units[..n], ids)| == RowsBefore(units, n)
    ensures LinkedAll(units[..n], ids)[RowsBefore(units, i) + j]
         == Linked(units[i].normalized[j], units[i].raw, LinkOf(units, ids, i))
  {
    hide Linked, LinkedAll, LinkedUnit, RawsOf, LinkOf;
    LinkedAllNext(units, ids, n - 1);
    LinkedAllNext(units, ids, i);
    LinkedUnitLength(units[n - 1], LinkOf(units, ids, n - 1));
    if i < n - 1 {
      LinkedAllAt(units, ids, n - 1, i, j);
    } else {
      LinkedAllLength(units, ids, i);
      LinkedUnitAt(units[i], LinkOf(units, ids, i), |units[i].normalized|, j);
    }
  }

  lemma {:induction false} LinkedAllLength(units: seq<IngestUnit>, ids: seq<RawRef>, n: nat)
    requires |ids| >= |RawsOf(units)| && n <= |units|
    ensures |RawsOf(units[..n])| <= |ids| && |LinkedAll(units[..n], ids)| == RowsBefore(units, n)
  {
    if n == 0 {
      assert units[..0] == [];
    } else {
      LinkedAllLength(units, ids, n - 1);
      LinkedAllNext(units, ids, n - 1);
      LinkedUnitLength(units[n - 1], LinkOf(units, ids, n - 1));
    }
  }

  lemma {:induction false} RawAt(units: seq<IngestUnit>, i: nat)
    requires i < |units| && units[i].raw.Some?
    ensures |RawsOf(units[..i])| < |RawsOf(units)| && RawsOf(units)[|RawsOf(units[..i])|] == units[i].raw.value
  {
    var n := |units| - 1;
    if i < n {
      assert units[..n][..i] == units[..i];
      RawAt(units[..n], i);
    }
  }

  /**
   * A row that asks for provenance points at the id its own unit's raw event was given, with that
   * event's receipt time and observation order; its other columns are untouched. A row that does
   * not ask, or has no raw event, is untouched altogether.
   */
  lemma RowsPointAtTheirOwnRawEvent(units: seq<IngestUnit>, ids: seq<RawRef>, i: nat, j: nat)
    requires |ids| == |RawsOf(units)| && i < |units| && j < |units[i].normalized|
    ensures |LinkedAll(units, ids)| > RowsBefore(units, i) + j
    ensures var row, out := units[i].normalized[j], LinkedAll(units, ids)[RowsBefore(units, i) + j];
      var raw := units[i].raw;
      && out.table == row.table
      && (!row.linkRawEvent || raw.None? ==> out == row)
      && (row.linkRawEvent && raw.Some? ==>
            var at := |RawsOf(units[..i])|;
            && at < |ids| && RawsOf(units)[at] == raw.value
            && ValueOf(out.values, "raw_event_id") == Number(ids[at].id)
            && ValueOf(out.values, "raw_event_received_at") == Number(ids[at].receivedAt)
            && ValueOf(out.values, "ingest_ordinal") == Number(raw.value.ordinal)
            && forall c | c != "raw_event_id" && c != "raw_event_received_at" && c != "ingest_ordinal" ::
                 ValueOf(out.values, c) == ValueOf(row.values, c))
  {
    hide ValueOf, WithColumn, LinkedAll, RowsBefore, RawsOf;
    var row, raw := units[i].normalized[j], units[i].raw;
    assert units[..|units|] == units;
    LinkedAllAt(units, ids, |units|, i, j);
    if row.linkRawEvent && raw.Some? {
      RawAt(units, i);
      var ref := ids[|RawsOf(units[..i])|];
      var v1 := WithColumn(row.values, "raw_event_id", Number(ref.id));
      var v2 := WithColumn(v1, "raw_event_received_at", Number(ref.receivedAt));
      WithColumnSets(row.values, "raw_event_id", Number(ref.id));
      WithColumnSets(v1, "raw_event_received_at", Number(ref.receivedAt));
      WithColumnSets(v2, "ingest_ordinal", Number(raw.value.ordinal));
    }
  }
}
