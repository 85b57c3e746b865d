/**
 * The stored rows as a replay finds them: what its queries return and what orders them.
 * Rows are kept in the order of their ids, which is the order they were written in.
 */
module Queries {
  import opened Values
  import opened Ordering
  import opened CanonicalForm
  import opened MarketBooks
  import opened BookManagement
  import opened LiveHistory
  import opened Replaying

  // ---------------------------------------------------------------------------
  // Selections
  // ---------------------------------------------------------------------------

  datatype Query =
    | DeltasOf(m: Ticker, lo: int, hi: int) // received in [lo, hi]
    | SnapshotsOf(m: Ticker, lo: int, hi: int) // feed snapshots received in (lo, hi]
    | SamplesOf(m: Ticker, lo: int, hi: int) // samples of our own book in [lo, hi] with a position

  predicate Selects(q: Query, r: Row) {
    About(r, q.m) &&
    match q
    case DeltasOf(_, lo, hi) => r.DeltaRow? && lo <= r.atMs <= hi
    case SnapshotsOf(_, lo, hi) => r.SnapshotRow? && IsFeedSource(r.source) && lo < r.atMs <= hi
    case SamplesOf(_, lo, hi) =>
      r.SnapshotRow? && r.source == LocalMaterialized && lo <= r.atMs <= hi && r.seqNo.Some?
  }

  /** The selected rows by ascending id. */
  function Select(rows: seq<Row>, q: Query): seq<Row> {
    if rows == [] then []
    else Select(rows[..|rows| - 1], q) + (if Selects(q, rows[|rows| - 1]) then [rows[|rows| - 1]] else [])
  }

  lemma SelectSnoc(rows: seq<Row>, q: Query, i: nat)
    requires i < |rows|
    ensures Select(rows[..i + 1], q) == Select(rows[..i], q) + (if Selects(q, rows[i]) then [rows[i]] else [])
  {
    assert rows[..i + 1][..i] == rows[..i];
  }

  lemma {:induction false} SelectPrefix(rows: seq<Row>, q: Query, i: nat, j: nat)
    requires i <= j <= |rows|
    ensures Select(rows[..i], q) <= Select(rows[..j], q)
  {
    if i < j {
      SelectPrefix(rows, q, i, j - 1);
      SelectSnoc(rows, q, j - 1);
    }
  }

  /** Where a selected row came from. */
  lemma {:induction false} SelectIndex(rows: seq<Row>, q: Query, n: nat, j: nat) returns (i: nat)
    requires n <= |rows| && j < |Select(rows[..n], q)|
    ensures i < n && rows[i] == Select(rows[..n], q)[j] && Selects(q, rows[i]) && |Select(rows[..i], q)| == j
  {
    SelectSnoc(rows, q, n - 1);
    if j < |Select(rows[..n - 1], q)| {
      i := SelectIndex(rows, q, n - 1, j);
    } else {
      i := n - 1;
    }
  }

  /** The rows selected after the first i rows come from later rows. */
  lemma SelectedLater(rows: seq<Row>, q: Query, i: nat, j: nat) returns (k: nat)
    requires i <= |rows| && |Select(rows[..i], q)| <= j < |Select(rows, q)|
    ensures i <= k < |rows| && rows[k] == Select(rows, q)[j] && Selects(q, rows[k])
  {
    assert rows[..|rows|] == rows;
    k := SelectIndex(rows, q, |rows|, j);
    if k < i {
      SelectPrefix(rows, q, k + 1, i);
      SelectSnoc(rows, q, k);
    }
  }

  lemma {:induction false} SelectedSatisfy(rows: seq<Row>, q: Query)
    ensures forall j | 0 <= j < |Select(rows, q)| :: Selects(q, Select(rows, q)[j])
  {
    if rows != [] {
      SelectedSatisfy(rows[..|rows| - 1], q);
    }
  }

  // ---------------------------------------------------------------------------
  // What the queries of a replay return
  // ---------------------------------------------------------------------------

  predicate CanSeed(r: Row, m: Ticker) {
    About(r, m) && r.SnapshotRow? && r.source != RestValidation
  }

  /** The latest candidate at or before `fromMs`; the highest id among equals. */
  ghost predicate IsSeed(rows: seq<Row>, m: Ticker, fromMs: int, k: nat)
    requires k < |rows|
  {
    && CanSeed(rows[k], m) && rows[k].atMs <= fromMs
    && forall i | 0 <= i < |rows| && CanSeed(rows[i], m) && rows[i].atMs <= fromMs ::
         rows[i].atMs < rows[k].atMs || (rows[i].atMs == rows[k].atMs && i <= k)
  }

  ghost predicate NoSeedBy(rows: seq<Row>, m: Ticker, atMs: int) {
    forall i | 0 <= i < |rows| && CanSeed(rows[i], m) :: rows[i].atMs > atMs
  }

  /** The earliest candidate inside the window, for a window that starts before the history does. */
  ghost predicate IsLateSeed(rows: seq<Row>, m: Ticker, fromMs: int, toMs: int, k: nat)
    requires k < |rows|
  {
    && NoSeedBy(rows, m, fromMs)
    && CanSeed(rows[k], m) && rows[k].atMs <= toMs
    && forall i | 0 <= i < |rows| && CanSeed(rows[i], m) :: rows[k].atMs <= rows[i].atMs
  }

  predicate EarlierMs(a: Row, b: Row) {
    !a.IntegrityRow? && !b.IntegrityRow? && a.atMs < b.atMs
  }

  /** First receipt of a stream among the deltas of the window. */
  function FirstMs(deltas: seq<Row>, id: Option<StreamId>): Option<int> {
    if deltas == [] then None
    else
      var first, last := FirstMs(deltas[..|deltas| - 1], id), deltas[|deltas| - 1];
      if last.DeltaRow? && last.stream == id && (first.None? || last.atMs < first.value) then Some(last.atMs) else first
  }

  /** When a stream started, by its own record or else by its first delta in the window. */
  function StartKey(started: map<StreamId, int>, deltas: seq<Row>, id: Option<StreamId>): int {
    if id.Some? && id.value in started then started[id.value]
    else if FirstMs(deltas, id).Some? then FirstMs(deltas, id).value
    else 0
  }

  /** ORDER BY the start of the stream, the stream id, the sequence number. */
  predicate ComesFirst(started: map<StreamId, int>, window: seq<Row>, a: Row, b: Row) {
    IsDelta(a) && IsDelta(b) &&
    var x, y := StartKey(started, window, a.stream), StartKey(started, window, b.stream);
    || x < y
    || (x == y && a.stream.value < b.stream.value)
    || (x == y && a.stream == b.stream && a.seqNo.value < b.seqNo.value)
  }

  /** These are answers the database may give; `k` is the id of the seed, if there is one. */
  ghost predicate Answered(rows: seq<Row>, started: map<StreamId, int>, o: Options, a: Answers, k: Option<nat>) {
    if k.None? then
      a.seed == None && NoSeedBy(rows, o.ticker, Max(o.fromMs, o.toMs))
    else
      && k.value < |rows| && a.seed == Some(rows[k.value])
      && (if a.seedIsLate then IsLateSeed(rows, o.ticker, o.fromMs, o.toMs, k.value)
          else IsSeed(rows, o.ticker, o.fromMs, k.value))
      && var seedMs := rows[k.value].atMs;
      && var deltas := Select(rows, DeltasOf(o.ticker, seedMs, o.toMs));
      && multiset(a.deltas) == multiset(deltas)
      && Sorted(a.deltas, (x, y) => ComesFirst(started, deltas, x, y))
      && var snapshots := Select(rows, SnapshotsOf(o.ticker, seedMs, o.toMs));
      && multiset(a.snapshots) == multiset(snapshots)
      && Sorted(a.snapshots, EarlierMs)
  }

  // ---------------------------------------------------------------------------
  // What the clock and the exchange owe the recording
  // ---------------------------------------------------------------------------

  /** Rows the feed produced, as opposed to samples of our own book. */
  predicate IsFed(r: Row) {
    r.DeltaRow? || (r.SnapshotRow? && IsFeedSource(r.source))
  }

  /** The stream of `a` is ranked before the stream of `b`. */
  predicate Ranked(started: map<StreamId, int>, a: Row, b: Row)
    requires !a.IntegrityRow? && !b.IntegrityRow? && a.stream.Some? && b.stream.Some?
  {
    var x, y := a.stream.value, b.stream.value;
    && (x in started && y in started ==> started[x] < started[y])
    && (x in started && y !in started ==> started[x] < b.atMs)
    && (x !in started && y in started ==> a.atMs < started[y])
  }

  predicate IsPlaced(r: Row, m: Ticker) {
    About(r, m) ==> r.stream.Some? && r.seqNo.Some?
  }

  /**
   * Two rows of one market, the first written before the second: the clock never runs back, streams
   * are apart in time and ranked by when they started, and snapshots of different positions never
   * share a millisecond.
   */
  predicate Apart(a: Row, b: Row, m: Ticker, started: map<StreamId, int>) {
    About(a, m) && About(b, m) && IsPlaced(a, m) && IsPlaced(b, m) ==>
      && a.atMs <= b.atMs
      && (a.stream != b.stream ==> a.atMs < b.atMs && Ranked(started, a, b))
      && (a.SnapshotRow? && b.SnapshotRow? && a.seqNo != b.seqNo ==> a.atMs < b.atMs)
  }

  /** Within a stream the sequence numbers of one market ascend. */
  predicate Ascends(a: Row, b: Row, m: Ticker) {
    About(a, m) && About(b, m) && IsPlaced(a, m) && IsPlaced(b, m) && a.stream == b.stream ==>
      a.seqNo.value < b.seqNo.value
  }

  predicate InOrder(a: Row, b: Row, m: Ticker, started: map<StreamId, int>) {
    Apart(a, b, m, started) && (IsFed(a) && IsFed(b) ==> Ascends(a, b, m))
  }

  /** A stream that has given way to another does not come back. */
  predicate InBlocks(a: Row, b: Row, c: Row, m: Ticker) {
    About(a, m) && About(b, m) && About(c, m) && a.stream == c.stream ==> b.stream == a.stream
  }

  ghost predicate Spaced(rows: seq<Row>, m: Ticker, started: map<StreamId, int>) {
    && (forall i | 0 <= i < |rows| :: IsPlaced(rows[i], m))
    && (forall i, j | 0 <= i < j < |rows| :: Apart(rows[i], rows[j], m, started))
    && (forall i, j, l | 0 <= i < j < l < |rows| :: InBlocks(rows[i], rows[j], rows[l], m))
  }

  /** Whatever the feed sent was recorded with ascending numbers. */
  ghost predicate Orderly(rows: seq<Row>, m: Ticker, started: map<StreamId, int>) {
    && (forall i | 0 <= i < |rows| :: IsPlaced(rows[i], m))
    && (forall i, j | 0 <= i < j < |rows| :: InOrder(rows[i], rows[j], m, started))
    && (forall i, j, l | 0 <= i < j < l < |rows| :: InBlocks(rows[i], rows[j], rows[l], m))
  }

  // ---------------------------------------------------------------------------
  // Ordered answers are the rows in writing order
  // ---------------------------------------------------------------------------

  lemma {:induction false} FirstMsIs(deltas: seq<Row>, id: Option<StreamId>, j: nat) returns (first: nat)
    requires j < |deltas| && deltas[j].DeltaRow? && deltas[j].stream == id
    ensures first < |deltas| && deltas[first].DeltaRow? && deltas[first].stream == id
    ensures FirstMs(deltas, id) == Some(deltas[first].atMs) && deltas[first].atMs <= deltas[j].atMs
  {
    var n := |deltas| - 1;
    var last := deltas[n];
    if j < n {
      first := FirstMsIs(deltas[..n], id, j);
      if last.DeltaRow? && last.stream == id && last.atMs < deltas[first].atMs {
        first := n;
      }
    } else if FirstMs(deltas[..n], id).Some? {
      var i := SomeFirst(deltas[..n], id);
      first := FirstMsIs(deltas[..n], id, i);
      if last.atMs < deltas[first].atMs {
        first := n;
      }
    } else {
      first := n;
    }
  }

  lemma {:induction false} SomeFirst(deltas: seq<Row>, id: Option<StreamId>) returns (j: nat)
    requires FirstMs(deltas, id).Some?
    ensures j < |deltas| && deltas[j].DeltaRow? && deltas[j].stream == id
  {
    var n := |deltas| - 1;
    if deltas[n].DeltaRow? && deltas[n].stream == id {
      j := n;
    } else {
      j := SomeFirst(deltas[..n], id);
    }
  }

  lemma OrderlyIsSpaced(rows: seq<Row>, m: Ticker, started: map<StreamId, int>)
    requires Orderly(rows, m, started)
    ensures Spaced(rows, m, started)
  {
    hide Apart, Ascends, InBlocks;
    forall i, j | 0 <= i < j < |rows| ensures Apart(rows[i], rows[j], m, started) {
      assert InOrder(rows[i], rows[j], m, started);
    }
  }

  /** Of two deltas of one market on different streams, the one written first is ordered first. */
  lemma EarlierStreamComesFirst(rows: seq<Row>, m: Ticker, started: map<StreamId, int>, lo: int, hi: int,
                                i: nat, j: nat)
    requires Spaced(rows, m, started) && i < j < |rows|
    requires Selects(DeltasOf(m, lo, hi), rows[i]) && Selects(DeltasOf(m, lo, hi), rows[j])
    requires rows[i].stream != rows[j].stream
    ensures ComesFirst(started, Select(rows, DeltasOf(m, lo, hi)), rows[i], rows[j])
  {
    var q := DeltasOf(m, lo, hi);
    var window := Select(rows, q);
    var a, b := rows[i], rows[j];
    assert IsPlaced(a, m) && IsPlaced(b, m) && Apart(a, b, m, started);
    var x, firstOfA := FirstInWindow(rows, q, i);
    var y, firstOfB := FirstInWindow(rows, q, j);
    assert y < i ==> InBlocks(rows[y], rows[i], rows[j], m);
    assert y > i;
    assert IsPlaced(rows[y], m) && Apart(rows[i], rows[y], m, started);
    assert StartKey(started, window, a.stream) < StartKey(started, window, b.stream);
  }

  /** Of two deltas of one market, the one written first is ordered first. */
  lemma WrittenFirstComesFirst(rows: seq<Row>, m: Ticker, started: map<StreamId, int>, lo: int, hi: int, i: nat, j: nat)
    requires Orderly(rows, m, started) && i < j < |rows|
    requires Selects(DeltasOf(m, lo, hi), rows[i]) && Selects(DeltasOf(m, lo, hi), rows[j])
    ensures ComesFirst(started, Select(rows, DeltasOf(m, lo, hi)), rows[i], rows[j])
  {
    OrderlyIsSpaced(rows, m, started);
    if rows[i].stream != rows[j].stream {
      EarlierStreamComesFirst(rows, m, started, lo, hi, i, j);
    } else {
      assert IsPlaced(rows[i], m) && IsPlaced(rows[j], m) && InOrder(rows[i], rows[j], m, started);
    }
  }

  lemma FirstInWindow(rows: seq<Row>, q: Query, i: nat) returns (k: nat, firstMs: int)
    requires q.DeltasOf? && i < |rows| && Selects(q, rows[i])
    ensures k < |rows| && Selects(q, rows[k]) && rows[k].stream == rows[i].stream && rows[k].atMs <= rows[i].atMs
    ensures FirstMs(Select(rows, q), rows[i].stream) == Some(rows[k].atMs) && firstMs == rows[k].atMs
  {
    var window := Select(rows, q);
    assert rows[..|rows|] == rows;
    SelectPrefix(rows, q, i + 1, |rows|);
    SelectSnoc(rows, q, i);
    var at := |Select(rows[..i], q)|;
    assert window[at] == rows[i];
    var first := FirstMsIs(window, rows[i].stream, at);
    k := SelectIndex(rows, q, |rows|, first);
    firstMs := rows[k].atMs;
  }

  lemma DeltasAreOrdered(rows: seq<Row>, m: Ticker, started: map<StreamId, int>, lo: int, hi: int)
    requires Orderly(rows, m, started)
    ensures var window := Select(rows, DeltasOf(m, lo, hi));
      StrictlySorted(window, (x, y) => ComesFirst(started, window, x, y))
  {
    var q := DeltasOf(m, lo, hi);
    var window := Select(rows, q);
    assert rows[..|rows|] == rows;
    forall x, y | 0 <= x < y < |window| ensures ComesFirst(started, window, window[x], window[y]) {
      var i := SelectIndex(rows, q, |rows|, x);
      var j := SelectIndex(rows, q, |rows|, y);
      SelectGrows(rows, q, i, j);
      WrittenFirstComesFirst(rows, m, started, lo, hi, i, j);
    }
  }

  lemma SelectGrows(rows: seq<Row>, q: Query, i: nat, j: nat)
    requires i <= |rows| && j <= |rows| && |Select(rows[..i], q)| < |Select(rows[..j], q)|
    ensures i < j
  {
    if j <= i {
      SelectPrefix(rows, q, j, i);
    }
  }

  lemma SnapshotsAreOrdered(rows: seq<Row>, m: Ticker, started: map<StreamId, int>, lo: int, hi: int)
    requires Orderly(rows, m, started)
    ensures StrictlySorted(Select(rows, SnapshotsOf(m, lo, hi)), EarlierMs)
  {
    var q := SnapshotsOf(m, lo, hi);
    var window := Select(rows, q);
    assert rows[..|rows|] == rows;
    forall x, y | 0 <= x < y < |window| ensures EarlierMs(window[x], window[y]) {
      var i := SelectIndex(rows, q, |rows|, x);
      var j := SelectIndex(rows, q, |rows|, y);
      SelectGrows(rows, q, i, j);
      assert IsPlaced(rows[i], m) && IsPlaced(rows[j], m) && InOrder(rows[i], rows[j], m, started);
    }
  }

  /** Whatever ties the database may break its own way, an orderly recording leaves it none. */
  lemma AnswersAreInWritingOrder(rows: seq<Row>, started: map<StreamId, int>, o: Options, a: Answers, k: nat)
    requires Orderly(rows, o.ticker, started) && Answered(rows, started, o, a, Some(k))
    ensures k < |rows| && CanSeed(rows[k], o.ticker)
    ensures a.deltas == Select(rows, DeltasOf(o.ticker, rows[k].atMs, o.toMs))
    ensures a.snapshots == Select(rows, SnapshotsOf(o.ticker, rows[k].atMs, o.toMs))
  {
    var lo := rows[k].atMs;
    var deltas := Select(rows, DeltasOf(o.ticker, lo, o.toMs));
    var snapshots := Select(rows, SnapshotsOf(o.ticker, lo, o.toMs));
    DeltasAreOrdered(rows, o.ticker, started, lo, o.toMs);
    SnapshotsAreOrdered(rows, o.ticker, started, lo, o.toMs);
    SortedPermutationIsUnique(deltas, a.deltas, (x, y) => ComesFirst(started, deltas, x, y));
    SortedPermutationIsUnique(snapshots, a.snapshots, EarlierMs);
  }
}
