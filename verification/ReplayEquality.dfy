/**
 * The acceptance property of the recorder: a replay of the recorded rows walks through exactly
 * the states the live book went through.
 */
module ReplayEquality {
  import opened Values
  import opened CanonicalForm
  import opened MarketBooks
  import opened BookManagement
  import opened Collecting
  import opened Capture
  import opened LiveHistory
  import opened FaithfulRows
  import opened Replaying
  import opened Queries

  // ---------------------------------------------------------------------------
  // The setting
  // ---------------------------------------------------------------------------

  /** Stored rows, the starts of their streams, what was asked, what was answered and the seed's id. */
  datatype Setting = Setting(rows: seq<Row>, started: map<StreamId, int>, o: Options, a: Answers, k: nat) {
    function Deltas(): Query {
      DeltasOf(o.ticker, if k < |rows| && !rows[k].IntegrityRow? then rows[k].atMs else 0, o.toMs)
    }

    function Snapshots(): Query {
      SnapshotsOf(o.ticker, if k < |rows| && !rows[k].IntegrityRow? then rows[k].atMs else 0, o.toMs)
    }

    /** How many deltas of the window are among the first i rows. */
    function DeltasBy(i: nat): nat
      requires i <= |rows|
    {
      |Select(rows[..i], Deltas())|
    }

    function SnapshotsBy(i: nat): nat
      requires i <= |rows|
    {
      |Select(rows[..i], Snapshots())|
    }
  }

  /** An unbounded replay over the rows of one market, faithfully recorded by an orderly feed. */
  ghost predicate Sound(s: Setting) {
    && AllFaithful(s.rows, s.o.ticker)
    && Orderly(s.rows, s.o.ticker, s.started)
    && Answered(s.rows, s.started, s.o, s.a, Some(s.k))
    && s.o.toSeq.None?
  }

  ghost predicate Ready(s: Setting) {
    && WellTyped(s.a) && s.k < |s.rows| && CanSeed(s.rows[s.k], s.o.ticker) && s.a.seed == Some(s.rows[s.k])
    && s.a.deltas == Select(s.rows, s.Deltas()) && s.a.snapshots == Select(s.rows, s.Snapshots())
  }

  lemma SoundIsReady(s: Setting)
    requires Sound(s)
    ensures Ready(s)
  {
    AnswersAreInWritingOrder(s.rows, s.started, s.o, s.a, s.k);
    SelectedSatisfy(s.rows, s.Deltas());
    SelectedSatisfy(s.rows, s.Snapshots());
    assert s.rows[..|s.rows|] == s.rows;
    forall j | 0 <= j < |s.a.deltas| ensures IsDelta(s.a.deltas[j]) {
      var i := SelectIndex(s.rows, s.Deltas(), |s.rows|, j);
      assert IsPlaced(s.rows[i], s.o.ticker);
    }
  }

  lemma WindowsFit(s: Setting, i: nat)
    requires Ready(s) && i <= |s.rows|
    ensures s.DeltasBy(i) <= |s.a.deltas| && s.SnapshotsBy(i) <= |s.a.snapshots|
    ensures i == |s.rows| ==> s.DeltasBy(i) == |s.a.deltas| && s.SnapshotsBy(i) == |s.a.snapshots|
  {
    assert s.rows[..|s.rows|] == s.rows;
    SelectPrefix(s.rows, s.Deltas(), i, |s.rows|);
    SelectPrefix(s.rows, s.Snapshots(), i, |s.rows|);
  }

  // ---------------------------------------------------------------------------
  // What a replay shows
  // ---------------------------------------------------------------------------

  /** The positions a replay reached, in order. */
  function Positions(hooks: seq<Hook>): seq<Position> {
    if hooks == [] then []
    else
      var last := hooks[|hooks| - 1];
      Positions(hooks[..|hooks| - 1])
      + (if last.Reached? then [Position(last.stream, last.seqNo, last.atMs, last.book.ladders)] else [])
  }

  lemma PositionsSnoc(hooks: seq<Hook>, h: Hook)
    ensures Positions(hooks + [h]) ==
      Positions(hooks) + (if h.Reached? then [Position(h.stream, h.seqNo, h.atMs, h.book.ladders)] else [])
  {
    assert (hooks + [h])[..|hooks|] == hooks;
  }

  predicate NeverDiverged(ws: seq<Warning>) {
    forall i | 0 <= i < |ws| :: !ws[i].Diverged?
  }

  function SeedPosition(s: Setting): Position
    requires Ready(s)
  {
    PositionOf(s.rows[s.k], LaddersIn(s.rows[s.k]))
  }

  /** The recorded changes after the seed, received in time, among the first i rows. */
  function Expected(s: Setting, i: nat): seq<Position>
    requires i <= |s.rows|
  {
    if i <= s.k + 1 then []
    else
      var r := s.rows[i - 1];
      Expected(s, i - 1)
      + (if Changes(r, s.o.ticker) && r.atMs <= s.o.toMs then [PositionOf(r, BookAfter(s.rows[..i], s.o.ticker))]
          else [])
  }

  ghost predicate InTime(s: Setting, i: nat)
    requires i <= |s.rows|
  {
    forall j | 0 <= j < i && About(s.rows[j], s.o.ticker) :: s.rows[j].atMs <= s.o.toMs
  }

  /** The replay has consumed the first i rows and shows what they say. */
  ghost predicate Shows(s: Setting, i: nat, p: Playback)
    requires Ready(s) && i <= |s.rows|
  {
    && p.next == s.SnapshotsBy(i) && !p.atBound && !p.broken
    && Positions(p.report.hooks) == [SeedPosition(s)] + Expected(s, i)
    && NeverDiverged(p.report.warnings)
    && (i <= s.k + 1 ==> p.book.ladders == LaddersIn(s.rows[s.k]))
    && (i > s.k && InTime(s, i) ==> p.book.ladders == BookAfter(s.rows[..i], s.o.ticker))
  }

  // ---------------------------------------------------------------------------
  // Facts about the rows around the seed
  // ---------------------------------------------------------------------------

  lemma {:induction false} LastChangeIndex(rows: seq<Row>, m: Ticker) returns (c: nat)
    requires LastChange(rows, m).Some?
    ensures c < |rows| && rows[c] == LastChange(rows, m).value && Changes(rows[c], m)
    ensures forall i | c < i < |rows| :: !Changes(rows[i], m)
  {
    if Changes(rows[|rows| - 1], m) {
      c := |rows| - 1;
    } else {
      c := LastChangeIndex(rows[..|rows| - 1], m);
    }
  }

  lemma BookAfterNext(rows: seq<Row>, i: nat, m: Ticker)
    requires i < |rows|
    ensures BookAfter(rows[..i + 1], m) == WithRow(BookAfter(rows[..i], m), rows[i], m)
  {
    assert rows[..i + 1][..i] == rows[..i];
  }

  /** The fed row whose position the seed carries: the seed itself, or the last change before a sample. */
  lemma SeedOrigin(s: Setting) returns (c: nat)
    requires Sound(s) && Ready(s)
    ensures c <= s.k && IsFed(s.rows[c]) && About(s.rows[c], s.o.ticker) && Changes(s.rows[c], s.o.ticker)
    ensures s.rows[c].stream == s.rows[s.k].stream && s.rows[c].seqNo == s.rows[s.k].seqNo
    ensures forall i | c < i <= s.k :: !Changes(s.rows[i], s.o.ticker)
    ensures BookAfter(s.rows[..s.k + 1], s.o.ticker) == LaddersIn(s.rows[s.k])
    ensures LaddersIn(s.rows[s.k]) == BookAfter(s.rows[..c + 1], s.o.ticker)
  {
    hide Orderly, Answered, Load, LaddersHash;
    var m, seed := s.o.ticker, s.rows[s.k];
    BookAfterNext(s.rows, s.k, m);
    if IsFeedSource(seed.source) {
      c := s.k;
    } else {
      assert FaithfulAt(s.rows, s.k, m);
      c := LastChangeIndex(s.rows[..s.k], m);
      QuietKeepsBook(s.rows, m, c + 1, s.k);
    }
  }

  lemma {:induction false} QuietKeepsBook(rows: seq<Row>, m: Ticker, i: nat, j: nat)
    requires i <= j <= |rows| && forall x | i <= x < j :: !Changes(rows[x], m)
    ensures BookAfter(rows[..j], m) == BookAfter(rows[..i], m)
  {
    if i < j {
      QuietKeepsBook(rows, m, i, j - 1);
      BookAfterNext(rows, j - 1, m);
    }
  }

  lemma WrittenInOrder(s: Setting, i: nat, j: nat)
    requires Sound(s) && i < j < |s.rows|
    ensures IsPlaced(s.rows[i], s.o.ticker) && IsPlaced(s.rows[j], s.o.ticker)
    ensures InOrder(s.rows[i], s.rows[j], s.o.ticker, s.started)
  {
  }

  /** No feed snapshot written after the seed shares its millisecond. */
  lemma SnapshotsAfterSeed(s: Setting, i: nat)
    requires Sound(s) && Ready(s) && s.k < i < |s.rows|
    requires About(s.rows[i], s.o.ticker) && s.rows[i].SnapshotRow? && IsFeedSource(s.rows[i].source)
    ensures s.rows[i].atMs > s.rows[s.k].atMs
  {
    var c := SeedOrigin(s);
    WrittenInOrder(s, s.k, i);
    WrittenInOrder(s, c, i);
  }

  /** A delta of the window that the seed already contains is skipped; a later one never is. */
  lemma SkippingIsExact(s: Setting, i: nat)
    requires Sound(s) && Ready(s) && i < |s.rows| && Selects(s.Deltas(), s.rows[i])
    requires s.rows[i].applied || i > s.k
    ensures IsDelta(s.rows[i]) && s.rows[i].stream.value in StreamOrder(s.a.deltas)
    ensures AtOrBeforeSeed(s.rows[i], s.rows[s.k], StreamOrder(s.a.deltas)) <==> i < s.k
  {
    hide AllFaithful, Answered, StreamOrder;
    var d, seed, order := s.rows[i], s.rows[s.k], StreamOrder(s.a.deltas);
    assert IsPlaced(d, s.o.ticker) && IsPlaced(seed, s.o.ticker);
    SelectSnoc(s.rows, s.Deltas(), i);
    SelectPrefix(s.rows, s.Deltas(), i + 1, |s.rows|);
    assert s.rows[..|s.rows|] == s.rows;
    assert s.a.deltas[s.DeltasBy(i)] == d;
    EveryStreamOrdered(s.a.deltas, s.DeltasBy(i));
    var c := SeedOrigin(s);
    if i < s.k {
      WrittenInOrder(s, i, s.k);
      if i < c {
        WrittenInOrder(s, i, c);
      }
      assert d.stream == seed.stream;
    } else {
      WrittenInOrder(s, s.k, i);
      WrittenInOrder(s, c, i);
      if SeedStreamIndex(seed, order).Some? && d.stream != seed.stream {
        LaterStreamRanksLater(s, i);
      }
    }
  }

  /** A stream that took over after the seed is numbered after the seed's stream. */
  lemma LaterStreamRanksLater(s: Setting, i: nat)
    requires Sound(s) && Ready(s) && s.k < i < |s.rows| && Selects(s.Deltas(), s.rows[i])
    requires IsPlaced(s.rows[i], s.o.ticker) && IsPlaced(s.rows[s.k], s.o.ticker)
    requires s.rows[i].stream != s.rows[s.k].stream
    requires s.rows[s.k].stream.value in StreamOrder(s.a.deltas) && s.rows[i].stream.value in StreamOrder(s.a.deltas)
    ensures StreamOrder(s.a.deltas)[s.rows[s.k].stream.value] < StreamOrder(s.a.deltas)[s.rows[i].stream.value]
  {
    hide Sound, StreamOrder, Select;
    var m := s.o.ticker;
    var x := FirstSeen(s.a.deltas, s.rows[i].stream.value);
    var y := FirstSeen(s.a.deltas, s.rows[s.k].stream.value);
    assert s.rows[..|s.rows|] == s.rows;
    var ix := SelectIndex(s.rows, s.Deltas(), |s.rows|, x);
    var iy := SelectIndex(s.rows, s.Deltas(), |s.rows|, y);
    assert IsPlaced(s.rows[ix], m) && IsPlaced(s.rows[iy], m);
    if x < y {
      SelectGrows(s.rows, s.Deltas(), ix, iy);
      if ix < s.k {
        NoReturn(s, ix, s.k, i);
      } else {
        NoReturn(s, s.k, ix, iy);
      }
    } else {
      OrderGrows(s.a.deltas, y, x);
    }
  }

  lemma NoReturn(s: Setting, i: nat, j: nat, l: nat)
    requires Sound(s) && i < j < l < |s.rows|
    requires About(s.rows[i], s.o.ticker) && About(s.rows[j], s.o.ticker) && About(s.rows[l], s.o.ticker)
    ensures s.rows[i].stream == s.rows[l].stream ==> s.rows[j].stream == s.rows[i].stream
  {
    assert InBlocks(s.rows[i], s.rows[j], s.rows[l], s.o.ticker);
  }

  /** A stream's number counts the streams seen before it. */
  lemma {:induction false} FirstSeen(deltas: seq<Row>, id: StreamId) returns (i: nat)
    requires (forall k | 0 <= k < |deltas| :: IsDelta(deltas[k])) && id in StreamOrder(deltas)
    ensures i < |deltas| && IsDelta(deltas[i]) && deltas[i].stream.value == id
    ensures forall k | 0 <= k < i :: IsDelta(deltas[k]) && deltas[k].stream.value != id
    ensures StreamOrder(deltas)[id] == |StreamOrder(deltas[..i])|
    ensures id !in StreamOrder(deltas[..i])
  {
    var init := deltas[..|deltas| - 1];
    assert IsDelta(deltas[|deltas| - 1]);
    if id in StreamOrder(init) {
      i := FirstSeen(init, id);
      assert init[..i] == deltas[..i];
    } else {
      i := |deltas| - 1;
      forall k | 0 <= k < i ensures IsDelta(deltas[k]) && deltas[k].stream.value != id {
        EveryStreamOrdered(init, k);
      }
    }
  }

  /** Numbering goes on growing past a first appearance. */
  lemma {:induction false} OrderGrows(deltas: seq<Row>, y: nat, x: nat)
    requires forall k | 0 <= k < |deltas| :: IsDelta(deltas[k])
    requires y < x < |deltas| && IsDelta(deltas[y]) && deltas[y].stream.value !in StreamOrder(deltas[..y])
    ensures |StreamOrder(deltas[..y])| < |StreamOrder(deltas[..x])|
  {
    assert deltas[..x][..x - 1] == deltas[..x - 1];
    assert IsDelta(deltas[x - 1]);
    if y < x - 1 {
      OrderGrows(deltas, y, x - 1);
    }
  }

  // ---------------------------------------------------------------------------
  // The merge consumes rows in writing order
  // ---------------------------------------------------------------------------

  /** Re-seeds from every snapshot up to the n-th. */
  function CaughtTo(p: Playback, snaps: seq<Row>, n: nat, m: Ticker): Playback
    requires n <= |snaps| && forall i | 0 <= i < |snaps| :: snaps[i].SnapshotRow?
    decreases n - p.next
  {
    if p.next < n then CaughtTo(Reseeded(p, snaps[p.next], m, true), snaps, n, m) else p
  }

  lemma {:induction false} CatchesUpExactly(p: Playback, snaps: seq<Row>, n: nat, d: Row, order: map<StreamId, nat>,
      m: Ticker)
    requires (forall i | 0 <= i < |snaps| :: snaps[i].SnapshotRow?) && IsDelta(d) && p.next <= n <= |snaps|
    requires forall j | p.next <= j < n :: SnapshotPrecedes(snaps[j], d, order)
    requires n < |snaps| ==> !SnapshotPrecedes(snaps[n], d, order)
    ensures CaughtUp(p, snaps, d, order, m) == CaughtTo(p, snaps, n, m)
    decreases n - p.next
  {
    hide Reseeded, SnapshotPrecedes;
    if p.next < n {
      ReseedingKeeps(p, snaps[p.next], m, true);
      CatchesUpExactly(Reseeded(p, snaps[p.next], m, true), snaps, n, d, order, m);
    }
  }

  lemma {:induction false} CatchingOneMore(p: Playback, snaps: seq<Row>, n: nat, m: Ticker)
    requires (forall i | 0 <= i < |snaps| :: snaps[i].SnapshotRow?) && p.next <= n < |snaps|
    ensures CaughtTo(p, snaps, n, m).next == n
    ensures CaughtTo(p, snaps, n + 1, m) == Reseeded(CaughtTo(p, snaps, n, m), snaps[n], m, true)
    decreases n - p.next
  {
    hide Reseeded;
    ReseedingKeeps(p, snaps[p.next], m, true);
    var q := Reseeded(p, snaps[p.next], m, true);
    if p.next < n {
      CatchingOneMore(q, snaps, n, m);
    } else {
      assert CaughtTo(q, snaps, n + 1, m) == q;
    }
  }

  lemma {:induction false} CatchingKeeps(p: Playback, snaps: seq<Row>, n: nat, m: Ticker)
    requires (forall i | 0 <= i < |snaps| :: snaps[i].SnapshotRow?) && p.next <= n <= |snaps|
    ensures var q := CaughtTo(p, snaps, n, m);
      q.next == n && q.atBound == p.atBound && q.broken == p.broken && q.onTarget == p.onTarget
    decreases n - p.next
  {
    hide Reseeded;
    if p.next < n {
      ReseedingKeeps(p, snaps[p.next], m, true);
      CatchingKeeps(Reseeded(p, snaps[p.next], m, true), snaps, n, m);
    }
  }

  /** Snapshots precede a delta in the merge exactly when they were written before it. */
  lemma MergeIsWritingOrder(s: Setting, i: nat)
    requires Sound(s) && Ready(s) && i < |s.rows| && Selects(s.Deltas(), s.rows[i]) && IsDelta(s.rows[i])
    ensures var order := StreamOrder(s.a.deltas);
      && s.SnapshotsBy(i) <= |s.a.snapshots|
      && (forall j | 0 <= j < s.SnapshotsBy(i) :: SnapshotPrecedes(s.a.snapshots[j], s.rows[i], order))
      && (s.SnapshotsBy(i) < |s.a.snapshots| ==> !SnapshotPrecedes(s.a.snapshots[s.SnapshotsBy(i)], s.rows[i], order))
  {
    hide AllFaithful, Answered, StreamOrder, Select;
    var order, n := StreamOrder(s.a.deltas), s.SnapshotsBy(i);
    WindowsFit(s, i);
    assert s.rows[..|s.rows|] == s.rows;
    forall j | 0 <= j < n ensures SnapshotPrecedes(s.a.snapshots[j], s.rows[i], order) {
      SelectPrefix(s.rows, s.Snapshots(), i, |s.rows|);
      var x := SelectIndex(s.rows, s.Snapshots(), i, j);
      WrittenInOrder(s, x, i);
    }
    if n < |s.a.snapshots| {
      var y := SelectedLater(s.rows, s.Snapshots(), i, n);
      WrittenInOrder(s, i, y);
    }
  }

  // ---------------------------------------------------------------------------
  // One row at a time
  // ---------------------------------------------------------------------------

  lemma CountsNext(s: Setting, i: nat)
    requires i < |s.rows|
    ensures s.DeltasBy(i + 1) == s.DeltasBy(i) + (if Selects(s.Deltas(), s.rows[i]) then 1 else 0)
    ensures s.SnapshotsBy(i + 1) == s.SnapshotsBy(i) + (if Selects(s.Snapshots(), s.rows[i]) then 1 else 0)
  {
    SelectSnoc(s.rows, s.Deltas(), i);
    SelectSnoc(s.rows, s.Snapshots(), i);
  }

  lemma InTimeBefore(s: Setting, i: nat)
    requires Sound(s) && i < |s.rows| && About(s.rows[i], s.o.ticker) && s.rows[i].atMs <= s.o.toMs
    ensures InTime(s, i) && InTime(s, i + 1)
  {
    hide AllFaithful, Answered;
    forall j | 0 <= j < i && About(s.rows[j], s.o.ticker) ensures s.rows[j].atMs <= s.o.toMs {
      WrittenInOrder(s, j, i);
    }
  }

  lemma ExpectedNext(s: Setting, i: nat)
    requires i < |s.rows|
    ensures Expected(s, i + 1) == Expected(s, i) +
      (if i > s.k && Changes(s.rows[i], s.o.ticker) && s.rows[i].atMs <= s.o.toMs
       then [PositionOf(s.rows[i], WithRow(BookAfter(s.rows[..i], s.o.ticker), s.rows[i], s.o.ticker))] else [])
  {
    BookAfterNext(s.rows, i, s.o.ticker);
  }

  /** A row outside both windows changes nothing that is shown. */
  lemma SilentShown(s: Setting, i: nat, p: Playback)
    requires Sound(s) && Ready(s) && i < |s.rows| && Shows(s, i, p)
    requires !Selects(s.Deltas(), s.rows[i]) && !Selects(s.Snapshots(), s.rows[i])
    ensures Shows(s, i + 1, p)
  {
    var m, r := s.o.ticker, s.rows[i];
    CountsNext(s, i);
    ExpectedNext(s, i);
    BookAfterNext(s.rows, i, m);
    if i == s.k {
      var _ := SeedOrigin(s);
    }
    if i > s.k && Changes(r, m) {
      WrittenInOrder(s, s.k, i);
      if r.SnapshotRow? {
        SnapshotsAfterSeed(s, i);
      }
      assert r.atMs > s.o.toMs;
      assert !InTime(s, i + 1);
    }
    assert i > s.k && InTime(s, i + 1) ==> InTime(s, i);
  }

  lemma SnapshotsFollowSeed(s: Setting, i: nat)
    requires Sound(s) && Ready(s) && i < |s.rows| && Selects(s.Snapshots(), s.rows[i])
    ensures i > s.k
  {
    if i < s.k {
      WrittenInOrder(s, i, s.k);
    }
  }

  /** A feed snapshot of the window replaces the book. */
  lemma SnapshotShown(s: Setting, i: nat, p: Playback)
    requires Sound(s) && Ready(s) && i < |s.rows| && Shows(s, i, p) && Selects(s.Snapshots(), s.rows[i])
    ensures Shows(s, i + 1, Reseeded(p, s.rows[i], s.o.ticker, true))
  {
    var m, r := s.o.ticker, s.rows[i];
    hide Sound, Expected, Select, InTime, Load;
    SnapshotsFollowSeed(s, i);
    CountsNext(s, i);
    ExpectedNext(s, i);
    BookAfterNext(s.rows, i, m);
    InTimeBefore(s, i);
    var hooks := p.report.hooks;
    PositionsSnoc(hooks, Before(r.atMs, p.book));
    PositionsSnoc(hooks + [Before(r.atMs, p.book)], Reached(r.stream, r.seqNo, r.atMs, BookFromSnapshot(m, r), true));
    assert Reseeded(p, r, m, true).report.hooks ==
      hooks + [Before(r.atMs, p.book)] + [Reached(r.stream, r.seqNo, r.atMs, BookFromSnapshot(m, r), true)];
  }

  lemma AppliedApplies(s: Setting, i: nat)
    requires Sound(s) && i < |s.rows| && About(s.rows[i], s.o.ticker) && s.rows[i].DeltaRow? && s.rows[i].applied
    ensures Applies(BookAfter(s.rows[..i], s.o.ticker), s.rows[i].change)
  {
    assert FaithfulAt(s.rows, i, s.o.ticker);
  }

  /** A delta of the window written after the seed folds as it was recorded. */
  lemma DeltaShown(s: Setting, i: nat, p: Playback)
    requires Sound(s) && Ready(s) && i < |s.rows| && Shows(s, i, p)
    requires Selects(s.Deltas(), s.rows[i]) && IsDelta(s.rows[i]) && (s.rows[i].applied ==> i > s.k)
    ensures Shows(s, i + 1, Played(p, s.rows[i], s.o))
  {
    hide Sound, Expected, Select, InTime, Folded, Trimmed, Counting, BookAfter, Load;
    var m, r := s.o.ticker, s.rows[i];
    CountsNext(s, i);
    ExpectedNext(s, i);
    BookAfterNext(s.rows, i, m);
    InTimeBefore(s, i);
    assert i != s.k;
    if r.applied {
      AppliedApplies(s, i);
    }
    if r.applied {
      var hooks, book := p.report.hooks, Changed(p.book, r.change, r.seqNo, r.atMs, DEFAULT_RETENTION);
      PositionsSnoc(hooks, Before(r.atMs, p.book));
      PositionsSnoc(hooks + [Before(r.atMs, p.book)], Reached(r.stream, r.seqNo, r.atMs, book, false));
    }
  }

  /** A delta the seed already contains is passed over. */
  lemma SkippedShown(s: Setting, i: nat, p: Playback)
    requires Ready(s) && i < s.k && Shows(s, i, p) && Selects(s.Deltas(), s.rows[i])
    ensures Shows(s, i + 1, p)
  {
    CountsNext(s, i);
  }

  lemma DeltaVisited(s: Setting, i: nat, p: Playback)
    requires Sound(s) && Ready(s) && i < |s.rows| && Selects(s.Deltas(), s.rows[i]) && IsDelta(s.rows[i])
    requires s.rows[i].stream.value in StreamOrder(s.a.deltas)
    requires p.next <= s.SnapshotsBy(i) <= |s.a.snapshots|
    requires Shows(s, i, CaughtTo(p, s.a.snapshots, s.SnapshotsBy(i), s.o.ticker))
    ensures var v := Visited(p, s.rows[i], s.o, s.rows[s.k], s.a.snapshots, StreamOrder(s.a.deltas));
      && s.SnapshotsBy(i + 1) == s.SnapshotsBy(i) && v.next <= s.SnapshotsBy(i)
      && Shows(s, i + 1, CaughtTo(v, s.a.snapshots, s.SnapshotsBy(i), s.o.ticker))
  {
    var d, n, order, m := s.rows[i], s.SnapshotsBy(i), StreamOrder(s.a.deltas), s.o.ticker;
    var q := CaughtTo(p, s.a.snapshots, n, m);
    CountsNext(s, i);
    CatchingKeeps(p, s.a.snapshots, n, m);
    assert !q.atBound && !q.broken;
    assert i != s.k && s.o.toSeq.None?;
    if d.applied || i > s.k {
      SkippingIsExact(s, i);
    }
    hide Sound, Shows, StreamOrder, Select, AtOrBeforeSeed, Played, Reseeded, Selects;
    if AtOrBeforeSeed(d, s.rows[s.k], order) {
      SkippedShown(s, i, q);
    } else {
      MergeIsWritingOrder(s, i);
      CatchesUpExactly(p, s.a.snapshots, n, d, order, m);
      assert p.(onTarget := p.onTarget) == p;
      DeltaShown(s, i, q);
      PlayingKeeps(q, d, s.o);
      assert CaughtTo(Played(q, d, s.o), s.a.snapshots, n, m) == Played(q, d, s.o);
    }
  }

  /** After the deltas among the first i rows the replay shows, once caught up, what those rows say. */
  lemma {:induction false} ConsumedInOrder(s: Setting, i: nat)
    requires Sound(s) && Ready(s) && i <= |s.rows|
    ensures s.DeltasBy(i) <= |s.a.deltas| && s.SnapshotsBy(i) <= |s.a.snapshots|
    ensures var p := Looped(Seeded(s.o, s.a), s.o, s.a, s.DeltasBy(i));
      p.next <= s.SnapshotsBy(i) && Shows(s, i, CaughtTo(p, s.a.snapshots, s.SnapshotsBy(i), s.o.ticker))
  {
    hide Sound, Shows, Reseeded, Select, Visited, CaughtUp;
    WindowsFit(s, i);
    if i == 0 {
      NothingConsumed(s);
    } else {
      var r := s.rows[i - 1];
      var n := s.SnapshotsBy(i - 1);
      ConsumedInOrder(s, i - 1);
      WindowsFit(s, i - 1);
      CountsNext(s, i - 1);
      var p := Looped(Seeded(s.o, s.a), s.o, s.a, s.DeltasBy(i - 1));
      var q := CaughtTo(p, s.a.snapshots, n, s.o.ticker);
      assert !(Selects(s.Deltas(), r) && Selects(s.Snapshots(), r));
      if Selects(s.Deltas(), r) {
        DeltaConsumed(s, i - 1);
      } else if Selects(s.Snapshots(), r) {
        NextSelected(s, i - 1);
        hide Selects, Looped;
        CatchingOneMore(p, s.a.snapshots, n, s.o.ticker);
        SnapshotShown(s, i - 1, q);
      } else {
        hide Selects, Looped;
        SilentShown(s, i - 1, q);
      }
    }
  }

  lemma NextSelected(s: Setting, i: nat)
    requires Ready(s) && i < |s.rows|
    ensures Selects(s.Deltas(), s.rows[i]) ==> s.DeltasBy(i) < |s.a.deltas| && s.a.deltas[s.DeltasBy(i)] == s.rows[i]
    ensures Selects(s.Snapshots(), s.rows[i]) ==>
      s.SnapshotsBy(i) < |s.a.snapshots| && s.a.snapshots[s.SnapshotsBy(i)] == s.rows[i]
  {
    assert s.rows[..|s.rows|] == s.rows;
    SelectSnoc(s.rows, s.Deltas(), i);
    SelectSnoc(s.rows, s.Snapshots(), i);
    SelectPrefix(s.rows, s.Deltas(), i + 1, |s.rows|);
    SelectPrefix(s.rows, s.Snapshots(), i + 1, |s.rows|);
  }

  lemma NothingConsumed(s: Setting)
    requires Sound(s) && Ready(s)
    ensures s.DeltasBy(0) == 0 && s.SnapshotsBy(0) == 0 && Shows(s, 0, Seeded(s.o, s.a))
  {
    assert s.rows[..0] == [];
    var seed := s.rows[s.k];
    var book := BookFromSnapshot(s.o.ticker, seed);
    PositionsSnoc([], Reached(seed.stream, seed.seqNo, seed.atMs, book, true));
    assert [] + [Reached(seed.stream, seed.seqNo, seed.atMs, book, true)] ==
        [Reached(seed.stream, seed.seqNo, seed.atMs, book, true)];
  }

  lemma DeltaConsumed(s: Setting, i: nat)
    requires Sound(s) && Ready(s) && i < |s.rows| && Selects(s.Deltas(), s.rows[i])
    requires s.DeltasBy(i) <= |s.a.deltas| && s.SnapshotsBy(i) <= |s.a.snapshots|
    requires var p := Looped(Seeded(s.o, s.a), s.o, s.a, s.DeltasBy(i));
      p.next <= s.SnapshotsBy(i) && Shows(s, i, CaughtTo(p, s.a.snapshots, s.SnapshotsBy(i), s.o.ticker))
    ensures s.DeltasBy(i + 1) <= |s.a.deltas| && s.SnapshotsBy(i + 1) <= |s.a.snapshots|
    ensures var p := Looped(Seeded(s.o, s.a), s.o, s.a, s.DeltasBy(i + 1));
      p.next <= s.SnapshotsBy(i + 1) && Shows(s, i + 1, CaughtTo(p, s.a.snapshots, s.SnapshotsBy(i + 1), s.o.ticker))
  {
    CountsNext(s, i);
    NextSelected(s, i);
    var n := s.DeltasBy(i);
    var p := Looped(Seeded(s.o, s.a), s.o, s.a, n);
    EveryStreamOrdered(s.a.deltas, n);
    assert Looped(Seeded(s.o, s.a), s.o, s.a, n + 1)
        == Visited(p, s.a.deltas[n], s.o, s.a.seed.value, s.a.snapshots, StreamOrder(s.a.deltas));
    hide Sound, Shows, Visited, Select, Looped;
    DeltaVisited(s, i, p);
  }

  // ---------------------------------------------------------------------------
  // The drain
  // ---------------------------------------------------------------------------

  /** Draining shows what catching up would: only the announcements and recovery counts differ. */
  lemma {:induction false} DrainingShows(p: Playback, q: Playback, snaps: seq<Row>, o: Options)
    requires forall i | 0 <= i < |snaps| :: snaps[i].SnapshotRow? && snaps[i].atMs <= o.toMs
    requires p.next == q.next <= |snaps| && p.book == q.book && p.report.warnings == q.report.warnings
    requires Positions(p.report.hooks) == Positions(q.report.hooks)
    ensures var d, c := Drained(p, snaps, o), CaughtTo(q, snaps, |snaps|, o.ticker);
      && d.book == c.book && Positions(d.report.hooks) == Positions(c.report.hooks)
      && d.report.warnings == c.report.warnings
    decreases |snaps| - p.next
  {
    if p.next < |snaps| {
      var snap, m := snaps[p.next], o.ticker;
      var p', q' := Reseeded(p, snap, m, false), Reseeded(q, snap, m, true);
      var reached := Reached(snap.stream, snap.seqNo, snap.atMs, BookFromSnapshot(m, snap), true);
      PositionsSnoc(p.report.hooks, reached);
      PositionsSnoc(q.report.hooks, Before(snap.atMs, q.book));
      PositionsSnoc(q.report.hooks + [Before(snap.atMs, q.book)], reached);
      assert p.report.hooks + [] == p.report.hooks;
      assert p'.report.hooks == p.report.hooks + [reached];
      assert q'.report.hooks == q.report.hooks + [Before(snap.atMs, q.book)] + [reached];
      ReseedingKeeps(p, snap, m, false);
      ReseedingKeeps(q, snap, m, true);
      hide Reseeded, BookFromSnapshot, Positions;
      DrainingShows(p', q', snaps, o);
    }
  }

  /** What an unbounded replay reports over an orderly, faithful recording. */
  lemma ReplayShowsTheRows(s: Setting)
    requires Sound(s)
    ensures Ready(s)
    ensures var r := ReplayOf(s.o, s.a);
      && Positions(r.report.hooks) == [SeedPosition(s)] + Expected(s, |s.rows|)
      && NeverDiverged(r.report.warnings)
      && r.finalBook.Some?
      && (InTime(s, |s.rows|) ==> r.finalBook.value.ladders == BookAfter(s.rows, s.o.ticker))
  {
    SoundIsReady(s);
    var n := |s.rows|;
    ConsumedInOrder(s, n);
    WindowsFit(s, n);
    assert s.rows[..n] == s.rows;
    var p := AfterDeltas(s.o, s.a);
    var q := CaughtTo(p, s.a.snapshots, |s.a.snapshots|, s.o.ticker);
    CatchingKeeps(p, s.a.snapshots, |s.a.snapshots|, s.o.ticker);
    SelectedSatisfy(s.rows, s.Snapshots());
    assert Shows(s, n, q);
    hide Sound, Select, Looped, AfterDeltas, Expected, CaughtTo;
    DrainingShows(p, p, s.a.snapshots, s.o);
  }

  // ---------------------------------------------------------------------------
  // Replay equals live
  // ---------------------------------------------------------------------------

  /** The positions received by a given time. */
  function ReceivedBy(trace: seq<Position>, toMs: int): seq<Position> {
    if trace == [] then []
    else
      var last := trace[|trace| - 1];
      ReceivedBy(trace[..|trace| - 1], toMs) + (if last.atMs <= toMs then [last] else [])
  }

  lemma RowTraceNext(rows: seq<Row>, i: nat, m: Ticker)
    requires i < |rows|
    ensures RowTrace(rows[..i + 1], m) == RowTrace(rows[..i], m) +
      (if Changes(rows[i], m) then [PositionOf(rows[i], BookAfter(rows[..i + 1], m))] else [])
  {
    assert rows[..i + 1] == rows[..i] + [rows[i]];
    BookAfterSnoc(rows[..i], rows[i], m);
  }

  lemma {:induction false} ExpectedIsTheTrace(s: Setting, i: nat)
    requires s.k < i <= |s.rows|
    ensures var seen, all := RowTrace(s.rows[..s.k + 1], s.o.ticker), RowTrace(s.rows[..i], s.o.ticker);
      seen <= all && Expected(s, i) == ReceivedBy(all[|seen|..], s.o.toMs)
  {
    var m := s.o.ticker;
    var seen, all := RowTrace(s.rows[..s.k + 1], m), RowTrace(s.rows[..i], m);
    if i == s.k + 1 {
      assert all[|seen|..] == [];
    } else {
      hide BookAfter, RowTrace, Expected;
      ExpectedIsTheTrace(s, i - 1);
      RowTraceNext(s.rows, i - 1, m);
      ExpectedNext(s, i - 1);
      var before := RowTrace(s.rows[..i - 1], m);
      var rest := before[|seen|..];
      if Changes(s.rows[i - 1], m) {
        var at := PositionOf(s.rows[i - 1], BookAfter(s.rows[..i], m));
        assert all[|seen|..] == rest + [at];
        assert (rest + [at])[..|rest|] == rest;
      } else {
        assert all == before;
      }
    }
  }

  lemma {:induction false} QuietKeepsTrace(rows: seq<Row>, m: Ticker, i: nat, j: nat)
    requires i <= j <= |rows| && forall x | i <= x < j :: !Changes(rows[x], m)
    ensures RowTrace(rows[..j], m) == RowTrace(rows[..i], m)
  {
    if i < j {
      QuietKeepsTrace(rows, m, i, j - 1);
      RowTraceNext(rows, j - 1, m);
    }
  }

  /** The seed repeats the last position recorded up to it. */
  lemma SeedRepeatsTheTrace(s: Setting)
    requires Sound(s) && Ready(s)
    ensures var seen := RowTrace(s.rows[..s.k + 1], s.o.ticker);
      && seen != []
      && var last := seen[|seen| - 1];
      && SeedPosition(s).stream == last.stream && SeedPosition(s).seqNo == last.seqNo
      && SeedPosition(s).ladders == last.ladders && last.atMs <= SeedPosition(s).atMs
  {
    hide Sound, BookAfter, RowTrace, LaddersIn;
    var m := s.o.ticker;
    var c := SeedOrigin(s);
    assert s.rows[c].atMs <= s.rows[s.k].atMs by {
      if c < s.k {
        WrittenInOrder(s, c, s.k);
      }
    }
    LastPositionOf(s.rows, m, c, s.k);
  }

  /** The last row to change the book gives the last position. */
  lemma LastPositionOf(rows: seq<Row>, m: Ticker, c: nat, k: nat)
    requires c <= k < |rows| && Changes(rows[c], m)
    requires forall i | c < i <= k :: !Changes(rows[i], m)
    ensures RowTrace(rows[..k + 1], m) == RowTrace(rows[..c], m) + [PositionOf(rows[c], BookAfter(rows[..c + 1], m))]
  {
    hide BookAfter, RowTrace;
    QuietKeepsTrace(rows, m, c + 1, k + 1);
    RowTraceNext(rows, c, m);
  }

  /** A legal run leaves the rows an unbounded replay needs. */
  lemma RunIsSound(start: SessionId, events: seq<Event>, started: map<StreamId, int>, o: Options, a: Answers, k: nat)
    requires LegalRun(start, events) && o.toSeq.None?
    requires Orderly(Run(start, events).rows, o.ticker, started)
    requires Answered(Run(start, events).rows, started, o, a, Some(k))
    ensures Sound(Setting(Run(start, events).rows, started, o, a, k))
  {
    hide AllFaithful, Orderly, Answered, LegalRun, Run;
    RowsAreFaithful(start, events, o.ticker);
  }

  /**
   * Whatever the run mixed - snapshots, deltas, lost frames, gaps, recoveries, rejected deltas,
   * reconnects, restarts - a replay starts at a state the live book was in and then walks through
   * exactly the positions and books the live book went through, up to the end of its window,
   * and never diverges.
   */
  lemma ReplayEqualsLive(start: SessionId, events: seq<Event>, started: map<StreamId, int>,
                         o: Options, a: Answers, k: nat) returns (j: nat)
    requires LegalRun(start, events) && o.toSeq.None?
    requires Orderly(Run(start, events).rows, o.ticker, started)
    requires Answered(Run(start, events).rows, started, o, a, Some(k))
    ensures WellTyped(a)
    ensures var live := LiveTrace(start, events, o.ticker);
      var r := ReplayOf(o, a);
      var reached := Positions(r.report.hooks);
      && 0 < j <= |live| && reached != []
      && reached[0].stream == live[j - 1].stream && reached[0].seqNo == live[j - 1].seqNo
      && reached[0].ladders == live[j - 1].ladders && live[j - 1].atMs <= reached[0].atMs
      && reached[1..] == ReceivedBy(live[j..], o.toMs)
      && NeverDiverged(r.report.warnings)
  {
    hide Orderly, Answered, ReplayOf, Run, RowTrace, LiveTrace, LegalRun, FreshRun, Mirrors, FiledByTicker, Sound;
    var rows := Run(start, events).rows;
    var s := Setting(rows, started, o, a, k);
    RunIsSound(start, events, started, o, a, k);
    LegalIsFresh(start, events);
    RowsTellTheLiveBook(start, events, o.ticker);
    ReplayShowsTheRows(s);
    ExpectedIsTheTrace(s, |rows|);
    SeedRepeatsTheTrace(s);
    assert rows[..|rows|] == rows;
    j := |RowTrace(rows[..k + 1], o.ticker)|;
  }

  /** A replay up to the present ends with the live book. */
  lemma ReplayEndsWithTheLiveBook(start: SessionId, events: seq<Event>, started: map<StreamId, int>,
                                  o: Options, a: Answers, k: nat)
    requires LegalRun(start, events) && o.toSeq.None?
    requires Orderly(Run(start, events).rows, o.ticker, started)
    requires Answered(Run(start, events).rows, started, o, a, Some(k))
    requires InTime(Setting(Run(start, events).rows, started, o, a, k), |Run(start, events).rows|)
    ensures WellTyped(a) && ReplayOf(o, a).finalBook.Some?
    ensures var live := BookOf(Run(start, events).st.shelf, o.ticker);
      live.valid ==> ReplayOf(o, a).finalBook.value.ladders == live.ladders
  {
    hide Orderly, Answered, ReplayOf, Run, LegalRun, InTime, FiledByTicker;
    var s := Setting(Run(start, events).rows, started, o, a, k);
    RunIsSound(start, events, started, o, a, k);
    LegalIsFresh(start, events);
    RowsTellTheLiveBook(start, events, o.ticker);
    ReplayShowsTheRows(s);
  }
}
