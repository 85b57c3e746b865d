/**
 * Deltas recorded as not applied, which a replay skips. Frames the feed repeats or sends out of order
 * leave such rows with numbers their stream has already passed.
 */
module StaleRows {
  import opened Values
  import opened Ordering
  import opened CanonicalForm
  import opened MarketBooks
  import opened BookManagement
  import opened Capture
  import opened LiveHistory
  import opened FaithfulRows
  import opened Replaying
  import opened Queries
  import opened ReplayEquality

  predicate IsStale(r: Row, m: Ticker) {
    About(r, m) && r.DeltaRow? && !r.applied
  }

  function Kept(rows: seq<Row>, m: Ticker): seq<Row> {
    if rows == [] then []
    else Kept(rows[..|rows| - 1], m) + (if IsStale(rows[|rows| - 1], m) then [] else [rows[|rows| - 1]])
  }

  /** As orderly as the feed can be asked to be when it may repeat deltas: only what changed the book ascends. */
  ghost predicate OrderlyWithRepeats(rows: seq<Row>, m: Ticker, started: map<StreamId, int>) {
    && Spaced(rows, m, started)
    && forall i, j | 0 <= i < j < |rows| && Changes(rows[i], m) && Changes(rows[j], m) :: Ascends(rows[i], rows[j], m)
  }

  // ---------------------------------------------------------------------------
  // The rows without the stale ones
  // ---------------------------------------------------------------------------

  lemma KeptSnoc(rows: seq<Row>, m: Ticker, i: nat)
    requires i < |rows|
    ensures Kept(rows[..i + 1], m) == Kept(rows[..i], m) + (if IsStale(rows[i], m) then [] else [rows[i]])
  {
    assert rows[..i + 1][..i] == rows[..i];
  }

  lemma {:induction false} KeptPrefix(rows: seq<Row>, m: Ticker, i: nat, j: nat)
    requires i <= j <= |rows|
    ensures Kept(rows[..i], m) <= Kept(rows[..j], m)
  {
    if i < j {
      KeptPrefix(rows, m, i, j - 1);
      KeptSnoc(rows, m, j - 1);
    }
  }

  /** Where a row that is not stale ends up. */
  lemma KeptAt(rows: seq<Row>, m: Ticker, i: nat)
    requires i < |rows| && !IsStale(rows[i], m)
    ensures var k := |Kept(rows[..i], m)|; k < |Kept(rows, m)| && Kept(rows, m)[k] == rows[i]
    ensures Kept(rows, m)[..|Kept(rows[..i], m)|] == Kept(rows[..i], m)
    ensures Kept(rows, m)[..|Kept(rows[..i], m)| + 1] == Kept(rows[..i + 1], m)
  {
    assert rows[..|rows|] == rows;
    KeptSnoc(rows, m, i);
    KeptPrefix(rows, m, i, i + 1);
    KeptPrefix(rows, m, i + 1, |rows|);
  }

  /** Where a kept row came from. */
  lemma {:induction false} KeptFrom(rows: seq<Row>, m: Ticker, j: nat) returns (i: nat)
    requires j < |Kept(rows, m)|
    ensures i < |rows| && rows[i] == Kept(rows, m)[j] && !IsStale(rows[i], m) && |Kept(rows[..i], m)| == j
  {
    var init := rows[..|rows| - 1];
    if j < |Kept(init, m)| {
      i := KeptFrom(init, m, j);
      assert init[..i] == rows[..i];
    } else {
      i := |rows| - 1;
    }
  }

  lemma KeptLater(rows: seq<Row>, m: Ticker, i: nat, j: nat)
    requires i <= |rows| && j <= |rows| && |Kept(rows[..i], m)| < |Kept(rows[..j], m)|
    ensures i < j
  {
    if j <= i {
      KeptPrefix(rows, m, j, i);
    }
  }

  lemma {:induction false} KeptCounts(rows: seq<Row>, m: Ticker, r: Row)
    ensures multiset(Kept(rows, m))[r] == if IsStale(r, m) then 0 else multiset(rows)[r]
  {
    if rows != [] {
      var init := rows[..|rows| - 1];
      KeptCounts(init, m, r);
      assert rows == init + [rows[|rows| - 1]];
    }
  }

  lemma KeptRearranged(a: seq<Row>, b: seq<Row>, m: Ticker)
    requires multiset(a) == multiset(b)
    ensures multiset(Kept(a, m)) == multiset(Kept(b, m))
  {
    forall r ensures multiset(Kept(a, m))[r] == multiset(Kept(b, m))[r] {
      KeptCounts(a, m, r);
      KeptCounts(b, m, r);
    }
  }

  /** Stale rows say nothing about the book. */
  lemma {:induction false} StaleSaysNothing(rows: seq<Row>, m: Ticker)
    ensures BookAfter(Kept(rows, m), m) == BookAfter(rows, m)
    ensures LastChange(Kept(rows, m), m) == LastChange(rows, m)
    ensures RowTrace(Kept(rows, m), m) == RowTrace(rows, m)
  {
    if rows != [] {
      var init, last := rows[..|rows| - 1], rows[|rows| - 1];
      assert rows == init + [last];
      StaleSaysNothing(init, m);
      BookAfterSnoc(init, last, m);
      BookAfterSnoc(Kept(init, m), last, m);
      hide BookAfter, LastChange, RowTrace, WithRow;
      assert IsStale(last, m) ==> Kept(rows, m) == Kept(init, m);
    }
  }

  lemma KeptFaithful(rows: seq<Row>, m: Ticker)
    requires AllFaithful(rows, m)
    ensures AllFaithful(Kept(rows, m), m)
  {
    forall j | 0 <= j < |Kept(rows, m)| ensures FaithfulAt(Kept(rows, m), j, m) {
      var i := KeptFrom(rows, m, j);
      KeptAt(rows, m, i);
      StaleSaysNothing(rows[..i], m);
      assert FaithfulAt(rows, i, m);
    }
  }

  lemma KeptOrderly(rows: seq<Row>, m: Ticker, started: map<StreamId, int>)
    requires OrderlyWithRepeats(rows, m, started)
    ensures Orderly(Kept(rows, m), m, started)
  {
    var kept := Kept(rows, m);
    assert rows[..|rows|] == rows;
    hide Kept, Apart, Ascends, InBlocks;
    forall x | 0 <= x < |kept| ensures IsPlaced(kept[x], m) {
      var i := KeptFrom(rows, m, x);
    }
    forall x, y | 0 <= x < y < |kept| ensures InOrder(kept[x], kept[y], m, started) {
      var i := KeptFrom(rows, m, x);
      var j := KeptFrom(rows, m, y);
      KeptLater(rows, m, i, j);
      assert Apart(rows[i], rows[j], m, started);
      FedAscend(rows, m, started, i, j);
    }
    forall x, y, z | 0 <= x < y < z < |kept| ensures InBlocks(kept[x], kept[y], kept[z], m) {
      var i := KeptFrom(rows, m, x);
      var j := KeptFrom(rows, m, y);
      var l := KeptFrom(rows, m, z);
      KeptLater(rows, m, i, j);
      KeptLater(rows, m, j, l);
      assert InBlocks(rows[i], rows[j], rows[l], m);
    }
  }

  lemma FedAscend(rows: seq<Row>, m: Ticker, started: map<StreamId, int>, i: nat, j: nat)
    requires OrderlyWithRepeats(rows, m, started) && i < j < |rows| && !IsStale(rows[i], m) && !IsStale(rows[j], m)
    ensures IsFed(rows[i]) && IsFed(rows[j]) ==> Ascends(rows[i], rows[j], m)
  {
  }

  lemma KeptPlus(rows: seq<Row>, r: Row, m: Ticker)
    ensures Kept(rows + [r], m) == Kept(rows, m) + (if IsStale(r, m) then [] else [r])
  {
    assert (rows + [r])[..|rows|] == rows;
  }

  lemma SelectPlus(rows: seq<Row>, r: Row, q: Query)
    ensures Select(rows + [r], q) == Select(rows, q) + (if Selects(q, r) then [r] else [])
  {
    assert (rows + [r])[..|rows|] == rows;
  }

  /** Selecting and dropping stale rows commute. */
  lemma {:induction false} SelectKept(rows: seq<Row>, m: Ticker, q: Query)
    requires q.m == m
    ensures Select(Kept(rows, m), q) == if q.DeltasOf? then Kept(Select(rows, q), m) else Select(rows, q)
  {
    if rows != [] {
      var init, last := rows[..|rows| - 1], rows[|rows| - 1];
      SelectKept(init, m, q);
      var kept, chosen := Kept(init, m), Select(init, q);
      KeptPlus(chosen, last, m);
      SelectPlus(kept, last, q);
      assert Select(rows, q) == if Selects(q, last) then chosen + [last] else chosen;
      assert Kept(rows, m) == if IsStale(last, m) then kept else kept + [last];
    }
  }

  // ---------------------------------------------------------------------------
  // The answers without the stale rows
  // ---------------------------------------------------------------------------

  /** The same question asked of the recording without its stale rows. */
  function Cleaned(s: Setting): Setting
    requires s.k <= |s.rows|
  {
    var m := s.o.ticker;
    Setting(Kept(s.rows, m), s.started, s.o, s.a.(deltas := Kept(s.a.deltas, m)), |Kept(s.rows[..s.k], m)|)
  }

  /** A recording that may hold repeats, and what its queries return for an unbounded replay. */
  ghost predicate Recorded(s: Setting) {
    && AllFaithful(s.rows, s.o.ticker)
    && OrderlyWithRepeats(s.rows, s.o.ticker, s.started)
    && Answered(s.rows, s.started, s.o, s.a, Some(s.k))
    && s.o.toSeq.None?
  }

  /** Two kept deltas are ordered with the stale rows around as they are without them. */
  lemma SameOrder(rows: seq<Row>, m: Ticker, started: map<StreamId, int>, lo: int, hi: int, i: nat, j: nat)
    requires OrderlyWithRepeats(rows, m, started) && i < |rows| && j < |rows|
    requires Selects(DeltasOf(m, lo, hi), rows[i]) && Selects(DeltasOf(m, lo, hi), rows[j])
    requires !IsStale(rows[i], m) && !IsStale(rows[j], m)
    requires ComesFirst(started, Select(Kept(rows, m), DeltasOf(m, lo, hi)), rows[i], rows[j])
    ensures ComesFirst(started, Select(rows, DeltasOf(m, lo, hi)), rows[i], rows[j])
  {
    var q := DeltasOf(m, lo, hi);
    hide Select, StartKey, Selects;
    if rows[i].stream != rows[j].stream {
      if i < j {
        EarlierStreamComesFirst(rows, m, started, lo, hi, i, j);
      } else {
        KeptOrderly(rows, m, started);
        KeptAt(rows, m, i);
        KeptAt(rows, m, j);
        KeptSnoc(rows, m, j);
        KeptPrefix(rows, m, j + 1, i);
        WrittenFirstComesFirst(Kept(rows, m), m, started, lo, hi, |Kept(rows[..j], m)|, |Kept(rows[..i], m)|);
      }
    }
  }

  lemma KeptSorted(rows: seq<Row>, m: Ticker, started: map<StreamId, int>, lo: int, hi: int, deltas: seq<Row>)
    requires OrderlyWithRepeats(rows, m, started)
    requires var window := Select(rows, DeltasOf(m, lo, hi));
      multiset(deltas) == multiset(window) && Sorted(deltas, (x, y) => ComesFirst(started, window, x, y))
    ensures var window := Select(Kept(rows, m), DeltasOf(m, lo, hi));
      Sorted(Kept(deltas, m), (x, y) => ComesFirst(started, window, x, y))
  {
    var q := DeltasOf(m, lo, hi);
    var all, window, kept := Select(rows, q), Select(Kept(rows, m), q), Kept(deltas, m);
    assert deltas[..|deltas|] == deltas;
    hide ComesFirst, Select, Kept;
    forall x, y | 0 <= x < y < |kept| ensures !ComesFirst(started, window, kept[y], kept[x]) {
      var i := KeptFrom(deltas, m, x);
      var j := KeptFrom(deltas, m, y);
      KeptLater(deltas, m, i, j);
      assert !ComesFirst(started, all, deltas[j], deltas[i]);
      if ComesFirst(started, window, kept[y], kept[x]) {
        var iy := StoredRow(rows, q, deltas, j);
        var ix := StoredRow(rows, q, deltas, i);
        SameOrder(rows, m, started, lo, hi, iy, ix);
      }
    }
  }

  /** The stored row behind a row of an answer. */
  lemma StoredRow(rows: seq<Row>, q: Query, answer: seq<Row>, j: nat) returns (i: nat)
    requires multiset(answer) == multiset(Select(rows, q)) && j < |answer|
    ensures i < |rows| && rows[i] == answer[j] && Selects(q, rows[i])
  {
    assert answer[j] in multiset(answer);
    var x := IndexIn(Select(rows, q), answer[j]);
    assert rows[..|rows|] == rows;
    i := SelectIndex(rows, q, |rows|, x);
  }

  lemma KeptSeed(rows: seq<Row>, m: Ticker, k: nat, fromMs: int, toMs: int)
    requires k < |rows| && rows[k].SnapshotRow?
    ensures var kept, k' := Kept(rows, m), |Kept(rows[..k], m)|;
      && k' < |kept|
      && (IsSeed(rows, m, fromMs, k) ==> IsSeed(kept, m, fromMs, k'))
      && (IsLateSeed(rows, m, fromMs, toMs, k) ==> IsLateSeed(kept, m, fromMs, toMs, k'))
  {
    var kept, k' := Kept(rows, m), |Kept(rows[..k], m)|;
    KeptAt(rows, m, k);
    forall j | 0 <= j < |kept|
      ensures exists i :: 0 <= i < |rows| && rows[i] == kept[j] && (i <= k ==> j <= k')
    {
      var i := KeptFrom(rows, m, j);
      if i <= k {
        KeptPrefix(rows, m, i, k);
      }
    }
  }

  /** Without its stale rows a recording is an orderly one. */
  lemma CleanedIsSound(s: Setting)
    requires Recorded(s)
    ensures s.k < |s.rows| && s.rows[s.k].SnapshotRow? && Sound(Cleaned(s))
  {
    var m, lo := s.o.ticker, s.rows[s.k].atMs;
    KeptFaithful(s.rows, m);
    KeptOrderly(s.rows, m, s.started);
    KeptSeed(s.rows, m, s.k, s.o.fromMs, s.o.toMs);
    KeptAt(s.rows, m, s.k);
    SelectKept(s.rows, m, DeltasOf(m, lo, s.o.toMs));
    SelectKept(s.rows, m, SnapshotsOf(m, lo, s.o.toMs));
    KeptRearranged(s.a.deltas, Select(s.rows, DeltasOf(m, lo, s.o.toMs)), m);
    KeptSorted(s.rows, m, s.started, lo, s.o.toMs, s.a.deltas);
    hide AllFaithful, Orderly, OrderlyWithRepeats, IsSeed, IsLateSeed, Kept, Select, Sorted;
  }

  lemma DeltasAreTyped(s: Setting)
    requires Recorded(s)
    ensures s.k < |s.rows| && s.rows[s.k].SnapshotRow? && WellTyped(s.a)
    ensures forall j | 0 <= j < |s.a.deltas| :: About(s.a.deltas[j], s.o.ticker)
  {
    CleanedIsSound(s);
    SoundIsReady(Cleaned(s));
    var q := DeltasOf(s.o.ticker, s.rows[s.k].atMs, s.o.toMs);
    forall j | 0 <= j < |s.a.deltas| ensures IsDelta(s.a.deltas[j]) && About(s.a.deltas[j], s.o.ticker) {
      var i := StoredRow(s.rows, q, s.a.deltas, j);
      assert IsPlaced(s.rows[i], s.o.ticker);
    }
  }

  // ---------------------------------------------------------------------------
  // Two replays side by side
  // ---------------------------------------------------------------------------

  /** The same as far as a caller can see: book, place among the snapshots and positions shown. */
  ghost predicate Alike(p: Playback, q: Playback) {
    && p.book == q.book && p.next == q.next && p.broken == q.broken && p.atBound == q.atBound
    && Positions(p.report.hooks) == Positions(q.report.hooks)
  }

  /** One replay is where the other will be once it has caught up. */
  ghost predicate Ahead(p: Playback, q: Playback, snaps: seq<Row>, m: Ticker)
    requires forall i | 0 <= i < |snaps| :: snaps[i].SnapshotRow?
  {
    q.next <= p.next <= |snaps| && Alike(p, CaughtTo(q, snaps, p.next, m))
  }

  function SnapshotPosition(snap: Row): Position
    requires snap.SnapshotRow?
  {
    Position(snap.stream, snap.seqNo, snap.atMs, LaddersIn(snap))
  }

  lemma ReseededPositions(p: Playback, snap: Row, m: Ticker, inLoop: bool)
    requires snap.SnapshotRow?
    ensures var q := Reseeded(p, snap, m, inLoop);
      && Positions(q.report.hooks) == Positions(p.report.hooks) + [SnapshotPosition(snap)]
      && q.book == BookFromSnapshot(m, snap) && q.next == p.next + 1 && q.broken == p.broken && q.atBound == p.atBound
  {
    var hooks := p.report.hooks;
    var reached := Reached(snap.stream, snap.seqNo, snap.atMs, BookFromSnapshot(m, snap), true);
    PositionsSnoc(hooks, Before(snap.atMs, p.book));
    PositionsSnoc(hooks + [Before(snap.atMs, p.book)], reached);
    PositionsSnoc(hooks, reached);
    assert hooks + [] == hooks;
  }

  lemma {:induction false} CatchingAlike(p: Playback, q: Playback, snaps: seq<Row>, n: nat, m: Ticker)
    requires (forall i | 0 <= i < |snaps| :: snaps[i].SnapshotRow?) && p.next <= n <= |snaps| && Alike(p, q)
    ensures Alike(CaughtTo(p, snaps, n, m), CaughtTo(q, snaps, n, m))
    decreases n - p.next
  {
    hide Reseeded, Positions;
    if p.next < n {
      ReseededPositions(p, snaps[p.next], m, true);
      ReseededPositions(q, snaps[p.next], m, true);
      CatchingAlike(Reseeded(p, snaps[p.next], m, true), Reseeded(q, snaps[p.next], m, true), snaps, n, m);
    }
  }

  lemma {:induction false} CatchingTwice(p: Playback, snaps: seq<Row>, i: nat, n: nat, m: Ticker)
    requires (forall i | 0 <= i < |snaps| :: snaps[i].SnapshotRow?) && p.next <= i <= n <= |snaps|
    ensures CaughtTo(CaughtTo(p, snaps, i, m), snaps, n, m) == CaughtTo(p, snaps, n, m)
    decreases i - p.next
  {
    hide Reseeded;
    if p.next < i {
      ReseedingKeeps(p, snaps[p.next], m, true);
      CatchingTwice(Reseeded(p, snaps[p.next], m, true), snaps, i, n, m);
    }
  }

  /** How far catching up goes: to the first snapshot that does not precede the delta. */
  lemma {:induction false} CatchesUpTo(p: Playback, snaps: seq<Row>, d: Row, order: map<StreamId, nat>, m: Ticker)
    requires (forall i | 0 <= i < |snaps| :: snaps[i].SnapshotRow?) && IsDelta(d) && p.next <= |snaps|
    ensures var n := CaughtUp(p, snaps, d, order, m).next;
      && p.next <= n <= |snaps| && CaughtUp(p, snaps, d, order, m) == CaughtTo(p, snaps, n, m)
      && (forall t | p.next <= t < n :: SnapshotPrecedes(snaps[t], d, order))
      && (n < |snaps| ==> !SnapshotPrecedes(snaps[n], d, order))
    decreases |snaps| - p.next
  {
    hide Reseeded, SnapshotPrecedes;
    if p.next < |snaps| && SnapshotPrecedes(snaps[p.next], d, order) {
      ReseedingKeeps(p, snaps[p.next], m, true);
      CatchesUpTo(Reseeded(p, snaps[p.next], m, true), snaps, d, order, m);
    }
  }

  lemma AheadStaysAlike(p: Playback, q: Playback, snaps: seq<Row>, n: nat, m: Ticker)
    requires (forall i | 0 <= i < |snaps| :: snaps[i].SnapshotRow?) && p.next <= n <= |snaps| && Ahead(p, q, snaps, m)
    ensures Alike(CaughtTo(p, snaps, n, m), CaughtTo(q, snaps, n, m))
  {
    hide CaughtTo, Positions;
    CatchingAlike(p, CaughtTo(q, snaps, p.next, m), snaps, n, m);
    CatchingTwice(q, snaps, p.next, n, m);
  }

  /** Caught up to the same place, the two are alike. */
  lemma AheadCatching(p: Playback, q: Playback, snaps: seq<Row>, n: nat, m: Ticker)
    requires (forall i | 0 <= i < |snaps| :: snaps[i].SnapshotRow?) && p.next <= n <= |snaps| && Ahead(p, q, snaps, m)
    ensures Alike(CaughtTo(p, snaps, n, m), CaughtTo(q, snaps, n, m)) && CaughtTo(p, snaps, n, m).next == n
  {
    hide Alike, CaughtTo;
    CatchingKeeps(p, snaps, n, m);
    AheadStaysAlike(p, q, snaps, n, m);
  }

  /** A stale delta only makes the replay catch up. */
  lemma StaleVisited(p: Playback, q: Playback, d: Row, o: Options, seed: Row, snaps: seq<Row>,
                     order: map<StreamId, nat>)
    requires IsDelta(d) && !d.applied && d.stream.value in order && seed.SnapshotRow? && o.toSeq.None?
    requires (forall i | 0 <= i < |snaps| :: snaps[i].SnapshotRow?) && !p.atBound && !p.broken
    requires Ahead(p, q, snaps, o.ticker)
    ensures var v := Visited(p, d, o, seed, snaps, order);
      && Ahead(v, q, snaps, o.ticker) && p.next <= v.next
      && (forall t | p.next <= t < v.next :: SnapshotPrecedes(snaps[t], d, order))
      && (p.next < v.next ==> !AtOrBeforeSeed(d, seed, order))
      && (!AtOrBeforeSeed(d, seed, order) && v.next < |snaps| ==> !SnapshotPrecedes(snaps[v.next], d, order))
  {
    if !AtOrBeforeSeed(d, seed, order) {
      VisitedFreely(p, d, o, seed, snaps, order);
      CatchesUpTo(p, snaps, d, order, o.ticker);
      var n := CaughtUp(p, snaps, d, order, o.ticker).next;
      AheadCatching(p, q, snaps, n, o.ticker);
      CatchingKeeps(p, snaps, n, o.ticker);
      hide CaughtUp, CaughtTo, Positions, SnapshotPrecedes, AtOrBeforeSeed;
    }
  }

  /** A delta that was applied makes both replays catch up to the same place and fold alike. */
  lemma AppliedVisited(p: Playback, q: Playback, d: Row, o: Options, seed: Row, snaps: seq<Row>, n: nat,
                       order: map<StreamId, nat>, order': map<StreamId, nat>)
    requires IsDelta(d) && d.applied && d.stream.value in order && d.stream.value in order'
    requires seed.SnapshotRow? && o.toSeq.None? && (forall i | 0 <= i < |snaps| :: snaps[i].SnapshotRow?)
    requires !p.atBound && !p.broken && Ahead(p, q, snaps, o.ticker) && p.next <= n <= |snaps|
    requires AtOrBeforeSeed(d, seed, order) == AtOrBeforeSeed(d, seed, order')
    requires forall t | 0 <= t < n :: SnapshotPrecedes(snaps[t], d, order) && SnapshotPrecedes(snaps[t], d, order')
    requires n < |snaps| ==> !SnapshotPrecedes(snaps[n], d, order) && !SnapshotPrecedes(snaps[n], d, order')
    ensures var v, w := Visited(p, d, o, seed, snaps, order), Visited(q, d, o, seed, snaps, order');
      && v.next <= n && v.broken == w.broken
      && (if AtOrBeforeSeed(d, seed, order) then v == p && w == q
          else v.next == w.next == n && Alike(v, w))
  {
    CatchingKeeps(q, snaps, p.next, o.ticker);
    if !AtOrBeforeSeed(d, seed, order) {
      VisitedFreely(p, d, o, seed, snaps, order);
      VisitedFreely(q, d, o, seed, snaps, order');
      CatchesUpExactly(p, snaps, n, d, order, o.ticker);
      CatchesUpExactly(q, snaps, n, d, order', o.ticker);
      AheadCatching(p, q, snaps, n, o.ticker);
      hide CaughtUp, CaughtTo, SnapshotPrecedes, AtOrBeforeSeed, Visited;
      PlayedAlike(CaughtTo(p, snaps, n, o.ticker), CaughtTo(q, snaps, n, o.ticker), d, o);
    }
  }

  lemma PlayedPositions(p: Playback, d: Row, o: Options)
    requires IsDelta(d)
    ensures var v := Played(p, d, o);
      && v.next == p.next && v.atBound == p.atBound
      && v.book == (if d.applied then Changed(p.book, d.change, d.seqNo, d.atMs, DEFAULT_RETENTION) else p.book)
      && v.broken == (if d.applied && !Applies(p.book.ladders, d.change) then o.strict else p.broken)
      && Positions(v.report.hooks) == Positions(p.report.hooks) +
           (if d.applied && Applies(p.book.ladders, d.change)
            then [Position(d.stream, d.seqNo, d.atMs, v.book.ladders)] else [])
  {
    var book := Changed(p.book, d.change, d.seqNo, d.atMs, DEFAULT_RETENTION);
    var before, reached := Before(d.atMs, p.book), Reached(d.stream, d.seqNo, d.atMs, book, false);
    hide Changed, Applies, Positions, Counting;
    PositionsSnoc(p.report.hooks, before);
    PositionsSnoc(p.report.hooks + [before], reached);
  }

  lemma PlayedAlike(p: Playback, q: Playback, d: Row, o: Options)
    requires IsDelta(d) && Alike(p, q)
    ensures Alike(Played(p, d, o), Played(q, d, o)) && Played(p, d, o).next == p.next
  {
    hide Played, Changed, Applies, Positions;
    PlayedPositions(p, d, o);
    PlayedPositions(q, d, o);
  }
}
