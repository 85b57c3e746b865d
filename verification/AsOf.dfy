/** Clock sampling of a replay shows the live book as of every grid point - and where it does not. */
module AsOfSampling {
  import opened Values
  import opened Arithmetic
  import opened CanonicalForm
  import opened MarketBooks
  import opened BookManagement
  import opened Capture
  import opened LiveHistory
  import opened FaithfulRows
  import opened Replaying
  import opened Queries
  import opened ReplayEquality
  import opened Materializing

  /** The book after exactly the changes received by `g`. */
  function AsOf(trace: seq<Position>, g: int): Ladders {
    if trace == [] then EMPTY_LADDERS
    else if trace[|trace| - 1].atMs <= g then trace[|trace| - 1].ladders
    else AsOf(trace[..|trace| - 1], g)
  }

  ghost predicate Ascending(trace: seq<Position>) {
    forall i, j | 0 <= i < j < |trace| :: trace[i].atMs <= trace[j].atMs
  }

  // ---------------------------------------------------------------------------
  // Announced changes
  // ---------------------------------------------------------------------------

  /** Every change after the first is announced, at its own time, with the book of the change before. */
  ghost predicate Alternates(hooks: seq<Hook>) {
    if |hooks| == 1 then hooks[0].Reached?
    else
      var n := |hooks|;
      && n >= 3 && hooks[n - 1].Reached? && hooks[n - 2].Before? && hooks[n - 2].atMs == hooks[n - 1].atMs
      && hooks[n - 2].book == hooks[n - 3].book
      && Alternates(hooks[..n - 2])
  }

  ghost predicate Steady(p: Playback) {
    Alternates(p.report.hooks) && p.book == p.report.hooks[|p.report.hooks| - 1].book
  }

  lemma AlternatesMore(hooks: seq<Hook>, b: Hook, r: Hook)
    requires Alternates(hooks) && b.Before? && r.Reached? && b.atMs == r.atMs && b.book == hooks[|hooks| - 1].book
    ensures Alternates(hooks + [b] + [r])
  {
    assert (hooks + [b] + [r])[..|hooks|] == hooks;
  }

  lemma ReseedingSteady(p: Playback, snap: Row, m: Ticker)
    requires snap.SnapshotRow? && Steady(p)
    ensures Steady(Reseeded(p, snap, m, true))
    ensures Reseeded(p, snap, m, true).report.warnings == p.report.warnings
  {
    hide BookFromSnapshot, Counting, Alternates;
    AlternatesMore(p.report.hooks, Before(snap.atMs, p.book),
                   Reached(snap.stream, snap.seqNo, snap.atMs, BookFromSnapshot(m, snap), true));
  }

  lemma PlayingSteady(p: Playback, d: Row, o: Options)
    requires IsDelta(d) && Steady(p) && NeverDiverged(Played(p, d, o).report.warnings)
    ensures Steady(Played(p, d, o)) && NeverDiverged(p.report.warnings)
  {
    hide Changed, Counting, Alternates, NeverDiverged;
    PlayingKeepsWarnings(p, d, o);
    DivergenceIsReported(p, d, o);
    AlternatesMore(p.report.hooks, Before(d.atMs, p.book),
                   Reached(d.stream, d.seqNo, d.atMs, Changed(p.book, d.change, d.seqNo, d.atMs, DEFAULT_RETENTION),
                       false));
  }

  lemma DivergenceIsReported(p: Playback, d: Row, o: Options)
    requires IsDelta(d)
    ensures d.applied && !Applies(p.book.ladders, d.change) ==> !NeverDiverged(Played(p, d, o).report.warnings)
  {
    hide Changed, Counting;
    var ws, ws' := p.report.warnings, Played(p, d, o).report.warnings;
    assert d.applied && !Applies(p.book.ladders, d.change) ==> ws' == ws + [Diverged(d.seqNo.value)];
    if d.applied && !Applies(p.book.ladders, d.change) {
      assert ws'[|ws|].Diverged?;
    }
  }

  lemma PlayingKeepsWarnings(p: Playback, d: Row, o: Options)
    requires IsDelta(d) && NeverDiverged(Played(p, d, o).report.warnings)
    ensures NeverDiverged(p.report.warnings)
  {
    hide Changed, Counting;
    var ws, ws' := p.report.warnings, Played(p, d, o).report.warnings;
    assert forall i | 0 <= i < |ws| :: ws[i] == ws'[i];
  }

  lemma {:induction false} CatchingUpSteady(p: Playback, snaps: seq<Row>, d: Row, order: map<StreamId, nat>, m: Ticker)
    requires (forall i | 0 <= i < |snaps| :: snaps[i].SnapshotRow?) && IsDelta(d)
    ensures var q := CaughtUp(p, snaps, d, order, m);
      (Steady(p) ==> Steady(q)) && q.report.warnings == p.report.warnings
    decreases |snaps| - p.next
  {
    hide Reseeded, Steady, SnapshotPrecedes;
    if p.next < |snaps| && SnapshotPrecedes(snaps[p.next], d, order) {
      if Steady(p) {
        ReseedingSteady(p, snaps[p.next], m);
      }
      ReseedingKeepsWarnings(p, snaps[p.next], m, true);
      CatchingUpSteady(Reseeded(p, snaps[p.next], m, true), snaps, d, order, m);
    }
  }

  lemma ReseedingKeepsWarnings(p: Playback, snap: Row, m: Ticker, inLoop: bool)
    requires snap.SnapshotRow?
    ensures Reseeded(p, snap, m, inLoop).report.warnings == p.report.warnings
    ensures Reseeded(p, snap, m, inLoop).next == p.next + 1
  {
  }

  lemma VisitingSteady(p: Playback, d: Row, o: Options, seed: Row, snaps: seq<Row>, order: map<StreamId, nat>)
    requires IsDelta(d) && d.stream.value in order && seed.SnapshotRow?
    requires forall i | 0 <= i < |snaps| :: snaps[i].SnapshotRow?
    requires NeverDiverged(Visited(p, d, o, seed, snaps, order).report.warnings)
    ensures NeverDiverged(p.report.warnings)
    ensures Steady(p) ==> Steady(Visited(p, d, o, seed, snaps, order))
  {
    hide Played, CaughtUp, NeverDiverged, Alternates, AtOrBeforeSeed;
    if !(p.atBound || p.broken || AtOrBeforeSeed(d, seed, order)) && !PastBound(d, o, p.onTarget) {
      var q := p.(onTarget := p.onTarget || (o.toSeq.Some? && OnTargetStream(d, o)));
      CatchingUpSteady(q, snaps, d, order, o.ticker);
      var c := CaughtUp(q, snaps, d, order, o.ticker);
      PlayingKeepsWarnings(c, d, o);
      if Steady(p) {
        PlayingSteady(c, d, o);
      }
    }
  }

  /** In a replay that never diverged every change in the loop over the deltas is announced. */
  lemma {:induction false} LoopingSteady(o: Options, a: Answers, n: nat)
    requires WellTyped(a) && a.seed.Some? && n <= |a.deltas|
    requires NeverDiverged(Looped(Seeded(o, a), o, a, n).report.warnings)
    ensures Steady(Looped(Seeded(o, a), o, a, n))
  {
    hide Visited, NeverDiverged;
    if n > 0 {
      var p := Looped(Seeded(o, a), o, a, n - 1);
      EveryStreamOrdered(a.deltas, n - 1);
      VisitingSteady(p, a.deltas[n - 1], o, a.seed.value, a.snapshots, StreamOrder(a.deltas));
      LoopingSteady(o, a, n - 1);
    }
  }

  // ---------------------------------------------------------------------------
  // The clock
  // ---------------------------------------------------------------------------

  /** The rows are consecutive grid points, the last one before `next`, the first one the first not before `fromMs`. */
  ghost predicate Covered(c: Clock, o: Options, interval: nat, k: int) {
    && c.next == k * interval
    && (k - |c.rows| - 1) * interval < o.fromMs
    && (c.rows != [] ==> (k - |c.rows|) * interval >= o.fromMs)
    && forall i | 0 <= i < |c.rows| :: RowOnGrid(c.rows, i, interval, k)
  }

  ghost predicate RowOnGrid(rows: seq<OutRow>, i: nat, interval: nat, k: int)
    requires i < |rows|
  {
    rows[i].ClockRow? && rows[i].bucketMs == (k - |rows| + i) * interval
  }

  ghost predicate RowIsAsOf(r: OutRow, trace: seq<Position>) {
    r.ClockRow? && r.book.ladders == AsOf(trace, r.bucketMs)
  }

  ghost predicate RowsBy(rows: seq<OutRow>, limit: int) {
    forall i | 0 <= i < |rows| :: rows[i].ClockRow? && rows[i].bucketMs <= limit
  }

  ghost predicate RowsAreAsOf(rows: seq<OutRow>, trace: seq<Position>) {
    forall i | 0 <= i < |rows| :: RowIsAsOf(rows[i], trace)
  }

  lemma TickCovers(c: Clock, o: Options, interval: nat, k: int, book: BookData)
    requires interval > 0 && Covered(c, o, interval, k)
    ensures Covered(Ticked(c, o, interval, book), o, interval, k + 1)
  {
    var c' := Ticked(c, o, interval, book);
    assert c'.next == (k + 1) * interval by { Distributes(k + 1, k, interval); }
    if c.next >= o.fromMs {
      var k' := k + 1;
      assert k' - |c'.rows| == k - |c.rows|;
      forall i | 0 <= i < |c'.rows| ensures RowOnGrid(c'.rows, i, interval, k') {
        if i < |c.rows| {
          assert RowOnGrid(c.rows, i, interval, k);
        }
      }
    } else {
      if c.rows != [] {
        MultiplesAscend(k - |c.rows|, k, interval);
      }
      assert c.rows == [] && c'.rows == [];
      assert k + 1 - 0 - 1 == k;
    }
  }

  /** Ticking with an unchanging book shows that book on every grid point. */
  lemma {:induction false} TicksCover(c: Clock, o: Options, interval: nat, limit: int, book: BookData, k: int)
      returns (k': int)
    requires interval > 0 && Covered(c, o, interval, k)
    ensures var c' := TickedUpTo(c, o, interval, limit, book);
      && Covered(c', o, interval, k') && c'.next > limit && c'.next >= c.next && c'.bound == c.bound
      && c.rows <= c'.rows
      && forall i | |c.rows| <= i < |c'.rows| ::
           c'.rows[i].ClockRow? && c'.rows[i].book == book
           && Max(c.next, o.fromMs) <= c'.rows[i].bucketMs <= limit
    decreases limit - c.next
  {
    if c.next <= limit {
      TickCovers(c, o, interval, k, book);
      k' := TicksCover(Ticked(c, o, interval, book), o, interval, limit, book, k + 1);
    } else {
      k' := k;
    }
  }

  lemma AsOfLast(trace: seq<Position>, g: int)
    requires trace != [] && trace[|trace| - 1].atMs <= g
    ensures AsOf(trace, g) == trace[|trace| - 1].ladders
  {
  }

  lemma AsOfSnoc(trace: seq<Position>, at: Position, g: int)
    requires g < at.atMs
    ensures AsOf(trace + [at], g) == AsOf(trace, g)
  {
    assert (trace + [at])[..|trace|] == trace;
  }

  lemma StartCovers(o: Options, interval: nat)
    requires interval > 0
    ensures Covered(ClockStart(o, interval), o, interval, Truncated(o.fromMs, interval))
  {
    var k := Truncated(o.fromMs, interval);
    if o.fromMs >= 0 {
      DivMod(o.fromMs, interval);
    } else {
      DivMod(-o.fromMs, interval);
      var q := -o.fromMs / interval;
      assert k == -q;
      assert (-q) * interval == -(q * interval);
    }
    Distributes(k, 1, interval);
  }

  /** After announced changes the rows so far show the replayed book as of their grid points. */
  ghost predicate ClockShows(c: Clock, hooks: seq<Hook>, o: Options, interval: nat, k: int)
    requires hooks != [] && hooks[|hooks| - 1].Reached?
  {
    var last := hooks[|hooks| - 1].atMs;
    && c.bound && Covered(c, o, interval, k) && RowsAreAsOf(c.rows, Positions(hooks))
    && RowsBy(c.rows, o.toMs) && RowsBy(c.rows, last - 1)
    && (last <= o.fromMs || last <= c.next || c.next > o.toMs)
  }

  /** One more announced change: the grid points before it show the book it found. */
  lemma OneMoreAnnounced(init: seq<Hook>, c: Clock, b: Hook, r: Hook, o: Options, interval: nat, k: int)
      returns (k': int)
    requires interval > 0 && init != [] && init[|init| - 1].Reached? && b.Before? && r.Reached? && b.atMs == r.atMs
    requires b.book == init[|init| - 1].book && init[|init| - 1].atMs <= r.atMs
    requires ClockShows(c, init, o, interval, k)
    ensures ClockShows(Called(Called(c, b, o, ClockMode, interval), r, o, ClockMode, interval), init + [b] + [r], o,
        interval, k')
  {
    hide AsOf, Positions, Covered, TickedUpTo;
    var trace, at := Positions(init), Position(r.stream, r.seqNo, r.atMs, r.book.ladders);
    PositionsSnoc(init, b);
    PositionsSnoc(init + [b], r);
    assert Positions(init + [b] + [r]) == trace + [at];
    LastPosition(init);
    var limit := Min(b.atMs - 1, o.toMs);
    k' := TicksCover(c, o, interval, limit, b.book, k);
    var c' := TickedUpTo(c, o, interval, limit, b.book);
    forall i | 0 <= i < |c'.rows|
      ensures RowIsAsOf(c'.rows[i], trace + [at]) && c'.rows[i].ClockRow? && c'.rows[i].bucketMs <= limit
    {
      if i < |c.rows| {
        assert c'.rows[i] == c.rows[i] && RowIsAsOf(c.rows[i], trace);
      } else {
        AsOfLast(trace, c'.rows[i].bucketMs);
      }
      AsOfSnoc(trace, at, c'.rows[i].bucketMs);
    }
    assert (init + [b] + [r])[|init| + 1] == r;
  }

  lemma {:induction false} AnnouncedChangesShow(hooks: seq<Hook>, o: Options, interval: nat) returns (k: int)
    requires interval > 0 && Alternates(hooks) && Ascending(Positions(hooks)) && hooks[0].atMs <= o.fromMs
    ensures ClockShows(AfterHooks(hooks, o, ClockMode, interval), hooks, o, interval, k)
  {
    hide ClockShows, Called;
    var n := |hooks|;
    if n == 1 {
      k := SeedShows(hooks, o, interval);
    } else {
      var init, b, r := hooks[..n - 2], hooks[n - 2], hooks[n - 1];
      assert hooks == init + [b] + [r];
      assert hooks[..n - 1] == init + [b] && (init + [b])[..n - 2] == init;
      AscendingInit(init, b, r);
      var k0 := AnnouncedChangesShow(init, o, interval);
      k := OneMoreAnnounced(init, AfterHooks(init, o, ClockMode, interval), b, r, o, interval, k0);
    }
  }

  lemma SeedShows(hooks: seq<Hook>, o: Options, interval: nat) returns (k: int)
    requires interval > 0 && |hooks| == 1 && hooks[0].Reached? && hooks[0].atMs <= o.fromMs
    ensures ClockShows(AfterHooks(hooks, o, ClockMode, interval), hooks, o, interval, k)
  {
    assert hooks[..0] == [];
    StartCovers(o, interval);
    k := Truncated(o.fromMs, interval);
  }

  lemma AscendingInit(init: seq<Hook>, b: Hook, r: Hook)
    requires init != [] && init[|init| - 1].Reached? && b.Before? && r.Reached?
    requires Ascending(Positions(init + [b] + [r]))
    ensures Ascending(Positions(init)) && init[|init| - 1].atMs <= r.atMs
  {
    PositionsSnoc(init, b);
    PositionsSnoc(init + [b], r);
    LastPosition(init);
    var trace, all := Positions(init), Positions(init + [b] + [r]);
    assert forall i | 0 <= i < |trace| :: all[i] == trace[i];
    assert all[|trace| - 1].atMs <= all[|trace|].atMs;
  }

  lemma LastPosition(hooks: seq<Hook>)
    requires hooks != [] && hooks[|hooks| - 1].Reached?
    ensures var h, trace := hooks[|hooks| - 1], Positions(hooks);
      trace != [] && trace[|trace| - 1] == Position(h.stream, h.seqNo, h.atMs, h.book.ladders)
  {
  }

  // ---------------------------------------------------------------------------
  // Every grid point once
  // ---------------------------------------------------------------------------

  ghost predicate Listed(rows: seq<OutRow>, g: int) {
    exists i :: 0 <= i < |rows| && rows[i].ClockRow? && rows[i].bucketMs == g
  }

  /** The rows are the multiples of the interval in [fromMs, toMs], each once, ascending. */
  ghost predicate IsGrid(rows: seq<OutRow>, o: Options, interval: nat)
    requires interval > 0
  {
    && (forall i | 0 <= i < |rows| :: rows[i].ClockRow? && rows[i].bucketMs % interval == 0
                                      && o.fromMs <= rows[i].bucketMs <= o.toMs)
    && (forall i | 0 < i < |rows| :: rows[i].bucketMs == rows[i - 1].bucketMs + interval)
    && (forall g | g % interval == 0 && o.fromMs <= g <= o.toMs :: Listed(rows, g))
  }

  lemma MultipleHasNoRemainder(k: int, d: nat)
    requires d > 0
    ensures k * d % d == 0
  {
    BucketOfGridPoint(k, d);
    DivMod(k * d, d);
  }

  lemma CoveredIsGrid(c: Clock, o: Options, interval: nat, k: int)
    requires interval > 0 && Covered(c, o, interval, k) && c.next > o.toMs && RowsBy(c.rows, o.toMs)
    ensures IsGrid(c.rows, o, interval)
  {
    var first := k - |c.rows|;
    forall i | 0 <= i < |c.rows|
      ensures c.rows[i].ClockRow? && c.rows[i].bucketMs % interval == 0 && o.fromMs <= c.rows[i].bucketMs <= o.toMs
      ensures i > 0 ==> c.rows[i - 1].ClockRow? && c.rows[i].bucketMs == c.rows[i - 1].bucketMs + interval
    {
      assert RowOnGrid(c.rows, i, interval, k);
      MultipleHasNoRemainder(first + i, interval);
      MultiplesAscend(first, first + i, interval);
      if i > 0 {
        assert RowOnGrid(c.rows, i - 1, interval, k);
        Distributes(first + i, first + i - 1, interval);
      }
    }
    forall g | g % interval == 0 && o.fromMs <= g <= o.toMs ensures Listed(c.rows, g) {
      var q := g / interval;
      DivMod(g, interval);
      if q >= k {
        MultiplesAscend(k, q, interval);
      }
      if q < first {
        MultiplesAscend(q, first - 1, interval);
      }
      assert RowOnGrid(c.rows, q - first, interval, k);
    }
  }

  // ---------------------------------------------------------------------------
  // The drain is not announced
  // ---------------------------------------------------------------------------

  ghost predicate OnlyReached(hooks: seq<Hook>) {
    forall i | 0 <= i < |hooks| :: hooks[i].Reached?
  }

  lemma UnannouncedReseed(p: Playback, snap: Row, m: Ticker)
    requires snap.SnapshotRow?
    ensures var p' := Reseeded(p, snap, m, false);
      && p'.book == BookFromSnapshot(m, snap)
      && p'.report.hooks == p.report.hooks +
          [Reached(snap.stream, snap.seqNo, snap.atMs, BookFromSnapshot(m, snap), true)]
  {
    assert p.report.hooks + [] == p.report.hooks;
  }

  lemma {:induction false} DrainAppends(p: Playback, snaps: seq<Row>, o: Options) returns (more: seq<Hook>)
    requires (forall i | 0 <= i < |snaps| :: snaps[i].SnapshotRow?) && p.report.hooks != []
    requires p.book == p.report.hooks[|p.report.hooks| - 1].book
    ensures var d := Drained(p, snaps, o);
      && d.report.hooks == p.report.hooks + more && OnlyReached(more)
      && d.book == d.report.hooks[|d.report.hooks| - 1].book
    decreases |snaps| - p.next
  {
    hide Reseeded, BookFromSnapshot;
    if p.next < |snaps| && snaps[p.next].atMs <= o.toMs {
      var snap := snaps[p.next];
      var reached := Reached(snap.stream, snap.seqNo, snap.atMs, BookFromSnapshot(o.ticker, snap), true);
      var p' := Reseeded(p, snap, o.ticker, false);
      UnannouncedReseed(p, snap, o.ticker);
      ReseedingKeeps(p, snap, o.ticker, false);
      var rest := DrainAppends(p', snaps, o);
      more := [reached] + rest;
      assert p.report.hooks + [reached] + rest == p.report.hooks + more;
    } else {
      more := [];
      assert p.report.hooks + more == p.report.hooks;
    }
  }

  lemma {:induction false} UnannouncedKeepsClock(hooks: seq<Hook>, more: seq<Hook>, o: Options, interval: nat)
    requires OnlyReached(more) && AfterHooks(hooks, o, ClockMode, interval).bound
    ensures AfterHooks(hooks + more, o, ClockMode, interval) == AfterHooks(hooks, o, ClockMode, interval)
  {
    if more == [] {
      assert hooks + more == hooks;
    } else {
      var init := more[..|more| - 1];
      UnannouncedKeepsClock(hooks, init, o, interval);
      assert (hooks + more)[..|hooks + more| - 1] == hooks + init;
    }
  }

  lemma {:induction false} PositionsPrefix(hooks: seq<Hook>, more: seq<Hook>)
    ensures Positions(hooks) <= Positions(hooks + more)
  {
    if more == [] {
      assert hooks + more == hooks;
    } else {
      PositionsPrefix(hooks, more[..|more| - 1]);
      assert (hooks + more)[..|hooks + more| - 1] == hooks + more[..|more| - 1];
    }
  }

  /** A time before the last position of a prefix sees only the prefix. */
  lemma {:induction false} AsOfPrefix(trace: seq<Position>, n: nat, g: int)
    requires Ascending(trace) && 0 < n <= |trace| && g < trace[n - 1].atMs
    ensures AsOf(trace, g) == AsOf(trace[..n], g)
  {
    if n == |trace| {
      assert trace[..n] == trace;
    } else {
      var init := trace[..|trace| - 1];
      assert trace[n - 1].atMs <= trace[|trace| - 1].atMs;
      assert init[..n] == trace[..n];
      assert forall i | 0 <= i < |init| :: init[i] == trace[i];
      AsOfPrefix(init, n, g);
    }
  }

  /** The first grid point the announced changes did not reach: later rows show the final book. */
  function FlushedTo(o: Options, a: Answers, interval: nat): int
    requires WellTyped(a) && a.seed.Some?
  {
    AfterHooks(AfterDeltas(o, a).report.hooks, o, ClockMode, interval).next
  }

  ghost predicate RowShows(r: OutRow, trace: seq<Position>, flushed: int)
    requires trace != []
  {
    r.ClockRow? &&
    r.book.ladders == if r.bucketMs < flushed then AsOf(trace, r.bucketMs) else trace[|trace| - 1].ladders
  }

  /** The hooks of a replay that never diverged: announced changes, then unannounced snapshots. */
  lemma HooksSplit(o: Options, a: Answers) returns (more: seq<Hook>)
    requires WellTyped(a) && a.seed.Some? && NeverDiverged(ReplayOf(o, a).report.warnings) && !AfterDeltas(o, a).atBound
    ensures var loop, r := AfterDeltas(o, a).report.hooks, ReplayOf(o, a);
      && Alternates(loop) && loop[0].atMs == a.seed.value.atMs
      && r.report.hooks == loop + more && OnlyReached(more) && r.finalBook.Some?
      && r.finalBook.value == r.report.hooks[|r.report.hooks| - 1].book
  {
    var p := AfterDeltas(o, a);
    hide Looped, Drained, NeverDiverged, Alternates;
    DrainKeepsWarnings(p, a.snapshots, o);
    LoopingSteady(o, a, |a.deltas|);
    FirstHookIsSeed(o, a, |a.deltas|);
    more := DrainAppends(p, a.snapshots, o);
  }

  lemma EndsReached(loop: seq<Hook>, more: seq<Hook>)
    requires Alternates(loop) && OnlyReached(more)
    ensures loop[|loop| - 1].Reached? && (loop + more)[|loop + more| - 1].Reached?
  {
  }

  /** The clock over announced changes followed by unannounced ones. */
  lemma ClockOverHooks(loop: seq<Hook>, more: seq<Hook>, o: Options, interval: nat)
    requires interval > 0 && Alternates(loop) && OnlyReached(more) && loop[0].atMs <= o.fromMs
    requires Ascending(Positions(loop + more))
    ensures var hooks, flushed := loop + more, AfterHooks(loop, o, ClockMode, interval).next;
      var c, trace := AfterHooks(hooks, o, ClockMode, interval), Positions(hooks);
      var rows := TickedUpTo(c, o, interval, o.toMs, hooks[|hooks| - 1].book).rows;
      && c.bound && trace != [] && IsGrid(rows, o, interval)
      && forall i | 0 <= i < |rows| :: RowShows(rows[i], trace, flushed)
  {
    var hooks := loop + more;
    var book := hooks[|hooks| - 1].book;
    hide TickedUpTo, AfterHooks, Covered, Positions, AsOf;
    EndsReached(loop, more);
    PositionsPrefix(loop, more);
    var trace, seen := Positions(hooks), Positions(loop);
    assert forall i | 0 <= i < |seen| :: trace[i] == seen[i];
    var k := AnnouncedChangesShow(loop, o, interval);
    var c := AfterHooks(loop, o, ClockMode, interval);
    UnannouncedKeepsClock(loop, more, o, interval);
    var k' := TicksCover(c, o, interval, o.toMs, book, k);
    var c' := TickedUpTo(c, o, interval, o.toMs, book);
    LastPosition(loop);
    LastPosition(hooks);
    assert trace[..|seen|] == seen;
    forall i | 0 <= i < |c'.rows|
      ensures RowShows(c'.rows[i], trace, c.next) && c'.rows[i].bucketMs <= o.toMs
    {
      if i < |c.rows| {
        RowBeforeNext(c, o, interval, k, i);
        assert c'.rows[i] == c.rows[i] && RowIsAsOf(c.rows[i], seen);
        AsOfPrefix(trace, |seen|, c.rows[i].bucketMs);
      }
    }
    CoveredIsGrid(c', o, interval, k');
  }

  /** What a clock materialization of a replay that never diverged shows, row by row. */
  lemma ClockRowsExactly(o: Options, a: Answers, interval: nat)
    requires WellTyped(a) && a.seed.Some? && interval > 0 && a.seed.value.atMs <= o.fromMs
    requires NeverDiverged(ReplayOf(o, a).report.warnings) && Ascending(Positions(ReplayOf(o, a).report.hooks))
    requires !AfterDeltas(o, a).atBound
    ensures var out := Materialized(o, a, ClockMode, interval);
      var trace := Positions(ReplayOf(o, a).report.hooks);
      && out.Produced? && IsGrid(out.rows, o, interval) && trace != []
      && forall i | 0 <= i < |out.rows| :: RowShows(out.rows[i], trace, FlushedTo(o, a, interval))
  {
    hide ReplayOf, AfterDeltas, TickedUpTo, AfterHooks, Positions, NeverDiverged, Ascending, IsGrid, RowShows,
        RowIsAsOf;
    var more := HooksSplit(o, a);
    ClockOverHooks(AfterDeltas(o, a).report.hooks, more, o, interval);
  }

  lemma RowBeforeNext(c: Clock, o: Options, interval: nat, k: int, i: nat)
    requires interval > 0 && Covered(c, o, interval, k) && i < |c.rows|
    ensures c.rows[i].ClockRow? && c.rows[i].bucketMs < c.next
  {
    assert RowOnGrid(c.rows, i, interval, k);
    var j := k - |c.rows| + i;
    MultiplesAscend(j, k - 1, interval);
    Distributes(k, 1, interval);
  }

  lemma {:induction false} FirstHookIsSeed(o: Options, a: Answers, n: nat)
    requires WellTyped(a) && a.seed.Some? && n <= |a.deltas|
    ensures var hooks := Looped(Seeded(o, a), o, a, n).report.hooks;
      hooks != [] && hooks[0].Reached? && hooks[0].atMs == a.seed.value.atMs
  {
    hide Visited;
    if n > 0 {
      FirstHookIsSeed(o, a, n - 1);
      EveryStreamOrdered(a.deltas, n - 1);
      VisitingExtends(Looped(Seeded(o, a), o, a, n - 1), a.deltas[n - 1], o, a.seed.value, a.snapshots,
          StreamOrder(a.deltas));
    }
  }

  lemma VisitingExtends(p: Playback, d: Row, o: Options, seed: Row, snaps: seq<Row>, order: map<StreamId, nat>)
    requires IsDelta(d) && d.stream.value in order && seed.SnapshotRow?
    requires forall i | 0 <= i < |snaps| :: snaps[i].SnapshotRow?
    ensures p.report.hooks <= Visited(p, d, o, seed, snaps, order).report.hooks
  {
    hide CaughtUp, Counting, Changed, AtOrBeforeSeed;
    var q := p.(onTarget := p.onTarget || (o.toSeq.Some? && OnTargetStream(d, o)));
    CatchingUpExtends(q, snaps, d, order, o.ticker);
  }

  lemma {:induction false} CatchingUpExtends(p: Playback, snaps: seq<Row>, d: Row, order: map<StreamId, nat>, m: Ticker)
    requires (forall i | 0 <= i < |snaps| :: snaps[i].SnapshotRow?) && IsDelta(d)
    ensures p.report.hooks <= CaughtUp(p, snaps, d, order, m).report.hooks
    decreases |snaps| - p.next
  {
    if p.next < |snaps| && SnapshotPrecedes(snaps[p.next], d, order) {
      CatchingUpExtends(Reseeded(p, snaps[p.next], m, true), snaps, d, order, m);
    }
  }

  lemma {:induction false} DrainKeepsWarnings(p: Playback, snaps: seq<Row>, o: Options)
    requires forall i | 0 <= i < |snaps| :: snaps[i].SnapshotRow?
    ensures Drained(p, snaps, o).report.warnings == p.report.warnings
    decreases |snaps| - p.next
  {
    hide Reseeded;
    if p.next < |snaps| && snaps[p.next].atMs <= o.toMs {
      ReseedingKeepsWarnings(p, snaps[p.next], o.ticker, false);
      DrainKeepsWarnings(Reseeded(p, snaps[p.next], o.ticker, false), snaps, o);
    }
  }

  /** In event time, without a clock, there is one row for every position reached, with its book. */
  lemma {:induction false} EventRowsAreThePositions(hooks: seq<Hook>, o: Options)
    ensures var rows, reached := AfterHooks(hooks, o, EventTime, 0).rows, Positions(hooks);
      && |rows| == |reached|
      && forall i | 0 <= i < |rows| ::
           rows[i].EventRow? && rows[i].atMs == reached[i].atMs && rows[i].book.ladders == reached[i].ladders
  {
    if hooks != [] {
      EventRowsAreThePositions(hooks[..|hooks| - 1], o);
    }
  }

  // ---------------------------------------------------------------------------
  // Clock rows against the live book
  // ---------------------------------------------------------------------------

  lemma AscendingMore(trace: seq<Position>, at: Position)
    requires Ascending(trace) && forall i | 0 <= i < |trace| :: trace[i].atMs <= at.atMs
    ensures Ascending(trace + [at])
  {
  }

  lemma {:induction false} ExpectedAscends(s: Setting, i: nat)
    requires Sound(s) && Ready(s) && i <= |s.rows|
    ensures Ascending([SeedPosition(s)] + Expected(s, i))
    ensures forall x | 0 <= x < |Expected(s, i)| :: Expected(s, i)[x].atMs <= s.o.toMs
    ensures forall x, j | 0 <= x < |Expected(s, i)| && i <= j < |s.rows| && About(s.rows[j], s.o.ticker) ::
      Expected(s, i)[x].atMs <= s.rows[j].atMs
  {
    hide AllFaithful, Answered, BookAfter, Load;
    if i > s.k + 1 {
      ExpectedAscends(s, i - 1);
      if Changes(s.rows[i - 1], s.o.ticker) && s.rows[i - 1].atMs <= s.o.toMs {
        WrittenInOrder(s, s.k, i - 1);
        forall j | i <= j < |s.rows| && About(s.rows[j], s.o.ticker) ensures s.rows[i - 1].atMs <= s.rows[j].atMs {
          WrittenInOrder(s, i - 1, j);
        }
        var at := PositionOf(s.rows[i - 1], BookAfter(s.rows[..i], s.o.ticker));
        AscendingMore([SeedPosition(s)] + Expected(s, i - 1), at);
        assert [SeedPosition(s)] + Expected(s, i) == [SeedPosition(s)] + Expected(s, i - 1) + [at];
      } else {
        assert Expected(s, i) == Expected(s, i - 1);
      }
    }
  }

  lemma {:induction false} AsOfReplayIsLive(p0: Position, live: seq<Position>, tail: seq<Position>, toMs: int, g: int)
    requires live != [] && p0.atMs <= g && live[|live| - 1].atMs <= p0.atMs && p0.ladders == live[|live| - 1].ladders
    requires g <= toMs
    ensures AsOf([p0] + ReceivedBy(tail, toMs), g) == AsOf(live + tail, g)
  {
    if tail == [] {
      assert [p0] + [] == [p0] && live + [] == live;
    } else {
      var init, x := tail[..|tail| - 1], tail[|tail| - 1];
      AsOfReplayIsLive(p0, live, init, toMs, g);
      var before := [p0] + ReceivedBy(init, toMs);
      assert live + tail == live + init + [x];
      if x.atMs <= toMs {
        assert [p0] + ReceivedBy(tail, toMs) == before + [x];
        if x.atMs <= g {
          AsOfLast(before + [x], g);
          AsOfLast(live + init + [x], g);
        } else {
          AsOfSnoc(before, x, g);
          AsOfSnoc(live + init, x, g);
        }
      } else {
        assert [p0] + ReceivedBy(tail, toMs) == before;
        AsOfSnoc(live + init, x, g);
      }
    }
  }

  /** What one clock row shows of a live trace: an owed grid point shows the end of the window. */
  ghost predicate RowShowsLive(r: OutRow, live: seq<Position>, owed: bool, toMs: int) {
    r.ClockRow? && r.book.ladders == AsOf(live, if owed then toMs else r.bucketMs)
  }

  lemma RowOfReplayIsLive(r: OutRow, reached: seq<Position>, live: seq<Position>, j: nat, flushed: int, o: Options)
    requires 0 < j <= |live| && reached != [] && reached[1..] == ReceivedBy(live[j..], o.toMs)
    requires reached[0].ladders == live[j - 1].ladders && live[j - 1].atMs <= reached[0].atMs <= o.fromMs
    requires reached[|reached| - 1].atMs <= Max(o.fromMs, o.toMs)
    requires RowShows(r, reached, flushed) && o.fromMs <= r.bucketMs <= o.toMs
    ensures RowShowsLive(r, live, r.bucketMs >= flushed, o.toMs)
  {
    assert reached == [reached[0]] + reached[1..];
    assert live == live[..j] + live[j..];
    AsOfReplayIsLive(reached[0], live[..j], live[j..], o.toMs, r.bucketMs);
    AsOfReplayIsLive(reached[0], live[..j], live[j..], o.toMs, o.toMs);
    AsOfLast(reached, o.toMs);
  }

  // ---------------------------------------------------------------------------
  // Which grid points the loop over the deltas leaves to the end
  // ---------------------------------------------------------------------------

  ghost predicate SomeDeltaAfter(s: Setting, i: nat) {
    exists j :: i < j < |s.rows| && Selects(s.Deltas(), s.rows[j])
  }

  /** A feed snapshot of the window written after its last delta: only the drain meets it. */
  ghost predicate IsLate(s: Setting, i: nat) {
    i < |s.rows| && Selects(s.Snapshots(), s.rows[i]) && !SomeDeltaAfter(s, i)
  }

  /** A change of the window the loop over the deltas meets. */
  ghost predicate IsMet(s: Setting, i: nat) {
    s.k < i < |s.rows| && Changes(s.rows[i], s.o.ticker) && s.rows[i].atMs <= s.o.toMs && !IsLate(s, i)
  }

  /** A grid point of the window not before any change met in the loop: its row is written at the end. */
  ghost predicate Owed(s: Setting, interval: nat, g: int)
    requires interval > 0
  {
    && g % interval == 0 && s.o.fromMs <= g <= s.o.toMs
    && forall i: nat | IsMet(s, i) :: s.rows[i].atMs <= g
  }

  /** Just past the last delta of the window written after the seed, or past the seed. */
  lemma LoopEnd(s: Setting) returns (e: nat)
    requires Sound(s) && Ready(s)
    ensures s.k < e <= |s.rows|
    ensures e == s.k + 1 || Selects(s.Deltas(), s.rows[e - 1])
    ensures forall j | e <= j < |s.rows| :: !Selects(s.Deltas(), s.rows[j])
  {
    hide Sound, Selects;
    e := |s.rows|;
    while e > s.k + 1 && !Selects(s.Deltas(), s.rows[e - 1])
      invariant s.k < e <= |s.rows|
      invariant forall j | e <= j < |s.rows| :: !Selects(s.Deltas(), s.rows[j])
    {
      e := e - 1;
    }
  }

  lemma {:induction false} NoMoreDeltas(s: Setting, e: nat, i: nat)
    requires e <= i <= |s.rows| && forall j | e <= j < i :: !Selects(s.Deltas(), s.rows[j])
    ensures s.DeltasBy(i) == s.DeltasBy(e)
  {
    if e < i {
      NoMoreDeltas(s, e, i - 1);
      CountsNext(s, i - 1);
    }
  }

  /** No snapshot of the window is written up to the seed. */
  lemma {:induction false} NoSnapshotBySeed(s: Setting, i: nat)
    requires Sound(s) && Ready(s) && i <= s.k + 1
    ensures s.SnapshotsBy(i) == 0
  {
    if i == 0 {
      assert s.rows[..0] == [];
    } else {
      hide Sound, Selects, Select;
      NoSnapshotBySeed(s, i - 1);
      CountsNext(s, i - 1);
      UpToSeedIsNoSnapshot(s, i - 1);
    }
  }

  lemma UpToSeedIsNoSnapshot(s: Setting, i: nat)
    requires Sound(s) && Ready(s) && i <= s.k
    ensures !Selects(s.Snapshots(), s.rows[i])
  {
    if i < s.k {
      WrittenInOrder(s, i, s.k);
    }
  }

  /** After the loop over the deltas the replay shows the rows up to the last delta, and no others. */
  lemma LoopShows(s: Setting, e: nat)
    requires Sound(s) && Ready(s) && s.k < e <= |s.rows|
    requires e == s.k + 1 || Selects(s.Deltas(), s.rows[e - 1])
    requires forall j | e <= j < |s.rows| :: !Selects(s.Deltas(), s.rows[j])
    ensures Shows(s, e, AfterDeltas(s.o, s.a))
  {
    hide Sound, Looped, Select, Selects, Shows;
    ConsumedInOrder(s, e);
    NoMoreDeltas(s, e, |s.rows|);
    WindowsFit(s, |s.rows|);
    WindowsFit(s, e);
    if e == s.k + 1 {
      NoSnapshotBySeed(s, e);
    } else {
      LoopMeetsSnapshots(s, e - 1);
      CountsNext(s, e - 1);
      DeltaIsNoSnapshot(s.rows[e - 1], s.Deltas(), s.Snapshots());
    }
  }

  lemma DeltaIsNoSnapshot(r: Row, q: Query, q': Query)
    requires q.DeltasOf? && q'.SnapshotsOf? && Selects(q, r)
    ensures !Selects(q', r)
  {
  }

  /** The last change among the first i rows that is shown. */
  lemma {:induction false} LastExpected(s: Setting, i: nat) returns (c: nat)
    requires Sound(s) && Ready(s) && s.k < i <= |s.rows| && Expected(s, i) != []
    ensures s.k < c < i && Changes(s.rows[c], s.o.ticker) && s.rows[c].atMs <= s.o.toMs
    ensures Expected(s, i)[|Expected(s, i)| - 1].atMs == s.rows[c].atMs
  {
    hide AllFaithful, Answered, Orderly, BookAfter, Load, Expected, WithRow, Selects, Select, Ready;
    var r := s.rows[i - 1];
    ExpectedNext(s, i - 1);
    NothingExpected(s);
    if Changes(r, s.o.ticker) && r.atMs <= s.o.toMs && i > s.k + 1 {
      c := i - 1;
    } else {
      assert Expected(s, i - 1) + [] == Expected(s, i - 1);
      c := LastExpected(s, i - 1);
    }
  }

  lemma NothingExpected(s: Setting)
    requires s.k < |s.rows|
    ensures Expected(s, s.k + 1) == []
  {
  }

  lemma {:induction false} ExpectedBounds(s: Setting, i: nat, c: nat)
    requires Sound(s) && Ready(s) && s.k < c < i <= |s.rows|
    requires Changes(s.rows[c], s.o.ticker) && s.rows[c].atMs <= s.o.toMs
    ensures Expected(s, i) != [] && s.rows[c].atMs <= Expected(s, i)[|Expected(s, i)| - 1].atMs
  {
    hide AllFaithful, Answered, Orderly, BookAfter, Load, Expected, WithRow, Selects, Select;
    ExpectedNext(s, i - 1);
    if c < i - 1 {
      ExpectedBounds(s, i - 1, c);
      if Changes(s.rows[i - 1], s.o.ticker) {
        WrittenInOrder(s, c, i - 1);
      }
    }
  }

  /** Exactly the changes before the end of the loop are met in it. */
  lemma MetBeforeTheEnd(s: Setting, e: nat, i: nat)
    requires Sound(s) && Ready(s) && s.k < e <= |s.rows| && s.k < i < |s.rows|
    requires e == s.k + 1 || Selects(s.Deltas(), s.rows[e - 1])
    requires forall j | e <= j < |s.rows| :: !Selects(s.Deltas(), s.rows[j])
    requires Changes(s.rows[i], s.o.ticker) && s.rows[i].atMs <= s.o.toMs
    ensures IsMet(s, i) <==> i < e
    ensures IsLate(s, i) <==> i >= e
  {
    WrittenInOrder(s, s.k, i);
    if s.rows[i].SnapshotRow? {
      SnapshotsAfterSeed(s, i);
      assert Selects(s.Snapshots(), s.rows[i]);
      if i < e {
        assert i < e - 1 && SomeDeltaAfter(s, i);
      }
    } else {
      assert Selects(s.Deltas(), s.rows[i]);
    }
  }

  /** The first grid point whose row waits for the end, told by the recorded rows. */
  lemma FlushedExactly(s: Setting, interval: nat, g: int)
    requires Sound(s) && Ready(s) && interval > 0 && s.rows[s.k].atMs <= s.o.fromMs
    requires g % interval == 0 && s.o.fromMs <= g <= s.o.toMs
    ensures FlushedTo(s.o, s.a, interval) <= g <==> Owed(s, interval, g)
  {
    hide Sound, Looped, AfterDeltas, Selects, IsMet, AfterHooks, ClockShows, Alternates;
    var e := LoopEnd(s);
    LoopHooks(s, e);
    var hooks := AfterDeltas(s.o, s.a).report.hooks;
    var k := AnnouncedChangesShow(hooks, s.o, interval);
    NextReaches(AfterHooks(hooks, s.o, ClockMode, interval), hooks, s.o, interval, k, g);
    LastMetDecides(s, e, g);
  }

  /** The loop over the deltas announces the rows up to its end, in order. */
  lemma LoopHooks(s: Setting, e: nat)
    requires Sound(s) && Ready(s) && s.k < e <= |s.rows|
    requires e == s.k + 1 || Selects(s.Deltas(), s.rows[e - 1])
    requires forall j | e <= j < |s.rows| :: !Selects(s.Deltas(), s.rows[j])
    ensures s.rows[s.k].SnapshotRow?
    ensures var hooks, shown := AfterDeltas(s.o, s.a).report.hooks, [SeedPosition(s)] + Expected(s, e);
      && Alternates(hooks) && hooks != [] && Ascending(Positions(hooks)) && hooks[0].atMs == s.rows[s.k].atMs
      && hooks[|hooks| - 1].Reached? && hooks[|hooks| - 1].atMs == shown[|shown| - 1].atMs
  {
    hide Sound, Selects, Looped, Expected, BookAfter;
    LoopShows(s, e);
    ExpectedAscends(s, e);
    LoopingSteady(s.o, s.a, |s.a.deltas|);
    FirstHookIsSeed(s.o, s.a, |s.a.deltas|);
    LastPosition(AfterDeltas(s.o, s.a).report.hooks);
  }

  /** The changes met in the loop are all received by g exactly when the last position shown is. */
  lemma LastMetDecides(s: Setting, e: nat, g: int)
    requires Sound(s) && Ready(s) && s.k < e <= |s.rows| && s.rows[s.k].atMs <= s.o.fromMs <= g
    requires e == s.k + 1 || Selects(s.Deltas(), s.rows[e - 1])
    requires forall j | e <= j < |s.rows| :: !Selects(s.Deltas(), s.rows[j])
    ensures var shown := [SeedPosition(s)] + Expected(s, e);
      shown[|shown| - 1].atMs <= g <==> forall i: nat | IsMet(s, i) :: s.rows[i].atMs <= g
  {
    hide Sound, Selects, Expected;
    var shown := [SeedPosition(s)] + Expected(s, e);
    if Expected(s, e) != [] {
      var c := LastExpected(s, e);
      MetBeforeTheEnd(s, e, c);
      assert IsMet(s, c);
    }
    forall i: nat | IsMet(s, i) ensures s.rows[i].atMs <= shown[|shown| - 1].atMs {
      MetBeforeTheEnd(s, e, i);
      ExpectedBounds(s, e, i);
    }
  }

  /** The clock has been flushed up to the last announced change, and no further. */
  lemma NextReaches(c: Clock, hooks: seq<Hook>, o: Options, interval: nat, k: int, g: int)
    requires interval > 0 && hooks != [] && hooks[|hooks| - 1].Reached? && ClockShows(c, hooks, o, interval, k)
    requires g % interval == 0 && o.fromMs <= g <= o.toMs
    ensures c.next <= g <==> hooks[|hooks| - 1].atMs <= g
  {
    var q, last := g / interval, hooks[|hooks| - 1].atMs;
    DivMod(g, interval);
    if c.rows != [] {
      assert RowOnGrid(c.rows, |c.rows| - 1, interval, k);
      assert c.rows[|c.rows| - 1].ClockRow? && c.rows[|c.rows| - 1].bucketMs <= last - 1;
    }
    if last <= g {
      assert (k - 1) * interval < g;
      if q < k {
        MultiplesAscend(q, k - 1, interval);
      } else {
        MultiplesAscend(k, q, interval);
      }
    }
  }

  /**
   * A clock materialization seeded at or before its window lists every grid point of the window
   * once, in order. Each row shows the live book as of its grid point, but a row whose grid point no
   * change met in the loop over the deltas comes after shows the live book at the end of the window.
   */
  lemma MaterializeShowsLive(start: SessionId, events: seq<Event>, started: map<StreamId, int>,
                             o: Options, a: Answers, k: nat, interval: nat)
    requires LegalRun(start, events) && o.toSeq.None? && interval > 0 && !a.seedIsLate
    requires Orderly(Run(start, events).rows, o.ticker, started)
    requires Answered(Run(start, events).rows, started, o, a, Some(k))
    ensures WellTyped(a) && a.seed.Some?
    ensures var out, live := Materialized(o, a, ClockMode, interval), LiveTrace(start, events, o.ticker);
      var s := Setting(Run(start, events).rows, started, o, a, k);
      && out.Produced? && IsGrid(out.rows, o, interval)
      && forall i | 0 <= i < |out.rows| :: RowTells(out.rows[i], live, s, interval)
  {
    hide Orderly, LegalRun, Run, LiveTrace, ReplayOf, AsOf, NeverDiverged, Sound, Looped, Positions;
    hide ReceivedBy, Expected, Ascending, IsGrid, RowShows, RowShowsLive, Materialized, FlushedTo, Owed;
    var rows, live := Run(start, events).rows, LiveTrace(start, events, o.ticker);
    var s := Setting(rows, started, o, a, k);
    RunIsSound(start, events, started, o, a, k);
    assert rows[k].atMs <= o.fromMs;
    SoundIsReady(s);
    hide Answered;
    var j := ReplayEqualsLive(start, events, started, o, a, k);
    ReplayShowsTheRows(s);
    ExpectedAscends(s, |rows|);
    NeverAtBound(o, a, |a.deltas|);
    ClockRowsExactly(o, a, interval);
    var reached := Positions(ReplayOf(o, a).report.hooks);
    var out := Materialized(o, a, ClockMode, interval).rows;
    forall i | 0 <= i < |out| ensures RowTells(out[i], live, s, interval) {
      GridRowInWindow(out, o, interval, i);
      RowOfReplayIsLive(out[i], reached, live, j, FlushedTo(o, a, interval), o);
      FlushedExactly(s, interval, out[i].bucketMs);
      TellsAsShown(out[i], live, s, interval, out[i].bucketMs >= FlushedTo(o, a, interval));
    }
  }

  ghost predicate RowTells(r: OutRow, live: seq<Position>, s: Setting, interval: nat)
    requires interval > 0
  {
    r.ClockRow? && RowShowsLive(r, live, Owed(s, interval, r.bucketMs), s.o.toMs)
  }

  lemma TellsAsShown(r: OutRow, live: seq<Position>, s: Setting, interval: nat, owed: bool)
    requires interval > 0 && RowShowsLive(r, live, owed, s.o.toMs) && owed == Owed(s, interval, r.bucketMs)
    ensures RowTells(r, live, s, interval)
  {
  }

  lemma GridRowInWindow(rows: seq<OutRow>, o: Options, interval: nat, i: nat)
    requires interval > 0 && IsGrid(rows, o, interval) && i < |rows|
    ensures rows[i].ClockRow? && o.fromMs <= rows[i].bucketMs <= o.toMs && rows[i].bucketMs % interval == 0
  {
  }

  lemma {:induction false} NeverAtBound(o: Options, a: Answers, n: nat)
    requires WellTyped(a) && a.seed.Some? && n <= |a.deltas| && o.toSeq.None?
    ensures !Looped(Seeded(o, a), o, a, n).atBound
  {
    if n > 0 {
      NeverAtBound(o, a, n - 1);
      EveryStreamOrdered(a.deltas, n - 1);
      hide Looped, CaughtUp, Played;
      NeverAtBoundStep(Looped(Seeded(o, a), o, a, n - 1), a.deltas[n - 1], o, a.seed.value, a.snapshots,
          StreamOrder(a.deltas));
    }
  }

  lemma NeverAtBoundStep(p: Playback, d: Row, o: Options, seed: Row, snaps: seq<Row>, order: map<StreamId, nat>)
    requires IsDelta(d) && d.stream.value in order && seed.SnapshotRow? && o.toSeq.None? && !p.atBound
    requires forall i | 0 <= i < |snaps| :: snaps[i].SnapshotRow?
    ensures !Visited(p, d, o, seed, snaps, order).atBound
  {
    hide CaughtUp, Played, AtOrBeforeSeed;
    assert p.(onTarget := p.onTarget) == p;
    CatchingUpKeeps(p, snaps, d, order, o.ticker);
    PlayingKeeps(CaughtUp(p, snaps, d, order, o.ticker), d, o);
  }

  // ---------------------------------------------------------------------------
  // Exactly when every row is as of its time
  // ---------------------------------------------------------------------------

  /** The first late snapshot received after a grid point whose row waits for the end. */
  ghost predicate Overtakes(s: Setting, interval: nat, i: nat, g: int)
    requires interval > 0
  {
    && IsLate(s, i) && Owed(s, interval, g) && g < s.rows[i].atMs
    && forall j: nat | j < i && IsLate(s, j) :: s.rows[j].atMs <= g
  }

  ghost predicate IsLastLate(s: Setting, z: nat) {
    IsLate(s, z) && forall j: nat | IsLate(s, j) :: j <= z
  }

  /** Row z restores the book row i replaced. */
  ghost predicate Restores(s: Setting, i: nat, z: nat) {
    && i < |s.rows| && z < |s.rows| && s.rows[z].SnapshotRow?
    && BookAfter(s.rows[..i], s.o.ticker) == LaddersIn(s.rows[z])
  }

  /**
   * Wherever late snapshots overtake a grid point still owed its row, the last of them restores the
   * very book the first one replaced.
   */
  ghost predicate LateSnapshotsChangeNothing(s: Setting, interval: nat)
    requires interval > 0
  {
    forall i: nat, z: nat, g | Overtakes(s, interval, i, g) && IsLastLate(s, z) ::
      Restores(s, i, z)
  }

  /** Where every change so far is received by g, the trace as of g is what the rows describe. */
  lemma {:induction false} AsOfAllRows(rows: seq<Row>, m: Ticker, i: nat, g: int)
    requires i <= |rows| && forall j | 0 <= j < i && Changes(rows[j], m) :: rows[j].atMs <= g
    ensures AsOf(RowTrace(rows[..i], m), g) == BookAfter(rows[..i], m)
  {
    hide AsOf, WithRow;
    if i == 0 {
      assert rows[..0] == [];
      NothingAsOf(g);
    } else {
      AsOfAllRows(rows, m, i - 1, g);
      RowTraceNext(rows, i - 1, m);
      BookAfterNext(rows, i - 1, m);
      if Changes(rows[i - 1], m) {
        AsOfLast(RowTrace(rows[..i], m), g);
      } else {
        UnchangedByRow(BookAfter(rows[..i - 1], m), rows[i - 1], m);
        assert RowTrace(rows[..i - 1], m) + [] == RowTrace(rows[..i - 1], m);
      }
    }
  }

  lemma UnchangedByRow(l: Ladders, r: Row, m: Ticker)
    requires !Changes(r, m)
    ensures WithRow(l, r, m) == l
  {
  }

  lemma NothingAsOf(g: int)
    ensures AsOf([], g) == EMPTY_LADDERS
  {
  }

  /** The rows before the first change received after g describe the book as of g. */
  lemma {:induction false} AsOfRows(rows: seq<Row>, m: Ticker, i: nat, n: nat, g: int)
    requires i <= n <= |rows| && forall j | 0 <= j < i && Changes(rows[j], m) :: rows[j].atMs <= g
    requires forall j | i <= j < n && Changes(rows[j], m) :: rows[j].atMs > g
    ensures AsOf(RowTrace(rows[..n], m), g) == BookAfter(rows[..i], m)
  {
    if i == n {
      AsOfAllRows(rows, m, i, g);
    } else {
      AsOfRows(rows, m, i, n - 1, g);
      RowTraceNext(rows, n - 1, m);
      if Changes(rows[n - 1], m) {
        AsOfSnoc(RowTrace(rows[..n - 1], m), PositionOf(rows[n - 1], BookAfter(rows[..n], m)), g);
      } else {
        assert RowTrace(rows[..n - 1], m) + [] == RowTrace(rows[..n - 1], m);
      }
    }
  }

  /** The first change received after g. */
  lemma FirstAfter(s: Setting, g: int) returns (w: nat)
    requires Sound(s) && Ready(s)
    ensures w <= |s.rows| && (w < |s.rows| ==> Changes(s.rows[w], s.o.ticker) && s.rows[w].atMs > g)
    ensures forall j | 0 <= j < w && Changes(s.rows[j], s.o.ticker) :: s.rows[j].atMs <= g
    ensures forall j | w <= j < |s.rows| && Changes(s.rows[j], s.o.ticker) :: s.rows[j].atMs > g
    ensures AsOf(RowTrace(s.rows, s.o.ticker), g) == BookAfter(s.rows[..w], s.o.ticker)
  {
    hide Sound, Ready, AsOf, RowTrace, BookAfter;
    var m := s.o.ticker;
    w := 0;
    while w < |s.rows| && !(Changes(s.rows[w], m) && s.rows[w].atMs > g)
      invariant w <= |s.rows| && forall j | 0 <= j < w && Changes(s.rows[j], m) :: s.rows[j].atMs <= g
    {
      w := w + 1;
    }
    forall j | w <= j < |s.rows| && Changes(s.rows[j], m) ensures s.rows[j].atMs > g {
      if w < j {
        WrittenInOrder(s, w, j);
      }
    }
    assert s.rows[..|s.rows|] == s.rows;
    AsOfRows(s.rows, m, w, |s.rows|, g);
  }

  /** A change received in the window but after an owed grid point is a late snapshot. */
  lemma AfterOwedIsLate(s: Setting, interval: nat, g: int, i: nat)
    requires Sound(s) && Ready(s) && interval > 0 && Owed(s, interval, g) && s.rows[s.k].atMs <= s.o.fromMs
    requires i < |s.rows| && Changes(s.rows[i], s.o.ticker) && g < s.rows[i].atMs <= s.o.toMs
    ensures IsLate(s, i)
  {
    hide Changes, Orderly, AllFaithful, Answered;
    if i < s.k {
      WrittenInOrder(s, i, s.k);
      ChangesAbout(s.rows[i], s.o.ticker);
    }
    assert i > s.k;
    assert !IsMet(s, i);
  }

  lemma ChangesAbout(r: Row, m: Ticker)
    requires Changes(r, m)
    ensures About(r, m)
  {
  }

  lemma LastLateOne(s: Setting, i: nat) returns (z: nat)
    requires IsLate(s, i)
    ensures IsLastLate(s, z)
  {
    hide IsLate;
    LateIsARow(s, i);
    z := |s.rows| - 1;
    forall j: nat | IsLate(s, j) ensures j <= z {
      LateIsARow(s, j);
    }
    while !IsLate(s, z)
      invariant i <= z < |s.rows| && forall j: nat | IsLate(s, j) :: j <= z
      decreases z
    {
      z := z - 1;
    }
  }

  lemma LateIsARow(s: Setting, i: nat)
    requires IsLate(s, i)
    ensures i < |s.rows|
  {
  }

  lemma ChangesAreSelected(s: Setting, j: nat)
    requires Sound(s) && Ready(s) && s.k < j < |s.rows| && Changes(s.rows[j], s.o.ticker)
    requires s.rows[j].atMs <= s.o.toMs
    ensures Selects(s.Deltas(), s.rows[j]) || Selects(s.Snapshots(), s.rows[j])
  {
    WrittenInOrder(s, s.k, j);
    if s.rows[j].SnapshotRow? {
      SnapshotsAfterSeed(s, j);
    }
  }

  lemma LaterIsLate(s: Setting, z: nat, j: nat)
    requires IsLate(s, z) && z < j < |s.rows|
    ensures !Selects(s.Deltas(), s.rows[j])
    ensures Selects(s.Snapshots(), s.rows[j]) ==> IsLate(s, j)
  {
    hide Selects;
    assert Selects(s.Deltas(), s.rows[j]) ==> SomeDeltaAfter(s, z);
    assert forall x | j < x < |s.rows| :: Selects(s.Deltas(), s.rows[x]) ==> SomeDeltaAfter(s, z);
  }

  /** At the end of the window the book is the one the last late snapshot restored. */
  lemma LastLateIsTheEnd(s: Setting, z: nat)
    requires Sound(s) && Ready(s) && IsLastLate(s, z)
    ensures AsOf(RowTrace(s.rows, s.o.ticker), s.o.toMs) == LaddersIn(s.rows[z])
  {
    var m := s.o.ticker;
    var w := FirstAfter(s, s.o.toMs);
    SnapshotsFollowSeed(s, z);
    assert z < w;
    forall j | z < j < w ensures !Changes(s.rows[j], m) {
      if Changes(s.rows[j], m) {
        ChangesAreSelected(s, j);
        LaterIsLate(s, z, j);
      }
    }
    hide Sound, Ready, AsOf, RowTrace;
    QuietKeepsBook(s.rows, m, z + 1, w);
    BookAfterNext(s.rows, z, m);
  }

  /** The book is the same at an owed grid point as at the end of the window unless late snapshots change it. */
  lemma OwedPointsDecide(s: Setting, interval: nat, g: int)
    requires Sound(s) && Ready(s) && interval > 0 && Owed(s, interval, g) && s.rows[s.k].atMs <= s.o.fromMs
    ensures var trace := RowTrace(s.rows, s.o.ticker);
      AsOf(trace, g) == AsOf(trace, s.o.toMs) <==>
      forall i: nat, z: nat | Overtakes(s, interval, i, g) && IsLastLate(s, z) ::
        Restores(s, i, z)
  {
    hide Sound, Ready, AsOf, RowTrace, Restores, IsLate, LaddersIn, Owed, Overtakes, IsLastLate;
    var w := FirstAfter(s, g);
    if w < |s.rows| && s.rows[w].atMs <= s.o.toMs {
      FirstAfterOvertakes(s, interval, g, w);
      var z := LastLateOne(s, w);
      LastLateIsTheEnd(s, z);
      RestoresIs(s, w, z);
      OneLastLate(s);
    } else {
      var v := FirstAfter(s, s.o.toMs);
      NothingOvertakes(s, interval, g, w);
      OwedIsInWindow(s, interval, g);
      assert w == v;
    }
  }

  lemma OwedIsInWindow(s: Setting, interval: nat, g: int)
    requires interval > 0 && Owed(s, interval, g)
    ensures g <= s.o.toMs
  {
  }

  lemma RestoresIs(s: Setting, i: nat, z: nat)
    requires i < |s.rows| && IsLastLate(s, z)
    ensures z < |s.rows| && s.rows[z].SnapshotRow?
    ensures Restores(s, i, z) <==> BookAfter(s.rows[..i], s.o.ticker) == LaddersIn(s.rows[z])
  {
    hide BookAfter, LaddersIn;
  }

  lemma OneLastLate(s: Setting)
    ensures forall y: nat, z: nat | IsLastLate(s, y) && IsLastLate(s, z) :: y == z
  {
    hide IsLate;
  }

  /** The first change after an owed grid point, received in the window, is the only one to overtake it. */
  lemma FirstAfterOvertakes(s: Setting, interval: nat, g: int, w: nat)
    requires Sound(s) && Ready(s) && interval > 0 && Owed(s, interval, g) && s.rows[s.k].atMs <= s.o.fromMs
    requires w < |s.rows| && Changes(s.rows[w], s.o.ticker) && g < s.rows[w].atMs <= s.o.toMs
    requires forall j | 0 <= j < w && Changes(s.rows[j], s.o.ticker) :: s.rows[j].atMs <= g
    ensures IsLate(s, w) && Overtakes(s, interval, w, g)
    ensures forall i: nat | Overtakes(s, interval, i, g) :: i == w
  {
    AfterOwedIsLate(s, interval, g, w);
    hide Sound, Ready, IsLate, Changes, Owed;
    forall j: nat | j < w && IsLate(s, j) ensures s.rows[j].atMs <= g {
      LateChanges(s, j);
    }
    forall i: nat | Overtakes(s, interval, i, g) ensures i == w {
      LateChanges(s, i);
    }
  }

  lemma NothingOvertakes(s: Setting, interval: nat, g: int, w: nat)
    requires Sound(s) && interval > 0 && w <= |s.rows|
    requires w < |s.rows| ==> Changes(s.rows[w], s.o.ticker) && s.rows[w].atMs > s.o.toMs
    requires forall j | 0 <= j < w && Changes(s.rows[j], s.o.ticker) :: s.rows[j].atMs <= g
    ensures forall i: nat :: !Overtakes(s, interval, i, g)
  {
    hide Sound, IsLate, Owed;
    forall i: nat ensures !Overtakes(s, interval, i, g) {
      if Overtakes(s, interval, i, g) {
        LateChanges(s, i);
        if w < i {
          WrittenInOrder(s, w, i);
        }
      }
    }
  }

  lemma LateChanges(s: Setting, i: nat)
    requires IsLate(s, i)
    ensures i < |s.rows| && Changes(s.rows[i], s.o.ticker) && s.rows[i].atMs <= s.o.toMs
  {
  }

  lemma RowsDecide(rows: seq<OutRow>, s: Setting, interval: nat)
    requires interval > 0 && Sound(s) && Ready(s) && s.rows[s.k].atMs <= s.o.fromMs && IsGrid(rows, s.o, interval)
    requires forall i | 0 <= i < |rows| :: RowTells(rows[i], RowTrace(s.rows, s.o.ticker), s, interval)
    ensures (forall i | 0 <= i < |rows| :: RowIsAsOf(rows[i], RowTrace(s.rows, s.o.ticker))) <==>
      LateSnapshotsChangeNothing(s, interval)
  {
    var trace := RowTrace(s.rows, s.o.ticker);
    hide Sound, Ready, AsOf, RowTrace, Restores, IsLate, LaddersIn, IsLastLate;
    if forall i | 0 <= i < |rows| :: RowIsAsOf(rows[i], trace) {
      forall i: nat, z: nat, g | Overtakes(s, interval, i, g) && IsLastLate(s, z)
        ensures Restores(s, i, z)
      {
        assert Owed(s, interval, g);
        assert Listed(rows, g);
        var x :| 0 <= x < |rows| && rows[x].ClockRow? && rows[x].bucketMs == g;
        assert RowIsAsOf(rows[x], trace) && RowTells(rows[x], trace, s, interval);
        OwedPointsDecide(s, interval, g);
      }
    }
    if LateSnapshotsChangeNothing(s, interval) {
      forall i | 0 <= i < |rows| ensures RowIsAsOf(rows[i], trace) {
        assert RowTells(rows[i], trace, s, interval);
        if Owed(s, interval, rows[i].bucketMs) {
          OwedPointsDecide(s, interval, rows[i].bucketMs);
        }
      }
    }
  }

  /**
   * Trailing snapshots are never announced. Every row is as of its time if and only if, wherever late
   * snapshots overtake a grid point not before any change met in the loop over the deltas, the last of
   * them restores the very book the first one replaced.
   */
  lemma AsOfExactlyWhere(start: SessionId, events: seq<Event>, started: map<StreamId, int>,
                         o: Options, a: Answers, k: nat, interval: nat)
    requires LegalRun(start, events) && o.toSeq.None? && interval > 0 && !a.seedIsLate
    requires Orderly(Run(start, events).rows, o.ticker, started)
    requires Answered(Run(start, events).rows, started, o, a, Some(k))
    ensures WellTyped(a) && a.seed.Some? && Materialized(o, a, ClockMode, interval).Produced?
    ensures var rows, live := Materialized(o, a, ClockMode, interval).rows, LiveTrace(start, events, o.ticker);
      (forall i | 0 <= i < |rows| :: RowIsAsOf(rows[i], live)) <==>
          LateSnapshotsChangeNothing(Setting(Run(start, events).rows, started, o, a, k), interval)
  {
    var s := Setting(Run(start, events).rows, started, o, a, k);
    assert s.rows[k].atMs <= o.fromMs;
    hide LegalRun, Run, LiveTrace, Orderly, Answered, Materialized, IsGrid, RowIsAsOf, RowTells, Sound, RowTrace;
    hide LateSnapshotsChangeNothing, Mirrors, FiledByTicker;
    MaterializeShowsLive(start, events, started, o, a, k, interval);
    RunIsSound(start, events, started, o, a, k);
    SoundIsReady(s);
    LegalIsFresh(start, events);
    RowsTellTheLiveBook(start, events, o.ticker);
    RowsDecide(Materialized(o, a, ClockMode, interval).rows, s, interval);
  }

  /** With no snapshot after the last delta of the window, every row is the live book as of its grid point. */
  lemma MaterializeIsAsOf(start: SessionId, events: seq<Event>, started: map<StreamId, int>,
                          o: Options, a: Answers, k: nat, interval: nat)
    requires LegalRun(start, events) && o.toSeq.None? && interval > 0 && !a.seedIsLate
    requires Orderly(Run(start, events).rows, o.ticker, started)
    requires Answered(Run(start, events).rows, started, o, a, Some(k))
    requires forall i: nat :: !IsLate(Setting(Run(start, events).rows, started, o, a, k), i)
    ensures WellTyped(a)
    ensures var out, live := Materialized(o, a, ClockMode, interval), LiveTrace(start, events, o.ticker);
      out.Produced? && IsGrid(out.rows, o, interval) && forall i | 0 <= i < |out.rows| :: RowIsAsOf(out.rows[i], live)
  {
    hide LegalRun, Run, LiveTrace, Orderly, Answered, Materialized, AsOf, IsGrid, RowIsAsOf, RowTells, IsLate;
    MaterializeShowsLive(start, events, started, o, a, k, interval);
    AsOfExactlyWhere(start, events, started, o, a, k, interval);
  }

  /** The loop over the deltas meets every snapshot written before its last delta. */
  lemma {:induction false} LoopMeetsSnapshots(s: Setting, i: nat)
    requires Sound(s) && Ready(s) && s.k < i < |s.rows| && Selects(s.Deltas(), s.rows[i])
    ensures s.DeltasBy(i + 1) <= |s.a.deltas|
    ensures Looped(Seeded(s.o, s.a), s.o, s.a, s.DeltasBy(i + 1)).next >= s.SnapshotsBy(i)
  {
    assert s.o.toSeq.None?;
    hide Sound, Select, Selects, AtOrBeforeSeed, Played, StreamOrder, Visited, Looped, Seeded, Expected, BookAfter;
    ConsumedInOrder(s, i);
    SkippingIsExact(s, i);
    CountsNext(s, i);
    NextSelected(s, i);
    var n := s.DeltasBy(i);
    var p, d, order := Looped(Seeded(s.o, s.a), s.o, s.a, n), s.rows[i], StreamOrder(s.a.deltas);
    CatchingKeeps(p, s.a.snapshots, s.SnapshotsBy(i), s.o.ticker);
    LoopNext(s.o, s.a, n);
    MergeIsWritingOrder(s, i);
    VisitedFreely(p, d, s.o, s.rows[s.k], s.a.snapshots, order);
    CatchesUpExactly(p, s.a.snapshots, s.SnapshotsBy(i), d, order, s.o.ticker);
    PlayingKeeps(CaughtUp(p, s.a.snapshots, d, order, s.o.ticker), d, s.o);
  }
}
