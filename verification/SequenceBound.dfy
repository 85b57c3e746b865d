/**
 * What a replay bounded by a sequence number really ends with, over an orderly, faithful recording: when it
 * is the recorded book as of that number, and two short recordings where it is not.
 */
module SequenceBounds {
  import opened Values
  import opened CanonicalForm
  import opened MarketBooks
  import opened BookManagement
  import opened Capture
  import opened LiveHistory
  import opened FaithfulRows
  import opened Replaying
  import opened Queries
  import opened ReplayEquality
  import opened ReplayAccounting
  import opened AsOfSampling
  import opened OneMarketRun

  // ---------------------------------------------------------------------------
  // The bound, told by the recorded rows
  // ---------------------------------------------------------------------------

  /** A replay bounded on a named stream, over a recording an unbounded replay can be trusted with. */
  ghost predicate Bounded(s: Setting) {
    s.o.toSeq.Some? && s.o.toSeqStream.Some? && Sound(Free(s)) && Ready(s)
  }

  /** The same replay without its bound. */
  function Free(s: Setting): Setting {
    s.(o := Unbounded(s.o))
  }

  ghost predicate OnStream(s: Setting, i: nat) {
    i < |s.rows| && About(s.rows[i], s.o.ticker) && s.rows[i].stream == s.o.toSeqStream
  }

  predicate PastNumber(s: Setting, r: Row) {
    s.o.toSeq.Some? && !r.IntegrityRow? && r.seqNo.Some? && r.seqNo.value > s.o.toSeq.value
  }

  ghost predicate StreamSeen(s: Setting, i: nat) {
    exists j: nat :: j < i && OnStream(s, j)
  }

  /** The row stands for a position past the bound: later on its stream, or on a stream after it. */
  ghost predicate Beyond(s: Setting, i: nat)
    requires i < |s.rows|
  {
    if OnStream(s, i) then PastNumber(s, s.rows[i]) else StreamSeen(s, i)
  }

  /** The seed and what the window holds after it. */
  ghost predicate InWindow(s: Setting, i: nat)
    requires i < |s.rows|
  {
    Changes(s.rows[i], s.o.ticker) && (i <= s.k || s.rows[i].atMs <= s.o.toMs)
  }

  /** The last change of the window at or before the bound. */
  ghost predicate IsLastWithin(s: Setting, w: nat) {
    && w < |s.rows| && InWindow(s, w) && !Beyond(s, w)
    && forall j | w < j < |s.rows| && InWindow(s, j) :: Beyond(s, j)
  }

  /** The replay ends at the position of this row, with the book it left. */
  ghost predicate EndsAt(s: Setting, w: nat)
    requires WellTyped(s.a) && w < |s.rows| && !s.rows[w].IntegrityRow?
  {
    var r, l := ReplayOf(s.o, s.a), BookAfter(s.rows[..w + 1], s.o.ticker);
    var reached := Positions(r.report.hooks);
    && r.finalBook.Some? && r.finalBook.value.ladders == l && reached != []
    && var last := reached[|reached| - 1];
    last.stream == s.rows[w].stream && last.seqNo == s.rows[w].seqNo && last.ladders == l
  }

  /** What the option promises: the replay ends with the recorded book as of the bound. */
  ghost predicate EndsAtTheBound(s: Setting)
    requires WellTyped(s.a)
  {
    exists w: nat :: IsLastWithin(s, w) && !s.rows[w].IntegrityRow? && EndsAt(s, w)
  }

  /** A delta of the window that the seed does not contain. */
  ghost predicate IsPlayed(s: Setting, i: nat)
    requires Ready(s)
  {
    i < |s.rows| && Selects(s.Deltas(), s.rows[i]) && (i > s.k || LaterNumber(s.rows[i], s.rows[s.k]))
  }

  predicate LaterNumber(a: Row, b: Row) {
    !a.IntegrityRow? && !b.IntegrityRow? && a.seqNo.Some? && b.seqNo.Some? && a.seqNo.value > b.seqNo.value
  }

  ghost predicate TargetPlayed(s: Setting, i: nat)
    requires Ready(s)
  {
    exists j: nat :: j < i && IsPlayed(s, j) && OnStream(s, j)
  }

  /** The bound stops the replay at this delta, if not before. */
  ghost predicate Stops(s: Setting, t: nat)
    requires Ready(s)
  {
    IsPlayed(s, t) && if OnStream(s, t) then PastNumber(s, s.rows[t]) else TargetPlayed(s, t)
  }

  /** A delta within the bound was written after the row. */
  ghost predicate DeltaWithinFollows(s: Setting, i: nat)
    requires Ready(s)
  {
    exists l: nat :: i < l && IsPlayed(s, l) && !Beyond(s, l)
  }

  /**
   * What it takes: the seed lies within the bound; where a delta of the window lies past it, every
   * snapshot within it is followed by a delta within it; where none does, no change of the window lies
   * past it.
   */
  ghost predicate BoundIsKept(s: Setting)
    requires Ready(s)
  {
    && !Beyond(s, s.k)
    && if exists t: nat :: Stops(s, t) then
         forall i | 0 <= i < |s.rows| && Selects(s.Snapshots(), s.rows[i]) && !Beyond(s, i) :: DeltaWithinFollows(s, i)
       else
         forall i | s.k < i < |s.rows| && InWindow(s, i) :: !Beyond(s, i)
  }

  // ---------------------------------------------------------------------------
  // Positions past the bound stay past it
  // ---------------------------------------------------------------------------

  lemma FreeIsReady(s: Setting)
    requires Bounded(s)
    ensures Ready(Free(s)) && Free(s).Deltas() == s.Deltas() && Free(s).Snapshots() == s.Snapshots()
  {
  }

  lemma Ordered(s: Setting, i: nat, j: nat)
    requires Bounded(s) && i < j < |s.rows|
    ensures IsPlaced(s.rows[i], s.o.ticker) && IsPlaced(s.rows[j], s.o.ticker)
    ensures InOrder(s.rows[i], s.rows[j], s.o.ticker, s.started)
  {
    WrittenInOrder(Free(s), i, j);
  }

  lemma StreamsDoNotReturn(s: Setting, i: nat, j: nat, l: nat)
    requires Bounded(s) && i < j < l < |s.rows| && About(s.rows[j], s.o.ticker)
    ensures OnStream(s, i) && OnStream(s, l) ==> OnStream(s, j)
  {
    hide Sound, Ready;
    if OnStream(s, i) && OnStream(s, l) {
      NoReturn(Free(s), i, j, l);
    }
  }

  lemma BeyondStays(s: Setting, i: nat, j: nat)
    requires Bounded(s) && i <= j < |s.rows| && About(s.rows[i], s.o.ticker) && About(s.rows[j], s.o.ticker)
    requires IsFed(s.rows[i]) && IsFed(s.rows[j]) && Beyond(s, i)
    ensures Beyond(s, j)
  {
    hide Bounded;
    if i < j {
      Ordered(s, i, j);
      if OnStream(s, i) {
        assert !OnStream(s, j) ==> StreamSeen(s, j);
      } else {
        var x: nat :| x < i && OnStream(s, x);
        StreamsDoNotReturn(s, x, i, j);
        assert x < j && OnStream(s, x);
      }
    }
  }

  lemma ChangesAreFed(r: Row, m: Ticker)
    requires Changes(r, m)
    ensures About(r, m) && IsFed(r)
  {
  }

  lemma PlayedIsFed(s: Setting, i: nat)
    requires Ready(s) && IsPlayed(s, i)
    ensures i < |s.rows| && About(s.rows[i], s.o.ticker) && IsFed(s.rows[i]) && Selects(s.Deltas(), s.rows[i])
  {
  }

  /** The seed lies past the bound exactly when the change it repeats does. */
  lemma SeedStandsForItsOrigin(s: Setting) returns (c: nat)
    requires Bounded(s)
    ensures c <= s.k < |s.rows| && Changes(s.rows[c], s.o.ticker) && (Beyond(s, s.k) <==> Beyond(s, c))
    ensures forall i | c < i <= s.k :: !Changes(s.rows[i], s.o.ticker)
    ensures BookAfter(s.rows[..s.k + 1], s.o.ticker) == BookAfter(s.rows[..c + 1], s.o.ticker)
    ensures LaddersIn(s.rows[s.k]) == BookAfter(s.rows[..c + 1], s.o.ticker)
    ensures s.rows[c].stream == s.rows[s.k].stream && s.rows[c].seqNo == s.rows[s.k].seqNo
  {
    hide Sound, BookAfter, LaddersIn, Ready, Changes;
    FreeIsReady(s);
    c := SeedOrigin(Free(s));
    SeedIsThere(s);
    hide Bounded;
    if !OnStream(s, c) && c < s.k {
      if StreamSeen(s, s.k) {
        var j: nat :| j < s.k && OnStream(s, j);
        if j > c {
          SameStreamBetween(s, c, j, s.k);
        }
      }
      assert StreamSeen(s, c) ==> StreamSeen(s, s.k);
    }
  }

  lemma SeedIsThere(s: Setting)
    requires Bounded(s)
    ensures s.k < |s.rows| && About(s.rows[s.k], s.o.ticker) && s.rows[s.k].SnapshotRow?
  {
  }

  lemma SameStreamBetween(s: Setting, i: nat, j: nat, l: nat)
    requires Bounded(s) && i < j < l < |s.rows|
    requires About(s.rows[i], s.o.ticker) && About(s.rows[j], s.o.ticker) && About(s.rows[l], s.o.ticker)
    requires s.rows[i].stream == s.rows[l].stream
    ensures s.rows[j].stream == s.rows[i].stream
  {
    NoReturn(Free(s), i, j, l);
  }

  /** Where the bound stops at t, the deltas played before it are those within the bound. */
  lemma WithinBeforeTheStop(s: Setting, t: nat, l: nat)
    requires Bounded(s) && Stops(s, t) && (forall x: nat | x < t :: !Stops(s, x)) && IsPlayed(s, l)
    ensures t < |s.rows| && l < |s.rows| && (l < t <==> !Beyond(s, l))
  {
    PlayedIsFed(s, t);
    PlayedIsFed(s, l);
    if t <= l {
      StopIsBeyond(s, t);
      BeyondStays(s, t, l);
    } else if Beyond(s, l) {
      assert !Stops(s, l);
      StopAfterTheStream(s, l, t);
    }
  }

  lemma StopIsBeyond(s: Setting, t: nat)
    requires Ready(s) && Stops(s, t)
    ensures t < |s.rows| && Beyond(s, t)
  {
    if !OnStream(s, t) {
      var j: nat :| j < t && IsPlayed(s, j) && OnStream(s, j);
      assert StreamSeen(s, t);
    }
  }

  /** Nothing stops the replay after a delta of a later stream that did not. */
  lemma StopAfterTheStream(s: Setting, l: nat, t: nat)
    requires Bounded(s) && l < t < |s.rows| && IsPlayed(s, l) && Beyond(s, l) && !Stops(s, l) && IsPlayed(s, t)
    ensures !Stops(s, t)
  {
    PlayedIsFed(s, l);
    PlayedIsFed(s, t);
    hide Bounded, IsPlayed;
    assert !OnStream(s, l);
    var j: nat :| j < l && OnStream(s, j);
    StreamsDoNotReturn(s, j, l, t);
    forall x: nat | x < t && IsPlayed(s, x) ensures !OnStream(s, x) {
      PlayedIsFed(s, x);
      if x < l {
        assert !TargetPlayed(s, l);
      } else if l < x {
        StreamsDoNotReturn(s, j, l, x);
      }
    }
  }

  // ---------------------------------------------------------------------------
  // What the bounded replay shows
  // ---------------------------------------------------------------------------

  /** A delta of the window is played exactly when the replay does not skip it as contained in the seed. */
  lemma PlayedExactly(s: Setting, i: nat)
    requires Bounded(s) && i < |s.rows| && Selects(s.Deltas(), s.rows[i])
    ensures IsDelta(s.rows[i]) && s.rows[i].stream.value in StreamOrder(s.a.deltas)
    ensures AtOrBeforeSeed(s.rows[i], s.rows[s.k], StreamOrder(s.a.deltas)) <==> !IsPlayed(s, i)
  {
    var f := Free(s);
    FreeIsReady(s);
    if s.rows[i].applied || i > s.k {
      SkippingIsExact(f, i);
      if i < s.k {
        AppliedBeforeSeed(s, i);
        Ordered(s, i, s.k);
      }
    } else {
      var order := StreamOrder(s.a.deltas);
      assert i < s.k;
      IsListed(s, i);
      Ordered(s, i, s.k);
    }
  }

  lemma IsListed(s: Setting, i: nat)
    requires Bounded(s) && i < |s.rows| && Selects(s.Deltas(), s.rows[i])
    ensures IsDelta(s.rows[i]) && s.rows[i].stream.value in StreamOrder(s.a.deltas)
  {
    hide StreamOrder;
    NextSelected(Free(s), i);
    EveryStreamOrdered(s.a.deltas, s.DeltasBy(i));
  }

  lemma AppliedBeforeSeed(s: Setting, i: nat)
    requires Bounded(s) && i < s.k && About(s.rows[i], s.o.ticker) && s.rows[i].DeltaRow? && s.rows[i].applied
    ensures !LaterNumber(s.rows[i], s.rows[s.k]) || s.rows[i].stream != s.rows[s.k].stream
  {
    var c := SeedStandsForItsOrigin(s);
    hide BookAfter, LaddersIn;
    if i < c {
      Ordered(s, i, c);
    }
  }

  /** Up to the first delta the bound stops at, a bounded replay goes the way of the unbounded one. */
  lemma {:induction false} BoundedLoop(s: Setting, i: nat)
    requires Bounded(s) && i <= |s.rows| && forall x: nat | x < i :: !Stops(s, x)
    ensures s.DeltasBy(i) <= |s.a.deltas| && GoesAlong(s, i, s.DeltasBy(i))
  {
    hide Sound, Visited, Select, IsPlayed;
    FreeIsReady(s);
    WindowsFit(Free(s), i);
    if i == 0 {
      assert s.rows[..0] == [];
      NothingSelected(s);
    } else {
      BoundedLoop(s, i - 1);
      CountsNext(s, i - 1);
      if Selects(s.Deltas(), s.rows[i - 1]) {
        BoundedVisit(s, i - 1);
      } else {
        UnselectedIsNotPlayed(s, i - 1);
        hide Looped, Seeded, Selects;
        TargetPlayedNext(s, i - 1);
      }
    }
  }

  lemma UnselectedIsNotPlayed(s: Setting, i: nat)
    requires Ready(s) && i < |s.rows| && !Selects(s.Deltas(), s.rows[i])
    ensures !IsPlayed(s, i)
  {
  }

  lemma NothingSelected(s: Setting)
    ensures s.DeltasBy(0) == 0
  {
    assert s.rows[..0] == [];
  }

  lemma TargetPlayedNext(s: Setting, i: nat)
    requires Ready(s) && i < |s.rows|
    ensures TargetPlayed(s, i + 1) <==> TargetPlayed(s, i) || (IsPlayed(s, i) && OnStream(s, i))
  {
    hide IsPlayed, OnStream, Ready;
    if TargetPlayed(s, i) {
      var j: nat :| j < i && IsPlayed(s, j) && OnStream(s, j);
      assert j < i + 1 && IsPlayed(s, j) && OnStream(s, j);
    }
    if IsPlayed(s, i) && OnStream(s, i) {
      assert i < i + 1 && IsPlayed(s, i) && OnStream(s, i);
    }
  }

  /** The bounded loop over the first n deltas has gone the way of the unbounded one, up to row i. */
  ghost predicate GoesAlong(s: Setting, i: nat, n: nat)
    requires Ready(s) && n <= |s.a.deltas|
  {
    var p := Looped(Seeded(s.o, s.a), s.o, s.a, n);
    && !p.atBound && !p.broken && (p.onTarget <==> TargetPlayed(s, i))
    && SamePlayback(p, Looped(Seeded(Unbounded(s.o), s.a), Unbounded(s.o), s.a, n))
  }

  lemma BoundedVisit(s: Setting, i: nat)
    requires Bounded(s) && i < |s.rows| && Selects(s.Deltas(), s.rows[i]) && !Stops(s, i)
    requires s.DeltasBy(i) < |s.a.deltas| && GoesAlong(s, i, s.DeltasBy(i))
    ensures GoesAlong(s, i + 1, s.DeltasBy(i) + 1)
  {
    hide Sound, Looped, Select, Selects, AtOrBeforeSeed, IsPlayed, SamePlayback, Visited, StreamOrder, Stops, Seeded;
    var n, d, order := s.DeltasBy(i), s.rows[i], StreamOrder(s.a.deltas);
    var p, q := Looped(Seeded(s.o, s.a), s.o, s.a, n), Looped(Seeded(Unbounded(s.o), s.a), Unbounded(s.o), s.a, n);
    PlayedExactly(s, i);
    NextSelected(Free(s), i);
    TargetPlayedNext(s, i);
    LoopNext(s.o, s.a, n);
    LoopNext(Unbounded(s.o), s.a, n);
    NeverBroken(s, i + 1);
    CountsNext(s, i);
    VisitDecides(s, i, p);
    VisitedAlike(p, q, d, s.o, s.rows[s.k], s.a.snapshots, order);
    SameBroken(Visited(p, d, s.o, s.rows[s.k], s.a.snapshots, order),
               Visited(q, d, Unbounded(s.o), s.rows[s.k], s.a.snapshots, order));
  }

  lemma SameBroken(p: Playback, q: Playback)
    requires SamePlayback(p, q)
    ensures p.broken == q.broken
  {
  }

  lemma NeverBroken(s: Setting, i: nat)
    requires Bounded(s) && i <= |s.rows|
    ensures s.DeltasBy(i) <= |s.a.deltas|
    ensures !Looped(Seeded(Unbounded(s.o), s.a), Unbounded(s.o), s.a, s.DeltasBy(i)).broken
  {
    var f := Free(s);
    FreeIsReady(s);
    ConsumedInOrder(f, i);
    WindowsFit(f, i);
    CatchingKeeps(Looped(Seeded(f.o, f.a), f.o, f.a, f.DeltasBy(i)), f.a.snapshots, f.SnapshotsBy(i), f.o.ticker);
  }

  /** One delta under the bound. */
  lemma VisitDecides(s: Setting, i: nat, p: Playback)
    requires Bounded(s) && i < |s.rows| && Selects(s.Deltas(), s.rows[i]) && IsDelta(s.rows[i])
    requires s.rows[i].stream.value in StreamOrder(s.a.deltas)
    requires AtOrBeforeSeed(s.rows[i], s.rows[s.k], StreamOrder(s.a.deltas)) <==> !IsPlayed(s, i)
    requires !p.atBound && !p.broken && (p.onTarget <==> TargetPlayed(s, i))
    ensures var v := Visited(p, s.rows[i], s.o, s.rows[s.k], s.a.snapshots, StreamOrder(s.a.deltas));
      if Stops(s, i) then v == p.(atBound := true)
      else !v.atBound && (v.onTarget <==> TargetPlayed(s, i) || (IsPlayed(s, i) && OnStream(s, i)))
  {
    hide Sound, AtOrBeforeSeed, StreamOrder, CaughtUp, Played, IsPlayed, TargetPlayed;
    var d, order := s.rows[i], StreamOrder(s.a.deltas);
    assert OnTargetStream(d, s.o) <==> OnStream(s, i);
    var q := p.(onTarget := p.onTarget || (s.o.toSeq.Some? && OnTargetStream(d, s.o)));
    CatchingUpKeeps(q, s.a.snapshots, d, order, s.o.ticker);
    PlayingKeeps(CaughtUp(q, s.a.snapshots, d, order, s.o.ticker), d, s.o);
  }

  /** The deltas before row t end at e: just past the last of them written after the seed, or past the seed. */
  ghost predicate LoopEndsAt(s: Setting, t: nat, e: nat)
    requires Ready(s)
  {
    && t <= |s.rows| && s.k < e <= |s.rows|
    && (e == s.k + 1 || (e <= t && Selects(s.Deltas(), s.rows[e - 1])))
    && forall j | e <= j < t :: !Selects(s.Deltas(), s.rows[j])
  }

  lemma EndOfLoop(s: Setting, t: nat) returns (e: nat)
    requires Ready(s) && t <= |s.rows|
    ensures LoopEndsAt(s, t, e)
  {
    hide Selects;
    e := if t <= s.k then s.k + 1 else t;
    while e > s.k + 1 && !Selects(s.Deltas(), s.rows[e - 1])
      invariant s.k < e <= |s.rows| && (e <= t || e == s.k + 1)
      invariant forall j | e <= j < t :: !Selects(s.Deltas(), s.rows[j])
    {
      e := e - 1;
    }
  }

  /** What the first deltas show: the rows up to the last of them. */
  lemma PrefixShows(s: Setting, t: nat, e: nat)
    requires Sound(s) && Ready(s) && LoopEndsAt(s, t, e)
    ensures s.DeltasBy(t) <= |s.a.deltas|
    ensures var p := Looped(Seeded(s.o, s.a), s.o, s.a, s.DeltasBy(t));
      && Positions(p.report.hooks) == [SeedPosition(s)] + Expected(s, e) && NeverDiverged(p.report.warnings)
  {
    assert Expected(s, s.k + 1) == [] && [SeedPosition(s)] + [] == [SeedPosition(s)];
    hide Sound, Looped, Select, Selects, LaddersIn, Expected;
    if e == s.k + 1 {
      QuietPrefix(s, t, e);
    } else {
      ShownUpTo(s, t, e);
      ShowsPositions(s, e, Looped(Seeded(s.o, s.a), s.o, s.a, s.DeltasBy(t)));
    }
  }

  lemma ShowsPositions(s: Setting, e: nat, p: Playback)
    requires Ready(s) && e <= |s.rows| && Shows(s, e, p)
    ensures Positions(p.report.hooks) == [SeedPosition(s)] + Expected(s, e) && NeverDiverged(p.report.warnings)
  {
  }

  lemma ShownUpTo(s: Setting, t: nat, e: nat)
    requires Sound(s) && Ready(s) && LoopEndsAt(s, t, e) && e > s.k + 1
    ensures s.DeltasBy(t) <= |s.a.deltas|
    ensures Shows(s, e, Looped(Seeded(s.o, s.a), s.o, s.a, s.DeltasBy(t)))
  {
    hide Sound, Looped, Select, Selects, Shows;
    ConsumedInOrder(s, e);
    NoMoreDeltas(s, e, t);
    WindowsFit(s, e);
    LoopMeetsSnapshots(s, e - 1);
    CountsNext(s, e - 1);
    DeltaIsNoSnapshot(s.rows[e - 1], s.Deltas(), s.Snapshots());
  }

  /** Until a delta is written after the seed, only the seed is shown. */
  lemma QuietPrefix(s: Setting, t: nat, e: nat)
    requires Sound(s) && Ready(s) && LoopEndsAt(s, t, e) && e == s.k + 1
    ensures s.DeltasBy(t) <= |s.a.deltas|
    ensures var p := Looped(Seeded(s.o, s.a), s.o, s.a, s.DeltasBy(t));
      Positions(p.report.hooks) == [SeedPosition(s)] && NeverDiverged(p.report.warnings)
  {
    hide Sound, Looped, Select, Selects, LaddersIn;
    var n := if t <= s.k then t else s.k + 1;
    ConsumedInOrder(s, n);
    NoMoreDeltas(s, n, t);
    WindowsFit(s, n);
    NoSnapshotBySeed(s, n);
    assert Expected(s, n) == [];
    assert [SeedPosition(s)] + [] == [SeedPosition(s)];
  }

  /** A replay ends with the book of the last position it reached. */
  ghost predicate EndsWith(s: Setting, e: nat)
    requires Ready(s) && e <= |s.rows|
  {
    var r := ReplayOf(s.o, s.a);
    var reached := Positions(r.report.hooks);
    && reached == [SeedPosition(s)] + Expected(s, e)
    && r.finalBook.Some? && r.finalBook.value.ladders == reached[|reached| - 1].ladders
  }

  lemma SteadyEnd(p: Playback)
    requires Steady(p)
    ensures var reached := Positions(p.report.hooks); reached != [] && p.book.ladders == reached[|reached| - 1].ladders
  {
    LastPosition(p.report.hooks);
  }

  /** A replay stopped at row t shows the rows up to the last delta before it. */
  lemma StoppedEnd(s: Setting, t: nat, e: nat)
    requires Bounded(s) && Stops(s, t) && (forall x: nat | x < t :: !Stops(s, x)) && LoopEndsAt(s, t, e)
    ensures EndsWith(s, e)
  {
    var f := Free(s);
    FreeIsReady(s);
    PlayedIsFed(s, t);
    BoundedLoop(s, t);
    NextSelected(f, t);
    var n := s.DeltasBy(t);
    var p, q := Looped(Seeded(s.o, s.a), s.o, s.a, n), Looped(Seeded(f.o, f.a), f.o, f.a, n);
    LoopEndsFree(s, t, e);
    PrefixShows(f, t, e);
    StopIsInTheLoop(s, t);
    hide Sound, Visited, Select, Selects, IsPlayed, LoopEndsAt, Stops, Steady, Expected, StopsAt;
    BoundStopsBeforeSnapshots(s.o, s.a, n);
    LoopingSteady(f.o, f.a, n);
    SteadyEnd(q);
    hide Looped, ReplayOf;
    SamePlaybacks(p, q);
    SameExpected(s, e);
  }

  lemma StopIsInTheLoop(s: Setting, t: nat)
    requires Bounded(s) && Stops(s, t) && t < |s.rows| && Selects(s.Deltas(), s.rows[t])
    requires s.DeltasBy(t) < |s.a.deltas| && s.a.deltas[s.DeltasBy(t)] == s.rows[t] && GoesAlong(s, t, s.DeltasBy(t))
    ensures StopsAt(s.o, s.a, s.DeltasBy(t))
  {
    PlayedExactly(s, t);
    hide Sound, Looped, AtOrBeforeSeed, StreamOrder, TargetPlayed, SamePlayback, IsPlayed, Select;
  }

  lemma SamePlaybacks(p: Playback, q: Playback)
    requires SamePlayback(p, q)
    ensures p.report == q.report && p.book == q.book
  {
  }

  lemma LoopEndsFree(s: Setting, t: nat, e: nat)
    requires Bounded(s) && LoopEndsAt(s, t, e)
    ensures Ready(Free(s)) && LoopEndsAt(Free(s), t, e)
  {
    hide Sound;
  }

  /** What is expected of a window does not depend on the bound. */
  lemma {:induction false} SameExpected(s: Setting, e: nat)
    requires Ready(s) && Ready(Free(s)) && e <= |s.rows|
    ensures Expected(s, e) == Expected(Free(s), e) && SeedPosition(s) == SeedPosition(Free(s))
  {
    hide Ready, BookAfter, Changes;
    if e > s.k + 1 {
      SameExpected(s, e - 1);
    }
  }

  /** A replay the bound never stops shows all the window. */
  lemma UnstoppedEnd(s: Setting)
    requires Bounded(s) && forall x: nat :: !Stops(s, x)
    ensures EndsWith(s, |s.rows|)
  {
    var f, n := Free(s), |s.rows|;
    FreeIsReady(s);
    BoundedLoop(s, n);
    WindowsFit(f, n);
    hide Stops, Sound, Select, Selects;
    assert !AfterDeltas(s.o, s.a).atBound;
    hide Looped, Expected;
    UnstoppedIsUnbounded(s.o, s.a);
    ReplayShowsTheRows(f);
    NeverAtBound(f.o, f.a, |f.a.deltas|);
    UnboundedEnd(f.o, f.a);
    SameExpected(s, n);
  }

  lemma UnboundedEnd(o: Options, a: Answers)
    requires WellTyped(a) && a.seed.Some? && NeverDiverged(ReplayOf(o, a).report.warnings) && !AfterDeltas(o, a).atBound
    ensures var r := ReplayOf(o, a);
      var reached := Positions(r.report.hooks);
      reached != [] && r.finalBook.Some? && r.finalBook.value.ladders == reached[|reached| - 1].ladders
  {
    hide ReplayOf, AfterDeltas, NeverDiverged, Positions;
    var more := HooksSplit(o, a);
    EndsReached(AfterDeltas(o, a).report.hooks, more);
    LastPosition(ReplayOf(o, a).report.hooks);
  }

  // ---------------------------------------------------------------------------
  // Where the replay ends
  // ---------------------------------------------------------------------------

  /** The last change of the window among the first e rows. */
  ghost predicate IsLastShown(s: Setting, e: nat, v: nat) {
    v < e <= |s.rows| && s.k < e && InWindow(s, v) && forall j | v < j < e :: !InWindow(s, j)
  }

  lemma LastShown(s: Setting, e: nat) returns (v: nat)
    requires Bounded(s) && s.k < e <= |s.rows|
    ensures IsLastShown(s, e, v)
  {
    hide Bounded, BookAfter, LaddersIn, Beyond;
    var c := SeedStandsForItsOrigin(s);
    assert InWindow(s, c);
    hide InWindow;
    v := e - 1;
    while !InWindow(s, v)
      invariant c <= v < e && forall j | v < j < e :: !InWindow(s, j)
      decreases v
    {
      v := v - 1;
    }
  }

  /** The last change shown is not before the one the seed repeats. */
  lemma ShownAfterOrigin(s: Setting, e: nat, v: nat, c: nat)
    requires IsLastShown(s, e, v) && c <= s.k < |s.rows| && Changes(s.rows[c], s.o.ticker)
    requires forall i | c < i <= s.k :: !Changes(s.rows[i], s.o.ticker)
    ensures c <= v && (v <= s.k ==> v == c)
  {
    assert InWindow(s, c);
  }

  /** The last of the positions is the row's own, with the book it left. */
  ghost predicate LastIs(shown: seq<Position>, s: Setting, v: nat)
    requires v < |s.rows|
  {
    shown != [] && !s.rows[v].IntegrityRow? &&
    var last := shown[|shown| - 1];
    && last.stream == s.rows[v].stream && last.seqNo == s.rows[v].seqNo
    && last.ladders == BookAfter(s.rows[..v + 1], s.o.ticker)
  }

  lemma SeedIsShown(s: Setting, v: nat)
    requires Bounded(s) && IsLastShown(s, s.k + 1, v)
    ensures LastIs([SeedPosition(s)], s, v)
  {
    hide BookAfter, LaddersIn, Sound, Beyond;
    var c := SeedStandsForItsOrigin(s);
    ShownAfterOrigin(s, s.k + 1, v, c);
  }

  /** The last position shown is that of the last change shown. */
  lemma {:induction false} LastOfExpected(s: Setting, e: nat, v: nat)
    requires Bounded(s) && IsLastShown(s, e, v)
    ensures LastIs([SeedPosition(s)] + Expected(s, e), s, v)
  {
    hide Bounded, BookAfter, LaddersIn, Ready;
    assert Ready(s) by { BoundedIsReady(s); }
    if e == s.k + 1 {
      assert [SeedPosition(s)] + [] == [SeedPosition(s)];
      SeedIsShown(s, v);
    } else if v < e - 1 {
      LastOfExpected(s, e - 1, v);
      assert !InWindow(s, e - 1);
    }
  }

  lemma BoundedIsReady(s: Setting)
    requires Bounded(s)
    ensures Ready(s)
  {
  }

  lemma EndsAtShown(s: Setting, e: nat, v: nat)
    requires Bounded(s) && IsLastShown(s, e, v) && EndsWith(s, e)
    ensures !s.rows[v].IntegrityRow? && EndsAt(s, v)
  {
    hide ReplayOf, BookAfter, Expected, Positions, SeedPosition, Sound;
    LastOfExpected(s, e, v);
  }

  /** No two changes leave the same position. */
  lemma OneEnd(s: Setting, v: nat, w: nat)
    requires Bounded(s) && v < |s.rows| && w < |s.rows| && InWindow(s, v) && InWindow(s, w)
    requires EndsAt(s, v) && EndsAt(s, w)
    ensures v == w
  {
    hide ReplayOf, BookAfter, Positions;
    assert s.rows[v].stream == s.rows[w].stream && s.rows[v].seqNo == s.rows[w].seqNo;
    hide EndsAt;
    if v < w {
      Ordered(s, v, w);
    } else if w < v {
      Ordered(s, w, v);
    }
  }

  /** The last change shown is within the bound exactly when the seed and all shown changes are. */
  lemma ShownWithin(s: Setting, e: nat, v: nat)
    requires Bounded(s) && IsLastShown(s, e, v)
    ensures s.k < |s.rows|
    ensures !Beyond(s, v) ==> !Beyond(s, s.k) && forall j | j < e && s.k < j && InWindow(s, j) :: !Beyond(s, j)
    ensures v <= s.k ==> (Beyond(s, v) <==> Beyond(s, s.k))
  {
    var c := SeedStandsForItsOrigin(s);
    hide BookAfter, LaddersIn, Beyond;
    ShownAfterOrigin(s, e, v, c);
    ChangesAreFed(s.rows[v], s.o.ticker);
    ChangesAreFed(s.rows[c], s.o.ticker);
    if !Beyond(s, v) {
      if Beyond(s, c) {
        BeyondStays(s, c, v);
      }
      forall j | j < e && s.k < j && InWindow(s, j) ensures !Beyond(s, j) {
        ChangesAreFed(s.rows[j], s.o.ticker);
        if Beyond(s, j) {
          BeyondStays(s, j, v);
        }
      }
    }
  }

  /** Where the bound never stops the replay. */
  lemma UnstoppedWithin(s: Setting, v: nat)
    requires Bounded(s) && (forall x: nat :: !Stops(s, x)) && IsLastShown(s, |s.rows|, v)
    ensures IsLastWithin(s, v) <==> BoundIsKept(s)
  {
    ShownWithin(s, |s.rows|, v);
    hide Sound, Ready, Stops, Beyond, InWindow;
  }

  /** A change after the last one shown is past the bound, or a snapshot no delta within it follows. */
  lemma AfterTheStop(s: Setting, t: nat, e: nat, i: nat)
    requires Bounded(s) && Stops(s, t) && (forall x: nat | x < t :: !Stops(s, x)) && LoopEndsAt(s, t, e)
    requires e <= i < |s.rows| && InWindow(s, i)
    ensures Beyond(s, i) || (Selects(s.Snapshots(), s.rows[i]) && !DeltaWithinFollows(s, i))
  {
    FreeIsReady(s);
    ChangesAreSelected(Free(s), i);
    PlayedIsFed(s, t);
    hide Sound, Beyond, Selects, Changes;
    if Selects(s.Deltas(), s.rows[i]) {
      assert IsPlayed(s, i);
      WithinBeforeTheStop(s, t, i);
    } else if DeltaWithinFollows(s, i) {
      var l: nat :| i < l && IsPlayed(s, l) && !Beyond(s, l);
      WithinBeforeTheStop(s, t, l);
      PlayedIsFed(s, l);
    }
  }

  /** A snapshot before the last delta shown is followed by it. */
  lemma BeforeTheStop(s: Setting, t: nat, e: nat, i: nat)
    requires Bounded(s) && Stops(s, t) && (forall x: nat | x < t :: !Stops(s, x)) && LoopEndsAt(s, t, e)
    requires i < e && Selects(s.Snapshots(), s.rows[i])
    ensures DeltaWithinFollows(s, i)
  {
    FreeIsReady(s);
    SnapshotsFollowSeed(Free(s), i);
    DeltaIsNoSnapshot(s.rows[e - 1], s.Deltas(), s.Snapshots());
    assert IsPlayed(s, e - 1);
    hide Sound, Beyond, Selects, IsPlayed, Stops;
    WithinBeforeTheStop(s, t, e - 1);
    assert i < e - 1;
  }

  lemma LastDeltaWithin(s: Setting, t: nat, e: nat, v: nat)
    requires Bounded(s) && Stops(s, t) && (forall x: nat | x < t :: !Stops(s, x)) && LoopEndsAt(s, t, e)
    requires IsLastShown(s, e, v) && e > s.k + 1
    ensures !Beyond(s, v)
  {
    assert IsPlayed(s, e - 1);
    WithinBeforeTheStop(s, t, e - 1);
    PlayedIsFed(s, e - 1);
    ChangesAreFed(s.rows[v], s.o.ticker);
    hide Sound, Beyond, Selects, IsPlayed, Stops;
    if Beyond(s, v) {
      BeyondStays(s, v, e - 1);
    }
  }

  lemma SelectedSnapshotChanges(s: Setting, i: nat)
    requires i < |s.rows| && Selects(s.Snapshots(), s.rows[i])
    ensures InWindow(s, i)
  {
  }

  /** Where the bound stops the replay. */
  lemma StoppedWithin(s: Setting, t: nat, e: nat, v: nat)
    requires Bounded(s) && Stops(s, t) && (forall x: nat | x < t :: !Stops(s, x)) && LoopEndsAt(s, t, e)
    requires IsLastShown(s, e, v)
    ensures IsLastWithin(s, v) <==> BoundIsKept(s)
  {
    ShownWithin(s, e, v);
    hide Sound, Ready, Stops, Beyond, InWindow, Selects, DeltaWithinFollows;
    if IsLastWithin(s, v) {
      forall i | 0 <= i < |s.rows| && Selects(s.Snapshots(), s.rows[i]) && !Beyond(s, i)
        ensures DeltaWithinFollows(s, i)
      {
        SelectedSnapshotChanges(s, i);
        BeforeTheStop(s, t, e, i);
      }
    }
    if BoundIsKept(s) {
      if e > s.k + 1 {
        LastDeltaWithin(s, t, e, v);
      }
      forall j | v < j < |s.rows| && InWindow(s, j) ensures Beyond(s, j) {
        AfterTheStop(s, t, e, j);
      }
    }
  }

  lemma FirstStop(s: Setting, x: nat) returns (t: nat)
    requires Ready(s) && Stops(s, x)
    ensures t <= x && Stops(s, t) && forall y: nat | y < t :: !Stops(s, y)
  {
    hide Stops, Ready;
    t := 0;
    while !Stops(s, t)
      invariant t <= x && forall y: nat | y < t :: !Stops(s, y)
      decreases x - t
    {
      t := t + 1;
    }
  }

  /**
   * A bounded replay over an orderly, faithful recording ends with the recorded book as of its bound if
   * and only if the seed lies within the bound and, where a delta of the window lies past it, every
   * snapshot within it is followed by a delta within it, or, where no delta does, no change of the
   * window lies past it.
   */
  lemma BoundIsExactWhere(s: Setting)
    requires Bounded(s)
    ensures EndsAtTheBound(s) <==> BoundIsKept(s)
  {
    var v: nat;
    if x: nat :| Stops(s, x) {
      var t := FirstStop(s, x);
      PlayedIsFed(s, t);
      var e := EndOfLoop(s, t);
      v := LastShown(s, e);
      StoppedEnd(s, t, e);
      EndsAtShown(s, e, v);
      StoppedWithin(s, t, e, v);
    } else {
      v := LastShown(s, |s.rows|);
      UnstoppedEnd(s);
      EndsAtShown(s, |s.rows|, v);
      UnstoppedWithin(s, v);
    }
    hide Bounded, BoundIsKept, EndsAt, Stops;
    if EndsAtTheBound(s) {
      var w: nat :| IsLastWithin(s, w) && !s.rows[w].IntegrityRow? && EndsAt(s, w);
      OneEnd(s, v, w);
    }
  }

  /** A bounded replay over the rows of a legal run. */
  lemma RunIsBounded(start: SessionId, events: seq<Event>, started: map<StreamId, int>, o: Options, a: Answers, k: nat)
    requires LegalRun(start, events) && o.toSeq.Some? && o.toSeqStream.Some?
    requires Orderly(Run(start, events).rows, o.ticker, started)
    requires Answered(Run(start, events).rows, started, o, a, Some(k))
    ensures Bounded(Setting(Run(start, events).rows, started, o, a, k))
  {
    var rows := Run(start, events).rows;
    var s := Setting(rows, started, o, a, k);
    assert Answered(rows, started, Unbounded(o), a, Some(k));
    hide LegalRun, Run, Orderly, Answered, Sound;
    RunIsSound(start, events, started, Unbounded(o), a, k);
    SoundIsReady(Free(s));
    ReadyEitherWay(s);
  }

  lemma ReadyEitherWay(s: Setting)
    requires Ready(Free(s))
    ensures Ready(s)
  {
  }

  /** The live book was at this position, with this book. */
  ghost predicate WasLive(live: seq<Position>, r: Row, l: Ladders) {
    !r.IntegrityRow? && PositionOf(r, l) in live
  }

  /** Every change on record is a state the live book was in. */
  lemma ChangesWereLive(rows: seq<Row>, m: Ticker, w: nat)
    requires w < |rows| && Changes(rows[w], m)
    ensures WasLive(RowTrace(rows, m), rows[w], BookAfter(rows[..w + 1], m))
  {
    RowTraceNext(rows, w, m);
    TracePrefix(rows, m, w + 1, |rows|);
    assert rows[..|rows|] == rows;
    var upTo := RowTrace(rows[..w + 1], m);
    assert upTo[|upTo| - 1] == PositionOf(rows[w], BookAfter(rows[..w + 1], m));
    assert upTo[|upTo| - 1] in upTo;
  }

  lemma {:induction false} TracePrefix(rows: seq<Row>, m: Ticker, i: nat, j: nat)
    requires i <= j <= |rows|
    ensures RowTrace(rows[..i], m) <= RowTrace(rows[..j], m)
  {
    if i < j {
      TracePrefix(rows, m, i, j - 1);
      RowTraceNext(rows, j - 1, m);
    }
  }

  /**
   * The sequence bound over every legal run: a bounded replay ends with the state the live book was in
   * at or before the bound - the last such state of the window - exactly where the rows keep the bound.
   */
  lemma BoundIsExactOnRuns(start: SessionId, events: seq<Event>, started: map<StreamId, int>,
                           o: Options, a: Answers, k: nat)
    requires LegalRun(start, events) && o.toSeq.Some? && o.toSeqStream.Some?
    requires Orderly(Run(start, events).rows, o.ticker, started)
    requires Answered(Run(start, events).rows, started, o, a, Some(k))
    ensures WellTyped(a) && Ready(Setting(Run(start, events).rows, started, o, a, k))
    ensures var s := Setting(Run(start, events).rows, started, o, a, k);
      && (EndsAtTheBound(s) <==> BoundIsKept(s))
      && forall w: nat | IsLastWithin(s, w) ::
           WasLive(LiveTrace(start, events, o.ticker), s.rows[w], BookAfter(s.rows[..w + 1], o.ticker))
  {
    var s := Setting(Run(start, events).rows, started, o, a, k);
    hide LegalRun, Run, Orderly, Answered, LiveTrace, RowTrace, Mirrors, FiledByTicker, BookAfter, WasLive;
    RunIsBounded(start, events, started, o, a, k);
    BoundIsExactWhere(s);
    LegalIsFresh(start, events);
    RowsTellTheLiveBook(start, events, o.ticker);
    hide Bounded, EndsAtTheBound, BoundIsKept, Beyond;
    forall w: nat | IsLastWithin(s, w)
      ensures WasLive(LiveTrace(start, events, o.ticker), s.rows[w], BookAfter(s.rows[..w + 1], o.ticker))
    {
      ChangesWereLive(s.rows, o.ticker, w);
    }
  }

  // ---------------------------------------------------------------------------
  // Two recordings where the bound is not kept
  // ---------------------------------------------------------------------------

  ghost predicate IsRecording(s: Setting, m: Ticker, toSeq: int) {
    && 3 <= |s.rows| <= 4 && (forall i | 0 <= i < |s.rows| :: IsRowOf(s.rows[i], m, i + 1))
    && s.o == Asking(m, Some(toSeq)) && s.a == AnswersFrom(s.rows) && s.k == 0
  }

  lemma RecordingOf(m: Ticker, n: nat, toSeq: int) returns (s: Setting)
    requires 3 <= n <= 4
    ensures LegalRun(SESSION, Events(m, n)) && s.rows == Run(SESSION, Events(m, n)).rows && |s.rows| == n
    ensures IsRecording(s, m, toSeq) && Bounded(s)
  {
    hide LegalRun, Run, Events, Orderly, Answered, Sound, IsRowOf, StandsAt, Bounded, AnswersFrom;
    RunRecords(m, n);
    RunIsLegal(m, n);
    RecordingIsOrderly(m, n);
    var rows := Run(SESSION, Events(m, n)).rows;
    RecordingAnswers(rows, m, Some(toSeq));
    s := Setting(rows, map[], Asking(m, Some(toSeq)), AnswersFrom(rows), 0);
    RunIsBounded(SESSION, Events(m, n), map[], s.o, s.a, 0);
  }

  lemma RecordingFacts(s: Setting, m: Ticker, toSeq: int, i: nat)
    requires IsRecording(s, m, toSeq) && Ready(s) && i < |s.rows|
    ensures OnStream(s, i) && (Beyond(s, i) <==> i + 1 > toSeq) && InWindow(s, i)
    ensures IsPlayed(s, i) <==> i == 1 || i == 3
    ensures Selects(s.Snapshots(), s.rows[i]) <==> i == 2
    ensures Selects(s.Deltas(), s.rows[i]) <==> i == 1 || i == 3
  {
    hide LaddersIn, BookNow, Ready;
    assert IsRowOf(s.rows[i], m, i + 1) && IsRowOf(s.rows[0], m, 1);
  }

  /**
   * A snapshot at number 3 lies within the bound 3, but the delta at 4 ends the replay before it is
   * applied: the replay ends with the book of number 2.
   */
  lemma SnapshotWithinIsMissed(m: Ticker) returns (s: Setting)
    ensures LegalRun(SESSION, Events(m, 4)) && s.rows == Run(SESSION, Events(m, 4)).rows && Bounded(s)
    ensures s.o == Asking(m, Some(3)) && IsLastWithin(s, 2) && !EndsAtTheBound(s)
    ensures BookAfter(s.rows[..3], m) == BookNow(3)
    ensures ReplayOf(s.o, s.a).finalBook.Some? && ReplayOf(s.o, s.a).finalBook.value.ladders == BookNow(2) != BookNow(3)
  {
    hide Bounded, LegalRun, Run, Events, Ready, ReplayOf, BookAfter, IsLastWithin, IsRowOf, AnswersFrom, BoundIsKept;
    s := RecordingOf(m, 4, 3);
    BoundedIsReady(s);
    MissedWithinTheBound(s, m);
    BoundIsExactWhere(s);
    BooksOfRecording(s, m, 3);
  }

  lemma MissedWithinTheBound(s: Setting, m: Ticker)
    requires IsRecording(s, m, 3) && Bounded(s) && |s.rows| == 4
    ensures IsLastWithin(s, 2) && !BoundIsKept(s) && EndsAt(s, 1)
  {
    BoundedIsReady(s);
    hide Bounded, Ready, ReplayOf, BookAfter, Beyond, InWindow, IsPlayed, Selects, OnStream, EndsAt, AnswersFrom;
    forall i: nat | i < 4
      ensures OnStream(s, i) && InWindow(s, i)
      ensures (Beyond(s, i) <==> i + 1 > 3) && (IsPlayed(s, i) <==> i == 1 || i == 3)
    {
      RecordingFacts(s, m, 3, i);
    }
    RecordingFacts(s, m, 3, 1);
    RecordingFacts(s, m, 3, 2);
    StopsAtTheFourth(s, m);
    NoDeltaWithinFollows(s, m);
    hide Stops, DeltaWithinFollows;
    StoppedEnd(s, 3, 2);
    assert IsLastShown(s, 2, 1);
    EndsAtShown(s, 2, 1);
  }

  lemma StopsAtTheFourth(s: Setting, m: Ticker)
    requires IsRecording(s, m, 3) && Ready(s) && |s.rows| == 4
    ensures Stops(s, 3) && forall x: nat | x < 3 :: !Stops(s, x)
  {
    forall i: nat | i < 4 ensures OnStream(s, i) && (IsPlayed(s, i) <==> i == 1 || i == 3) {
      RecordingFacts(s, m, 3, i);
    }
    hide Ready, IsPlayed, OnStream;
    assert IsRowOf(s.rows[1], m, 2) && IsRowOf(s.rows[3], m, 4);
  }

  lemma NoDeltaWithinFollows(s: Setting, m: Ticker)
    requires IsRecording(s, m, 3) && Ready(s) && |s.rows| == 4
    ensures !DeltaWithinFollows(s, 2)
  {
    RecordingFacts(s, m, 3, 3);
  }

  /** No delta lies past the bound 2, so nothing is bounded: the snapshot at 3 is applied. */
  lemma SnapshotPastIsApplied(m: Ticker) returns (s: Setting)
    ensures LegalRun(SESSION, Events(m, 3)) && s.rows == Run(SESSION, Events(m, 3)).rows && Bounded(s)
    ensures s.o == Asking(m, Some(2)) && IsLastWithin(s, 1) && !EndsAtTheBound(s)
    ensures BookAfter(s.rows[..2], m) == BookNow(2)
    ensures ReplayOf(s.o, s.a).finalBook.Some? && ReplayOf(s.o, s.a).finalBook.value.ladders == BookNow(3) != BookNow(2)
  {
    hide Bounded, LegalRun, Run, Events, Ready, ReplayOf, BookAfter, IsLastWithin, IsRowOf, AnswersFrom, BoundIsKept;
    s := RecordingOf(m, 3, 2);
    BoundedIsReady(s);
    AppliedPastTheBound(s, m);
    BoundIsExactWhere(s);
    BooksOfRecording(s, m, 2);
  }

  lemma BooksOfRecording(s: Setting, m: Ticker, toSeq: int)
    requires IsRecording(s, m, toSeq)
    ensures BookAfter(s.rows[..2], m) == BookNow(2) && BookAfter(s.rows[..3], m) == BookNow(3)
    ensures BookNow(2) != BookNow(3)
  {
    hide IsRowOf, BookAfter;
    RowsTellTheBook(s.rows, m, 2);
    RowsTellTheBook(s.rows, m, 3);
    assert BookNow(2).yes[PRICE] != BookNow(3).yes[PRICE];
  }

  lemma AppliedPastTheBound(s: Setting, m: Ticker)
    requires IsRecording(s, m, 2) && Bounded(s) && |s.rows| == 3
    ensures IsLastWithin(s, 1) && !BoundIsKept(s) && EndsAt(s, 2)
  {
    BoundedIsReady(s);
    hide Bounded, Ready, ReplayOf, BookAfter, EndsAt, Stops, AnswersFrom, IsRowOf;
    ShownPastTheBound(s, m);
    NeverStops(s, m);
    UnstoppedEnd(s);
    hide Beyond, InWindow, IsLastWithin, Selects;
    EndsAtShown(s, 3, 2);
  }

  lemma ShownPastTheBound(s: Setting, m: Ticker)
    requires IsRecording(s, m, 2) && Ready(s) && |s.rows| == 3
    ensures IsLastShown(s, 3, 2) && IsLastWithin(s, 1) && Beyond(s, 2) && InWindow(s, 2)
  {
    RecordingFacts(s, m, 2, 0);
    RecordingFacts(s, m, 2, 1);
    RecordingFacts(s, m, 2, 2);
    hide Beyond, InWindow, OnStream, IsPlayed, Ready, Selects, IsRowOf;
  }

  lemma NeverStops(s: Setting, m: Ticker)
    requires IsRecording(s, m, 2) && Ready(s) && |s.rows| == 3
    ensures forall x: nat :: !Stops(s, x)
  {
    forall x: nat ensures !Stops(s, x) {
      if x < 3 {
        RecordingFacts(s, m, 2, x);
        assert IsRowOf(s.rows[x], m, x + 1);
      }
    }
  }
}
