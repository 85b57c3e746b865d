/** What every replay accounts for, and what a sequence bound really bounds. */
module ReplayAccounting {
  import opened Values
  import opened MarketBooks
  import opened BookManagement
  import opened LiveHistory
  import opened Replaying

  // ---------------------------------------------------------------------------
  // Every delta is applied, skipped or reported
  // ---------------------------------------------------------------------------

  function Divergences(ws: seq<Warning>): nat {
    if ws == [] then 0 else Divergences(ws[..|ws| - 1]) + (if ws[|ws| - 1].Diverged? then 1 else 0)
  }

  function AppliedIn(es: seq<Epoch>): nat {
    if es == [] then 0 else AppliedIn(es[..|es| - 1]) + es[|es| - 1].applied
  }

  function SkippedIn(es: seq<Epoch>): nat {
    if es == [] then 0 else SkippedIn(es[..|es| - 1]) + es[|es| - 1].skipped
  }

  /** Totals, epochs and warnings tell the same story. */
  ghost predicate AddsUp(r: Report) {
    && r.epochs != []
    && r.total == r.applied + r.skipped + Divergences(r.warnings)
    && AppliedIn(r.epochs) == r.applied
    && SkippedIn(r.epochs) == r.skipped + Divergences(r.warnings)
  }

  lemma CountingAdds(es: seq<Epoch>, applied: nat, skipped: nat, gaps: nat)
    requires es != []
    ensures var es' := Counting(es, applied, skipped, gaps);
      es' != [] && AppliedIn(es') == AppliedIn(es) + applied && SkippedIn(es') == SkippedIn(es) + skipped
  {
    var es' := Counting(es, applied, skipped, gaps);
    assert es'[..|es'| - 1] == es[..|es| - 1];
  }

  lemma NewEpochAddsNothing(es: seq<Epoch>, snap: Row)
    requires snap.SnapshotRow?
    ensures AppliedIn(es + [NewEpoch(snap)]) == AppliedIn(es) && SkippedIn(es + [NewEpoch(snap)]) == SkippedIn(es)
  {
    assert (es + [NewEpoch(snap)])[..|es|] == es;
  }

  lemma WarningAdds(ws: seq<Warning>, w: Warning)
    ensures Divergences(ws + [w]) == Divergences(ws) + (if w.Diverged? then 1 else 0)
  {
    assert (ws + [w])[..|ws|] == ws;
  }

  lemma ReseedingAddsUp(p: Playback, snap: Row, m: Ticker, inLoop: bool)
    requires snap.SnapshotRow? && AddsUp(p.report)
    ensures AddsUp(Reseeded(p, snap, m, inLoop).report)
  {
    var es := p.report.epochs;
    NewEpochAddsNothing(es, snap);
    CountingAdds(es, 0, 0, 1);
    CountingAdds(es + [NewEpoch(snap)], 0, 0, 1);
    hide BookFromSnapshot, Counting, AppliedIn, SkippedIn, Divergences;
  }

  lemma PlayingAddsUp(p: Playback, d: Row, o: Options)
    requires IsDelta(d) && AddsUp(p.report)
    ensures AddsUp(Played(p, d, o).report)
  {
    hide Changed, Counting, AppliedIn, SkippedIn, Divergences;
    var es, ws := p.report.epochs, p.report.warnings;
    if d.applied && Applies(p.book.ladders, d.change) {
      CountingAdds(es, 1, 0, 0);
    } else {
      CountingAdds(es, 0, 1, 0);
      WarningAdds(ws, if d.applied then Diverged(d.seqNo.value) else NotAppliedWhenRecorded(d.seqNo.value));
    }
  }

  lemma {:induction false} CatchingUpAddsUp(p: Playback, snaps: seq<Row>, d: Row, order: map<StreamId, nat>, m: Ticker)
    requires (forall i | 0 <= i < |snaps| :: snaps[i].SnapshotRow?) && IsDelta(d) && AddsUp(p.report)
    ensures AddsUp(CaughtUp(p, snaps, d, order, m).report)
    decreases |snaps| - p.next
  {
    hide Reseeded, AddsUp, SnapshotPrecedes;
    if p.next < |snaps| && SnapshotPrecedes(snaps[p.next], d, order) {
      ReseedingAddsUp(p, snaps[p.next], m, true);
      ReseedingKeeps(p, snaps[p.next], m, true);
      CatchingUpAddsUp(Reseeded(p, snaps[p.next], m, true), snaps, d, order, m);
    }
  }

  lemma VisitingAddsUp(p: Playback, d: Row, o: Options, seed: Row, snaps: seq<Row>, order: map<StreamId, nat>)
    requires IsDelta(d) && d.stream.value in order && seed.SnapshotRow? && AddsUp(p.report)
    requires forall i | 0 <= i < |snaps| :: snaps[i].SnapshotRow?
    ensures AddsUp(Visited(p, d, o, seed, snaps, order).report)
  {
    hide AddsUp, CaughtUp, Played, AtOrBeforeSeed;
    var q := p.(onTarget := p.onTarget || (o.toSeq.Some? && OnTargetStream(d, o)));
    CatchingUpAddsUp(q, snaps, d, order, o.ticker);
    PlayingAddsUp(CaughtUp(q, snaps, d, order, o.ticker), d, o);
  }

  lemma {:induction false} LoopingAddsUp(o: Options, a: Answers, n: nat)
    requires WellTyped(a) && a.seed.Some? && n <= |a.deltas|
    ensures AddsUp(Looped(Seeded(o, a), o, a, n).report)
  {
    hide Visited;
    if n == 0 {
      SeedAddsUp(o, a);
    } else {
      LoopingAddsUp(o, a, n - 1);
      EveryStreamOrdered(a.deltas, n - 1);
      hide AddsUp;
      VisitingAddsUp(Looped(Seeded(o, a), o, a, n - 1), a.deltas[n - 1], o, a.seed.value, a.snapshots,
          StreamOrder(a.deltas));
    }
  }

  lemma SeedAddsUp(o: Options, a: Answers)
    requires WellTyped(a) && a.seed.Some?
    ensures AddsUp(Seeded(o, a).report)
  {
    NewEpochAddsNothing([], a.seed.value);
    assert [] + [NewEpoch(a.seed.value)] == [NewEpoch(a.seed.value)];
    WarningAdds([], StartsLate(a.seed.value.atMs));
    assert [] + [StartsLate(a.seed.value.atMs)] == [StartsLate(a.seed.value.atMs)];
  }

  lemma {:induction false} DrainingAddsUp(p: Playback, snaps: seq<Row>, o: Options)
    requires (forall i | 0 <= i < |snaps| :: snaps[i].SnapshotRow?) && AddsUp(p.report)
    ensures AddsUp(Drained(p, snaps, o).report)
    decreases |snaps| - p.next
  {
    hide Reseeded, AddsUp;
    if p.next < |snaps| && snaps[p.next].atMs <= o.toMs {
      ReseedingAddsUp(p, snaps[p.next], o.ticker, false);
      ReseedingKeeps(p, snaps[p.next], o.ticker, false);
      DrainingAddsUp(Reseeded(p, snaps[p.next], o.ticker, false), snaps, o);
    }
  }

  /**
   * Of every replay, over any rows: each delta it counted was applied, skipped as recorded, or
   * reported as a divergence, and the epochs add up to the totals.
   */
  lemma EveryDeltaIsAccountedFor(o: Options, a: Answers)
    requires WellTyped(a) && a.seed.Some?
    ensures AddsUp(ReplayOf(o, a).report)
  {
    hide AddsUp, Looped;
    LoopingAddsUp(o, a, |a.deltas|);
    DrainingAddsUp(AfterDeltas(o, a), a.snapshots, o);
  }

  // ---------------------------------------------------------------------------
  // What a sequence bound bounds
  // ---------------------------------------------------------------------------

  /** The n-th delta is the first that the bound stops. */
  ghost predicate StopsAt(o: Options, a: Answers, n: nat)
    requires WellTyped(a) && a.seed.Some?
  {
    && n < |a.deltas|
    && var p := Looped(Seeded(o, a), o, a, n);
    && !p.atBound && !p.broken
    && a.deltas[n].stream.Some? && a.deltas[n].stream.value in StreamOrder(a.deltas)
    && !AtOrBeforeSeed(a.deltas[n], a.seed.value, StreamOrder(a.deltas))
    && PastBound(a.deltas[n], o, p.onTarget)
  }

  /**
   * A bound that stops at a delta leaves the replay where the delta before it left it: snapshots
   * recorded between the two are not applied, though they may well lie within the bound.
   */
  lemma BoundStopsBeforeSnapshots(o: Options, a: Answers, n: nat)
    requires WellTyped(a) && a.seed.Some? && StopsAt(o, a, n)
    ensures ReplayOf(o, a).report == Looped(Seeded(o, a), o, a, n).report
    ensures ReplayOf(o, a).finalBook == Some(Looped(Seeded(o, a), o, a, n).book)
  {
    var p := Looped(Seeded(o, a), o, a, n);
    assert Looped(Seeded(o, a), o, a, n + 1) == p.(atBound := true);
    StaysStopped(Seeded(o, a), o, a, n + 1, |a.deltas|);
  }

  ghost predicate SamePlayback(p: Playback, q: Playback) {
    p == q.(onTarget := p.onTarget)
  }

  lemma {:induction false} CaughtUpAlike(p: Playback, q: Playback, snaps: seq<Row>, d: Row,
                                          order: map<StreamId, nat>, m: Ticker)
    requires (forall i | 0 <= i < |snaps| :: snaps[i].SnapshotRow?) && IsDelta(d) && SamePlayback(p, q)
    ensures SamePlayback(CaughtUp(p, snaps, d, order, m), CaughtUp(q, snaps, d, order, m))
    decreases |snaps| - p.next
  {
    if p.next < |snaps| && SnapshotPrecedes(snaps[p.next], d, order) {
      CaughtUpAlike(Reseeded(p, snaps[p.next], m, true), Reseeded(q, snaps[p.next], m, true), snaps, d, order, m);
    }
  }

  function Unbounded(o: Options): Options {
    o.(toSeq := None)
  }

  lemma PlayedAlike(p: Playback, q: Playback, d: Row, o: Options)
    requires IsDelta(d) && SamePlayback(p, q)
    ensures SamePlayback(Played(p, d, o), Played(q, d, Unbounded(o)))
  {
    hide Changed, Counting;
    assert q == p.(onTarget := q.onTarget);
  }

  lemma VisitedAlike(p: Playback, q: Playback, d: Row, o: Options, seed: Row, snaps: seq<Row>,
                     order: map<StreamId, nat>)
    requires IsDelta(d) && d.stream.value in order && seed.SnapshotRow? && SamePlayback(p, q)
    requires forall i | 0 <= i < |snaps| :: snaps[i].SnapshotRow?
    requires !p.atBound && !Visited(p, d, o, seed, snaps, order).atBound
    ensures SamePlayback(Visited(p, d, o, seed, snaps, order), Visited(q, d, Unbounded(o), seed, snaps, order))
  {
    hide AtOrBeforeSeed, SnapshotPrecedes, Played, CaughtUp;
    var p' := p.(onTarget := p.onTarget || (o.toSeq.Some? && OnTargetStream(d, o)));
    assert q.(onTarget := q.onTarget) == q;
    CaughtUpAlike(p', q, snaps, d, order, o.ticker);
    PlayedAlike(CaughtUp(p', snaps, d, order, o.ticker), CaughtUp(q, snaps, d, order, o.ticker), d, o);
  }

  lemma {:induction false} DrainedAlike(p: Playback, q: Playback, snaps: seq<Row>, o: Options)
    requires (forall i | 0 <= i < |snaps| :: snaps[i].SnapshotRow?) && SamePlayback(p, q)
    ensures SamePlayback(Drained(p, snaps, o), Drained(q, snaps, Unbounded(o)))
    decreases |snaps| - p.next
  {
    if p.next < |snaps| && snaps[p.next].atMs <= o.toMs {
      DrainedAlike(Reseeded(p, snaps[p.next], o.ticker, false), Reseeded(q, snaps[p.next], o.ticker, false), snaps, o);
    }
  }

  lemma {:induction false} LoopedAlike(o: Options, a: Answers, n: nat)
    requires WellTyped(a) && a.seed.Some? && n <= |a.deltas|
    requires !Looped(Seeded(o, a), o, a, n).atBound
    ensures SamePlayback(Looped(Seeded(o, a), o, a, n), Looped(Seeded(Unbounded(o), a), Unbounded(o), a, n))
  {
    hide Visited;
    if n > 0 {
      EveryStreamOrdered(a.deltas, n - 1);
      StaysAtBound(o, a, n);
      LoopedAlike(o, a, n - 1);
      VisitedAlike(Looped(Seeded(o, a), o, a, n - 1), Looped(Seeded(Unbounded(o), a), Unbounded(o), a, n - 1),
                   a.deltas[n - 1], o, a.seed.value, a.snapshots, StreamOrder(a.deltas));
    }
  }

  lemma UnstoppedIsUnbounded(o: Options, a: Answers)
    requires WellTyped(a) && a.seed.Some? && !AfterDeltas(o, a).atBound
    ensures ReplayOf(o, a) == ReplayOf(Unbounded(o), a)
  {
    hide Looped, Drained;
    LoopedAlike(o, a, |a.deltas|);
    DrainedAlike(AfterDeltas(o, a), AfterDeltas(Unbounded(o), a), a.snapshots, o);
  }

  lemma StaysAtBound(o: Options, a: Answers, n: nat)
    requires WellTyped(a) && a.seed.Some? && 0 < n <= |a.deltas|
    ensures Looped(Seeded(o, a), o, a, n - 1).atBound ==> Looped(Seeded(o, a), o, a, n).atBound
  {
    hide CaughtUp, Played;
    EveryStreamOrdered(a.deltas, n - 1);
  }

  /** The n-th delta is one the seed does not contain. */
  ghost predicate AfterSeed(o: Options, a: Answers, n: nat)
    requires WellTyped(a) && a.seed.Some?
  {
    && n < |a.deltas| && a.deltas[n].stream.value in StreamOrder(a.deltas)
    && !AtOrBeforeSeed(a.deltas[n], a.seed.value, StreamOrder(a.deltas))
  }

  /** A delta on the bound's stream that the seed does not contain comes before the n-th. */
  ghost predicate TargetBefore(o: Options, a: Answers, n: nat)
    requires WellTyped(a) && a.seed.Some?
  {
    o.toSeqStream.None? || exists j: nat :: j < n && AfterSeed(o, a, j) && OnTargetStream(a.deltas[j], o)
  }

  /** The n-th delta, not contained in the seed, lies past the bound. */
  ghost predicate LiesPast(o: Options, a: Answers, n: nat)
    requires WellTyped(a) && a.seed.Some?
  {
    AfterSeed(o, a, n) && PastBound(a.deltas[n], o, TargetBefore(o, a, n))
  }

  lemma TargetNext(o: Options, a: Answers, n: nat)
    requires WellTyped(a) && a.seed.Some? && n < |a.deltas|
    ensures TargetBefore(o, a, n + 1) <==>
      TargetBefore(o, a, n) || (AfterSeed(o, a, n) && OnTargetStream(a.deltas[n], o))
  {
    hide AfterSeed, OnTargetStream;
    if j: nat :| j < n && AfterSeed(o, a, j) && OnTargetStream(a.deltas[j], o) {
      assert j < n + 1 && AfterSeed(o, a, j) && OnTargetStream(a.deltas[j], o);
    }
    if AfterSeed(o, a, n) && OnTargetStream(a.deltas[n], o) {
      assert n < n + 1 && AfterSeed(o, a, n) && OnTargetStream(a.deltas[n], o);
    }
  }

  /** Whether the bound has stopped the replay, told by the deltas alone, unless a strict replay broke off before. */
  lemma {:induction false} BoundIsInTheDeltas(o: Options, a: Answers, n: nat)
    requires WellTyped(a) && a.seed.Some? && n <= |a.deltas|
    ensures var p := Looped(Seeded(o, a), o, a, n);
      && (p.atBound ==> SomeLiesPast(o, a, n))
      && (!p.broken && !p.atBound ==>
            !SomeLiesPast(o, a, n) && (o.toSeq.Some? ==> p.onTarget == TargetBefore(o, a, n)))
  {
    hide Visited, AtOrBeforeSeed, LiesPast, Looped, Seeded, TargetBefore, AfterSeed, SomeLiesPast, StreamOrder;
    if n == 0 {
      NothingUnderBound(o, a);
    } else {
      var p := Looped(Seeded(o, a), o, a, n - 1);
      BoundIsInTheDeltas(o, a, n - 1);
      LoopNext(o, a, n - 1);
      TargetNext(o, a, n - 1);
      SomeNext(o, a, n - 1);
      if p.atBound || p.broken {
        StaysStopped(Seeded(o, a), o, a, n - 1, n);
      } else {
        OneMoreUnderBound(o, a, n - 1, p);
      }
    }
  }

  lemma NothingUnderBound(o: Options, a: Answers)
    requires WellTyped(a) && a.seed.Some?
    ensures var p := Looped(Seeded(o, a), o, a, 0);
      !p.atBound && !p.broken && !SomeLiesPast(o, a, 0) && p.onTarget == TargetBefore(o, a, 0)
  {
  }

  /** One of the first n deltas lies past the bound. */
  ghost predicate SomeLiesPast(o: Options, a: Answers, n: nat)
    requires WellTyped(a) && a.seed.Some?
  {
    exists x: nat :: x < n && LiesPast(o, a, x)
  }

  lemma SomeNext(o: Options, a: Answers, n: nat)
    requires WellTyped(a) && a.seed.Some?
    ensures SomeLiesPast(o, a, n + 1) <==> SomeLiesPast(o, a, n) || LiesPast(o, a, n)
  {
    hide LiesPast;
    if x: nat :| x < n && LiesPast(o, a, x) {
      assert x < n + 1 && LiesPast(o, a, x);
    }
    if LiesPast(o, a, n) {
      assert n < n + 1 && LiesPast(o, a, n);
    }
  }

  lemma OneMoreUnderBound(o: Options, a: Answers, n: nat, p: Playback)
    requires WellTyped(a) && a.seed.Some? && n < |a.deltas| && IsDelta(a.deltas[n])
    requires a.deltas[n].stream.value in StreamOrder(a.deltas)
    requires !p.atBound && !p.broken && (o.toSeq.Some? ==> p.onTarget == TargetBefore(o, a, n))
    ensures var v := Visited(p, a.deltas[n], o, a.seed.value, a.snapshots, StreamOrder(a.deltas));
      && (v.atBound <==> LiesPast(o, a, n))
      && (o.toSeq.Some? && !v.atBound ==>
            v.onTarget == (TargetBefore(o, a, n) || (AfterSeed(o, a, n) && OnTargetStream(a.deltas[n], o))))
  {
    hide AtOrBeforeSeed, CaughtUp, Played, TargetBefore, StreamOrder;
    var d, order := a.deltas[n], StreamOrder(a.deltas);
    var q := p.(onTarget := p.onTarget || (o.toSeq.Some? && OnTargetStream(d, o)));
    CatchingUpKeeps(q, a.snapshots, d, order, o.ticker);
    PlayingKeeps(CaughtUp(q, a.snapshots, d, order, o.ticker), d, o);
  }

  /**
   * A bound past which no delta lies bounds nothing: the replay is the unbounded one, and snapshots
   * past the bound are applied.
   */
  lemma BoundWithoutLaterDeltaIsNone(o: Options, a: Answers)
    requires WellTyped(a) && a.seed.Some? && forall n: nat :: !LiesPast(o, a, n)
    ensures ReplayOf(o, a) == ReplayOf(Unbounded(o), a)
  {
    hide Looped, Drained, LiesPast, ReplayOf;
    BoundIsInTheDeltas(o, a, |a.deltas|);
    UnstoppedIsUnbounded(o, a);
  }

  /** A replay that did not break off was stopped by its bound exactly when some delta lies past it. */
  lemma BoundStopsExactly(o: Options, a: Answers)
    requires WellTyped(a) && a.seed.Some? && !AfterDeltas(o, a).broken
    ensures AfterDeltas(o, a).atBound <==> SomeLiesPast(o, a, |a.deltas|)
  {
    hide Looped, LiesPast;
    BoundIsInTheDeltas(o, a, |a.deltas|);
  }
}
