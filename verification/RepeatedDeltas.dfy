/**
 * When a feed repeats deltas: a replay still walks with the live book exactly where no repeat, placed
 * by its number but dated by its receipt, pulls a later snapshot in front of a delta that came before it.
 */
module RepeatedDeltas {
  import opened Values
  import opened Ordering
  import opened MarketBooks
  import opened BookManagement
  import opened Capture
  import opened LiveHistory
  import opened FaithfulRows
  import opened Replaying
  import opened Queries
  import opened ReplayEquality
  import opened StaleRows

  // ---------------------------------------------------------------------------
  // The condition, over what the queries return
  // ---------------------------------------------------------------------------

  /** The replay does not pass the delta over as part of its seed. */
  predicate Considered(a: Answers, j: nat)
    requires WellTyped(a) && a.seed.Some? && j < |a.deltas|
  {
    IsDelta(a.deltas[j]) && a.deltas[j].stream.value in StreamOrder(a.deltas)
    && !AtOrBeforeSeed(a.deltas[j], a.seed.value, StreamOrder(a.deltas))
  }

  /** A snapshot comes before the j-th delta by the rule of the merge. */
  predicate Precedes(a: Answers, t: nat, j: nat)
    requires WellTyped(a) && t < |a.snapshots| && j < |a.deltas|
  {
    IsDelta(a.deltas[j]) && SnapshotPrecedes(a.snapshots[t], a.deltas[j], StreamOrder(a.deltas))
  }

  /**
   * The j-th delta was not applied and stands before the l-th, which was, yet was received after a
   * snapshot that the l-th does not follow.
   */
  predicate PullsPast(a: Answers, j: nat, t: nat, l: nat)
    requires WellTyped(a) && a.seed.Some? && t < |a.snapshots| && j < l < |a.deltas|
  {
    && IsDelta(a.deltas[j]) && IsDelta(a.deltas[l]) && !a.deltas[j].applied && a.deltas[l].applied
    && Considered(a, j) && Considered(a, l) && Precedes(a, t, j) && !Precedes(a, t, l)
  }

  ghost predicate PullsBefore(a: Answers, n: nat)
    requires WellTyped(a) && a.seed.Some? && n <= |a.deltas|
  {
    exists j, t, l | 0 <= j < l < n && 0 <= t < |a.snapshots| :: PullsPast(a, j, t, l)
  }

  ghost predicate PullsAhead(a: Answers)
    requires WellTyped(a) && a.seed.Some?
  {
    PullsBefore(a, |a.deltas|)
  }

  // ---------------------------------------------------------------------------
  // The two replays agree on what to pass over and on what precedes what
  // ---------------------------------------------------------------------------

  lemma Prepared(s: Setting)
    requires Recorded(s)
    ensures s.k < |s.rows| && s.rows[s.k].SnapshotRow? && WellTyped(s.a) && s.a.seed == Some(s.rows[s.k])
    ensures Sound(Cleaned(s)) && Ready(Cleaned(s))
    ensures Cleaned(s).a.seed == s.a.seed && Cleaned(s).a.snapshots == s.a.snapshots
    ensures Cleaned(s).a.deltas == Kept(s.a.deltas, s.o.ticker) && Cleaned(s).o == s.o && s.o.toSeq.None?
    ensures forall j | 0 <= j < |s.a.deltas| :: IsStale(s.a.deltas[j], s.o.ticker) <==> !s.a.deltas[j].applied
  {
    DeltasAreTyped(s);
    CleanedIsSound(s);
    SoundIsReady(Cleaned(s));
    assert forall j | 0 <= j < |s.a.deltas| :: IsDelta(s.a.deltas[j]);
  }

  /** A delta of the window on another stream than the seed was written after it. */
  lemma OtherStreamIsLater(s: Setting, j: nat) returns (i: nat)
    requires Recorded(s) && s.k < |s.rows| && s.rows[s.k].SnapshotRow? && j < |s.a.deltas|
    ensures i < |s.rows| && s.rows[i] == s.a.deltas[j]
    ensures Selects(DeltasOf(s.o.ticker, s.rows[s.k].atMs, s.o.toMs), s.rows[i])
    ensures IsDelta(s.rows[i]) && s.rows[s.k].stream.Some?
    ensures s.rows[i].stream != s.rows[s.k].stream ==> s.k < i && s.rows[i].atMs > s.rows[s.k].atMs
  {
    i := StoredRow(s.rows, DeltasOf(s.o.ticker, s.rows[s.k].atMs, s.o.toMs), s.a.deltas, j);
    assert IsPlaced(s.rows[i], s.o.ticker) && IsPlaced(s.rows[s.k], s.o.ticker);
    assert i < s.k ==> Apart(s.rows[i], s.rows[s.k], s.o.ticker, s.started);
    assert s.k < i ==> Apart(s.rows[s.k], s.rows[i], s.o.ticker, s.started);
  }

  lemma SameBlock(s: Setting, i: nat, j: nat, l: nat)
    requires Recorded(s) && i < j < l < |s.rows|
    requires About(s.rows[i], s.o.ticker) && About(s.rows[j], s.o.ticker) && About(s.rows[l], s.o.ticker)
    ensures s.rows[i].stream == s.rows[l].stream ==> s.rows[j].stream == s.rows[i].stream
  {
    assert InBlocks(s.rows[i], s.rows[j], s.rows[l], s.o.ticker);
  }

  lemma SpacedOut(s: Setting)
    requires Recorded(s)
    ensures Spaced(s.rows, s.o.ticker, s.started) && s.k < |s.rows| && About(s.rows[s.k], s.o.ticker)
    ensures var deltas := Select(s.rows, DeltasOf(s.o.ticker, s.rows[s.k].atMs, s.o.toMs));
      Sorted(s.a.deltas, (x, y) => ComesFirst(s.started, deltas, x, y))
  {
  }

  /** Deltas of the seed's stream are listed before those of any other. */
  lemma SeedStreamIsListedFirst(s: Setting, x: nat, y: nat)
    requires Recorded(s) && s.k < |s.rows| && s.rows[s.k].SnapshotRow? && x < |s.a.deltas| && y < |s.a.deltas|
    requires IsDelta(s.a.deltas[x]) && s.a.deltas[x].stream != s.rows[s.k].stream
    requires IsDelta(s.a.deltas[y]) && s.a.deltas[y].stream == s.rows[s.k].stream
    ensures y < x
  {
    hide Recorded, ComesFirst, Select, Spaced;
    var m, lo := s.o.ticker, s.rows[s.k].atMs;
    SpacedOut(s);
    var ix := OtherStreamIsLater(s, x);
    var iy := OtherStreamIsLater(s, y);
    if ix < iy {
      SameBlock(s, s.k, ix, iy);
    }
    EarlierStreamComesFirst(s.rows, m, s.started, lo, s.o.toMs, iy, ix);
  }

  /** It is numbered after the seed's stream, whatever is repeated. */
  lemma OtherStreamIsNumberedLater(s: Setting, n: nat)
    requires Recorded(s) && WellTyped(s.a) && s.k < |s.rows| && s.rows[s.k].SnapshotRow?
    requires n < |s.a.deltas| && IsDelta(s.a.deltas[n]) && s.a.deltas[n].stream != s.rows[s.k].stream
    requires s.a.deltas[n].stream.value in StreamOrder(s.a.deltas)
    requires s.rows[s.k].stream.Some? && s.rows[s.k].stream.value in StreamOrder(s.a.deltas)
    ensures StreamOrder(s.a.deltas)[s.rows[s.k].stream.value] < StreamOrder(s.a.deltas)[s.a.deltas[n].stream.value]
  {
    hide Recorded, StreamOrder;
    var x := FirstSeen(s.a.deltas, s.a.deltas[n].stream.value);
    var y := FirstSeen(s.a.deltas, s.rows[s.k].stream.value);
    SeedStreamIsListedFirst(s, x, y);
    OrderGrows(s.a.deltas, y, x);
  }

  /** Where a delta that was applied stands among those that were. */
  function Place(s: Setting, n: nat): nat
    requires n <= |s.a.deltas|
  {
    |Kept(s.a.deltas[..n], s.o.ticker)|
  }

  lemma {:induction false} Placed(s: Setting, n: nat)
    requires n < |s.a.deltas|
    ensures Place(s, n + 1) == Place(s, n) + (if IsStale(s.a.deltas[n], s.o.ticker) then 0 else 1)
    ensures Place(s, n) <= |Kept(s.a.deltas, s.o.ticker)|
    ensures !IsStale(s.a.deltas[n], s.o.ticker) ==>
      Place(s, n) < |Kept(s.a.deltas, s.o.ticker)| && Kept(s.a.deltas, s.o.ticker)[Place(s, n)] == s.a.deltas[n]
  {
    KeptSnoc(s.a.deltas, s.o.ticker, n);
    assert s.a.deltas[..|s.a.deltas|] == s.a.deltas;
    KeptPrefix(s.a.deltas, s.o.ticker, n, |s.a.deltas|);
    if !IsStale(s.a.deltas[n], s.o.ticker) {
      KeptAt(s.a.deltas, s.o.ticker, n);
    }
  }

  /** The row of the clean recording behind one of its deltas. */
  lemma CleanRow(c: Setting, l: nat) returns (i: nat)
    requires Ready(c) && l < |c.a.deltas|
    ensures i < |c.rows| && c.rows[i] == c.a.deltas[l] && Selects(c.Deltas(), c.rows[i]) && c.DeltasBy(i) == l
    ensures IsDelta(c.rows[i]) && c.rows[i].stream.value in StreamOrder(c.a.deltas)
  {
    assert c.rows[..|c.rows|] == c.rows;
    i := SelectIndex(c.rows, c.Deltas(), |c.rows|, l);
    EveryStreamOrdered(c.a.deltas, l);
  }

  lemma SameSkip(s: Setting, n: nat)
    requires Recorded(s) && n < |s.a.deltas| && !IsStale(s.a.deltas[n], s.o.ticker)
    ensures s.k < |s.rows| && s.rows[s.k].SnapshotRow? && WellTyped(s.a) && WellTyped(Cleaned(s).a)
    ensures var d, seed, order, order' :=
        s.a.deltas[n], s.rows[s.k], StreamOrder(s.a.deltas), StreamOrder(Cleaned(s).a.deltas);
      && IsDelta(d) && d.stream.value in order && d.stream.value in order'
      && AtOrBeforeSeed(d, seed, order) == AtOrBeforeSeed(d, seed, order')
  {
    Prepared(s);
    var c := Cleaned(s);
    var d, seed := s.a.deltas[n], s.rows[s.k];
    Placed(s, n);
    var i := CleanRow(c, Place(s, n));
    EveryStreamOrdered(s.a.deltas, n);
    var _ := OtherStreamIsLater(s, n);
    hide Recorded, Sound, Ready, StreamOrder, Kept;
    if d.stream != seed.stream {
      if seed.stream.value in StreamOrder(s.a.deltas) {
        OtherStreamIsNumberedLater(s, n);
      }
      CleanIsLater(c, i);
      SkippingIsExact(c, i);
    }
  }

  lemma CleanIsLater(c: Setting, i: nat)
    requires Sound(c) && Ready(c) && i < |c.rows| && Selects(c.Deltas(), c.rows[i])
    requires c.rows[i].stream != c.rows[c.k].stream
    ensures c.k < i && (c.rows[i].applied || i > c.k)
  {
    if i < c.k {
      WrittenInOrder(c, i, c.k);
    }
  }

  lemma PrecedesRegardless(c: Setting, i: nat, t: nat, order: map<StreamId, nat>, order': map<StreamId, nat>)
    requires Sound(c) && Ready(c) && i < |c.rows| && Selects(c.Deltas(), c.rows[i]) && IsDelta(c.rows[i])
    requires t < |c.a.snapshots|
    ensures var snap := c.a.snapshots[t];
      SnapshotPrecedes(snap, c.rows[i], order) == SnapshotPrecedes(snap, c.rows[i], order')
  {
    assert c.rows[..|c.rows|] == c.rows;
    var y := SelectIndex(c.rows, c.Snapshots(), |c.rows|, t);
    if y < i {
      WrittenInOrder(c, y, i);
    } else {
      WrittenInOrder(c, i, y);
    }
  }

  /** The first snapshot that does not precede the delta. */
  ghost predicate StopsAt(snaps: seq<Row>, d: Row, n: nat, order: map<StreamId, nat>)
    requires IsDelta(d) && n <= |snaps| && forall i | 0 <= i < |snaps| :: snaps[i].SnapshotRow?
  {
    && (forall t | 0 <= t < n :: SnapshotPrecedes(snaps[t], d, order))
    && (n < |snaps| ==> !SnapshotPrecedes(snaps[n], d, order))
  }

  /** The snapshots before a delta of the clean recording are those written before it, under any numbering. */
  lemma StopsThere(c: Setting, i: nat, order: map<StreamId, nat>)
    requires Sound(c) && Ready(c) && i < |c.rows| && Selects(c.Deltas(), c.rows[i]) && IsDelta(c.rows[i])
    ensures WellTyped(c.a) && c.SnapshotsBy(i) <= |c.a.snapshots|
    ensures StopsAt(c.a.snapshots, c.rows[i], c.SnapshotsBy(i), order)
  {
    var own := StreamOrder(c.a.deltas);
    hide Sound, Ready, StreamOrder, SnapshotPrecedes, Select;
    MergeIsWritingOrder(c, i);
    forall t | 0 <= t < |c.a.snapshots|
      ensures SnapshotPrecedes(c.a.snapshots[t], c.rows[i], order) == SnapshotPrecedes(c.a.snapshots[t], c.rows[i], own)
    {
      PrecedesRegardless(c, i, t, order, own);
    }
  }

  /** What precedes a delta in the merge is an initial stretch of the snapshots. */
  lemma EarlierPrecedes(s: Setting, t: nat, t': nat, d: Row, order: map<StreamId, nat>)
    requires Recorded(s) && WellTyped(s.a) && IsDelta(d) && t <= t' < |s.a.snapshots|
    requires SnapshotPrecedes(s.a.snapshots[t'], d, order)
    ensures SnapshotPrecedes(s.a.snapshots[t], d, order)
  {
    Prepared(s);
    var c := Cleaned(s);
    hide Recorded, AllFaithful, Answered, Kept, Select;
    SnapshotsAreOrdered(c.rows, c.o.ticker, c.started, c.rows[c.k].atMs, c.o.toMs);
    assert t < t' ==> EarlierMs(c.a.snapshots[t], c.a.snapshots[t']);
  }

  // ---------------------------------------------------------------------------
  // Up to the first pull the two replays go together
  // ---------------------------------------------------------------------------

  /** Where a replay stands after its first n deltas. */
  function Standing(o: Options, a: Answers, n: nat): Playback
    requires WellTyped(a) && a.seed.Some? && n <= |a.deltas|
  {
    Looped(Seeded(o, a), o, a, n)
  }

  /** What the clean replay shows before its l-th delta. */
  lemma CleanStands(c: Setting, l: nat) returns (i: nat)
    requires Sound(c) && Ready(c) && l <= |c.a.deltas|
    ensures i <= |c.rows| && c.DeltasBy(i) == l && c.SnapshotsBy(i) <= |c.a.snapshots|
    ensures l < |c.a.deltas| ==>
      i < |c.rows| && c.rows[i] == c.a.deltas[l] && Selects(c.Deltas(), c.rows[i]) && IsDelta(c.rows[i])
    ensures var q := Standing(c.o, c.a, l);
      && q.next <= c.SnapshotsBy(i) && !q.broken && !q.atBound
      && Shows(c, i, CaughtTo(q, c.a.snapshots, c.SnapshotsBy(i), c.o.ticker))
  {
    hide Sound, Select, Looped, Selects, CaughtTo, Expected, InTime, Seeded;
    if l < |c.a.deltas| {
      i := CleanRow(c, l);
    } else {
      i := |c.rows|;
      WindowsFit(c, i);
    }
    ConsumedInOrder(c, i);
    CatchingKeeps(Standing(c.o, c.a, l), c.a.snapshots, c.SnapshotsBy(i), c.o.ticker);
  }

  /** A delta that was not applied made the replay take the t-th snapshot. */
  predicate PulledBy(a: Answers, j: nat, t: nat)
    requires WellTyped(a) && a.seed.Some? && t < |a.snapshots| && j < |a.deltas|
  {
    IsDelta(a.deltas[j]) && !a.deltas[j].applied && Considered(a, j) && Precedes(a, t, j)
  }

  ghost predicate Pulled(a: Answers, n: nat, t: nat)
    requires WellTyped(a) && a.seed.Some? && t < |a.snapshots| && n <= |a.deltas|
  {
    exists j | 0 <= j < n :: PulledBy(a, j, t)
  }

  /** The first is where the second will be, ahead of it by snapshots that stale deltas pulled. */
  ghost predicate Together(s: Setting, n: nat, p: Playback, q: Playback)
    requires WellTyped(s.a) && s.a.seed.Some? && n <= |s.a.deltas|
  {
    && Ahead(p, q, s.a.snapshots, s.o.ticker) && !p.broken && !p.atBound
    && forall t | q.next <= t < p.next :: Pulled(s.a, n, t)
  }

  lemma StaleStep(s: Setting, n: nat, p: Playback, q: Playback)
    requires Recorded(s) && WellTyped(s.a) && s.a.seed.Some? && n < |s.a.deltas| && Together(s, n, p, q)
    requires IsDelta(s.a.deltas[n]) && !s.a.deltas[n].applied && s.a.deltas[n].stream.value in StreamOrder(s.a.deltas)
    requires !q.broken && !q.atBound
    ensures var v := Visited(p, s.a.deltas[n], s.o, s.a.seed.value, s.a.snapshots, StreamOrder(s.a.deltas));
      Together(s, n + 1, v, q)
  {
    var d, seed, snaps, order := s.a.deltas[n], s.a.seed.value, s.a.snapshots, StreamOrder(s.a.deltas);
    hide AllFaithful, OrderlyWithRepeats, Answered, StreamOrder, Visited, SnapshotPrecedes, AtOrBeforeSeed, Positions;
    StaleVisited(p, q, d, s.o, seed, snaps, order);
    var v, n' := Visited(p, d, s.o, seed, snaps, order), n + 1;
    CatchingKeeps(q, snaps, v.next, s.o.ticker);
    forall t | q.next <= t < v.next ensures Pulled(s.a, n', t) {
      if t < p.next {
        assert Pulled(s.a, n, t);
      } else {
        assert PulledBy(s.a, n, t);
      }
    }
  }

  /** Where nothing is pulled past a delta, both replays come to it alike. */
  lemma NotPulledPast(s: Setting, n: nat, stop: nat, p: Playback, q: Playback)
    requires WellTyped(s.a) && s.a.seed.Some? && n < |s.a.deltas| && Together(s, n, p, q)
    requires IsDelta(s.a.deltas[n]) && s.a.deltas[n].applied && Considered(s.a, n)
    requires q.next <= stop && (stop < |s.a.snapshots| ==> !Precedes(s.a, stop, n)) && !PullsBefore(s.a, n + 1)
    ensures p.next <= stop
  {
    if stop < p.next {
      assert Pulled(s.a, n, stop);
      hide Considered, Precedes, Pulled, PullsBefore;
      PullsThen(s.a, n, stop);
    }
  }

  lemma PullsThen(a: Answers, n: nat, t: nat)
    requires WellTyped(a) && a.seed.Some? && n < |a.deltas| && t < |a.snapshots| && Pulled(a, n, t)
    requires IsDelta(a.deltas[n]) && a.deltas[n].applied && Considered(a, n) && !Precedes(a, t, n)
    ensures PullsBefore(a, n + 1)
  {
    hide Considered, Precedes;
    var j :| 0 <= j < n && PulledBy(a, j, t);
    assert PullsPast(a, j, t, n);
  }

  /** Both visit a delta that was applied. */
  lemma AppliedTogether(s: Setting, n: nat, p: Playback, q: Playback, stop: nat, order': map<StreamId, nat>)
    requires WellTyped(s.a) && s.a.seed.Some? && n < |s.a.deltas| && !PullsBefore(s.a, n + 1)
    requires IsDelta(s.a.deltas[n]) && s.a.deltas[n].applied && s.o.toSeq.None?
    requires var d := s.a.deltas[n]; d.stream.value in StreamOrder(s.a.deltas) && d.stream.value in order'
    requires var d, seed := s.a.deltas[n], s.a.seed.value;
      AtOrBeforeSeed(d, seed, StreamOrder(s.a.deltas)) == AtOrBeforeSeed(d, seed, order')
    requires Together(s, n, p, q) && q.next <= stop <= |s.a.snapshots|
    requires StopsAt(s.a.snapshots, s.a.deltas[n], stop, StreamOrder(s.a.deltas))
    requires StopsAt(s.a.snapshots, s.a.deltas[n], stop, order')
    ensures var seed := s.a.seed.value;
      var v := Visited(p, s.a.deltas[n], s.o, seed, s.a.snapshots, StreamOrder(s.a.deltas));
      var w := Visited(q, s.a.deltas[n], s.o, seed, s.a.snapshots, order');
      w.broken || w.atBound || Together(s, n + 1, v, w)
  {
    var d, seed, snaps, order := s.a.deltas[n], s.a.seed.value, s.a.snapshots, StreamOrder(s.a.deltas);
    if AtOrBeforeSeed(d, seed, order) {
      hide StreamOrder, Together;
      SkippedBoth(p, q, d, s.o, seed, snaps, order, order');
      PulledGrows(s, n, p, q);
    } else {
      hide StreamOrder, PullsBefore, Alike, CaughtTo, Visited, Pulled, SnapshotPrecedes, AtOrBeforeSeed;
      NotPulledPast(s, n, stop, p, q);
      AppliedVisited(p, q, d, s.o, seed, snaps, stop, order, order');
      var v := Visited(p, d, s.o, seed, snaps, order);
      var w := Visited(q, d, s.o, seed, snaps, order');
      NothingToCatch(w, snaps, s.o.ticker);
      AlikeFlags(v, w);
    }
  }

  lemma AlikeFlags(p: Playback, q: Playback)
    requires Alike(p, q)
    ensures p.next == q.next && p.broken == q.broken && p.atBound == q.atBound
  {
  }

  lemma AppliedStep(s: Setting, n: nat)
    requires Recorded(s) && WellTyped(s.a) && s.a.seed.Some? && n < |s.a.deltas| && !PullsBefore(s.a, n + 1)
    requires WellTyped(Cleaned(s).a) && Cleaned(s).a.seed == s.a.seed && Place(s, n + 1) <= |Cleaned(s).a.deltas|
    requires !IsStale(s.a.deltas[n], s.o.ticker) && s.a.deltas[n].DeltaRow? && s.a.deltas[n].applied
    requires Place(s, n) <= |Cleaned(s).a.deltas|
    requires Together(s, n, Standing(s.o, s.a, n), Standing(s.o, Cleaned(s).a, Place(s, n)))
    ensures Together(s, n + 1, Standing(s.o, s.a, n + 1), Standing(s.o, Cleaned(s).a, Place(s, n + 1)))
  {
    hide Recorded, Sound, Ready, Shows, StreamOrder, Visited, AtOrBeforeSeed, SnapshotPrecedes, Kept, Select, Looped;
    hide Selects, CaughtTo, Together, PullsBefore, Seeded, StopsAt, Cleaned, Place, IsStale;
    Prepared(s);
    var c, l := Cleaned(s), Place(s, n);
    Placed(s, n);
    SameSkip(s, n);
    LoopNext(s.o, s.a, n);
    LoopNext(s.o, c.a, l);
    var after := CleanStands(c, l + 1);
    var i := CleanStands(c, l);
    StopsThere(c, i, StreamOrder(s.a.deltas));
    StopsThere(c, i, StreamOrder(c.a.deltas));
    AppliedTogether(s, n, Standing(s.o, s.a, n), Standing(s.o, c.a, l), c.SnapshotsBy(i), StreamOrder(c.a.deltas));
  }

  lemma SkippedBoth(p: Playback, q: Playback, d: Row, o: Options, seed: Row, snaps: seq<Row>,
                    order: map<StreamId, nat>, order': map<StreamId, nat>)
    requires IsDelta(d) && d.stream.value in order && d.stream.value in order' && seed.SnapshotRow?
    requires forall i | 0 <= i < |snaps| :: snaps[i].SnapshotRow?
    requires AtOrBeforeSeed(d, seed, order) && AtOrBeforeSeed(d, seed, order')
    ensures Visited(p, d, o, seed, snaps, order) == p && Visited(q, d, o, seed, snaps, order') == q
  {
  }

  lemma PulledGrows(s: Setting, n: nat, p: Playback, q: Playback)
    requires WellTyped(s.a) && s.a.seed.Some? && n < |s.a.deltas| && Together(s, n, p, q)
    ensures Together(s, n + 1, p, q)
  {
    hide Alike, CaughtTo, PulledBy;
    var n' := n + 1;
    forall t | q.next <= t < p.next ensures Pulled(s.a, n', t) {
      assert Pulled(s.a, n, t);
    }
  }

  lemma NothingToCatch(p: Playback, snaps: seq<Row>, m: Ticker)
    requires forall i | 0 <= i < |snaps| :: snaps[i].SnapshotRow?
    requires p.next <= |snaps|
    ensures CaughtTo(p, snaps, p.next, m) == p
  {
  }

  lemma NextTogether(s: Setting, n: nat)
    requires Recorded(s) && WellTyped(s.a) && s.a.seed.Some? && n < |s.a.deltas| && !PullsBefore(s.a, n + 1)
    requires WellTyped(Cleaned(s).a) && Cleaned(s).a.seed == s.a.seed && Place(s, n) <= |Cleaned(s).a.deltas|
    requires Together(s, n, Standing(s.o, s.a, n), Standing(s.o, Cleaned(s).a, Place(s, n)))
    ensures Place(s, n + 1) <= |Cleaned(s).a.deltas|
    ensures Together(s, n + 1, Standing(s.o, s.a, n + 1), Standing(s.o, Cleaned(s).a, Place(s, n + 1)))
  {
    hide Recorded, Sound, Ready, StreamOrder, Visited, Kept, Together, PullsBefore, Cleaned, Place, Looped, Seeded;
    hide Shows;
    hide Select, CaughtTo;
    Prepared(s);
    Placed(s, n);
    LoopNext(s.o, s.a, n);
    if s.a.deltas[n].applied {
      AppliedStep(s, n);
    } else {
      var c, l := Cleaned(s), Place(s, n);
      var _ := CleanStands(c, l);
      StaleStep(s, n, Standing(s.o, s.a, n), Standing(s.o, c.a, l));
    }
  }

  lemma {:induction false} SideBySide(s: Setting, n: nat)
    requires Recorded(s) && WellTyped(s.a) && s.a.seed.Some? && n <= |s.a.deltas| && !PullsBefore(s.a, n)
    ensures WellTyped(Cleaned(s).a) && Cleaned(s).a.seed == s.a.seed && Place(s, n) <= |Cleaned(s).a.deltas|
    ensures Together(s, n, Standing(s.o, s.a, n), Standing(s.o, Cleaned(s).a, Place(s, n)))
  {
    if n == 0 {
      Prepared(s);
      hide Recorded, Sound, Ready;
      NothingToCatch(Seeded(s.o, s.a), s.a.snapshots, s.o.ticker);
    } else {
      hide Recorded, Standing, Kept, Together, PullsBefore, Cleaned, Place;
      FewerPulls(s.a, n);
      SideBySide(s, n - 1);
      NextTogether(s, n - 1);
    }
  }

  lemma FewerPulls(a: Answers, n: nat)
    requires WellTyped(a) && a.seed.Some? && 0 < n <= |a.deltas| && !PullsBefore(a, n)
    ensures !PullsBefore(a, n - 1)
  {
    hide PullsPast;
  }

  // ---------------------------------------------------------------------------
  // Positions are never taken back
  // ---------------------------------------------------------------------------

  lemma {:induction false} CatchingGrows(p: Playback, snaps: seq<Row>, n: nat, m: Ticker)
    requires (forall i | 0 <= i < |snaps| :: snaps[i].SnapshotRow?) && p.next <= n <= |snaps|
    ensures Positions(p.report.hooks) <= Positions(CaughtTo(p, snaps, n, m).report.hooks)
    decreases n - p.next
  {
    hide Reseeded, Positions;
    if p.next < n {
      ReseededPositions(p, snaps[p.next], m, true);
      CatchingGrows(Reseeded(p, snaps[p.next], m, true), snaps, n, m);
    }
  }

  /** Catching up past a snapshot shows it. */
  lemma CatchingShows(p: Playback, snaps: seq<Row>, i: nat, n: nat, m: Ticker)
    requires (forall i | 0 <= i < |snaps| :: snaps[i].SnapshotRow?) && p.next <= i < n <= |snaps|
    ensures Positions(CaughtTo(p, snaps, i, m).report.hooks) + [SnapshotPosition(snaps[i])]
         <= Positions(CaughtTo(p, snaps, n, m).report.hooks)
  {
    hide CaughtTo, Reseeded, Positions;
    var q := CaughtTo(p, snaps, i, m);
    CatchingOneMore(p, snaps, i, m);
    ReseededPositions(q, snaps[i], m, true);
    CatchingTwice(p, snaps, i + 1, n, m);
    CatchingKeeps(p, snaps, i + 1, m);
    CatchingGrows(CaughtTo(p, snaps, i + 1, m), snaps, n, m);
  }

  lemma VisitingGrows(p: Playback, d: Row, o: Options, seed: Row, snaps: seq<Row>, order: map<StreamId, nat>)
    requires IsDelta(d) && d.stream.value in order && seed.SnapshotRow? && o.toSeq.None? && p.next <= |snaps|
    requires forall i | 0 <= i < |snaps| :: snaps[i].SnapshotRow?
    ensures var v := Visited(p, d, o, seed, snaps, order);
      p.next <= v.next <= |snaps| && Positions(p.report.hooks) <= Positions(v.report.hooks)
      && v.atBound == p.atBound
  {
    if !p.atBound && !p.broken && !AtOrBeforeSeed(d, seed, order) {
      VisitedFreely(p, d, o, seed, snaps, order);
      hide CaughtUp, Played, Positions, CaughtTo, AtOrBeforeSeed, SnapshotPrecedes;
      CatchesUpTo(p, snaps, d, order, o.ticker);
      var u := CaughtUp(p, snaps, d, order, o.ticker);
      CatchingGrows(p, snaps, u.next, o.ticker);
      CatchingKeeps(p, snaps, u.next, o.ticker);
      PlayedPositions(u, d, o);
    }
  }

  lemma {:induction false} LoopGrows(o: Options, a: Answers, i: nat, n: nat)
    requires WellTyped(a) && a.seed.Some? && o.toSeq.None? && i <= n <= |a.deltas|
    requires Standing(o, a, i).next <= |a.snapshots|
    ensures var p, q := Standing(o, a, i), Standing(o, a, n);
      p.next <= q.next <= |a.snapshots| && Positions(p.report.hooks) <= Positions(q.report.hooks)
      && q.atBound == p.atBound
  {
    hide Visited, Positions, StreamOrder, Seeded, Looped;
    if i < n {
      LoopGrows(o, a, i, n - 1);
      LoopNext(o, a, n - 1);
      VisitingGrows(Standing(o, a, n - 1), a.deltas[n - 1], o, a.seed.value, a.snapshots, StreamOrder(a.deltas));
    }
  }

  lemma {:induction false} DrainingGrows(p: Playback, snaps: seq<Row>, o: Options)
    requires forall i | 0 <= i < |snaps| :: snaps[i].SnapshotRow?
    ensures Positions(p.report.hooks) <= Positions(Drained(p, snaps, o).report.hooks)
    decreases |snaps| - p.next
  {
    hide Reseeded, Positions;
    if p.next < |snaps| && snaps[p.next].atMs <= o.toMs {
      ReseededPositions(p, snaps[p.next], o.ticker, false);
      DrainingGrows(Reseeded(p, snaps[p.next], o.ticker, false), snaps, o);
    }
  }

  lemma {:induction false} ExpectedGrows(s: Setting, i: nat, n: nat)
    requires i <= n <= |s.rows|
    ensures Expected(s, i) <= Expected(s, n)
  {
    if i < n {
      ExpectedGrows(s, i, n - 1);
    }
  }

  /** What a replay shows by some delta it goes on to show. */
  lemma ShownStays(o: Options, a: Answers, i: nat)
    requires WellTyped(a) && a.seed.Some? && o.toSeq.None? && i <= |a.deltas|
    requires Standing(o, a, i).next <= |a.snapshots| && !Standing(o, a, i).atBound
    ensures Positions(Standing(o, a, i).report.hooks) <= Positions(ReplayOf(o, a).report.hooks)
  {
    hide Positions, Looped, Seeded, Drained;
    LoopGrows(o, a, i, |a.deltas|);
    DrainingGrows(AfterDeltas(o, a), a.snapshots, o);
  }

  // ---------------------------------------------------------------------------
  // Without a pull the replays are alike to the end
  // ---------------------------------------------------------------------------

  lemma AlikeToTheEnd(s: Setting)
    requires Recorded(s) && WellTyped(s.a) && s.a.seed.Some? && !PullsAhead(s.a)
    ensures WellTyped(Cleaned(s).a)
    ensures var r, r' := ReplayOf(s.o, s.a), ReplayOf(s.o, Cleaned(s).a);
      Positions(r.report.hooks) == Positions(r'.report.hooks) && r.finalBook == r'.finalBook
  {
    hide Recorded, Sound, StreamOrder, Visited, Kept, Cleaned, Looped, Seeded, Select, Positions, CaughtTo, Drained;
    Prepared(s);
    var c, n := Cleaned(s), |s.a.deltas|;
    SideBySide(s, n);
    assert s.a.deltas[..n] == s.a.deltas;
    var p, q := Standing(s.o, s.a, n), Standing(s.o, c.a, |c.a.deltas|);
    var _ := CleanStands(c, |c.a.deltas|);
    SelectedSatisfy(c.rows, c.Snapshots());
    DrainingShows(p, p, s.a.snapshots, s.o);
    DrainingShows(q, q, s.a.snapshots, s.o);
    AheadCatching(p, q, s.a.snapshots, |s.a.snapshots|, s.o.ticker);
  }

  // ---------------------------------------------------------------------------
  // The first pull shows
  // ---------------------------------------------------------------------------

  lemma {:induction false} FirstPull(a: Answers, n: nat) returns (l: nat)
    requires WellTyped(a) && a.seed.Some? && n <= |a.deltas| && PullsBefore(a, n)
    ensures l < n && !PullsBefore(a, l) && PullsBefore(a, l + 1)
  {
    hide PullsPast;
    if n > 0 && PullsBefore(a, n - 1) {
      l := FirstPull(a, n - 1);
    } else {
      l := n - 1;
    }
  }

  lemma {:induction false} NoPullsEarlier(a: Answers, i: nat, n: nat)
    requires WellTyped(a) && a.seed.Some? && i <= n <= |a.deltas| && !PullsBefore(a, n)
    ensures !PullsBefore(a, i)
  {
    hide PullsBefore;
    if i < n {
      FewerPulls(a, n);
      NoPullsEarlier(a, i, n - 1);
    }
  }

  /** A stale delta that is considered takes every snapshot that precedes it. */
  lemma PullTakes(s: Setting, j: nat, t: nat)
    requires Recorded(s) && WellTyped(s.a) && s.a.seed.Some? && j < |s.a.deltas| && t < |s.a.snapshots|
    requires PulledBy(s.a, j, t) && !PullsBefore(s.a, j)
    ensures t < Standing(s.o, s.a, j + 1).next <= |s.a.snapshots| && !Standing(s.o, s.a, j + 1).atBound
  {
    Prepared(s);
    hide Recorded, Sound, Ready, StreamOrder, Visited, Kept, Cleaned, Place, Looped, Seeded, Positions, CaughtTo;
    hide PullsBefore, SnapshotPrecedes, AtOrBeforeSeed;
    SideBySide(s, j);
    LoopNext(s.o, s.a, j);
    var order, p := StreamOrder(s.a.deltas), Standing(s.o, s.a, j);
    StaleVisited(p, Standing(s.o, Cleaned(s).a, Place(s, j)), s.a.deltas[j], s.o, s.a.seed.value, s.a.snapshots, order);
    VisitingGrows(p, s.a.deltas[j], s.o, s.a.seed.value, s.a.snapshots, order);
    var next := Standing(s.o, s.a, j + 1).next;
    if next <= t {
      EarlierPrecedes(s, next, t, s.a.deltas[j], order);
    }
  }

  /** Where the clean replay stops before the l-th delta, the other has gone on. */
  lemma PulledPast(s: Setting, j: nat, t: nat, l: nat, stop: nat)
    requires Recorded(s) && WellTyped(s.a) && s.a.seed.Some? && j < l < |s.a.deltas| && t < |s.a.snapshots|
    requires PullsPast(s.a, j, t, l) && !PullsBefore(s.a, l) && stop <= |s.a.snapshots|
    requires StopsAt(s.a.snapshots, s.a.deltas[l], stop, StreamOrder(s.a.deltas))
    ensures stop < Standing(s.o, s.a, l).next
  {
    hide Recorded, Standing, PullsBefore, Considered, SnapshotPrecedes;
    NoPullsEarlier(s.a, j, l);
    PullTakes(s, j, t);
    Prepared(s);
    LoopGrows(s.o, s.a, j + 1, l);
  }

  lemma ConsideredIsAfterSeed(c: Setting, i: nat)
    requires Sound(c) && Ready(c) && i < |c.rows| && Selects(c.Deltas(), c.rows[i]) && IsDelta(c.rows[i])
    requires c.rows[i].applied && c.rows[i].stream.value in StreamOrder(c.a.deltas)
    requires !AtOrBeforeSeed(c.rows[i], c.rows[c.k], StreamOrder(c.a.deltas))
    ensures i > c.k && Changes(c.rows[i], c.o.ticker) && c.rows[i].atMs <= c.o.toMs
  {
    hide AtOrBeforeSeed, StreamOrder, AllFaithful, Orderly, Answered, Select;
    SkippingIsExact(c, i);
    assert i != c.k;
  }

  /** What the clean replay shows next at a delta it considers. */
  lemma CleanShowsNext(c: Setting, i: nat)
    requires Sound(c) && Ready(c) && i < |c.rows| && Selects(c.Deltas(), c.rows[i]) && IsDelta(c.rows[i])
    requires c.rows[i].applied && c.rows[i].stream.value in StreamOrder(c.a.deltas)
    requires !AtOrBeforeSeed(c.rows[i], c.rows[c.k], StreamOrder(c.a.deltas))
    ensures i > c.k
    ensures [SeedPosition(c)] + Expected(c, i) + [PositionOf(c.rows[i], BookAfter(c.rows[..i + 1], c.o.ticker))]
         <= Positions(ReplayOf(c.o, c.a).report.hooks)
  {
    hide Sound, Ready, StreamOrder, AtOrBeforeSeed, Positions, Select, Selects, Expected, BookAfter, ReplayOf, Changes;
    ConsideredIsAfterSeed(c, i);
    ReplayShowsTheRows(c);
    ExpectedNext(c, i);
    BookAfterNext(c.rows, i, c.o.ticker);
    ExpectedGrows(c, i + 1, |c.rows|);
  }

  /** A snapshot written after a delta does not stand where the delta does. */
  lemma LaterSnapshotIsElsewhere(c: Setting, i: nat, stop: nat)
    requires Sound(c) && Ready(c) && i < |c.rows| && Selects(c.Deltas(), c.rows[i])
    requires stop == c.SnapshotsBy(i) < |c.a.snapshots|
    ensures c.a.snapshots[stop].stream != c.rows[i].stream || c.a.snapshots[stop].seqNo != c.rows[i].seqNo
  {
    var y := SelectedLater(c.rows, c.Snapshots(), i, stop);
    WrittenInOrder(c, i, y);
  }

  lemma PullShows(s: Setting, j: nat, t: nat, l: nat)
    requires Recorded(s) && WellTyped(s.a) && s.a.seed.Some? && j < l < |s.a.deltas| && t < |s.a.snapshots|
    requires PullsPast(s.a, j, t, l) && !PullsBefore(s.a, l)
    ensures WellTyped(Cleaned(s).a)
    ensures Positions(ReplayOf(s.o, s.a).report.hooks) != Positions(ReplayOf(s.o, Cleaned(s).a).report.hooks)
  {
    hide Recorded, Sound, Ready, Standing, StreamOrder, Kept, Cleaned, Place, Positions, CaughtTo, PullsBefore, Select;
    hide Selects, Expected, BookAfter, ReplayOf, AtOrBeforeSeed, SnapshotPrecedes, StopsAt, SeedPosition;
    Prepared(s);
    var c, at, d, m := Cleaned(s), Place(s, l), s.a.deltas[l], s.o.ticker;
    Placed(s, l);
    SameSkip(s, l);
    var i := CleanStands(c, at);
    var stop := c.SnapshotsBy(i);
    StopsThere(c, i, StreamOrder(s.a.deltas));
    PulledPast(s, j, t, l, stop);
    SideBySide(s, l);
    var p, q := Standing(s.o, s.a, l), Standing(s.o, c.a, at);
    CatchingShows(q, s.a.snapshots, stop, p.next, m);
    ShownStays(s.o, s.a, l);
    CleanShowsNext(c, i);
    LaterSnapshotIsElsewhere(c, i, stop);
    var shown, x, y := [SeedPosition(c)] + Expected(c, i), SnapshotPosition(s.a.snapshots[stop]),
      PositionOf(c.rows[i], BookAfter(c.rows[..i + 1], m));
    assert shown + [x] <= Positions(ReplayOf(s.o, s.a).report.hooks);
    assert shown + [y] <= Positions(ReplayOf(s.o, c.a).report.hooks);
    assert (shown + [x])[|shown|] == x && (shown + [y])[|shown|] == y;
  }

  /**
   * A replay of a recording with repeats shows what a replay without the repeats does, exactly when none
   * pulls a snapshot past a delta that was applied.
   */
  lemma StaleDeltasChangeNothingExactly(s: Setting)
    requires Recorded(s)
    ensures WellTyped(s.a) && s.a.seed.Some? && WellTyped(Cleaned(s).a)
    ensures Positions(ReplayOf(s.o, s.a).report.hooks) == Positions(ReplayOf(s.o, Cleaned(s).a).report.hooks)
       <==> !PullsAhead(s.a)
    ensures !PullsAhead(s.a) ==> ReplayOf(s.o, s.a).finalBook == ReplayOf(s.o, Cleaned(s).a).finalBook
  {
    hide Recorded, Cleaned, ReplayOf, Positions, PullsPast;
    Prepared(s);
    if PullsAhead(s.a) {
      var l := FirstPull(s.a, |s.a.deltas|);
      var j, t, l' :| 0 <= j < l' < l + 1 && 0 <= t < |s.a.snapshots| && PullsPast(s.a, j, t, l');
      assert l' == l;
      PullShows(s, j, t, l);
    } else {
      AlikeToTheEnd(s);
    }
  }

  lemma RecordedRun(start: SessionId, events: seq<Event>, started: map<StreamId, int>, o: Options, a: Answers, k: nat)
    requires LegalRun(start, events) && o.toSeq.None?
    requires OrderlyWithRepeats(Run(start, events).rows, o.ticker, started)
    requires Answered(Run(start, events).rows, started, o, a, Some(k))
    ensures Recorded(Setting(Run(start, events).rows, started, o, a, k))
  {
    hide AllFaithful, OrderlyWithRepeats, Answered, LegalRun, Run;
    RowsAreFaithful(start, events, o.ticker);
  }

  /**
   * The acceptance property where the feed may repeat deltas or send them late: the replay starts at a
   * state the live book was in and walks with it, exactly when no stale delta pulls a snapshot ahead.
   */
  lemma RepeatsLeaveTheReplayLiveExactly(start: SessionId, events: seq<Event>, started: map<StreamId, int>,
                                         o: Options, a: Answers, k: nat) returns (j: nat)
    requires LegalRun(start, events) && o.toSeq.None?
    requires OrderlyWithRepeats(Run(start, events).rows, o.ticker, started)
    requires Answered(Run(start, events).rows, started, o, a, Some(k))
    ensures WellTyped(a) && a.seed.Some?
    ensures var live, seed := LiveTrace(start, events, o.ticker), PositionOf(a.seed.value, LaddersIn(a.seed.value));
      && 0 < j <= |live|
      && seed.stream == live[j - 1].stream && seed.seqNo == live[j - 1].seqNo
      && seed.ladders == live[j - 1].ladders && live[j - 1].atMs <= seed.atMs
      && (Positions(ReplayOf(o, a).report.hooks) == [seed] + ReceivedBy(live[j..], o.toMs) <==> !PullsAhead(a))
  {
    hide OrderlyWithRepeats, Answered, ReplayOf, Run, RowTrace, LiveTrace, LegalRun, FreshRun, Mirrors, FiledByTicker;
    hide Sound, Recorded, Kept, PullsAhead, Positions, Expected, LaddersIn;
    var rows := Run(start, events).rows;
    var s := Setting(rows, started, o, a, k);
    RecordedRun(start, events, started, o, a, k);
    Prepared(s);
    StaleDeltasChangeNothingExactly(s);
    LegalIsFresh(start, events);
    RowsTellTheLiveBook(start, events, o.ticker);
    StaleSaysNothing(rows, o.ticker);
    var c := Cleaned(s);
    ReplayShowsTheRows(c);
    ExpectedIsTheTrace(c, |c.rows|);
    SeedRepeatsTheTrace(c);
    assert c.rows[..|c.rows|] == c.rows;
    j := |RowTrace(c.rows[..c.k + 1], o.ticker)|;
  }
}
