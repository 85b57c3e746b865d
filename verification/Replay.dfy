/** Offline reconstruction of one market's book from recorded rows (src/replay/replay.ts). */
module Replaying {
  import opened Values
  import opened CanonicalForm
  import opened MarketBooks
  import opened BookManagement
  import opened LiveHistory

  // ---------------------------------------------------------------------------
  // What a replay is asked, what the database answers, what it reports
  // ---------------------------------------------------------------------------

  /** `toSeq` bounds the replay by sequence number, on `toSeqStream` when one is named. */
  datatype Options = Options(
    ticker: Ticker, fromMs: int, toMs: int, toSeq: Option<int>, toSeqStream: Option<StreamId>, strict: bool)

  /** The seed snapshot, the later feed snapshots and the deltas of the window, as the queries return them. */
  datatype Answers = Answers(seed: Option<Row>, seedIsLate: bool, snapshots: seq<Row>, deltas: seq<Row>)

  predicate IsDelta(r: Row) {
    r.DeltaRow? && r.stream.Some? && r.seqNo.Some?
  }

  /** The column types of the two tables. */
  predicate WellTyped(a: Answers) {
    && (a.seed.Some? ==> a.seed.value.SnapshotRow?)
    && (forall i | 0 <= i < |a.snapshots| :: a.snapshots[i].SnapshotRow?)
    && (forall i | 0 <= i < |a.deltas| :: IsDelta(a.deltas[i]))
  }

  datatype Epoch = Epoch(
    session: SessionId, stream: Option<StreamId>, startedAtMs: int, seedSource: Source,
    applied: nat, skipped: nat, gaps: nat)

  datatype Warning = StartsLate(atMs: int) | NoSeed | NotAppliedWhenRecorded(seqNo: int) | Diverged(seqNo: int)

  /** Calls made to the two hooks, each with the book as it stood at the call. */
  datatype Hook =
    | Before(atMs: int, book: BookData)
    // isNew: the book object was just built
    | Reached(stream: Option<StreamId>, seqNo: Option<int>, atMs: int, book: BookData, isNew: bool)

  datatype Report = Report(
    epochs: seq<Epoch>, total: nat, applied: nat, skipped: nat, hooks: seq<Hook>, warnings: seq<Warning>)

  const NOTHING_REPORTED := Report([], 0, 0, 0, [], [])

  datatype ReplayResult = ReplayResult(report: Report, finalBook: Option<BookData>)

  // ---------------------------------------------------------------------------
  // Specification
  // ---------------------------------------------------------------------------

  /** Where a replay stands: its book, its place among the snapshots and what it has reported. */
  datatype Playback = Playback(
    book: BookData, session: SessionId, stream: Option<StreamId>, next: nat,
    onTarget: bool, atBound: bool, broken: bool, report: Report)

  function BookFromSnapshot(m: Ticker, snap: Row): BookData
    requires snap.SnapshotRow?
  {
    Snapshotted(NewBook(m), snap.yes, snap.no, snap.seqNo, snap.atMs, Some(snap.session), snap.stream)
  }

  function NewEpoch(snap: Row): Epoch
    requires snap.SnapshotRow?
  {
    Epoch(snap.session, snap.stream, snap.atMs, snap.source, 0, 0, 0)
  }

  /** Counts in the current epoch, which is always the last one. */
  function Counting(es: seq<Epoch>, applied: nat, skipped: nat, gaps: nat): seq<Epoch> {
    if es == [] then []
    else
      var e := es[|es| - 1];
      es[|es| - 1 := e.(applied := e.applied + applied, skipped := e.skipped + skipped, gaps := e.gaps + gaps)]
  }

  /** The streams of the window numbered in order of first appearance. */
  function StreamOrder(deltas: seq<Row>): map<StreamId, nat>
    requires forall i | 0 <= i < |deltas| :: IsDelta(deltas[i])
  {
    if deltas == [] then map[]
    else
      var order := StreamOrder(deltas[..|deltas| - 1]);
      assert IsDelta(deltas[|deltas| - 1]);
      var id := deltas[|deltas| - 1].stream.value;
      if id in order then order else order[id := |order|]
  }

  /** Within a millisecond the exchange's own sequence decides, then the order of the streams. */
  predicate SnapshotPrecedes(snap: Row, d: Row, order: map<StreamId, nat>)
    requires snap.SnapshotRow? && IsDelta(d)
  {
    if snap.atMs != d.atMs then snap.atMs <= d.atMs
    else if snap.stream.Some? && snap.stream == d.stream && snap.seqNo.Some? then snap.seqNo.value <= d.seqNo.value
    else if snap.stream.Some? && snap.stream.value in order && d.stream.value in order then
      order[snap.stream.value] <= order[d.stream.value]
    else true
  }

  function SeedStreamIndex(seed: Row, order: map<StreamId, nat>): Option<nat>
    requires seed.SnapshotRow?
  {
    if seed.stream.Some? && seed.stream.value in order then Some(order[seed.stream.value]) else None
  }

  /** The delta is at or before the seed's own position. */
  predicate AtOrBeforeSeed(d: Row, seed: Row, order: map<StreamId, nat>)
    requires seed.SnapshotRow? && IsDelta(d) && d.stream.value in order
  {
    var at := SeedStreamIndex(seed, order);
    if at.Some? then
      || order[d.stream.value] < at.value
      || (order[d.stream.value] == at.value && seed.seqNo.Some? && d.seqNo.value <= seed.seqNo.value)
    else d.atMs == seed.atMs && seed.seqNo.Some? && d.seqNo.value <= seed.seqNo.value
  }

  predicate OnTargetStream(d: Row, o: Options)
    requires IsDelta(d)
  {
    o.toSeqStream.None? || d.stream == o.toSeqStream
  }

  predicate PastBound(d: Row, o: Options, onTarget: bool)
    requires IsDelta(d)
  {
    o.toSeq.Some? &&
    (if OnTargetStream(d, o) then d.seqNo.value > o.toSeq.value else onTarget)
  }

  /** Replaces the book by a snapshot; only the loop over the deltas announces it and counts recoveries. */
  function Reseeded(p: Playback, snap: Row, m: Ticker, inLoop: bool): Playback
    requires snap.SnapshotRow?
  {
    var book := BookFromSnapshot(m, snap);
    var begun := if snap.session != p.session || snap.stream != p.stream || snap.source == SessionHandoff
                   then p.report.epochs + [NewEpoch(snap)] else p.report.epochs;
    var epochs := if inLoop && snap.source == WsRecovery then Counting(begun, 0, 0, 1) else begun;
    p.(book := book, session := snap.session, stream := snap.stream, next := p.next + 1,
       report := p.report.(epochs := epochs,
                           hooks := p.report.hooks + (if inLoop then [Before(snap.atMs, p.book)] else [])
                                    + [Reached(snap.stream, snap.seqNo, snap.atMs, book, true)]))
  }

  /** Re-seeds from every snapshot that precedes the delta. */
  function CaughtUp(p: Playback, snaps: seq<Row>, d: Row, order: map<StreamId, nat>, m: Ticker): Playback
    requires IsDelta(d) && forall i | 0 <= i < |snaps| :: snaps[i].SnapshotRow?
    decreases |snaps| - p.next
  {
    if p.next < |snaps| && SnapshotPrecedes(snaps[p.next], d, order)
    then CaughtUp(Reseeded(p, snaps[p.next], m, true), snaps, d, order, m)
    else p
  }

  /** The delta itself: skipped as recorded, folded, or found not to apply any more. */
  function Played(p: Playback, d: Row, o: Options): Playback
    requires IsDelta(d)
  {
    var r := p.report.(total := p.report.total + 1);
    if !d.applied then
      p.(report := r.(skipped := r.skipped + 1, epochs := Counting(r.epochs, 0, 1, 0),
                      warnings := if o.strict then r.warnings + [NotAppliedWhenRecorded(d.seqNo.value)]
                          else r.warnings))
    else
      var announced := r.(hooks := r.hooks + [Before(d.atMs, p.book)]);
      var book := Changed(p.book, d.change, d.seqNo, d.atMs, DEFAULT_RETENTION);
      if !Applies(p.book.ladders, d.change) then
        p.(book := book, broken := o.strict,
           report := announced.(epochs := Counting(r.epochs, 0, 1, 0),
               warnings := r.warnings + [Diverged(d.seqNo.value)]))
      else
        p.(book := book,
           report := announced.(applied := r.applied + 1, epochs := Counting(r.epochs, 1, 0, 0),
                                hooks := announced.hooks + [Reached(d.stream, d.seqNo, d.atMs, book, false)]))
  }

  function Visited(p: Playback, d: Row, o: Options, seed: Row, snaps: seq<Row>, order: map<StreamId, nat>): Playback
    requires IsDelta(d) && d.stream.value in order && seed.SnapshotRow?
    requires forall i | 0 <= i < |snaps| :: snaps[i].SnapshotRow?
  {
    if p.atBound || p.broken || AtOrBeforeSeed(d, seed, order) then p
    else if PastBound(d, o, p.onTarget) then p.(atBound := true)
    else
      var q := p.(onTarget := p.onTarget || (o.toSeq.Some? && OnTargetStream(d, o)));
      Played(CaughtUp(q, snaps, d, order, o.ticker), d, o)
  }

  lemma {:induction false} EveryStreamOrdered(deltas: seq<Row>, i: nat)
    requires i < |deltas| && forall k | 0 <= k < |deltas| :: IsDelta(deltas[k])
    ensures IsDelta(deltas[i]) && deltas[i].stream.value in StreamOrder(deltas)
  {
    if i < |deltas| - 1 {
      EveryStreamOrdered(deltas[..|deltas| - 1], i);
    }
  }

  /** The loop over the first n deltas. */
  function Looped(p: Playback, o: Options, a: Answers, n: nat): Playback
    requires WellTyped(a) && a.seed.Some? && n <= |a.deltas|
  {
    if n == 0 then p
    else
      EveryStreamOrdered(a.deltas, n - 1);
      Visited(Looped(p, o, a, n - 1), a.deltas[n - 1], o, a.seed.value, a.snapshots, StreamOrder(a.deltas))
  }

  lemma LoopNext(o: Options, a: Answers, n: nat)
    requires WellTyped(a) && a.seed.Some? && n < |a.deltas|
    ensures IsDelta(a.deltas[n]) && a.deltas[n].stream.value in StreamOrder(a.deltas)
    ensures Looped(Seeded(o, a), o, a, n + 1) ==
      Visited(Looped(Seeded(o, a), o, a, n), a.deltas[n], o, a.seed.value, a.snapshots, StreamOrder(a.deltas))
  {
    hide Visited, StreamOrder, Seeded;
    EveryStreamOrdered(a.deltas, n);
  }

  /** Without a bound a delta that the seed does not contain is played once the snapshots before it are. */
  lemma VisitedFreely(p: Playback, d: Row, o: Options, seed: Row, snaps: seq<Row>, order: map<StreamId, nat>)
    requires IsDelta(d) && d.stream.value in order && seed.SnapshotRow? && o.toSeq.None?
    requires (forall i | 0 <= i < |snaps| :: snaps[i].SnapshotRow?) && !p.atBound && !p.broken
    requires !AtOrBeforeSeed(d, seed, order)
    ensures Visited(p, d, o, seed, snaps, order) == Played(CaughtUp(p, snaps, d, order, o.ticker), d, o)
  {
    hide AtOrBeforeSeed, Played, CaughtUp;
    assert p.(onTarget := p.onTarget) == p;
  }

  /** Snapshots that landed after the final delta. */
  function Drained(p: Playback, snaps: seq<Row>, o: Options): Playback
    requires forall i | 0 <= i < |snaps| :: snaps[i].SnapshotRow?
    decreases |snaps| - p.next
  {
    if p.next < |snaps| && snaps[p.next].atMs <= o.toMs
    then Drained(Reseeded(p, snaps[p.next], o.ticker, false), snaps, o)
    else p
  }

  /** Where the replay starts: at the seed. */
  function Seeded(o: Options, a: Answers): Playback
    requires WellTyped(a) && a.seed.Some?
  {
    var seed := a.seed.value;
    var book := BookFromSnapshot(o.ticker, seed);
    Playback(book, seed.session, seed.stream, 0, o.toSeqStream.None?, false, false,
             Report([NewEpoch(seed)], 0, 0, 0, [Reached(seed.stream, seed.seqNo, seed.atMs, book, true)],
                    if a.seedIsLate then [StartsLate(seed.atMs)] else []))
  }

  function AfterDeltas(o: Options, a: Answers): Playback
    requires WellTyped(a) && a.seed.Some?
  {
    Looped(Seeded(o, a), o, a, |a.deltas|)
  }

  function Finished(o: Options, a: Answers): Playback
    requires WellTyped(a) && a.seed.Some?
  {
    var p := AfterDeltas(o, a);
    if p.atBound then p else Drained(p, a.snapshots, o)
  }

  function ReplayOf(o: Options, a: Answers): ReplayResult
    requires WellTyped(a)
  {
    if a.seed.None? then ReplayResult(NOTHING_REPORTED.(warnings := [NoSeed]), None)
    else
      var p := Finished(o, a);
      ReplayResult(p.report, Some(p.book))
  }

  // ---------------------------------------------------------------------------
  // The replay itself
  // ---------------------------------------------------------------------------

  /** Numbers the streams of the window in order of first appearance. */
  method NumberStreams(deltas: seq<Row>) returns (order: map<StreamId, nat>)
    requires forall i | 0 <= i < |deltas| :: IsDelta(deltas[i])
    ensures order == StreamOrder(deltas)
  {
    order := map[];
    for i := 0 to |deltas|
      invariant order == StreamOrder(deltas[..i])
    {
      assert deltas[..i + 1][..i] == deltas[..i];
      var id := deltas[i].stream.value;
      if id !in order {
        order := order[id := |order|];
      }
    }
    assert deltas[..|deltas|] == deltas;
  }

  method LoadBook(m: Ticker, snap: Row) returns (book: MarketBook)
    requires snap.SnapshotRow?
    ensures fresh(book) && book.Valid() && book.View() == BookFromSnapshot(m, snap)
    ensures book.keep == DEFAULT_RETENTION
  {
    hide MarketBook.Valid, Snapshotted;
    book := new MarketBook(m);
    book.ReplaceWithSnapshot(snap.yes, snap.no, snap.seqNo, snap.atMs, Some(snap.session), snap.stream);
  }

  /** A snapshot takes over: a new book, and a new epoch when the session or the stream changed. */
  method Reseed(snap: Row, m: Ticker, book: MarketBook, session: SessionId, stream: Option<StreamId>,
                report: Report, inLoop: bool, ghost p: Playback)
    returns (book': MarketBook, session': SessionId, stream': Option<StreamId>, report': Report)
    requires snap.SnapshotRow?
    requires p.book == book.View() && p.session == session && p.stream == stream && p.report == report
    ensures fresh(book') && book'.Valid() && book'.keep == DEFAULT_RETENTION
    ensures var q := Reseeded(p, snap, m, inLoop);
      q.book == book'.View() && q.session == session' && q.stream == stream' && q.report == report'
  {
    hide MarketBook.Valid, MarketBook.View, BookFromSnapshot;
    report' := report;
    if inLoop {
      report' := report'.(hooks := report'.hooks + [Before(snap.atMs, book.View())]);
    }
    book' := LoadBook(m, snap);
    SeedSeq(book', m, snap);
    if snap.session != session || snap.stream != stream || snap.source == SessionHandoff {
      report' := report'.(epochs := report'.epochs + [NewEpoch(snap)]);
    }
    session', stream' := snap.session, snap.stream;
    if inLoop && snap.source == WsRecovery {
      report' := report'.(epochs := Counting(report'.epochs, 0, 0, 1));
    }
    report' := report'.(hooks := report'.hooks + [Reached(stream', book'.lastSeq, snap.atMs, book'.View(), true)]);
  }

  /** Folds one delta, or records why it was not folded. */
  method PlayDelta(d: Row, o: Options, book: MarketBook, report: Report, ghost p: Playback)
    returns (report': Report, broken: bool)
    requires IsDelta(d) && book.Valid() && book.keep == DEFAULT_RETENTION
    requires p.book == book.View() && p.report == report && !p.broken
    modifies book
    ensures book.Valid()
    ensures var q := Played(p, d, o);
      q.book == book.View() && q.report == report' && q.broken == broken
  {
    hide MarketBook.Valid, MarketBook.View, Changed;
    broken := false;
    report' := report.(total := report.total + 1);
    if !d.applied {
      report' := report'.(skipped := report'.skipped + 1, epochs := Counting(report'.epochs, 0, 1, 0));
      if o.strict {
        report' := report'.(warnings := report'.warnings + [NotAppliedWhenRecorded(d.seqNo.value)]);
      }
      return;
    }
    report' := report'.(hooks := report'.hooks + [Before(d.atMs, book.View())]);
    var outcome := book.ApplyDelta(d.change, d.seqNo, d.atMs);
    if !outcome.applied {
      report' := report'.(warnings := report'.warnings + [Diverged(d.seqNo.value)],
                          epochs := Counting(report'.epochs, 0, 1, 0));
      broken := o.strict;
      return;
    }
    report' := report'.(applied := report'.applied + 1, epochs := Counting(report'.epochs, 1, 0, 0));
    report' := report'.(hooks := report'.hooks + [Reached(d.stream, d.seqNo, d.atMs, book.View(), false)]);
  }

  lemma ReseedingKeeps(p: Playback, snap: Row, m: Ticker, inLoop: bool)
    requires snap.SnapshotRow?
    ensures var q := Reseeded(p, snap, m, inLoop);
      q.next == p.next + 1 && q.onTarget == p.onTarget && q.atBound == p.atBound && q.broken == p.broken
  {
  }

  lemma {:induction false} CatchingUpKeeps(p: Playback, snaps: seq<Row>, d: Row, order: map<StreamId, nat>, m: Ticker)
    requires (forall i | 0 <= i < |snaps| :: snaps[i].SnapshotRow?) && IsDelta(d)
    ensures var q := CaughtUp(p, snaps, d, order, m);
      p.next <= q.next && q.onTarget == p.onTarget && q.atBound == p.atBound && q.broken == p.broken
    decreases |snaps| - p.next
  {
    hide Reseeded, SnapshotPrecedes;
    if p.next < |snaps| && SnapshotPrecedes(snaps[p.next], d, order) {
      ReseedingKeeps(p, snaps[p.next], m, true);
      CatchingUpKeeps(Reseeded(p, snaps[p.next], m, true), snaps, d, order, m);
    }
  }

  lemma PlayingKeeps(p: Playback, d: Row, o: Options)
    requires IsDelta(d)
    ensures var q := Played(p, d, o);
      q.session == p.session && q.stream == p.stream && q.next == p.next && q.onTarget == p.onTarget &&
          q.atBound == p.atBound
  {
  }

  /** Once stopped, the loop changes nothing more. */
  lemma {:induction false} StaysStopped(p: Playback, o: Options, a: Answers, i: nat, n: nat)
    requires WellTyped(a) && a.seed.Some? && i <= n <= |a.deltas|
    requires Looped(p, o, a, i).atBound || Looped(p, o, a, i).broken
    ensures Looped(p, o, a, n) == Looped(p, o, a, i)
  {
    if i < n {
      StaysStopped(p, o, a, i, n - 1);
    }
  }

  /** Replays one market over the answers of its queries. */
  method Replay(o: Options, a: Answers) returns (r: ReplayResult)
    requires WellTyped(a)
    ensures r == ReplayOf(o, a)
  {
    hide MarketBook.Valid, MarketBook.View, Reseeded, Played, AtOrBeforeSeed, SnapshotPrecedes, StreamOrder, PastBound;
    if a.seed.None? {
      return ReplayResult(NOTHING_REPORTED.(warnings := [NoSeed]), None);
    }
    var seed := a.seed.value;
    var order := NumberStreams(a.deltas);
    var book := LoadBook(o.ticker, seed);
    var session, stream, snapIdx := seed.session, seed.stream, 0;
    var onTarget, atBound, broken := o.toSeqStream.None?, false, false;
    var report := Report([NewEpoch(seed)], 0, 0, 0, [Reached(stream, book.lastSeq, seed.atMs, book.View(), true)],
                         if a.seedIsLate then [StartsLate(seed.atMs)] else []);
    ghost var start := Seeded(o, a);
    ghost var p := start;
    SeedSeq(book, o.ticker, seed);
    var i := 0;
    while i < |a.deltas| && !broken
      invariant 0 <= i <= |a.deltas| && fresh(book) && book.Valid() && book.keep == DEFAULT_RETENTION
      invariant p == Playback(book.View(), session, stream, snapIdx, onTarget, atBound, broken, report) && !atBound
      invariant p == Looped(start, o, a, i)
    {
      var d := a.deltas[i];
      EveryStreamOrdered(a.deltas, i);
      i := i + 1;
      if AtOrBeforeSeed(d, seed, order) {
        continue;
      }
      if PastBound(d, o, onTarget) {
        atBound := true;
        p := p.(atBound := true);
        break;
      }
      if o.toSeq.Some? && OnTargetStream(d, o) {
        onTarget := true;
      }
      p := p.(onTarget := onTarget);
      ghost var q := p;
      while snapIdx < |a.snapshots| && SnapshotPrecedes(a.snapshots[snapIdx], d, order)
        invariant fresh(book) && book.Valid() && book.keep == DEFAULT_RETENTION
        invariant p == Playback(book.View(), session, stream, snapIdx, onTarget, false, false, report)
        invariant CaughtUp(p, a.snapshots, d, order, o.ticker) == CaughtUp(q, a.snapshots, d, order, o.ticker)
        decreases |a.snapshots| - snapIdx
      {
        ReseedingKeeps(p, a.snapshots[snapIdx], o.ticker, true);
        book, session, stream, report := Reseed(a.snapshots[snapIdx], o.ticker, book, session, stream, report, true, p);
        p := Reseeded(p, a.snapshots[snapIdx], o.ticker, true);
        snapIdx := snapIdx + 1;
      }
      assert p == CaughtUp(q, a.snapshots, d, order, o.ticker);
      PlayingKeeps(p, d, o);
      report, broken := PlayDelta(d, o, book, report, p);
      p := Played(p, d, o);
    }
    if i < |a.deltas| {
      StaysStopped(start, o, a, i, |a.deltas|);
    }
    assert p == AfterDeltas(o, a);
    if !atBound {
      ghost var q := p;
      while snapIdx < |a.snapshots|
        invariant fresh(book) && book.Valid() && book.keep == DEFAULT_RETENTION
        invariant p == Playback(book.View(), session, stream, snapIdx, onTarget, false, broken, report)
        invariant Drained(p, a.snapshots, o) == Drained(q, a.snapshots, o)
        decreases |a.snapshots| - snapIdx
      {
        var snap := a.snapshots[snapIdx];
        if snap.atMs > o.toMs {
          break;
        }
        ReseedingKeeps(p, snap, o.ticker, false);
        book, session, stream, report := Reseed(snap, o.ticker, book, session, stream, report, false, p);
        p := Reseeded(p, snap, o.ticker, false);
        snapIdx := snapIdx + 1;
      }
      assert p == Drained(q, a.snapshots, o);
    }
    r := ReplayResult(report, Some(book.View()));
  }

  lemma SeedSeq(book: MarketBook, m: Ticker, seed: Row)
    requires seed.SnapshotRow? && book.View() == BookFromSnapshot(m, seed)
    ensures book.lastSeq == seed.seqNo
  {
    assert book.View().lastSeq == seed.seqNo;
  }
}
