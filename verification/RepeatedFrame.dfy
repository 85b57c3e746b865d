/** A repeated delta that spoils a replay: it pulls the next snapshot in front of the original. */
module RepeatedFrame {
  import opened Values
  import opened Ordering
  import opened CanonicalForm
  import opened MarketBooks
  import opened BookManagement
  import opened SequenceTracking
  import opened RecoveryMachine
  import opened Collecting
  import opened Capture
  import opened LiveHistory
  import opened Replaying
  import opened Queries
  import opened OneMarketRun
  import RepeatedDeltas
  import StaleRows
  import Subs = Subscriptions

  /** The second message, received again. */
  function Repeat(m: Ticker): Frame {
    Frame(Some(SID), Some(2), 40, DeltaMsg(m, BUY), false)
  }

  function RepeatedEvents(m: Ticker): seq<Event> {
    Events(m, 3) + [FrameEvent(Repeat(m))]
  }

  ghost predicate IsRepeat(r: Row, m: Ticker) {
    About(r, m) && r.DeltaRow? && !r.applied && r.stream == Some(STREAM) && r.seqNo == Some(2) && r.atMs == 40
  }

  // ---------------------------------------------------------------------------
  // The run
  // ---------------------------------------------------------------------------

  lemma RepeatIsWithheld(st: State, m: Ticker)
    requires StandsAt(st, m, 3)
    ensures FrameAtHome(st, Repeat(m))
    ensures var e := Handled(st, Repeat(m), SESSION);
      && BookOf(e.st.shelf, m).valid && BookOf(e.st.shelf, m).ladders == BookNow(3)
      && |e.rows| == 1 && IsRepeat(e.rows[0], m)
  {
    hide BookNow;
    assert Subs.Carries(st.subs, STREAM, m, OrderbookDelta);
    var f := Repeat(m);
    assert ResultFor(st, STREAM, f).verdict == OutOfOrder;
    assert !GateAt(st, STREAM, f).allowed;
    assert Classified(st, STREAM, f).shelf == st.shelf;
  }

  /** After the three messages and the repeat. */
  ghost predicate Repeated(r: Recording, m: Ticker) {
    && BookOf(r.st.shelf, m).valid && BookOf(r.st.shelf, m).ladders == BookNow(3)
    && RowsOf(r.rows, m)
  }

  ghost predicate RowsOf(rows: seq<Row>, m: Ticker) {
    |rows| == 4 && IsRepeat(rows[3], m) && forall i | 0 <= i < 3 :: IsRowOf(rows[i], m, i + 1)
  }

  lemma RepeatedRun(m: Ticker)
    ensures Repeated(Run(SESSION, RepeatedEvents(m)), m) && LegalRun(SESSION, RepeatedEvents(m))
  {
    hide Handled, Legal, Run, Begun, BookNow, IsRowOf, IsRepeat, FrameAtHome;
    RunRecords(m, 3);
    RunIsLegal(m, 3);
    var events, all, r := Events(m, 3), RepeatedEvents(m), Run(SESSION, Events(m, 3));
    RepeatIsWithheld(r.st, m);
    assert all[..|events|] == events;
    RunNextIs(events, FrameEvent(Repeat(m)));
    forall k | 0 <= k < |all| ensures LegalAt(SESSION, all, k) {
      if k < |events| {
        assert LegalAt(SESSION, events, k);
        assert all[..k] == events[..k];
      } else {
        RepeatIsLegal(r, m);
      }
    }
  }

  lemma RepeatIsLegal(r: Recording, m: Ticker)
    requires FrameAtHome(r.st, Repeat(m))
    ensures Legal(r, FrameEvent(Repeat(m)))
  {
  }

  lemma RunNextIs(events: seq<Event>, e: Event)
    ensures Run(SESSION, events + [e]) == Step(Run(SESSION, events), e)
  {
    assert (events + [e])[..|events|] == events;
  }

  // ---------------------------------------------------------------------------
  // The recording
  // ---------------------------------------------------------------------------

  lemma RepeatsAllowed(rows: seq<Row>, m: Ticker)
    requires RowsOf(rows, m)
    ensures StaleRows.OrderlyWithRepeats(rows, m, map[])
  {
    hide LaddersIn, BookNow;
    assert IsRowOf(rows[0], m, 1) && IsRowOf(rows[1], m, 2) && IsRowOf(rows[2], m, 3);
  }

  /** The two deltas share their number, so nothing says which comes first. */
  function RepeatFirst(rows: seq<Row>): Answers
    requires |rows| == 4
  {
    Answers(Some(rows[0]), false, [rows[2]], [rows[3], rows[1]])
  }

  lemma RepeatSelections(rows: seq<Row>, m: Ticker)
    requires RowsOf(rows, m)
    ensures Select(rows, DeltasOf(m, 10, 40)) == [rows[1], rows[3]]
    ensures Select(rows, SnapshotsOf(m, 10, 40)) == [rows[2]]
  {
    hide LaddersIn, BookNow, Select;
    assert rows[..|rows|] == rows;
    SelectNothing(rows, DeltasOf(m, 10, 40));
    SelectNothing(rows, SnapshotsOf(m, 10, 40));
    SelectBoth(rows, m, 0);
    SelectBoth(rows, m, 1);
    SelectBoth(rows, m, 2);
    SelectBoth(rows, m, 3);
    assert IsRowOf(rows[0], m, 1) && IsRowOf(rows[1], m, 2) && IsRowOf(rows[2], m, 3);
  }

  lemma RepeatAnswers(rows: seq<Row>, m: Ticker)
    requires RowsOf(rows, m)
    ensures Answered(rows, map[], Asking(m, None), RepeatFirst(rows), Some(0))
  {
    RepeatSelections(rows, m);
    hide LaddersIn, BookNow, Select;
    assert IsRowOf(rows[0], m, 1) && IsRowOf(rows[1], m, 2) && IsRowOf(rows[2], m, 3);
    assert multiset([rows[3], rows[1]]) == multiset([rows[1], rows[3]]);
    assert IsSeed(rows, m, 10, 0);
  }

  // ---------------------------------------------------------------------------
  // The replay
  // ---------------------------------------------------------------------------

  lemma LoadedAsSent(snap: Row, m: Ticker)
    requires snap.SnapshotRow?
    ensures BookFromSnapshot(m, snap).ladders == LaddersIn(snap)
  {
    hide Load;
  }

  /** At the repeat the snapshot is loaded. */
  lemma RepeatTakesTheSnapshot(rows: seq<Row>, m: Ticker)
    requires RowsOf(rows, m)
    ensures WellTyped(RepeatFirst(rows))
    ensures var p := Looped(Seeded(Asking(m, None), RepeatFirst(rows)), Asking(m, None), RepeatFirst(rows), 1);
      p.next == 1 && p.book.ladders == BookNow(3) && !p.atBound && !p.broken
  {
    hide LaddersIn, BookNow, Counting, BookFromSnapshot;
    assert IsRowOf(rows[0], m, 1) && IsRowOf(rows[1], m, 2) && IsRowOf(rows[2], m, 3);
    var o, a := Asking(m, None), RepeatFirst(rows);
    EveryStreamOrdered(a.deltas, 0);
    LoopNext(o, a, 0);
    var p, order := Seeded(o, a), StreamOrder(a.deltas);
    LoadedAsSent(rows[2], m);
    VisitedFreely(p, a.deltas[0], o, rows[0], a.snapshots, order);
    assert CaughtUp(p, a.snapshots, a.deltas[0], order, m) == Reseeded(p, rows[2], m, true);
  }

  lemma RepeatPulls(rows: seq<Row>, m: Ticker)
    requires RowsOf(rows, m)
    ensures WellTyped(RepeatFirst(rows)) && RepeatedDeltas.PullsAhead(RepeatFirst(rows))
  {
    hide LaddersIn, BookNow;
    assert IsRowOf(rows[0], m, 1) && IsRowOf(rows[1], m, 2) && IsRowOf(rows[2], m, 3);
    var a := RepeatFirst(rows);
    EveryStreamOrdered(a.deltas, 0);
    EveryStreamOrdered(a.deltas, 1);
    assert RepeatedDeltas.PullsPast(a, 0, 0, 1);
  }

  /** The original is folded onto it. */
  lemma RepeatSpoils(rows: seq<Row>, m: Ticker)
    requires RowsOf(rows, m)
    ensures WellTyped(RepeatFirst(rows))
    ensures ReplayOf(Asking(m, None), RepeatFirst(rows)).finalBook.Some?
    ensures ReplayOf(Asking(m, None), RepeatFirst(rows)).finalBook.value.ladders == BookNow(4)
  {
    hide LaddersIn, BookNow, Looped, Seeded, Played, Drained;
    assert IsRowOf(rows[0], m, 1) && IsRowOf(rows[1], m, 2) && IsRowOf(rows[2], m, 3);
    var o, a := Asking(m, None), RepeatFirst(rows);
    RepeatTakesTheSnapshot(rows, m);
    EveryStreamOrdered(a.deltas, 1);
    LoopNext(o, a, 1);
    var p, order := Looped(Seeded(o, a), o, a, 1), StreamOrder(a.deltas);
    VisitedFreely(p, a.deltas[1], o, rows[0], a.snapshots, order);
    assert CaughtUp(p, a.snapshots, a.deltas[1], order, m) == p;
    var q := Played(p, a.deltas[1], o);
    BuyIsFolded(p, a.deltas[1], o);
    assert AfterDeltas(o, a) == q;
    DrainedAlready(q, a.snapshots, o);
  }

  lemma BuyIsFolded(p: Playback, d: Row, o: Options)
    requires p.book.ladders == BookNow(3) && IsDelta(d) && d.applied && d.change == BUY && !p.atBound
    ensures var q := Played(p, d, o); q.book.ladders == BookNow(4) && q.next == p.next && !q.atBound
  {
    hide BookNow, Folded, Applies, Trimmed, Counting;
    BuyFolds(3);
  }

  lemma DrainedAlready(p: Playback, snaps: seq<Row>, o: Options)
    requires (forall i | 0 <= i < |snaps| :: snaps[i].SnapshotRow?) && p.next == |snaps|
    ensures Drained(p, snaps, o) == p
  {
  }

  /**
   * Of any market: a snapshot, a delta, a snapshot, and the delta again. The repeat is not applied, yet the
   * replay ends with a book that holds the delta twice.
   */
  lemma RepeatIsReplayedTwice(m: Ticker) returns (o: Options, a: Answers)
    ensures o.ticker == m && o.toSeq.None? && LegalRun(SESSION, RepeatedEvents(m))
    ensures var r := Run(SESSION, RepeatedEvents(m));
      && StaleRows.OrderlyWithRepeats(r.rows, m, map[]) && Answered(r.rows, map[], o, a, Some(0))
      && WellTyped(a) && a.seed.Some? && RepeatedDeltas.PullsAhead(a) && ReplayOf(o, a).finalBook.Some?
      && BookOf(r.st.shelf, m).valid && BookOf(r.st.shelf, m).ladders == BookNow(3)
      && ReplayOf(o, a).finalBook.value.ladders == BookNow(4) && BookNow(4) != BookNow(3)
  {
    hide LegalRun, Run, RepeatedEvents, Answered, ReplayOf, StaleRows.OrderlyWithRepeats, RepeatedDeltas.PullsAhead;
    RepeatedRun(m);
    var rows := Run(SESSION, RepeatedEvents(m)).rows;
    o, a := Asking(m, None), RepeatFirst(rows);
    RepeatsAllowed(rows, m);
    RepeatAnswers(rows, m);
    RepeatPulls(rows, m);
    RepeatSpoils(rows, m);
    assert BookNow(3).yes[PRICE] != BookNow(4).yes[PRICE];
  }
}
