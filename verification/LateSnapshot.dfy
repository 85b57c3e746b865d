/** A clock materialization that shows a grid point with a later book: trailing snapshots are never announced. */
module LateSnapshot {
  import opened Values
  import opened MarketBooks
  import opened BookManagement
  import opened Capture
  import opened LiveHistory
  import opened FaithfulRows
  import opened Replaying
  import opened Queries
  import opened ReplayEquality
  import opened Materializing
  import opened AsOfSampling
  import opened OneMarketRun

  /**
   * Of any market: a snapshot at 10 ms, a delta at 20 ms and a snapshot at 30 ms, sampled every 10 ms
   * over [10, 40]. The row for 20 ms holds the book of the snapshot received at 30 ms.
   */
  lemma RowHoldsALaterBook(m: Ticker) returns (o: Options, a: Answers, i: nat)
    ensures o.ticker == m && o.toSeq.None? && !a.seedIsLate && LegalRun(SESSION, Events(m, 3))
    ensures Orderly(Run(SESSION, Events(m, 3)).rows, m, map[])
    ensures Answered(Run(SESSION, Events(m, 3)).rows, map[], o, a, Some(0))
    ensures WellTyped(a) && Materialized(o, a, ClockMode, 10).Produced?
    ensures var rows, live := Materialized(o, a, ClockMode, 10).rows, LiveTrace(SESSION, Events(m, 3), m);
      && i < |rows| && rows[i].ClockRow? && rows[i].bucketMs == 20
      && rows[i].book.ladders == BookNow(3) && AsOf(live, 20) == BookNow(2) && BookNow(2) != BookNow(3)
  {
    hide LegalRun, Run, Events, LiveTrace, Orderly, Answered, Materialized, AsOf, RowTrace, Sound, RowTells, IsGrid;
    hide IsRowOf, StandsAt, Mirrors, FiledByTicker, BookNow, Ready;
    RunRecords(m, 3);
    var rows, live := Run(SESSION, Events(m, 3)).rows, LiveTrace(SESSION, Events(m, 3), m);
    o, a := Asking(m, None), AnswersFrom(rows);
    RunIsLegal(m, 3);
    RecordingIsOrderly(m, 3);
    RecordingAnswers(rows, m, None);
    MaterializeShowsLive(SESSION, Events(m, 3), map[], o, a, 0, 10);
    var s := Setting(rows, map[], o, a, 0);
    RunIsSound(SESSION, Events(m, 3), map[], o, a, 0);
    SoundIsReady(s);
    LegalIsFresh(SESSION, Events(m, 3));
    RowsTellTheLiveBook(SESSION, Events(m, 3), m);
    i := RowAtTwenty(s, m, Materialized(o, a, ClockMode, 10).rows);
  }

  lemma RowAtTwenty(s: Setting, m: Ticker, out: seq<OutRow>) returns (i: nat)
    requires Recording(s, m) && Sound(s) && Ready(s) && IsGrid(out, s.o, 10)
    requires forall i | 0 <= i < |out| :: RowTells(out[i], RowTrace(s.rows, m), s, 10)
    ensures i < |out| && out[i].ClockRow? && out[i].bucketMs == 20
    ensures out[i].book.ladders == BookNow(3) && AsOf(RowTrace(s.rows, m), 20) == BookNow(2) && BookNow(2) != BookNow(3)
  {
    hide Sound, Ready, AsOf, RowTrace;
    OwedAtTwenty(s, m);
    LateAtTwenty(s, m);
    assert Listed(out, 20);
    i :| 0 <= i < |out| && out[i].ClockRow? && out[i].bucketMs == 20;
    assert RowTells(out[i], RowTrace(s.rows, m), s, 10);
    assert BookNow(2).yes[PRICE] != BookNow(3).yes[PRICE];
  }

  ghost predicate Recording(s: Setting, m: Ticker) {
    && |s.rows| == 3 && (forall i | 0 <= i < 3 :: IsRowOf(s.rows[i], m, i + 1))
    && s.o == Asking(m, None) && s.a == AnswersFrom(s.rows) && s.k == 0
  }

  /** No change met in the loop over the deltas is received after 20 ms. */
  lemma OwedAtTwenty(s: Setting, m: Ticker)
    requires Recording(s, m)
    ensures Owed(s, 10, 20)
  {
    hide LaddersIn, BookNow;
    assert IsLate(s, 2);
    forall i: nat | IsMet(s, i) ensures s.rows[i].atMs <= 20 {
      assert IsRowOf(s.rows[i], m, i + 1);
    }
  }

  /** The book as of 20 ms is what the snapshot at 30 ms replaces. */
  lemma LateAtTwenty(s: Setting, m: Ticker)
    requires Recording(s, m) && Sound(s) && Ready(s)
    ensures AsOf(RowTrace(s.rows, m), 20) == BookNow(2) && AsOf(RowTrace(s.rows, m), 40) == BookNow(3)
  {
    hide Sound, Ready, LaddersIn, AsOf, RowTrace, BookNow;
    assert IsRowOf(s.rows[0], m, 1) && IsRowOf(s.rows[1], m, 2) && IsRowOf(s.rows[2], m, 3);
    assert s.rows[..3] == s.rows;
    AsOfRows(s.rows, m, 2, 3, 20);
    AsOfRows(s.rows, m, 3, 3, 40);
    RowsTellTheBook(s.rows, m, 2);
    RowsTellTheBook(s.rows, m, 3);
  }
}
