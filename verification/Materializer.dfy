/**
 * Offline sampling of a replayed book on a clock grid or per event (src/sampling/materializer.ts),
 * with the sampler the live recorder uses (src/sampling/bookSampler.ts).
 */
module Materializing {
  import opened Values
  import opened Arithmetic
  import opened CanonicalForm
  import opened MarketBooks
  import opened BookManagement
  import opened LiveHistory
  import opened Replaying

  // ---------------------------------------------------------------------------
  // The sampler
  // ---------------------------------------------------------------------------

  /** The grid point a time falls on. */
  function BucketFor(nowMs: int, intervalMs: int): int
    requires intervalMs > 0
  {
    nowMs / intervalMs * intervalMs
  }

  datatype SampleKey = SampleKey(intervalMs: int, ticker: Ticker)

  /** A sample row; every column but the bucket is read off the book. */
  datatype SampleRow = SampleRow(intervalMs: int, bucketMs: int, book: BookData)

  datatype Sampling = Sampling(lastBucket: map<SampleKey, int>, rows: seq<SampleRow>)

  /** One book at one interval: at most once per bucket. */
  function SampledBook(s: Sampling, nowMs: int, intervalMs: int, b: BookData): Sampling
    requires intervalMs > 0
  {
    var bucket, key := BucketFor(nowMs, intervalMs), SampleKey(intervalMs, b.ticker);
    if key in s.lastBucket && s.lastBucket[key] == bucket then s
    else Sampling(s.lastBucket[key := bucket], s.rows + [SampleRow(intervalMs, bucket, b)])
  }

  function SampledBooks(s: Sampling, nowMs: int, intervalMs: int, books: seq<BookData>): Sampling
    requires intervalMs > 0
  {
    if books == [] then s
    else SampledBook(SampledBooks(s, nowMs, intervalMs, books[..|books| - 1]), nowMs, intervalMs, books[|books| - 1])
  }

  function SampledIntervals(s: Sampling, nowMs: int, intervals: seq<int>, books: seq<BookData>): Sampling
    requires forall i | 0 <= i < |intervals| :: intervals[i] > 0
  {
    if intervals == [] then s
    else SampledBooks(SampledIntervals(s, nowMs, intervals[..|intervals| - 1], books), nowMs,
        intervals[|intervals| - 1], books)
  }

  class BookSampler {
    const intervals: seq<int>
    var lastBucket: map<SampleKey, int>

    constructor (intervals: seq<int>)
      ensures this.intervals == intervals && lastBucket == map[]
    {
      this.intervals := intervals;
      lastBucket := map[];
    }

    /** All samples due at `nowMs`. */
    method Sample(nowMs: int, books: seq<BookData>) returns (rows: seq<SampleRow>)
      requires forall i | 0 <= i < |intervals| :: intervals[i] > 0
      modifies this
      ensures Sampling(lastBucket, rows) == SampledIntervals(Sampling(old(lastBucket), []), nowMs, intervals, books)
    {
      rows := [];
      ghost var start := Sampling(lastBucket, rows);
      for i := 0 to |intervals|
        invariant Sampling(lastBucket, rows) == SampledIntervals(start, nowMs, intervals[..i], books)
      {
        assert intervals[..i + 1][..i] == intervals[..i];
        ghost var mid := Sampling(lastBucket, rows);
        var bucket := BucketFor(nowMs, intervals[i]);
        for j := 0 to |books|
          invariant Sampling(lastBucket, rows) == SampledBooks(mid, nowMs, intervals[i], books[..j])
        {
          assert books[..j + 1][..j] == books[..j];
          var key := SampleKey(intervals[i], books[j].ticker);
          if !(key in lastBucket && lastBucket[key] == bucket) {
            lastBucket := lastBucket[key := bucket];
            rows := rows + [SampleRow(intervals[i], bucket, books[j])];
          }
        }
        assert books[..|books|] == books;
      }
      assert intervals[..|intervals|] == intervals;
    }
  }

  lemma BucketOfGridPoint(k: int, intervalMs: int)
    requires intervalMs > 0
    ensures BucketFor(k * intervalMs, intervalMs) == k * intervalMs
  {
    var n := k * intervalMs;
    var q := n / intervalMs;
    DivMod(n, intervalMs);
    Distributes(k, q, intervalMs);
    MultipleIsFar(k - q, intervalMs);
    assert q == k;
  }

  // ---------------------------------------------------------------------------
  // Specification
  // ---------------------------------------------------------------------------

  datatype Mode = ClockMode | EventTime

  datatype OutRow = ClockRow(bucketMs: int, book: BookData) | EventRow(atMs: int, book: BookData)

  /** `next` is the next grid point; a sampler exists once a book has been seen. */
  datatype Clock = Clock(next: int, bound: bool, rows: seq<OutRow>)

  /** BigInt division drops the fraction. */
  function Truncated(a: int, b: int): int
    requires b > 0
  {
    if a >= 0 then a / b else -(-a / b)
  }

  function ClockStart(o: Options, interval: nat): Clock {
    Clock(if interval > 0 then Truncated(o.fromMs, interval) * interval else 0, false, [])
  }

  function Ticked(c: Clock, o: Options, interval: nat, book: BookData): Clock {
    Clock(c.next + interval, c.bound, c.rows + (if c.next >= o.fromMs then [ClockRow(c.next, book)] else []))
  }

  /** Every grid point up to a bound shows the same book. */
  function TickedUpTo(c: Clock, o: Options, interval: nat, limit: int, book: BookData): Clock
    decreases limit - c.next
  {
    if interval > 0 && c.next <= limit then TickedUpTo(Ticked(c, o, interval, book), o, interval, limit, book) else c
  }

  function Called(c: Clock, h: Hook, o: Options, mode: Mode, interval: nat): Clock {
    match h
    case Before(atMs, book) => if c.bound then TickedUpTo(c, o, interval, Min(atMs - 1, o.toMs), book) else c
    case Reached(_, _, atMs, book, _) =>
      c.(bound := true, rows := if mode == EventTime then c.rows + [EventRow(atMs, book)] else c.rows)
  }

  function AfterHooks(hooks: seq<Hook>, o: Options, mode: Mode, interval: nat): Clock {
    if hooks == [] then ClockStart(o, interval)
    else Called(AfterHooks(hooks[..|hooks| - 1], o, mode, interval), hooks[|hooks| - 1], o, mode, interval)
  }

  /** A clock without an interval is refused; a market no replay can be seeded for is skipped. */
  datatype Materialization = Refused | Skipped | Produced(rows: seq<OutRow>)

  function Materialized(o: Options, a: Answers, mode: Mode, interval: nat): Materialization
    requires WellTyped(a)
  {
    var r := ReplayOf(o, a);
    if mode == ClockMode && interval == 0 then Refused
    else if r.finalBook.None? then Skipped
    else
      var c := AfterHooks(r.report.hooks, o, mode, interval);
      if mode == ClockMode && c.bound then Produced(TickedUpTo(c, o, interval, o.toMs, r.finalBook.value).rows)
      else Produced(c.rows)
  }

  // ---------------------------------------------------------------------------
  // The materializer
  // ---------------------------------------------------------------------------

  /** Grid points are sampled with the production sampler, which keeps one row per bucket. */
  method Tick(sampler: BookSampler, c: Clock, o: Options, interval: nat, limit: int, book: BookData, ghost k: int)
    returns (c': Clock, ghost k': int)
    requires interval > 0 && sampler.intervals == [interval] && c.next == k * interval
    requires forall key | key in sampler.lastBucket :: sampler.lastBucket[key] < c.next
    modifies sampler
    ensures c' == TickedUpTo(c, o, interval, limit, book) && c'.next == k' * interval
    ensures forall key | key in sampler.lastBucket :: sampler.lastBucket[key] < c'.next
  {
    c', k' := c, k;
    while c'.next <= limit
      invariant c'.next == k' * interval
      invariant forall key | key in sampler.lastBucket :: sampler.lastBucket[key] < c'.next
      invariant TickedUpTo(c', o, interval, limit, book) == TickedUpTo(c, o, interval, limit, book)
      decreases limit - c'.next
    {
      var rows: seq<OutRow> := [];
      if c'.next >= o.fromMs {
        BucketOfGridPoint(k', interval);
        OneDue(Sampling(sampler.lastBucket, []), c'.next, interval, book);
        var due := sampler.Sample(c'.next, [book]);
        for i := 0 to |due|
          invariant rows == seq(i, (j: int) => ClockRow(c'.next, if 0 <= j < |due| then due[j].book else book))
        {
          rows := rows + [ClockRow(c'.next, due[i].book)];
        }
        assert rows == [ClockRow(c'.next, book)];
      }
      c' := Clock(c'.next + interval, c'.bound, c'.rows + rows);
      k' := k' + 1;
    }
  }

  lemma OneDue(s: Sampling, nowMs: int, interval: int, book: BookData)
    requires interval > 0 && BucketFor(nowMs, interval) == nowMs && s.rows == []
    requires forall key | key in s.lastBucket :: s.lastBucket[key] < nowMs
    ensures SampledIntervals(s, nowMs, [interval], [book])
         == Sampling(s.lastBucket[SampleKey(interval, book.ticker) := nowMs], [SampleRow(interval, nowMs, book)])
  {
    assert [interval][..0] == [] && [book][..0] == [];
    assert SampledIntervals(s, nowMs, [interval], [book]) == SampledBooks(s, nowMs, interval, [book]);
    assert SampledBooks(s, nowMs, interval, [book]) == SampledBook(s, nowMs, interval, book);
  }

  /** Materializes one market. */
  method Materialize(o: Options, a: Answers, mode: Mode, interval: nat) returns (out: Materialization)
    requires WellTyped(a)
    ensures out == Materialized(o, a, mode, interval)
  {
    hide ReplayOf, TickedUpTo;
    if mode == ClockMode && interval == 0 {
      return Refused;
    }
    var replayed := Replay(o, a);
    var hooks := replayed.report.hooks;
    var c := ClockStart(o, interval);
    ghost var k := if interval > 0 then Truncated(o.fromMs, interval) else 0;
    var sampler := new BookSampler([interval]);
    for i := 0 to |hooks|
      invariant c == AfterHooks(hooks[..i], o, mode, interval) && fresh(sampler) && sampler.intervals == [interval]
      invariant interval > 0 ==> c.next == k * interval
      invariant forall key | key in sampler.lastBucket :: sampler.lastBucket[key] < c.next
    {
      assert hooks[..i + 1][..i] == hooks[..i];
      var h := hooks[i];
      if h.Before? {
        if interval > 0 && c.bound {
          c, k := Tick(sampler, c, o, interval, Min(h.atMs - 1, o.toMs), h.book, k);
        } else {
          NoTicks(c, o, interval, h.atMs, h.book);
        }
      } else {
        if h.isNew && interval > 0 {
          sampler := new BookSampler([interval]);
        }
        c := c.(bound := true);
        if mode == EventTime {
          c := c.(rows := c.rows + [EventRow(h.atMs, h.book)]);
        }
      }
    }
    assert hooks[..|hooks|] == hooks;
    if replayed.finalBook.None? {
      return Skipped;
    }
    if mode == ClockMode && c.bound {
      c, k := Tick(sampler, c, o, interval, o.toMs, replayed.finalBook.value, k);
    }
    out := Produced(c.rows);
  }

  lemma NoTicks(c: Clock, o: Options, interval: nat, atMs: int, book: BookData)
    ensures interval == 0 ==> TickedUpTo(c, o, interval, Min(atMs - 1, o.toMs), book) == c
  {
  }
}
