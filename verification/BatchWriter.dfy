/** The batched writer: buffer, flight, requeue and spool (src/persistence/batchWriter.ts). */
module BatchWriting {
  import opened Values
  import opened Statements

  datatype Mode = Daemon | VercelRolling

  datatype Limits = Limits(maxRows: nat, maxBufferedRows: nat, mode: Mode)

  const DEFAULT_LIMITS := Limits(500, 200_000, Daemon)

  /** Rows a unit will insert. */
  function RowsIn(unit: IngestUnit): nat {
    (if unit.raw.Some? then 1 else 0) + |unit.normalized|
  }

  function RowCount(units: seq<IngestUnit>): nat {
    if units == [] then 0 else RowCount(units[..|units| - 1]) + RowsIn(units[|units| - 1])
  }

  // ---------------------------------------------------------------------------
  // Specification: what the writer holds, and what each event does to it
  // ---------------------------------------------------------------------------

  /** `spooling` holds batches taken for spools not yet on disk, oldest first. */
  datatype Writer = Writer(
    buffer: seq<IngestUnit>, count: int, inFlight: Option<seq<IngestUnit>>, spooling: seq<seq<IngestUnit>>,
        closed: bool)

  const EMPTY_WRITER := Writer([], 0, None, [], false)

  /** A flush takes the whole buffer, unless one is already in flight. */
  function Flushed(w: Writer): Writer {
    if w.inFlight.Some? || w.buffer == [] then w
    else w.(buffer := [], count := 0, inFlight := Some(w.buffer))
  }

  /** At the ceiling a daemon takes the buffer for the spool; elsewhere it can only try to flush. */
  function Overflowed(w: Writer, limits: Limits): Writer {
    if limits.mode != Daemon then Flushed(w)
    else w.(buffer := [], count := 0, spooling := w.spooling + [w.buffer])
  }

  function Enqueued(w: Writer, unit: IngestUnit, limits: Limits): Writer {
    var w' := w.(buffer := w.buffer + [unit], count := w.count + 1 + |unit.normalized|);
    if w'.count >= limits.maxBufferedRows then Overflowed(w', limits)
    else if w.closed || w'.count >= limits.maxRows then Flushed(w')
    else w'
  }

  function EnqueuedDerived(w: Writer, rows: seq<NormalizedRow>, limits: Limits): Writer {
    if rows == [] then w
    else
      var w' := w.(buffer := w.buffer + [IngestUnit(None, rows)], count := w.count + |rows|);
      if w.closed || w'.count >= limits.maxRows then Flushed(w') else w'
  }

  function Requeued(w: Writer, units: seq<IngestUnit>): Writer {
    w.(buffer := units + w.buffer, count := w.count + RowCount(units))
  }

  datatype WriteOutcome = Committed | RetryLater | Fatal

  /** A failed write that may be retried leaves everything where it is. */
  function AfterWrite(w: Writer, outcome: WriteOutcome): Writer
    requires w.inFlight.Some?
  {
    match outcome
    case Committed => w.(inFlight := None)
    case RetryLater => w
    case Fatal => Requeued(w, w.inFlight.value).(inFlight := None)
  }

  function WithoutSpool(w: Writer, i: nat): Writer
    requires i < |w.spooling|
  {
    w.(spooling := w.spooling[..i] + w.spooling[i + 1..])
  }

  function AfterSpool(w: Writer, i: nat, onDisk: bool): Writer
    requires i < |w.spooling|
  {
    if onDisk then WithoutSpool(w, i) else Requeued(WithoutSpool(w, i), w.spooling[i])
  }

  datatype Event =
    | Enqueue(unit: IngestUnit)
    | EnqueueDerived(rows: seq<NormalizedRow>)
    | Flush // the timer, a caller, or close
    | WriteEnds(outcome: WriteOutcome)
    | SpoolEnds(index: nat, onDisk: bool)
    | Close

  /**
   * The writer and its surroundings: all work ever handed over, the committed rows, the spool files
   * and whether a spool was ever begun.
   */
  datatype World = World(
    w: Writer, enqueued: seq<IngestUnit>, committed: seq<IngestUnit>, spooled: seq<IngestUnit>, everSpooled: bool)

  const EMPTY_WORLD := World(EMPTY_WRITER, [], [], [], false)

  /** The new work takes the buffer to its ceiling where a spool is possible. */
  predicate BeginsSpool(w: Writer, unit: IngestUnit, limits: Limits) {
    limits.mode == Daemon && w.count + 1 + |unit.normalized| >= limits.maxBufferedRows
  }

  function Step(s: World, e: Event, limits: Limits): World {
    match e
    case Enqueue(unit) =>
      s.(w := Enqueued(s.w, unit, limits), enqueued := s.enqueued + [unit],
         everSpooled := s.everSpooled || BeginsSpool(s.w, unit, limits))
    case EnqueueDerived(rows) =>
      s.(w := EnqueuedDerived(s.w, rows, limits),
         enqueued := if rows == [] then s.enqueued else s.enqueued + [IngestUnit(None, rows)])
    case Flush => s.(w := Flushed(s.w))
    case WriteEnds(outcome) =>
      if s.w.inFlight.None? then s
      else s.(w := AfterWrite(s.w, outcome),
              committed := if outcome == Committed then s.committed + s.w.inFlight.value else s.committed)
    case SpoolEnds(i, onDisk) =>
      if i >= |s.w.spooling| then s
      else s.(w := AfterSpool(s.w, i, onDisk), spooled := if onDisk then s.spooled + s.w.spooling[i] else s.spooled)
    case Close => s.(w := Flushed(s.w.(closed := true)))
  }

  function Run(events: seq<Event>, limits: Limits): World {
    if events == [] then EMPTY_WORLD else Step(Run(events[..|events| - 1], limits), events[|events| - 1], limits)
  }

  /** Work handed over through enqueue always has a raw event. */
  ghost predicate RealUnits(events: seq<Event>) {
    forall i | 0 <= i < |events| && events[i].Enqueue? :: events[i].unit.raw.Some?
  }

  // ---------------------------------------------------------------------------
  // Counting
  // ---------------------------------------------------------------------------

  lemma RowCountSnoc(units: seq<IngestUnit>, unit: IngestUnit)
    ensures RowCount(units + [unit]) == RowCount(units) + RowsIn(unit)
  {
    assert (units + [unit])[..|units|] == units;
  }

  lemma {:induction false} RowCountAdds(a: seq<IngestUnit>, b: seq<IngestUnit>)
    ensures RowCount(a + b) == RowCount(a) + RowCount(b)
  {
    if b == [] {
      assert a + b == a;
    } else {
      RowCountAdds(a, b[..|b| - 1]);
      assert (a + b)[..|a + b| - 1] == a + b[..|b| - 1];
    }
  }

  ghost predicate CountIsExact(w: Writer) {
    w.count == RowCount(w.buffer)
  }

  lemma StepKeepsCount(s: World, e: Event, limits: Limits)
    requires CountIsExact(s.w) && (e.Enqueue? ==> e.unit.raw.Some?)
    ensures CountIsExact(Step(s, e, limits).w)
  {
    hide RowCount;
    EmptyIsExact();
    match e
    case Enqueue(unit) => RowCountSnoc(s.w.buffer, unit);
    case EnqueueDerived(rows) => RowCountSnoc(s.w.buffer, IngestUnit(None, rows));
    case WriteEnds(outcome) =>
      if s.w.inFlight.Some? {
        RowCountAdds(s.w.inFlight.value, s.w.buffer);
      }
    case SpoolEnds(i, onDisk) =>
      if i < |s.w.spooling| {
        RowCountAdds(s.w.spooling[i], s.w.buffer);
      }
    case _ =>
  }

  /** The row count kept beside the buffer is always the number of rows in it. */
  lemma {:induction false} BufferedCountIsExact(events: seq<Event>, limits: Limits)
    requires RealUnits(events)
    ensures CountIsExact(Run(events, limits).w)
  {
    hide CountIsExact, Step;
    if events == [] {
      EmptyIsExact();
    } else {
      var init := events[..|events| - 1];
      assert RealUnits(init) by {
        assert forall i | 0 <= i < |init| :: init[i] == events[i];
      }
      BufferedCountIsExact(init, limits);
      StepKeepsCount(Run(init, limits), events[|events| - 1], limits);
    }
  }

  lemma EmptyIsExact()
    ensures CountIsExact(EMPTY_WRITER) && RowCount([]) == 0
  {
  }

  // ---------------------------------------------------------------------------
  // Order
  // ---------------------------------------------------------------------------

  function InFlight(w: Writer): seq<IngestUnit> {
    if w.inFlight.Some? then w.inFlight.value else []
  }

  /** Committed, then in flight, then buffered: exactly what was handed over, in order. */
  ghost predicate InOrder(s: World) {
    s.committed + InFlight(s.w) + s.w.buffer == s.enqueued
  }

  lemma FlushKeepsOrder(s: World, w: Writer)
    requires s.committed + InFlight(w) + w.buffer == s.enqueued
    ensures InOrder(s.(w := Flushed(w)))
  {
    assert s.committed + [] + w.buffer == s.committed + w.buffer + [];
  }

  lemma StepKeepsOrder(s: World, e: Event, limits: Limits)
    requires InOrder(s) && !Step(s, e, limits).everSpooled && s.w.spooling == []
    ensures InOrder(Step(s, e, limits)) && Step(s, e, limits).w.spooling == []
  {
    var flying := InFlight(s.w);
    match e
    case Enqueue(unit) =>
      var w' := s.w.(buffer := s.w.buffer + [unit], count := s.w.count + 1 + |unit.normalized|);
      assert s.committed + flying + (s.w.buffer + [unit]) == s.enqueued + [unit];
      FlushKeepsOrder(s.(enqueued := s.enqueued + [unit]), w');
    case EnqueueDerived(rows) =>
      var unit := IngestUnit(None, rows);
      var w' := s.w.(buffer := s.w.buffer + [unit], count := s.w.count + |rows|);
      assert s.committed + flying + (s.w.buffer + [unit]) == s.enqueued + [unit];
      FlushKeepsOrder(s.(enqueued := s.enqueued + [unit]), w');
    case Flush =>
      FlushKeepsOrder(s, s.w);
    case Close =>
      FlushKeepsOrder(s, s.w.(closed := true));
    case WriteEnds(outcome) =>
      assert s.committed + flying + [] + s.w.buffer == s.enqueued;
      assert s.committed + [] + (flying + s.w.buffer) == s.enqueued;
    case SpoolEnds(_, _) =>
  }

  /** While no spool was ever begun, no unit overtakes another, through retries and fatal failures alike. */
  lemma {:induction false} WriterKeepsOrder(events: seq<Event>, limits: Limits)
    requires !Run(events, limits).everSpooled
    ensures InOrder(Run(events, limits)) && Run(events, limits).w.spooling == []
  {
    if events != [] {
      var init := events[..|events| - 1];
      WriterKeepsOrder(init, limits);
      StepKeepsOrder(Run(init, limits), events[|events| - 1], limits);
    }
  }

  /** Where no spool is possible, none is ever begun, so order is never at stake. */
  lemma {:induction false} NoSpoolNoReordering(events: seq<Event>, limits: Limits)
    requires limits.mode != Daemon
    ensures InOrder(Run(events, limits))
  {
    NeverSpoolsThere(events, limits);
    WriterKeepsOrder(events, limits);
  }

  lemma {:induction false} NeverSpoolsThere(events: seq<Event>, limits: Limits)
    requires limits.mode != Daemon
    ensures !Run(events, limits).everSpooled
  {
    if events != [] {
      NeverSpoolsThere(events[..|events| - 1], limits);
    }
  }

  /** What is committed is always a prefix of what was handed over. */
  lemma CommittedIsPrefix(events: seq<Event>, limits: Limits)
    requires !Run(events, limits).everSpooled
    ensures Run(events, limits).committed <= Run(events, limits).enqueued
  {
    WriterKeepsOrder(events, limits);
  }

  // ---------------------------------------------------------------------------
  // Conservation
  // ---------------------------------------------------------------------------

  function Pooled(batches: seq<seq<IngestUnit>>): multiset<IngestUnit> {
    if batches == [] then multiset{} else Pooled(batches[..|batches| - 1]) + multiset(batches[|batches| - 1])
  }

  /** Everything the writer still holds. */
  function Held(w: Writer): multiset<IngestUnit> {
    multiset(InFlight(w)) + Pooled(w.spooling) + multiset(w.buffer)
  }

  /** Wherever work may be: nothing handed over is ever missing or doubled. */
  ghost predicate Conserved(s: World) {
    multiset(s.committed) + multiset(s.spooled) + Held(s.w) == multiset(s.enqueued)
  }

  lemma PooledSnoc(batches: seq<seq<IngestUnit>>, batch: seq<IngestUnit>)
    ensures Pooled(batches + [batch]) == Pooled(batches) + multiset(batch)
  {
    assert (batches + [batch])[..|batches|] == batches;
  }

  lemma {:induction false} PooledWithout(batches: seq<seq<IngestUnit>>, i: nat)
    requires i < |batches|
    ensures Pooled(batches) == Pooled(batches[..i] + batches[i + 1..]) + multiset(batches[i])
  {
    var n := |batches| - 1;
    if i == n {
      assert batches[..i] + batches[i + 1..] == batches[..n];
    } else {
      PooledWithout(batches[..n], i);
      var rest := batches[..i] + batches[i + 1..];
      assert rest[..|rest| - 1] == batches[..n][..i] + batches[..n][i + 1..];
    }
  }

  lemma FlushHolds(w: Writer)
    ensures Held(Flushed(w)) == Held(w)
  {
  }

  lemma OverflowHolds(w: Writer, limits: Limits)
    ensures Held(Overflowed(w, limits)) == Held(w)
  {
    if limits.mode == Daemon {
      PooledSnoc(w.spooling, w.buffer);
    } else {
      FlushHolds(w);
    }
  }

  lemma PushHolds(w: Writer, unit: IngestUnit, count: int)
    ensures Held(w.(buffer := w.buffer + [unit], count := count)) == Held(w) + multiset{unit}
  {
    assert multiset(w.buffer + [unit]) == multiset(w.buffer) + multiset{unit};
  }

  lemma RequeueHolds(w: Writer, units: seq<IngestUnit>)
    ensures Held(Requeued(w, units)) == Held(w) + multiset(units)
  {
    assert multiset(units + w.buffer) == multiset(units) + multiset(w.buffer);
  }

  lemma SpoolHolds(w: Writer, i: nat)
    requires i < |w.spooling|
    ensures Held(w) == Held(WithoutSpool(w, i)) + multiset(w.spooling[i])
  {
    PooledWithout(w.spooling, i);
  }

  lemma LandedHolds(w: Writer)
    requires w.inFlight.Some?
    ensures Held(w) == Held(w.(inFlight := None)) + multiset(w.inFlight.value)
  {
  }

  lemma PushedIsCounted(all: seq<IngestUnit>, unit: IngestUnit)
    ensures multiset(all + [unit]) == multiset(all) + multiset{unit}
  {
  }

  lemma EnqueueConserves(s: World, unit: IngestUnit, limits: Limits)
    requires Conserved(s)
    ensures Conserved(Step(s, Enqueue(unit), limits))
  {
    var w' := s.w.(buffer := s.w.buffer + [unit], count := s.w.count + 1 + |unit.normalized|);
    PushHolds(s.w, unit, w'.count);
    PushedIsCounted(s.enqueued, unit);
    FlushHolds(w');
    OverflowHolds(w', limits);
    hide Held, Flushed, Overflowed;
  }

  lemma DerivedConserves(s: World, rows: seq<NormalizedRow>, limits: Limits)
    requires Conserved(s)
    ensures Conserved(Step(s, EnqueueDerived(rows), limits))
  {
    var unit := IngestUnit(None, rows);
    var w' := s.w.(buffer := s.w.buffer + [unit], count := s.w.count + |rows|);
    PushHolds(s.w, unit, w'.count);
    PushedIsCounted(s.enqueued, unit);
    FlushHolds(w');
    hide Held, Flushed;
  }

  lemma CommitConserves(s: World)
    requires Conserved(s) && s.w.inFlight.Some?
    ensures Conserved(s.(w := s.w.(inFlight := None), committed := s.committed + s.w.inFlight.value))
  {
    LandedHolds(s.w);
    assert multiset(s.committed + s.w.inFlight.value) == multiset(s.committed) + multiset(s.w.inFlight.value);
    hide Held;
  }

  lemma FatalConserves(s: World)
    requires Conserved(s) && s.w.inFlight.Some?
    ensures Conserved(s.(w := Requeued(s.w.(inFlight := None), s.w.inFlight.value)))
  {
    LandedHolds(s.w);
    RequeueHolds(s.w.(inFlight := None), s.w.inFlight.value);
    hide Held, Requeued;
  }

  lemma WriteConserves(s: World, outcome: WriteOutcome)
    requires Conserved(s) && s.w.inFlight.Some?
    ensures Conserved(Step(s, WriteEnds(outcome), DEFAULT_LIMITS))
  {
    hide Held, RowCount, Conserved;
    assert AfterWrite(s.w, Fatal) == Requeued(s.w.(inFlight := None), s.w.inFlight.value);
    hide Requeued;
    match outcome
    case Committed => CommitConserves(s);
    case RetryLater =>
    case Fatal => FatalConserves(s);
  }

  lemma SpoolConserves(s: World, i: nat, onDisk: bool)
    requires Conserved(s) && i < |s.w.spooling|
    ensures Conserved(Step(s, SpoolEnds(i, onDisk), DEFAULT_LIMITS))
  {
    hide Held, Requeued, WithoutSpool, RowCount;
    var w, units := WithoutSpool(s.w, i), s.w.spooling[i];
    SpoolHolds(s.w, i);
    RequeueHolds(w, units);
    BagAppends(s.spooled, units);
    if onDisk {
      assert Conserved(s.(w := w, spooled := s.spooled + units));
    } else {
      assert Conserved(s.(w := Requeued(w, units)));
    }
  }

  lemma BagAppends(a: seq<IngestUnit>, b: seq<IngestUnit>)
    ensures multiset(a + b) == multiset(a) + multiset(b)
  {
  }

  lemma StepConserves(s: World, e: Event, limits: Limits)
    requires Conserved(s)
    ensures Conserved(Step(s, e, limits))
  {
    hide Held, Conserved, Enqueued, EnqueuedDerived, AfterWrite, AfterSpool, Flushed;
    match e
    case Enqueue(unit) =>
      EnqueueConserves(s, unit, limits);
    case EnqueueDerived(rows) =>
      DerivedConserves(s, rows, limits);
    case Flush =>
      FlushConserves(s, s.w);
    case Close =>
      FlushConserves(s, s.w.(closed := true));
    case WriteEnds(outcome) =>
      if s.w.inFlight.Some? {
        WriteConserves(s, outcome);
      }
    case SpoolEnds(i, onDisk) =>
      if i < |s.w.spooling| {
        SpoolConserves(s, i, onDisk);
      }
  }

  lemma FlushConserves(s: World, w: Writer)
    requires Conserved(s) && InFlight(w) == InFlight(s.w) && w.spooling == s.w.spooling && w.buffer == s.w.buffer
    ensures Conserved(s.(w := Flushed(w)))
  {
    assert Held(w) == Held(s.w);
    FlushHolds(w);
    hide Held, Flushed;
  }

  /** Over every run, spools included, every unit handed over is in exactly one place. */
  lemma {:induction false} NothingIsLost(events: seq<Event>, limits: Limits)
    ensures Conserved(Run(events, limits))
  {
    if events != [] {
      NothingIsLost(events[..|events| - 1], limits);
      StepConserves(Run(events[..|events| - 1], limits), events[|events| - 1], limits);
    }
  }

  /** Two spools of a daemon can come back in the wrong order: what a failed spool returns goes in front. */
  lemma SpoolsMayReorder(a: IngestUnit, b: IngestUnit)
    ensures var limits := Limits(2, 1, Daemon);
      var end := Run([Enqueue(a), Enqueue(b), SpoolEnds(0, false), SpoolEnds(0, false)], limits);
      end.enqueued == [a, b] && end.w.buffer == [b, a]
  {
    var limits := Limits(2, 1, Daemon);
    RunNext([], Enqueue(a), limits);
    RunNext([Enqueue(a)], Enqueue(b), limits);
    RunNext([Enqueue(a), Enqueue(b)], SpoolEnds(0, false), limits);
    RunNext([Enqueue(a), Enqueue(b), SpoolEnds(0, false)], SpoolEnds(0, false), limits);
    hide RowCount;
    assert [] + [Enqueue(a)] == [Enqueue(a)];
    assert [Enqueue(a)] + [Enqueue(b)] == [Enqueue(a), Enqueue(b)];
    assert [Enqueue(a), Enqueue(b)] + [SpoolEnds(0, false)] == [Enqueue(a), Enqueue(b), SpoolEnds(0, false)];
    assert [Enqueue(a), Enqueue(b), SpoolEnds(0, false)] + [SpoolEnds(0, false)]
        == [Enqueue(a), Enqueue(b), SpoolEnds(0, false), SpoolEnds(0, false)];
  }

  lemma RunNext(events: seq<Event>, e: Event, limits: Limits)
    ensures Run(events + [e], limits) == Step(Run(events, limits), e, limits)
  {
    assert (events + [e])[..|events|] == events;
  }

  // ---------------------------------------------------------------------------
  // The writer object
  // ---------------------------------------------------------------------------

  class BatchWriter {
    const limits: Limits
    var buffer: seq<IngestUnit>
    var bufferedRowCount: int
    var flushing: Option<seq<IngestUnit>>
    var spooling: seq<seq<IngestUnit>>
    var closed: bool

    function View(): Writer
      reads this
    {
      Writer(buffer, bufferedRowCount, flushing, spooling, closed)
    }

    constructor (limits: Limits := DEFAULT_LIMITS)
      ensures View() == EMPTY_WRITER && this.limits == limits
    {
      this.limits := limits;
      buffer, bufferedRowCount, flushing, spooling, closed := [], 0, None, [], false;
    }

    /** Takes one message's work; never waits on the database. */
    method Enqueue(unit: IngestUnit)
      modifies this
      ensures View() == Enqueued(old(View()), unit, limits)
    {
      buffer := buffer + [unit];
      bufferedRowCount := bufferedRowCount + 1 + |unit.normalized|;
      if bufferedRowCount >= limits.maxBufferedRows {
        HandleOverflow();
        return;
      }
      if closed || bufferedRowCount >= limits.maxRows {
        Flush();
      }
    }

    /** Takes rows with no raw provenance. */
    method EnqueueDerived(rows: seq<NormalizedRow>)
      modifies this
      ensures View() == EnqueuedDerived(old(View()), rows, limits)
    {
      if |rows| == 0 {
        return;
      }
      buffer := buffer + [IngestUnit(None, rows)];
      bufferedRowCount := bufferedRowCount + |rows|;
      if closed || bufferedRowCount >= limits.maxRows {
        Flush();
      }
    }

    /** Begins a flush; a call while one is in flight joins it. */
    method Flush()
      modifies this
      ensures View() == Flushed(old(View()))
    {
      if flushing.Some? || |buffer| == 0 {
        return;
      }
      var units := buffer;
      buffer, bufferedRowCount := [], 0;
      flushing := Some(units);
    }

    /** The write in flight ends, or is to be tried again. */
    method OnWriteEnds(outcome: WriteOutcome)
      requires flushing.Some?
      modifies this
      ensures View() == AfterWrite(old(View()), outcome)
    {
      match outcome {
        case Committed =>
          flushing := None;
        case RetryLater =>
        case Fatal =>
          Requeue(flushing.value);
          flushing := None;
      }
    }

    /** Puts units back at the front. */
    method Requeue(units: seq<IngestUnit>)
      modifies `buffer, `bufferedRowCount
      ensures View() == Requeued(old(View()), units)
    {
      buffer := units + buffer;
      var n := 0;
      for i := 0 to |units|
        invariant n == RowCount(units[..i])
      {
        assert units[..i + 1][..i] == units[..i];
        n := n + (if units[i].raw.Some? then 1 else 0) + |units[i].normalized|;
      }
      assert units[..|units|] == units;
      bufferedRowCount := bufferedRowCount + n;
    }

    /** The buffer has reached its ceiling. */
    method HandleOverflow()
      modifies this
      ensures View() == Overflowed(old(View()), limits)
    {
      if limits.mode != Daemon {
        Flush();
        return;
      }
      var units := buffer;
      buffer, bufferedRowCount := [], 0;
      spooling := spooling + [units];
    }

    /** A spool file was written, or could not be. */
    method OnSpoolEnds(i: nat, onDisk: bool)
      requires i < |spooling|
      modifies this
      ensures View() == AfterSpool(old(View()), i, onDisk)
    {
      var units := spooling[i];
      spooling := spooling[..i] + spooling[i + 1..];
      if !onDisk {
        Requeue(units);
      }
    }

    /** Late work is still accepted, and flushed at once. */
    method Close()
      modifies this
      ensures View() == Flushed(old(View()).(closed := true))
    {
      closed := true;
      Flush();
    }
  }
}
