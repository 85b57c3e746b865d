/** When failed spools keep a writer's work in order, and when they do not (src/persistence/batchWriter.ts). */
module SpoolOrdering {
  import opened Values
  import opened Statements
  import opened BatchWriting

  // ---------------------------------------------------------------------------
  // Which unit is where
  // ---------------------------------------------------------------------------

  /**
   * A writer's work told apart by the order it was handed over in: equal units are still different
   * pieces of work.
   */
  datatype Trail = Trail(handed: nat, committed: seq<nat>, flying: seq<nat>, spooling: seq<seq<nat>>, buffer: seq<nat>)

  const NO_TRAIL := Trail(0, [], [], [], [])

  function TrailPushed(t: Trail): Trail {
    t.(handed := t.handed + 1, buffer := t.buffer + [t.handed])
  }

  function TrailFlushed(t: Trail): Trail {
    if t.flying != [] || t.buffer == [] then t else t.(flying := t.buffer, buffer := [])
  }

  function TrailOverflowed(t: Trail, limits: Limits): Trail {
    if limits.mode != Daemon then TrailFlushed(t) else t.(buffer := [], spooling := t.spooling + [t.buffer])
  }

  function TrailStep(t: Trail, w: Writer, e: Event, limits: Limits): Trail {
    match e
    case Enqueue(unit) =>
      var count := w.count + 1 + |unit.normalized|;
      if count >= limits.maxBufferedRows then TrailOverflowed(TrailPushed(t), limits)
      else if w.closed || count >= limits.maxRows then TrailFlushed(TrailPushed(t))
      else TrailPushed(t)
    case EnqueueDerived(rows) =>
      if rows == [] then t
      else if w.closed || w.count + |rows| >= limits.maxRows then TrailFlushed(TrailPushed(t))
      else TrailPushed(t)
    case WriteEnds(outcome) =>
      (match outcome
       case Committed => t.(committed := t.committed + t.flying, flying := [])
       case RetryLater => t
       case Fatal => t.(buffer := t.flying + t.buffer, flying := []))
    case SpoolEnds(i, onDisk) =>
      if i >= |t.spooling| then t
      else
        t.(spooling := t.spooling[..i] + t.spooling[i + 1..],
           buffer := if onDisk then t.buffer else t.spooling[i] + t.buffer)
    case Flush => TrailFlushed(t)
    case Close => TrailFlushed(t)
  }

  function TrailOf(events: seq<Event>, limits: Limits): Trail {
    if events == [] then NO_TRAIL
    else
      var init := events[..|events| - 1];
      TrailStep(TrailOf(init, limits), Run(init, limits).w, events[|events| - 1], limits)
  }

  /** These units are the ones handed over as these numbers. */
  ghost predicate Names(numbers: seq<nat>, all: seq<IngestUnit>, units: seq<IngestUnit>) {
    |numbers| == |units| && forall i | 0 <= i < |numbers| :: numbers[i] < |all| && all[numbers[i]] == units[i]
  }

  ghost predicate Tracks(t: Trail, s: World) {
    && t.handed == |s.enqueued|
    && Names(t.committed, s.enqueued, s.committed)
    && Names(t.flying, s.enqueued, InFlight(s.w)) && (s.w.inFlight.Some? <==> t.flying != [])
    && Names(t.buffer, s.enqueued, s.w.buffer)
    && |t.spooling| == |s.w.spooling|
    && forall i | 0 <= i < |t.spooling| :: Names(t.spooling[i], s.enqueued, s.w.spooling[i])
  }

  lemma PushTracks(t: Trail, s: World, unit: IngestUnit, count: int)
    requires Tracks(t, s)
    ensures Tracks(TrailPushed(t), s.(w := s.w.(buffer := s.w.buffer + [unit], count := count),
                                      enqueued := s.enqueued + [unit]))
  {
    forall i | 0 <= i < |t.spooling| ensures Names(t.spooling[i], s.enqueued + [unit], s.w.spooling[i]) {
      assert Names(t.spooling[i], s.enqueued, s.w.spooling[i]);
    }
  }

  lemma FlushTracks(t: Trail, s: World, w: Writer)
    requires Tracks(t, s.(w := w))
    ensures Tracks(TrailFlushed(t), s.(w := Flushed(w)))
  {
  }

  lemma OverflowTracks(t: Trail, s: World, w: Writer, limits: Limits)
    requires Tracks(t, s.(w := w))
    ensures Tracks(TrailOverflowed(t, limits), s.(w := Overflowed(w, limits)))
  {
  }

  lemma NamesAppend(a: seq<nat>, b: seq<nat>, all: seq<IngestUnit>, us: seq<IngestUnit>, vs: seq<IngestUnit>)
    requires Names(a, all, us) && Names(b, all, vs)
    ensures Names(a + b, all, us + vs)
  {
  }

  lemma WriteTracks(t: Trail, s: World, outcome: WriteOutcome)
    requires Tracks(t, s)
    ensures Tracks(TrailStep(t, s.w, WriteEnds(outcome), DEFAULT_LIMITS), Step(s, WriteEnds(outcome), DEFAULT_LIMITS))
  {
    NamesAppend(t.committed, t.flying, s.enqueued, s.committed, InFlight(s.w));
    NamesAppend(t.flying, t.buffer, s.enqueued, InFlight(s.w), s.w.buffer);
    assert Names([], s.enqueued, []);
    assert t.flying == [] ==> t.committed + [] == t.committed && [] + t.buffer == t.buffer;
    hide RowCount, Names;
  }

  lemma SpoolTracks(t: Trail, s: World, i: nat, onDisk: bool)
    requires Tracks(t, s) && i < |t.spooling|
    ensures Tracks(TrailStep(t, s.w, SpoolEnds(i, onDisk), DEFAULT_LIMITS),
                   Step(s, SpoolEnds(i, onDisk), DEFAULT_LIMITS))
  {
    assert Names(t.spooling[i], s.enqueued, s.w.spooling[i]);
    NamesAppend(t.spooling[i], t.buffer, s.enqueued, s.w.spooling[i], s.w.buffer);
    hide RowCount, Names;
  }

  lemma EnqueueTracks(t: Trail, s: World, unit: IngestUnit, limits: Limits)
    requires Tracks(t, s)
    ensures Tracks(TrailStep(t, s.w, Enqueue(unit), limits), Step(s, Enqueue(unit), limits))
  {
    hide Tracks, Flushed, TrailFlushed, Overflowed, TrailOverflowed;
    var count := s.w.count + 1 + |unit.normalized|;
    var w := s.w.(buffer := s.w.buffer + [unit], count := count);
    var s' := s.(enqueued := s.enqueued + [unit]);
    PushTracks(t, s, unit, count);
    FlushTracks(TrailPushed(t), s', w);
    OverflowTracks(TrailPushed(t), s', w, limits);
    SpoolingIsNoted(TrailStep(t, s.w, Enqueue(unit), limits), s'.(w := Enqueued(s.w, unit, limits)),
                    Step(s, Enqueue(unit), limits).everSpooled);
  }

  lemma SpoolingIsNoted(t: Trail, s: World, everSpooled: bool)
    requires Tracks(t, s)
    ensures Tracks(t, s.(everSpooled := everSpooled))
  {
  }

  lemma DerivedTracks(t: Trail, s: World, rows: seq<NormalizedRow>, limits: Limits)
    requires Tracks(t, s) && rows != []
    ensures Tracks(TrailStep(t, s.w, EnqueueDerived(rows), limits), Step(s, EnqueueDerived(rows), limits))
  {
    hide Tracks, Flushed, TrailFlushed;
    var unit, count := IngestUnit(None, rows), s.w.count + |rows|;
    PushTracks(t, s, unit, count);
    FlushTracks(TrailPushed(t), s.(enqueued := s.enqueued + [unit]),
                s.w.(buffer := s.w.buffer + [unit], count := count));
  }

  lemma NoRowsNoWork(w: Writer, limits: Limits)
    ensures EnqueuedDerived(w, [], limits) == w
  {
  }

  lemma CloseTracks(t: Trail, s: World)
    requires Tracks(t, s)
    ensures Tracks(t, s.(w := s.w.(closed := true))) && |t.spooling| == |s.w.spooling|
  {
  }

  lemma StepTracks(t: Trail, s: World, e: Event, limits: Limits)
    requires Tracks(t, s)
    ensures Tracks(TrailStep(t, s.w, e, limits), Step(s, e, limits))
  {
    hide Tracks, Flushed, TrailFlushed, TrailPushed, Enqueued, EnqueuedDerived, AfterWrite, AfterSpool;
    CloseTracks(t, s);
    match e
    case Enqueue(unit) =>
      EnqueueTracks(t, s, unit, limits);
    case EnqueueDerived(rows) =>
      if rows == [] {
        NoRowsNoWork(s.w, limits);
      } else {
        DerivedTracks(t, s, rows, limits);
      }
    case Flush =>
      FlushTracks(t, s, s.w);
    case Close =>
      FlushTracks(t, s, s.w.(closed := true));
    case WriteEnds(outcome) =>
      WriteTracks(t, s, outcome);
    case SpoolEnds(i, onDisk) =>
      if i < |t.spooling| {
        SpoolTracks(t, s, i, onDisk);
      }
  }

  /** The numbers really are those of the units the writer holds and has committed. */
  lemma {:induction false} TrailTellsTheRun(events: seq<Event>, limits: Limits)
    ensures Tracks(TrailOf(events, limits), Run(events, limits))
  {
    hide Tracks, Step, TrailStep;
    if events == [] {
      NothingTracked();
    } else {
      var init := events[..|events| - 1];
      TrailTellsTheRun(init, limits);
      StepTracks(TrailOf(init, limits), Run(init, limits), events[|events| - 1], limits);
    }
  }

  lemma NothingTracked()
    ensures Tracks(NO_TRAIL, EMPTY_WORLD)
  {
  }

  // ---------------------------------------------------------------------------
  // When order holds
  // ---------------------------------------------------------------------------

  ghost predicate Ascends(numbers: seq<nat>) {
    forall i, j | 0 <= i < j < |numbers| :: numbers[i] < numbers[j]
  }

  ghost predicate Under(a: seq<nat>, bound: nat) {
    forall i | 0 <= i < |a| :: a[i] < bound
  }

  ghost predicate AllBelow(a: seq<nat>, b: seq<nat>) {
    forall i, j | 0 <= i < |a| && 0 <= j < |b| :: a[i] < b[j]
  }

  /** Committed, then in flight, then buffered: no piece of work has overtaken another. */
  ghost predicate Ordered(t: Trail) {
    Ascends(t.committed + t.flying + t.buffer)
  }

  /** A spool that fails gives back work that belongs between what is committed or in flight and what is buffered. */
  ghost predicate ReturnsInPlace(t: Trail, e: Event) {
    e.SpoolEnds? && !e.onDisk && e.index < |t.spooling| ==>
      && AllBelow(t.committed, t.spooling[e.index]) && AllBelow(t.flying, t.spooling[e.index])
      && AllBelow(t.spooling[e.index], t.buffer)
  }

  /** What keeps its order even while it is being spooled. */
  ghost predicate WellKept(t: Trail) {
    && (forall i | 0 <= i < |t.spooling| :: Ascends(t.spooling[i]) && Under(t.spooling[i], t.handed))
    && Under(t.committed + t.flying + t.buffer, t.handed)
  }

  lemma AscendsAppend(a: seq<nat>, b: seq<nat>)
    ensures Ascends(a + b) <==> Ascends(a) && Ascends(b) && AllBelow(a, b)
  {
    var all := a + b;
    if Ascends(all) {
      assert forall i | 0 <= i < |a| :: a[i] == all[i];
      assert forall i | 0 <= i < |b| :: b[i] == all[|a| + i];
    }
  }

  /** The parts in order, and each below the next. */
  lemma OrderedIs(t: Trail)
    ensures Ordered(t) <==>
      && Ascends(t.committed) && Ascends(t.flying) && Ascends(t.buffer)
      && AllBelow(t.committed, t.flying) && AllBelow(t.committed, t.buffer) && AllBelow(t.flying, t.buffer)
  {
    AscendsAppend(t.committed + t.flying, t.buffer);
    AscendsAppend(t.committed, t.flying);
    BelowAppend(t.committed, t.flying, t.buffer);
  }

  lemma BelowAppend(a: seq<nat>, b: seq<nat>, c: seq<nat>)
    ensures AllBelow(a + b, c) <==> AllBelow(a, c) && AllBelow(b, c)
    ensures AllBelow(c, a + b) <==> AllBelow(c, a) && AllBelow(c, b)
  {
    var all := a + b;
    assert forall i | 0 <= i < |a| :: a[i] == all[i];
    assert forall i | 0 <= i < |b| :: b[i] == all[|a| + i];
  }

  lemma UnderAppend(a: seq<nat>, b: seq<nat>, bound: nat)
    ensures Under(a + b, bound) <==> Under(a, bound) && Under(b, bound)
  {
    var all := a + b;
    assert forall i | 0 <= i < |a| :: a[i] == all[i];
    assert forall i | 0 <= i < |b| :: b[i] == all[|a| + i];
  }

  lemma KeptIs(t: Trail)
    ensures Under(t.committed + t.flying + t.buffer, t.handed) <==>
      Under(t.committed, t.handed) && Under(t.flying, t.handed) && Under(t.buffer, t.handed)
  {
    UnderAppend(t.committed + t.flying, t.buffer, t.handed);
    UnderAppend(t.committed, t.flying, t.handed);
  }

  lemma PushKeepsOrder(t: Trail)
    requires WellKept(t) && Ordered(t)
    ensures WellKept(TrailPushed(t)) && Ordered(TrailPushed(t))
  {
    var t' := TrailPushed(t);
    OrderedIs(t);
    OrderedIs(t');
    KeptIs(t);
    KeptIs(t');
    AscendsAppend(t.buffer, [t.handed]);
    BelowAppend(t.buffer, [t.handed], t.committed);
    BelowAppend(t.buffer, [t.handed], t.flying);
    UnderAppend(t.buffer, [t.handed], t'.handed);
    assert Ascends([t.handed]) && AllBelow(t.committed, [t.handed]) && AllBelow(t.flying, [t.handed]);
    hide Ordered, Ascends;
  }

  lemma FlushKeepsOrderToo(t: Trail)
    requires WellKept(t) && Ordered(t)
    ensures WellKept(TrailFlushed(t)) && Ordered(TrailFlushed(t))
  {
    var t' := TrailFlushed(t);
    OrderedIs(t);
    OrderedIs(t');
    KeptIs(t);
    KeptIs(t');
    hide Ordered;
  }

  lemma OverflowKeepsOrder(t: Trail, limits: Limits)
    requires WellKept(t) && Ordered(t)
    ensures WellKept(TrailOverflowed(t, limits)) && Ordered(TrailOverflowed(t, limits))
  {
    var t' := TrailOverflowed(t, limits);
    OrderedIs(t);
    OrderedIs(t');
    KeptIs(t);
    KeptIs(t');
    FlushKeepsOrderToo(t);
    hide Ordered;
  }

  lemma WriteKeepsOrder(t: Trail, outcome: WriteOutcome)
    requires WellKept(t) && Ordered(t)
    ensures var t' := TrailStep(t, EMPTY_WRITER, WriteEnds(outcome), DEFAULT_LIMITS); WellKept(t') && Ordered(t')
  {
    var t' := TrailStep(t, EMPTY_WRITER, WriteEnds(outcome), DEFAULT_LIMITS);
    OrderedIs(t);
    OrderedIs(t');
    KeptIs(t);
    KeptIs(t');
    AscendsAppend(t.committed, t.flying);
    AscendsAppend(t.flying, t.buffer);
    BelowAppend(t.committed, t.flying, t.buffer);
    BelowAppend(t.flying, t.buffer, t.committed);
    UnderAppend(t.flying, t.buffer, t.handed);
    UnderAppend(t.committed, t.flying, t.handed);
    hide Ordered;
  }

  lemma SpoolKeepsWell(t: Trail, i: nat, onDisk: bool)
    requires WellKept(t) && i < |t.spooling|
    ensures WellKept(TrailStep(t, EMPTY_WRITER, SpoolEnds(i, onDisk), DEFAULT_LIMITS))
  {
    var t' := TrailStep(t, EMPTY_WRITER, SpoolEnds(i, onDisk), DEFAULT_LIMITS);
    KeptIs(t);
    KeptIs(t');
    UnderAppend(t.spooling[i], t.buffer, t.handed);
    hide Ascends, Under;
  }

  /** Once a spool has failed, work is in order exactly when what came back belongs where it was put. */
  lemma SpoolOrderExactly(t: Trail, i: nat, onDisk: bool)
    requires WellKept(t) && Ordered(t) && i < |t.spooling|
    ensures Ordered(TrailStep(t, EMPTY_WRITER, SpoolEnds(i, onDisk), DEFAULT_LIMITS)) <==>
      ReturnsInPlace(t, SpoolEnds(i, onDisk))
  {
    var t' := TrailStep(t, EMPTY_WRITER, SpoolEnds(i, onDisk), DEFAULT_LIMITS);
    OrderedIs(t);
    OrderedIs(t');
    AscendsAppend(t.spooling[i], t.buffer);
    BelowAppend(t.spooling[i], t.buffer, t.committed);
    BelowAppend(t.spooling[i], t.buffer, t.flying);
    hide Ordered;
  }

  lemma StepOrderExactly(t: Trail, w: Writer, e: Event, limits: Limits)
    requires WellKept(t) && Ordered(t)
    ensures Ordered(TrailStep(t, w, e, limits)) <==> ReturnsInPlace(t, e)
    ensures WellKept(TrailStep(t, w, e, limits))
  {
    hide WellKept, Ordered, AllBelow, TrailFlushed, TrailOverflowed, TrailPushed;
    match e
    case Enqueue(_) =>
      PushKeepsOrder(t);
      FlushKeepsOrderToo(TrailPushed(t));
      OverflowKeepsOrder(TrailPushed(t), limits);
    case EnqueueDerived(_) =>
      PushKeepsOrder(t);
      FlushKeepsOrderToo(TrailPushed(t));
    case Flush =>
      FlushKeepsOrderToo(t);
    case Close =>
      FlushKeepsOrderToo(t);
    case WriteEnds(outcome) =>
      WriteKeepsOrder(t, outcome);
    case SpoolEnds(i, onDisk) =>
      if i < |t.spooling| {
        SpoolKeepsWell(t, i, onDisk);
        SpoolOrderExactly(t, i, onDisk);
      }
  }

  ghost predicate OrderedAt(events: seq<Event>, limits: Limits, n: nat)
    requires n <= |events|
  {
    Ordered(TrailOf(events[..n], limits))
  }

  ghost predicate InPlaceAt(events: seq<Event>, limits: Limits, n: nat)
    requires n < |events|
  {
    ReturnsInPlace(TrailOf(events[..n], limits), events[n])
  }

  lemma TrailNext(events: seq<Event>, limits: Limits, n: nat)
    requires n < |events|
    ensures TrailOf(events[..n + 1], limits) ==
      TrailStep(TrailOf(events[..n], limits), Run(events[..n], limits).w, events[n], limits)
  {
    assert events[..n + 1][..n] == events[..n];
  }

  /** Order up to a point is order before it and every failed spool so far returning its work in place. */
  lemma {:induction false} OrderedSoFar(events: seq<Event>, limits: Limits, n: nat)
    requires n <= |events|
    ensures (forall k | 0 <= k <= n :: OrderedAt(events, limits, k)) <==>
      (forall k | 0 <= k < n :: InPlaceAt(events, limits, k))
    ensures (forall k | 0 <= k <= n :: OrderedAt(events, limits, k)) ==> WellKept(TrailOf(events[..n], limits))
  {
    hide Ordered, WellKept, ReturnsInPlace, TrailStep;
    if n == 0 {
      NothingOrdered(events, limits);
    } else {
      OrderedSoFar(events, limits, n - 1);
      TrailNext(events, limits, n - 1);
      var t := TrailOf(events[..n - 1], limits);
      if forall k | 0 <= k <= n - 1 :: OrderedAt(events, limits, k) {
        assert OrderedAt(events, limits, n - 1);
        StepOrderExactly(t, Run(events[..n - 1], limits).w, events[n - 1], limits);
        assert InPlaceAt(events, limits, n - 1) <==> OrderedAt(events, limits, n);
      }
    }
  }

  lemma NothingOrdered(events: seq<Event>, limits: Limits)
    ensures OrderedAt(events, limits, 0) && WellKept(TrailOf(events[..0], limits))
  {
    assert TrailOf(events[..0], limits) == NO_TRAIL;
  }

  /**
   * Spools included, no piece of work ever overtakes another if and only if every spool that failed
   * did so with nothing later committed or in flight and nothing earlier in the buffer.
   */
  lemma OrderHoldsExactly(events: seq<Event>, limits: Limits)
    ensures (forall n | 0 <= n <= |events| :: OrderedAt(events, limits, n)) <==>
      (forall n | 0 <= n < |events| :: InPlaceAt(events, limits, n))
  {
    OrderedSoFar(events, limits, |events|);
  }

  lemma OneSpoolSteps(a: IngestUnit, c: IngestUnit, limits: Limits)
    requires |c.normalized| < |a.normalized|
    requires limits == Limits(1 + |a.normalized|, 1 + |a.normalized|, Daemon)
    ensures var held := Writer([c], 1 + |c.normalized|, None, [[a]], false);
      var flying := Writer([], 0, Some([c]), [[a]], false);
      && Step(EMPTY_WORLD, Enqueue(a), limits) == World(Writer([], 0, None, [[a]], false), [a], [], [], true)
      && Step(World(Writer([], 0, None, [[a]], false), [a], [], [], true), Enqueue(c), limits)
           == World(held, [a, c], [], [], true)
      && Step(World(held, [a, c], [], [], true), Flush, limits) == World(flying, [a, c], [], [], true)
      && Step(World(flying, [a, c], [], [], true), WriteEnds(Committed), limits)
           == World(Writer([], 0, None, [[a]], false), [a, c], [c], [], true)
      && var last := Step(World(Writer([], 0, None, [[a]], false), [a, c], [c], [], true), SpoolEnds(0, false), limits);
      && last.enqueued == [a, c] && last.committed == [c] && last.w.buffer == [a]
      && TrailStep(NO_TRAIL, EMPTY_WRITER, Enqueue(a), limits) == Trail(1, [], [], [[0]], [])
      && TrailStep(Trail(1, [], [], [[0]], []), Writer([], 0, None, [[a]], false), Enqueue(c), limits)
           == Trail(2, [], [], [[0]], [1])
      && TrailStep(Trail(2, [], [], [[0]], [1]), held, Flush, limits) == Trail(2, [], [1], [[0]], [])
      && TrailStep(Trail(2, [], [1], [[0]], []), flying, WriteEnds(Committed), limits) == Trail(2, [1], [], [[0]], [])
      && TrailStep(Trail(2, [1], [], [[0]], []), Writer([], 0, None, [[a]], false), SpoolEnds(0, false), limits)
           == Trail(2, [1], [], [], [0])
  {
    hide RowCount;
    assert [] + [a] == [a] && [] + [c] == [c] && [a] + [c] == [a, c] && [a] + [] == [a] && [] + [[a]] == [[a]];
    assert [] + [0] == [0] && [] + [1] == [1] && [0] + [] == [0] && [] + [[0]] == [[0]];
    assert [[0]][..0] + [[0]][1..] == [] && [[a]][..0] + [[a]][1..] == [];
  }

  lemma OneSpoolRun(a: IngestUnit, c: IngestUnit, limits: Limits, events: seq<Event>)
    requires |c.normalized| < |a.normalized|
    requires limits == Limits(1 + |a.normalized|, 1 + |a.normalized|, Daemon)
    requires |events| == 5 && events[0] == Enqueue(a) && events[1] == Enqueue(c) && events[2] == Flush
    requires events[3] == WriteEnds(Committed) && events[4] == SpoolEnds(0, false)
    ensures var end := Run(events, limits); end.enqueued == [a, c] && end.committed == [c] && end.w.buffer == [a]
    ensures TrailOf(events[..4], limits) == Trail(2, [1], [], [[0]], [])
    ensures TrailOf(events[..5], limits) == Trail(2, [1], [], [], [0])
  {
    Nothing(events, limits);
    Next(events, limits, 0);
    Next(events, limits, 1);
    Next(events, limits, 2);
    Next(events, limits, 3);
    Next(events, limits, 4);
    hide TrailOf, Run, Step, TrailStep;
    OneSpoolSteps(a, c, limits);
    assert events[..5] == events;
  }

  /** One spool is enough: what was enqueued after it is committed while it is still on its way, and it then fails. */
  lemma OneSpoolReorders(a: IngestUnit, c: IngestUnit)
    requires |c.normalized| < |a.normalized|
    ensures var limits := Limits(1 + |a.normalized|, 1 + |a.normalized|, Daemon);
      var events := [Enqueue(a), Enqueue(c), Flush, WriteEnds(Committed), SpoolEnds(0, false)];
      var end := Run(events, limits);
      && end.enqueued == [a, c] && end.committed == [c] && end.w.buffer == [a]
      && !InPlaceAt(events, limits, 4) && !OrderedAt(events, limits, 5)
  {
    var limits := Limits(1 + |a.normalized|, 1 + |a.normalized|, Daemon);
    var events := [Enqueue(a), Enqueue(c), Flush, WriteEnds(Committed), SpoolEnds(0, false)];
    OneSpoolRun(a, c, limits, events);
    hide TrailOf, Run, Ordered, ReturnsInPlace;
    var t, t' := TrailOf(events[..4], limits), TrailOf(events[..5], limits);
    OutOfPlace(t, t');
    assert events[4] == SpoolEnds(0, false);
  }

  lemma OutOfPlace(t: Trail, t': Trail)
    requires t == Trail(2, [1], [], [[0]], []) && t' == Trail(2, [1], [], [], [0])
    ensures !ReturnsInPlace(t, SpoolEnds(0, false)) && !Ordered(t')
  {
    assert t.committed[0] == 1 && t.spooling[0][0] == 0;
    assert !AllBelow(t.committed, t.spooling[0]);
    var all := t'.committed + t'.flying + t'.buffer;
    assert all[0] == 1 && all[1] == 0;
  }

  lemma Nothing(events: seq<Event>, limits: Limits)
    ensures Run(events[..0], limits) == EMPTY_WORLD && TrailOf(events[..0], limits) == NO_TRAIL
  {
  }

  lemma Next(events: seq<Event>, limits: Limits, n: nat)
    requires n < |events|
    ensures Run(events[..n + 1], limits) == Step(Run(events[..n], limits), events[n], limits)
    ensures TrailOf(events[..n + 1], limits) ==
      TrailStep(TrailOf(events[..n], limits), Run(events[..n], limits).w, events[n], limits)
  {
    assert events[..n + 1][..n] == events[..n];
  }
}
