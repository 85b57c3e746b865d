/** What the recorded rows say about a market, and that it is what the live book went through. */
module LiveHistory {
  import opened Values
  import opened CanonicalForm
  import opened MarketBooks
  import opened BookManagement
  import opened SequenceTracking
  import opened RecoveryMachine
  import opened Collecting
  import opened Capture
  import Subs = Subscriptions

  // ---------------------------------------------------------------------------
  // Reading rows
  // ---------------------------------------------------------------------------

  /** A snapshot the exchange sent (or a handed-over book), as opposed to a sample of our own book. */
  predicate IsFeedSource(s: Source) {
    s == WsInitial || s == WsRecovery || s == SessionHandoff
  }

  predicate About(r: Row, m: Ticker) {
    !r.IntegrityRow? && r.ticker == m
  }

  /** Rows that changed the book when they were recorded. */
  predicate Changes(r: Row, m: Ticker) {
    About(r, m) && ((r.SnapshotRow? && IsFeedSource(r.source)) || (r.DeltaRow? && r.applied))
  }

  function LaddersIn(r: Row): Ladders
    requires r.SnapshotRow?
  {
    Ladders(Load(r.yes), Load(r.no))
  }

  function WithRow(l: Ladders, r: Row, m: Ticker): Ladders {
    if !Changes(r, m) then l
    else if r.SnapshotRow? then LaddersIn(r)
    else Folded(l, r.change)
  }

  /** The book the rows describe: every snapshot replaces, every applied delta folds. */
  function BookAfter(rows: seq<Row>, m: Ticker): Ladders {
    if rows == [] then EMPTY_LADDERS else WithRow(BookAfter(rows[..|rows| - 1], m), rows[|rows| - 1], m)
  }

  /** The last row that changed the book. */
  function LastChange(rows: seq<Row>, m: Ticker): (r: Option<Row>)
    ensures r.Some? ==> Changes(r.value, m)
  {
    if rows == [] then None
    else if Changes(rows[|rows| - 1], m) then Some(rows[|rows| - 1])
    else LastChange(rows[..|rows| - 1], m)
  }

  datatype Position = Position(stream: Option<StreamId>, seqNo: Option<int>, atMs: int, ladders: Ladders)

  function PositionOf(r: Row, l: Ladders): Position
    requires !r.IntegrityRow?
  {
    Position(r.stream, r.seqNo, r.atMs, l)
  }

  /** One position per row that changed the book, with the book it left. */
  function RowTrace(rows: seq<Row>, m: Ticker): seq<Position> {
    if rows == [] then []
    else
      var last := rows[|rows| - 1];
      RowTrace(rows[..|rows| - 1], m) + (if Changes(last, m) then [PositionOf(last, BookAfter(rows, m))] else [])
  }

  // ---------------------------------------------------------------------------
  // The live book, observed after every frame
  // ---------------------------------------------------------------------------

  predicate AnyChanges(rows: seq<Row>, m: Ticker) {
    exists i :: 0 <= i < |rows| && Changes(rows[i], m)
  }

  /** Where the live book of a market stood after each frame that changed it. */
  ghost function LiveTrace(start: SessionId, events: seq<Event>, m: Ticker): seq<Position> {
    if events == [] then []
    else
      var init, last := events[..|events| - 1], events[|events| - 1];
      LiveTrace(start, init, m) + Observed(Run(start, init), last, m)
  }

  ghost function Observed(r: Recording, e: Event, m: Ticker): seq<Position> {
    if e.FrameEvent? && AnyChanges(Handled(r.st, e.frame, r.session).rows, m) then
      var book := BookOf(Handled(r.st, e.frame, r.session).st.shelf, m);
      [Position(Some(StreamOrUnbound(StreamOf(r.st, e.frame.sid))), book.lastSeq, e.frame.atMs, book.ladders)]
    else []
  }

  /** The same book, up to whether it is trusted. */
  predicate SameContents(a: BookData, b: BookData) {
    a == b.(valid := a.valid, invalidReason := a.invalidReason)
  }

  // ---------------------------------------------------------------------------
  // Rows mirror books
  // ---------------------------------------------------------------------------

  /** A trusted book is exactly what the rows say, down to the position it was left at. */
  ghost predicate Mirrors(b: BookData, rows: seq<Row>, m: Ticker) {
    b.valid ==>
      && b.ladders == BookAfter(rows, m)
      && LastChange(rows, m).Some?
      && b.lastSeq == LastChange(rows, m).value.seqNo
  }

  /** Every book is filed under its own ticker. */
  ghost predicate FiledByTicker(s: Shelf) {
    forall t :: BookOf(s, t).ticker == t
  }

  lemma BookAfterSnoc(rows: seq<Row>, r: Row, m: Ticker)
    ensures BookAfter(rows + [r], m) == WithRow(BookAfter(rows, m), r, m)
    ensures LastChange(rows + [r], m) == if Changes(r, m) then Some(r) else LastChange(rows, m)
    ensures RowTrace(rows + [r], m) ==
      RowTrace(rows, m) + (if Changes(r, m) then [PositionOf(r, BookAfter(rows + [r], m))] else [])
  {
    assert (rows + [r])[..|rows|] == rows;
  }

  /** The canonical levels a snapshot row stores load back to the very book they were read from. */
  lemma CanonicalRoundTrip(m: Levels)
    requires NoZero(m)
    ensures Load(Canonical(m)) == m
  {
    LoadEnumeration(Canonical(m), m);
  }

  lemma SnapshotRowLoadsBack(b: BookData, source: Source, session: SessionId, stream: Option<StreamId>,
                             seqNo: Option<int>, atMs: int)
    requires NoZeros(b.ladders)
    ensures LaddersIn(RowOf(b, source, session, stream, seqNo, atMs)) == b.ladders
  {
    CanonicalRoundTrip(b.ladders.yes);
    CanonicalRoundTrip(b.ladders.no);
  }

  /** Classifying a frame may distrust books but never changes what is in them. */
  lemma ClassifyKeepsContents(st: State, id: StreamId, f: Frame, m: Ticker)
    requires id in st.subs.subs
    ensures var b, b' := BookOf(st.shelf, m), BookOf(Classified(st, id, f).shelf, m);
      b' == b || (!b'.valid && b' == b.(valid := false, invalidReason := b'.invalidReason))
  {
  }

  lemma SnapshotMirrors(s: Shelf, i: SnapshotInput, rows: seq<Row>, m: Ticker)
    requires Mirrors(BookOf(s, m), rows, m) && IsFeedSource(i.source) && BookOf(s, i.ticker).ticker == i.ticker
    ensures var row := SnapshotRowFor(s, i);
      var b := BookOf(AfterSnapshot(s, i), m);
      && Mirrors(b, rows + [row], m)
      && Changes(row, m) == (m == i.ticker)
      && (m == i.ticker ==>
            PositionOf(row, BookAfter(rows + [row], m)) == Position(Some(i.stream), b.lastSeq, i.atMs, b.ladders))
  {
    var row := SnapshotRowFor(s, i);
    var book := SnapshotBook(s, i);
    assert NoZeros(book.ladders);
    SnapshotRowLoadsBack(book, i.source, i.session, Some(i.stream), i.seqNo, i.atMs);
    BookAfterSnoc(rows, row, m);
    hide Canonical, LaddersHash, BookAfter, LastChange;
    assert BookOf(AfterSnapshot(s, i), m) == if m == i.ticker then book else BookOf(s, m);
  }

  lemma DeltaMirrors(s: Shelf, i: DeltaInput, canApply: bool, reason: Option<Reason>, rows: seq<Row>, m: Ticker)
    requires Mirrors(BookOf(s, m), rows, m)
    ensures var row := DeltaRowFor(s, i, canApply, reason);
      var b := BookOf(AfterDelta(s, i, canApply), m);
      && Mirrors(b, rows + [row], m)
      && Changes(row, m) == (m == i.ticker && row.applied)
      && (Changes(row, m) ==>
            PositionOf(row, BookAfter(rows + [row], m)) == Position(Some(i.stream), b.lastSeq, i.atMs, b.ladders))
  {
    var row := DeltaRowFor(s, i, canApply, reason);
    BookAfterSnoc(rows, row, m);
    hide BookAfter, LastChange, Folded, Trimmed, ActionOf;
    assert BookOf(AfterDelta(s, i, canApply), m) == if m == i.ticker then DeltaBook(s, i, canApply) else BookOf(s, m);
  }

  lemma IntegrityRowsSilent(rows: seq<Row>, more: seq<Row>, m: Ticker)
    requires |more| <= 1 && forall i | 0 <= i < |more| :: more[i].IntegrityRow?
    ensures BookAfter(rows + more, m) == BookAfter(rows, m)
    ensures LastChange(rows + more, m) == LastChange(rows, m)
    ensures RowTrace(rows + more, m) == RowTrace(rows, m)
  {
    if more == [] {
      assert rows + more == rows;
    } else {
      BookAfterSnoc(rows, more[0], m);
      assert rows + more == rows + [more[0]];
    }
  }

  /** The rows of one frame extend the trace by the position the book was left at, if it changed. */
  ghost predicate Extended(rows: seq<Row>, more: seq<Row>, b: BookData, stream: StreamId, atMs: int, m: Ticker) {
    && Mirrors(b, rows + more, m)
    && RowTrace(rows + more, m) == RowTrace(rows, m) +
         (if AnyChanges(more, m) then [Position(Some(stream), b.lastSeq, atMs, b.ladders)] else [])
  }

  lemma SnapshotExtends(s: Shelf, i: SnapshotInput, rows: seq<Row>, m: Ticker)
    requires Mirrors(BookOf(s, m), rows, m) && IsFeedSource(i.source) && BookOf(s, i.ticker).ticker == i.ticker
    ensures Extended(rows, [SnapshotRowFor(s, i)], BookOf(AfterSnapshot(s, i), m), i.stream, i.atMs, m)
  {
    var row := SnapshotRowFor(s, i);
    hide AfterSnapshot, SnapshotRowFor, BookOf, Mirrors, BookAfter, LastChange, RowTrace, Changes;
    SnapshotMirrors(s, i, rows, m);
    BookAfterSnoc(rows, row, m);
    OneRowChanges(row, [], m);
    assert [row] + [] == [row];
  }

  lemma SilentRowsMirror(b: BookData, rows: seq<Row>, more: seq<Row>, m: Ticker)
    requires Mirrors(b, rows, m) && |more| <= 1 && forall i | 0 <= i < |more| :: more[i].IntegrityRow?
    ensures Mirrors(b, rows + more, m) && RowTrace(rows + more, m) == RowTrace(rows, m)
  {
    IntegrityRowsSilent(rows, more, m);
  }

  lemma DeltaExtends(s: Shelf, i: DeltaInput, canApply: bool, reason: Option<Reason>, rows: seq<Row>, m: Ticker)
    requires Mirrors(BookOf(s, m), rows, m)
    ensures var row := DeltaRowFor(s, i, canApply, reason);
      Extended(rows, [row] + NegativeRows(row), BookOf(AfterDelta(s, i, canApply), m), i.stream, i.atMs, m)
  {
    var row := DeltaRowFor(s, i, canApply, reason);
    var more := NegativeRows(row);
    assert forall k | 0 <= k < |more| :: more[k].IntegrityRow?;
    assert |more| <= 1;
    hide AfterDelta, DeltaRowFor, BookOf, Mirrors, BookAfter, LastChange, RowTrace, NegativeRows, Changes;
    DeltaMirrors(s, i, canApply, reason, rows, m);
    BookAfterSnoc(rows, row, m);
    OneRowChanges(row, more, m);
    SilentRowsMirror(BookOf(AfterDelta(s, i, canApply), m), rows + [row], more, m);
    assert rows + ([row] + more) == rows + [row] + more;
  }

  /** What dispatching a frame does to one market's book and rows. */
  lemma DispatchMirrors(st: State, f: Frame, session: SessionId, stream: Option<StreamId>, g: Gate, rows: seq<Row>,
      m: Ticker)
    requires Mirrors(BookOf(st.shelf, m), rows, m) && FiledByTicker(st.shelf)
    ensures var e := Dispatched(st, f, session, stream, g);
      Extended(rows, e.rows, BookOf(e.st.shelf, m), StreamOrUnbound(stream), f.atMs, m)
  {
    match f.payload
    case SnapshotMsg(t, _, _) =>
      assert BookOf(st.shelf, t).ticker == t;
      hide Extended, AfterSnapshot, SnapshotRowFor, BookOf, Mirrors;
      SnapshotExtends(st.shelf, SnapshotIn(f, session, stream, RecoveryEffect(st, stream, t).relevant), rows, m);
    case DeltaMsg(_, _) =>
      hide Extended, AfterDelta, DeltaRowFor, BookOf, Mirrors, NegativeRows;
      DeltaExtends(st.shelf, DeltaIn(f, session, stream), g.allowed, g.reason, rows, m);
    case OtherMsg =>
      assert rows + [] == rows;
  }

  lemma DispatchKeepsFiling(st: State, f: Frame, session: SessionId, stream: Option<StreamId>, g: Gate)
    requires FiledByTicker(st.shelf)
    ensures FiledByTicker(Dispatched(st, f, session, stream, g).st.shelf)
  {
    var e := Dispatched(st, f, session, stream, g);
    forall t ensures BookOf(e.st.shelf, t).ticker == t {
      assert BookOf(st.shelf, t).ticker == t;
    }
  }

  lemma OneRowChanges(row: Row, rest: seq<Row>, m: Ticker)
    requires forall i | 0 <= i < |rest| :: rest[i].IntegrityRow?
    ensures AnyChanges([row] + rest, m) == Changes(row, m)
  {
    assert Changes(row, m) ==> Changes(([row] + rest)[0], m);
  }

  lemma FrameMirrors(st: State, f: Frame, session: SessionId, rows: seq<Row>, m: Ticker)
    requires Mirrors(BookOf(st.shelf, m), rows, m) && FiledByTicker(st.shelf)
    ensures var e := Handled(st, f, session);
      && FiledByTicker(e.st.shelf)
      && Extended(rows, e.rows, BookOf(e.st.shelf, m), StreamOrUnbound(StreamOf(st, f.sid)), f.atMs, m)
  {
    var stream := StreamOf(st, f.sid);
    if !IsClassified(st, stream) {
      hide Extended, Mirrors, Dispatched, FiledByTicker;
      DispatchMirrors(st, f, session, stream, OPEN_GATE, rows, m);
      DispatchKeepsFiling(st, f, session, stream, OPEN_GATE);
    } else {
      var id := stream.value;
      var mid, gap, gate := Classified(st, id, f), GapRows(st, id, f), GateAt(st, id, f);
      ClassifyMirrors(st, id, f, rows, m);
      hide Mirrors, Dispatched, FiledByTicker, Classified, GapRows, GateAt, Extended, BookOf;
      DispatchMirrors(mid, f, session, stream, gate, rows + gap, m);
      DispatchKeepsFiling(mid, f, session, stream, gate);
      var d := Dispatched(mid, f, session, stream, gate);
      ExtendedPast(rows, gap, d.rows, BookOf(d.st.shelf, m), StreamOrUnbound(stream), f.atMs, m);
    }
  }

  lemma ClassifyFiles(st: State, id: StreamId, f: Frame)
    requires id in st.subs.subs && FiledByTicker(st.shelf)
    ensures FiledByTicker(Classified(st, id, f).shelf)
    ensures var gap := GapRows(st, id, f); |gap| <= 1 && forall k | 0 <= k < |gap| :: gap[k].IntegrityRow?
  {
    var mid := Classified(st, id, f);
    forall t ensures BookOf(mid.shelf, t).ticker == t {
      ClassifyKeepsContents(st, id, f, t);
      assert BookOf(st.shelf, t).ticker == t;
    }
  }

  lemma ClassifyMirrors(st: State, id: StreamId, f: Frame, rows: seq<Row>, m: Ticker)
    requires id in st.subs.subs && Mirrors(BookOf(st.shelf, m), rows, m) && FiledByTicker(st.shelf)
    ensures var mid, gap := Classified(st, id, f), GapRows(st, id, f);
      && FiledByTicker(mid.shelf) && Mirrors(BookOf(mid.shelf, m), rows + gap, m)
      && RowTrace(rows + gap, m) == RowTrace(rows, m)
      && |gap| <= 1 && forall k | 0 <= k < |gap| :: gap[k].IntegrityRow?
  {
    ClassifyKeepsContents(st, id, f, m);
    ClassifyFiles(st, id, f);
    IntegrityRowsSilent(rows, GapRows(st, id, f), m);
  }

  lemma ExtendedPast(rows: seq<Row>, gap: seq<Row>, more: seq<Row>, b: BookData, stream: StreamId, atMs: int, m: Ticker)
    requires forall k | 0 <= k < |gap| :: gap[k].IntegrityRow?
    requires RowTrace(rows + gap, m) == RowTrace(rows, m)
    requires Extended(rows + gap, more, b, stream, atMs, m)
    ensures Extended(rows, gap + more, b, stream, atMs, m)
  {
    hide Mirrors, RowTrace;
    assert rows + gap + more == rows + (gap + more);
    SilentPrefix(gap, more, m);
  }

  lemma SilentPrefix(gap: seq<Row>, rows: seq<Row>, m: Ticker)
    requires forall i | 0 <= i < |gap| :: gap[i].IntegrityRow?
    ensures AnyChanges(gap + rows, m) == AnyChanges(rows, m)
  {
    if AnyChanges(rows, m) {
      var i :| 0 <= i < |rows| && Changes(rows[i], m);
      assert Changes((gap + rows)[|gap| + i], m);
    }
    if AnyChanges(gap + rows, m) {
      var i :| 0 <= i < |gap + rows| && Changes((gap + rows)[i], m);
      assert Changes(rows[i - |gap|], m);
    }
  }

  lemma UnreportedDispatchKeepsTheBook(st: State, f: Frame, session: SessionId, stream: Option<StreamId>, g: Gate,
                                       m: Ticker)
    requires !AnyChanges(Dispatched(st, f, session, stream, g).rows, m) && FiledByTicker(st.shelf)
    ensures SameContents(BookOf(Dispatched(st, f, session, stream, g).st.shelf, m), BookOf(st.shelf, m))
  {
    var e := Dispatched(st, f, session, stream, g);
    match f.payload
    case SnapshotMsg(t, _, _) =>
      assert BookOf(st.shelf, t).ticker == t;
      hide Canonical, LaddersHash, Load;
      assert t != m by {
        assert !Changes(e.rows[0], m);
      }
    case DeltaMsg(_, _) =>
      hide Folded, Trimmed, ActionOf;
      assert !Changes(e.rows[0], m);
    case OtherMsg =>
  }

  /** No frame changes a book without a row that says so. */
  lemma UnreportedFramesKeepTheBook(st: State, f: Frame, session: SessionId, m: Ticker)
    requires !AnyChanges(Handled(st, f, session).rows, m) && FiledByTicker(st.shelf)
    ensures SameContents(BookOf(Handled(st, f, session).st.shelf, m), BookOf(st.shelf, m))
  {
    var stream := StreamOf(st, f.sid);
    if !IsClassified(st, stream) {
      hide Dispatched, BookOf, SameContents, AnyChanges;
      UnreportedDispatchKeepsTheBook(st, f, session, stream, OPEN_GATE, m);
    } else {
      var id := stream.value;
      var mid, gap, gate := Classified(st, id, f), GapRows(st, id, f), GateAt(st, id, f);
      ClassifyFiles(st, id, f);
      ClassifyKeepsContents(st, id, f, m);
      hide Dispatched, Classified, GapRows, GateAt, BookOf, AnyChanges, FiledByTicker;
      SilentPrefix(gap, Dispatched(mid, f, session, stream, gate).rows, m);
      UnreportedDispatchKeepsTheBook(mid, f, session, stream, gate, m);
    }
  }

  /** Invalidation leaves contents alone, so it cannot break the mirror. */
  lemma InvalidationMirrors(s: Shelf, reason: Reason, rows: seq<Row>, m: Ticker)
    requires Mirrors(BookOf(s, m), rows, m) && FiledByTicker(s)
    ensures Mirrors(BookOf(AllInvalidated(s, reason), m), rows, m) && FiledByTicker(AllInvalidated(s, reason))
  {
    assert BookOf(s, m).ticker == m;
    forall t ensures BookOf(AllInvalidated(s, reason), t).ticker == t {
      assert BookOf(s, t).ticker == t;
    }
  }

  lemma SampleSilent(r: Recording, t: Ticker, nowMs: int, m: Ticker)
    ensures var rows' := r.rows + SampleRows(r, t, nowMs);
      BookAfter(rows', m) == BookAfter(r.rows, m) && LastChange(rows', m) == LastChange(r.rows, m)
      && RowTrace(rows', m) == RowTrace(r.rows, m)
  {
    var more := SampleRows(r, t, nowMs);
    if more == [] {
      assert r.rows + more == r.rows;
    } else {
      BookAfterSnoc(r.rows, more[0], m);
    }
  }

  lemma OpenedKeepsBooks(r: Recording, subs: Subs.SubState, channel: Channel, slices: seq<seq<Ticker>>,
                         ids: seq<Subs.NewIds>)
    requires MayOpen(r, subs, slices, ids)
    ensures Opened(r, subs, channel, slices, ids).st.shelf.books == r.st.shelf.books
  {
    hide Subs.SubsOk, EpisodesOk, Agree, CarriedOnce, WithShardsOpen;
    KnownStay(r.st.subs, subs);
    OpeningStaysCoupled(r.st.(subs := subs), channel, slices, ids, |slices|);
  }

  /** Opening streams, whichever way, leaves every book and every row as it was. */
  lemma OpeningKeepsBooks(r: Recording, e: Event)
    requires Coupled(r.st) && IdsUsed(r) && Fresh(r, e) && (e.SubscribeEvent? || e.AddEvent?)
    ensures Step(r, e).st.shelf.books == r.st.shelf.books && Step(r, e).rows == r.rows
  {
    hide Coupled, IdsUsed, Opened, MayOpen;
    match e
    case SubscribeEvent(channel, markets, ids) =>
      if EnoughIds(markets, ids) {
        SubscribeMayOpen(r, channel, markets, ids);
        OpenedKeepsBooks(r, Subs.Subscribed(r.st.subs, channel, markets, MARKETS_PER_SUBSCRIPTION, ids), channel,
                         Subs.Slices(markets, MARKETS_PER_SUBSCRIPTION), ids);
      }
    case AddEvent(channel, markets, ids) =>
      if EnoughIdsToAdd(r.st.subs, channel, markets, ids) && r.st.subs.order != [] {
        AddMayOpen(r, channel, markets, ids);
        OpenedKeepsBooks(r, Subs.Added(r.st.subs, channel, markets, MARKETS_PER_SUBSCRIPTION, ids), channel,
                         Unassociated(Subs.NewShards(r.st.subs, channel, markets, MARKETS_PER_SUBSCRIPTION)), ids);
      }
  }

  /** A market that leaves has no book any more; the others keep theirs. */
  lemma RemovalMirrors(st: State, markets: seq<Ticker>, drops: seq<(Ticker, StreamId)>, rows: seq<Row>, m: Ticker)
    requires Mirrors(BookOf(st.shelf, m), rows, m) && FiledByTicker(st.shelf)
    ensures var shelf' := AfterRemove(st, markets, drops).shelf;
      Mirrors(BookOf(shelf', m), rows, m) && FiledByTicker(shelf')
  {
    ForgettingIs(st.shelf, markets);
    hide ForgottenAll, BookAfter, LastChange;
    var shelf' := AfterRemove(st, markets, drops).shelf;
    forall t ensures BookOf(shelf', t).ticker == t {
      assert BookOf(st.shelf, t).ticker == t;
    }
  }

  lemma StepMirrors(r: Recording, e: Event, m: Ticker)
    requires Coupled(r.st) && IdsUsed(r) && Fresh(r, e)
    requires Mirrors(BookOf(r.st.shelf, m), r.rows, m) && FiledByTicker(r.st.shelf)
    ensures var r' := Step(r, e);
      && Mirrors(BookOf(r'.st.shelf, m), r'.rows, m) && FiledByTicker(r'.st.shelf)
      && RowTrace(r'.rows, m) == RowTrace(r.rows, m) + Observed(r, e, m)
  {
    hide Coupled, Handled, AllInvalidated, RowTrace, BookAfter, LastChange;
    match e
    case FrameEvent(f) =>
      FrameMirrors(r.st, f, r.session, r.rows, m);
    case SubscribeEvent(_, _, _) =>
      OpeningKeepsBooks(r, e);
    case AddEvent(_, _, _) =>
      OpeningKeepsBooks(r, e);
    case RemoveEvent(markets, drops) =>
      RemovalMirrors(r.st, markets, drops, r.rows, m);
    case SampleEvent(t, now) =>
      SampleSilent(r, t, now, m);
    case DisconnectEvent =>
      InvalidationMirrors(r.st.shelf, Disconnected, r.rows, m);
    case BindEvent(_, _, _) =>
    case ReapEvent(_) =>
    case RestartEvent(_) =>
  }

  /**
   * After any run a trusted book is exactly what the recorded rows describe, and the rows'
   * positions are, one for one, the states the live book went through.
   */
  lemma {:induction false} RowsTellTheLiveBook(start: SessionId, events: seq<Event>, m: Ticker)
    requires FreshRun(start, events)
    ensures var r := Run(start, events);
      && Mirrors(BookOf(r.st.shelf, m), r.rows, m) && FiledByTicker(r.st.shelf)
      && RowTrace(r.rows, m) == LiveTrace(start, events, m)
    decreases |events|
  {
    hide Coupled, Mirrors;
    if events == [] {
      NothingMirrors(start, m);
    } else {
      var init := events[..|events| - 1];
      FreshPrefix(start, events);
      RowsTellTheLiveBook(start, init, m);
      MachinesStayCoupled(start, init);
      StepMirrors(Run(start, init), events[|events| - 1], m);
    }
  }

  lemma NothingMirrors(start: SessionId, m: Ticker)
    ensures Mirrors(BookOf(Begin(start).st.shelf, m), [], m) && FiledByTicker(Begin(start).st.shelf)
  {
  }
}
