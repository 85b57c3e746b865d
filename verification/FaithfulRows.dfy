/**
 * Every recorded row is faithful to the rows before it: applied deltas apply, samples repeat the
 * position and the book of the last change, and hashes are hashes of the levels beside them.
 */
module FaithfulRows {
  import opened Values
  import opened CanonicalForm
  import opened MarketBooks
  import opened BookManagement
  import opened SequenceTracking
  import opened RecoveryMachine
  import opened Collecting
  import opened Capture
  import opened LiveHistory
  import Subs = Subscriptions
  import Runs = SubscriptionRuns

  /** A sample of our own book shows the last recorded change and the book it left. */
  ghost predicate RepeatsLast(before: seq<Row>, r: Row, m: Ticker)
    requires r.SnapshotRow?
  {
    && LastChange(before, m).Some?
    && r.stream == LastChange(before, m).value.stream
    && r.seqNo == LastChange(before, m).value.seqNo
    && LaddersIn(r) == BookAfter(before, m)
  }

  ghost predicate Faithful(before: seq<Row>, r: Row, m: Ticker) {
    About(r, m) ==>
      && (r.DeltaRow? && r.applied ==> Applies(BookAfter(before, m), r.change) && r.stream.Some? && r.seqNo.Some?)
      && (r.SnapshotRow? ==> r.hash == LaddersHash(m, LaddersIn(r)))
      && (r.SnapshotRow? && !IsFeedSource(r.source) ==> r.source == LocalMaterialized && RepeatsLast(before, r, m))
  }

  ghost predicate FaithfulAt(rows: seq<Row>, i: nat, m: Ticker)
    requires i < |rows|
  {
    Faithful(rows[..i], rows[i], m)
  }

  ghost predicate AllFaithful(rows: seq<Row>, m: Ticker) {
    forall i | 0 <= i < |rows| :: FaithfulAt(rows, i, m)
  }

  lemma FaithfulSnoc(rows: seq<Row>, r: Row, m: Ticker)
    requires AllFaithful(rows, m) && Faithful(rows, r, m)
    ensures AllFaithful(rows + [r], m)
  {
    var all := rows + [r];
    hide Faithful;
    forall i | 0 <= i < |all| ensures FaithfulAt(all, i, m) {
      if i < |rows| {
        assert FaithfulAt(rows, i, m);
        assert all[..i] == rows[..i];
      } else {
        assert all[..i] == rows;
      }
    }
  }

  lemma SilentFaithful(rows: seq<Row>, more: seq<Row>, m: Ticker)
    requires AllFaithful(rows, m) && |more| <= 1 && forall i | 0 <= i < |more| :: more[i].IntegrityRow?
    ensures AllFaithful(rows + more, m)
  {
    if more == [] {
      assert rows + more == rows;
    } else {
      assert more == [more[0]];
      FaithfulSnoc(rows, more[0], m);
    }
  }

  /** What a trusted book owes the rows: it sits on the stream of the last change. */
  ghost predicate Homed(b: BookData, rows: seq<Row>, m: Ticker) {
    b.valid ==> b.stream.Some? && LastChange(rows, m).Some? && LastChange(rows, m).value.stream == b.stream
  }

  ghost predicate BookOk(b: BookData, rows: seq<Row>, m: Ticker) {
    Mirrors(b, rows, m) && Homed(b, rows, m) && NoZeros(b.ladders)
  }

  lemma SnapshotFaithful(s: Shelf, i: SnapshotInput, rows: seq<Row>, m: Ticker)
    requires AllFaithful(rows, m) && BookOk(BookOf(s, m), rows, m)
    requires BookOf(s, i.ticker).ticker == i.ticker && IsFeedSource(i.source)
    ensures AllFaithful(rows + [SnapshotRowFor(s, i)], m)
    ensures BookOk(BookOf(AfterSnapshot(s, i), m), rows + [SnapshotRowFor(s, i)], m)
  {
    var row := SnapshotRowFor(s, i);
    var book := SnapshotBook(s, i);
    assert NoZeros(book.ladders) && book.ticker == i.ticker && book.stream == Some(i.stream);
    assert BookOf(AfterSnapshot(s, i), m) == if m == i.ticker then book else BookOf(s, m);
    SnapshotRowLoadsBack(book, i.source, i.session, Some(i.stream), i.seqNo, i.atMs);
    SnapshotMirrors(s, i, rows, m);
    BookAfterSnoc(rows, row, m);
    hide Canonical, LaddersHash, BookAfter, LastChange, Mirrors, AfterSnapshot, AllFaithful, SnapshotBook;
    FaithfulSnoc(rows, row, m);
  }

  lemma DeltaFaithful(s: Shelf, i: DeltaInput, canApply: bool, reason: Option<Reason>, rows: seq<Row>, m: Ticker)
    requires AllFaithful(rows, m) && BookOk(BookOf(s, m), rows, m)
    requires m == i.ticker && BookOf(s, m).valid ==> BookOf(s, m).stream == Some(i.stream)
    ensures AllFaithful(rows + [DeltaRowFor(s, i, canApply, reason)], m)
    ensures BookOk(BookOf(AfterDelta(s, i, canApply), m), rows + [DeltaRowFor(s, i, canApply, reason)], m)
  {
    var row := DeltaRowFor(s, i, canApply, reason);
    var b, b' := BookOf(s, m), BookOf(AfterDelta(s, i, canApply), m);
    UnapplyRestores(b.ladders, i.change);
    DeltaMirrors(s, i, canApply, reason, rows, m);
    BookAfterSnoc(rows, row, m);
    hide BookAfter, LastChange, AllFaithful, NoZeros, Trimmed, ActionOf, Folded;
    assert b' == if m == i.ticker then DeltaBook(s, i, canApply) else b;
    FaithfulSnoc(rows, row, m);
  }

  lemma SilentBookOk(b: BookData, rows: seq<Row>, more: seq<Row>, m: Ticker)
    requires BookOk(b, rows, m) && |more| <= 1 && forall i | 0 <= i < |more| :: more[i].IntegrityRow?
    ensures BookOk(b, rows + more, m)
  {
    IntegrityRowsSilent(rows, more, m);
  }

  lemma DispatchFaithful(st: State, f: Frame, session: SessionId, stream: Option<StreamId>, g: Gate, rows: seq<Row>,
      m: Ticker)
    requires AllFaithful(rows, m) && BookOk(BookOf(st.shelf, m), rows, m) && FiledByTicker(st.shelf)
    requires (!f.payload.OtherMsg? && f.payload.ticker == m && BookOf(st.shelf, m).valid ==>
                BookOf(st.shelf, m).stream == Some(StreamOrUnbound(stream)))
    ensures var e := Dispatched(st, f, session, stream, g);
      AllFaithful(rows + e.rows, m) && BookOk(BookOf(e.st.shelf, m), rows + e.rows, m)
  {
    match f.payload
    case SnapshotMsg(t, _, _) =>
      assert BookOf(st.shelf, t).ticker == t;
      hide AfterSnapshot, SnapshotRowFor, BookOf, BookOk, AllFaithful;
      SnapshotFaithful(st.shelf, SnapshotIn(f, session, stream, RecoveryEffect(st, stream, t).relevant), rows, m);
    case DeltaMsg(_, _) =>
      var i := DeltaIn(f, session, stream);
      var row := DeltaRowFor(st.shelf, i, g.allowed, g.reason);
      var more := NegativeRows(row);
      assert |more| <= 1 && forall k | 0 <= k < |more| :: more[k].IntegrityRow?;
      hide AfterDelta, DeltaRowFor, BookOf, BookOk, AllFaithful, NegativeRows;
      DeltaFaithful(st.shelf, i, g.allowed, g.reason, rows, m);
      SilentFaithful(rows + [row], more, m);
      SilentBookOk(BookOf(AfterDelta(st.shelf, i, g.allowed), m), rows + [row], more, m);
      assert rows + ([row] + more) == rows + [row] + more;
    case OtherMsg =>
      assert rows + [] == rows;
  }

  lemma ClassifyBookOk(st: State, id: StreamId, f: Frame, rows: seq<Row>, m: Ticker)
    requires id in st.subs.subs && BookOk(BookOf(st.shelf, m), rows, m)
    ensures BookOk(BookOf(Classified(st, id, f).shelf, m), rows, m)
    ensures var b, b' := BookOf(st.shelf, m), BookOf(Classified(st, id, f).shelf, m); b'.valid ==> b == b'
  {
    ClassifyKeepsContents(st, id, f, m);
  }

  lemma FrameFaithful(st: State, f: Frame, session: SessionId, rows: seq<Row>, m: Ticker)
    requires AllFaithful(rows, m) && BookOk(BookOf(st.shelf, m), rows, m) && FiledByTicker(st.shelf)
    requires (!f.payload.OtherMsg? && f.payload.ticker == m && BookOf(st.shelf, m).valid ==>
                BookOf(st.shelf, m).stream == Some(StreamOrUnbound(StreamOf(st, f.sid))))
    ensures var e := Handled(st, f, session);
      AllFaithful(rows + e.rows, m) && BookOk(BookOf(e.st.shelf, m), rows + e.rows, m)
  {
    var stream := StreamOf(st, f.sid);
    hide Dispatched, AllFaithful, FiledByTicker, Homed, NoZeros, Classified, GapRows, GateAt, Mirrors, RowTrace;
    if !IsClassified(st, stream) {
      hide BookOf;
      DispatchFaithful(st, f, session, stream, OPEN_GATE, rows, m);
    } else {
      var id := stream.value;
      var mid, gap, gate := Classified(st, id, f), GapRows(st, id, f), GateAt(st, id, f);
      ClassifyMirrors(st, id, f, rows, m);
      ClassifyBookOk(st, id, f, rows, m);
      hide BookOk, BookOf;
      SilentFaithful(rows, gap, m);
      SilentBookOk(BookOf(mid.shelf, m), rows, gap, m);
      DispatchFaithful(mid, f, session, stream, gate, rows + gap, m);
      var d := Dispatched(mid, f, session, stream, gate);
      assert rows + (gap + d.rows) == rows + gap + d.rows;
    }
  }

  /** A trusted book sits on a stream that carries its market, and no other stream does. */
  ghost predicate CarriedAtHome(r: Recording, m: Ticker) {
    var b := BookOf(r.st.shelf, m);
    && Subs.OneCarrierEach(r.st.subs, OrderbookDelta)
    && (b.valid ==> b.stream.Some? && Subs.Carries(r.st.subs, b.stream.value, m, OrderbookDelta))
  }

  ghost predicate RowsOk(r: Recording, m: Ticker) {
    && AllFaithful(r.rows, m)
    && BookOk(BookOf(r.st.shelf, m), r.rows, m)
    && FiledByTicker(r.st.shelf)
    && CarriedAtHome(r, m)
  }

  /** Which stream a market's book ends up on after a frame. */
  lemma FrameBookStream(st: State, f: Frame, session: SessionId, m: Ticker)
    ensures var b, b' := BookOf(st.shelf, m), BookOf(Handled(st, f, session).st.shelf, m);
      b'.valid ==> (b'.stream == b.stream && b.valid) || (f.payload.SnapshotMsg? && f.payload.ticker == m
                                                           && b'.stream == Some(StreamOrUnbound(StreamOf(st, f.sid))))
  {
    var stream := StreamOf(st, f.sid);
    hide Load, Folded, Trimmed, Canonical, LaddersHash, SnapshotEffect;
    if !IsClassified(st, stream) {
      DispatchBookStream(st, f, session, stream, OPEN_GATE, m);
    } else {
      var id := stream.value;
      ClassifyKeepsContents(st, id, f, m);
      hide Dispatched, Classified, GateAt, BookOf;
      DispatchBookStream(Classified(st, id, f), f, session, stream, GateAt(st, id, f), m);
    }
  }

  lemma DispatchBookStream(st: State, f: Frame, session: SessionId, stream: Option<StreamId>, g: Gate, m: Ticker)
    ensures var b, b' := BookOf(st.shelf, m), BookOf(Dispatched(st, f, session, stream, g).st.shelf, m);
      b'.valid ==> (b'.stream == b.stream && b.valid) || (f.payload.SnapshotMsg? && f.payload.ticker == m
                                                           && b'.stream == Some(StreamOrUnbound(stream)))
  {
    hide Load, Folded, Trimmed, Canonical, LaddersHash, SnapshotEffect, ResultOf;
  }

  lemma FrameKeepsRowsOk(r: Recording, f: Frame, m: Ticker)
    requires RowsOk(r, m) && FrameAtHome(r.st, f)
    ensures RowsOk(Step(r, FrameEvent(f)), m)
  {
    var b := BookOf(r.st.shelf, m);
    HandledKeepsSubs(r.st, f, r.session);
    FrameBookStream(r.st, f, r.session, m);
    if !f.payload.OtherMsg? && f.payload.ticker == m && b.valid {
      assert Subs.Carries(r.st.subs, b.stream.value, m, OrderbookDelta);
      assert b.stream == StreamOf(r.st, f.sid);
    }
    hide Handled, AllFaithful, BookOk, FiledByTicker, BookOf;
    FrameFaithful(r.st, f, r.session, r.rows, m);
    FrameKeepsFiling(r.st, f, r.session, r.rows, m);
  }

  lemma FrameKeepsFiling(st: State, f: Frame, session: SessionId, rows: seq<Row>, m: Ticker)
    requires BookOk(BookOf(st.shelf, m), rows, m) && FiledByTicker(st.shelf)
    ensures FiledByTicker(Handled(st, f, session).st.shelf)
  {
    hide Handled, FiledByTicker, Homed, Mirrors, NoZeros, BookOf;
    FrameMirrors(st, f, session, rows, m);
  }

  lemma SampleFaithful(r: Recording, t: Ticker, nowMs: int, m: Ticker)
    requires RowsOk(r, m)
    ensures RowsOk(Step(r, SampleEvent(t, nowMs)), m)
  {
    hide BookAfter, LastChange, RowTrace, Canonical, LaddersHash;
    var more := SampleRows(r, t, nowMs);
    SampleSilent(r, t, nowMs, m);
    if more == [] {
      assert r.rows + more == r.rows;
    } else {
      var b := BookOf(r.st.shelf, t);
      assert b.ticker == t;
      if t == m {
        SnapshotRowLoadsBack(b, LocalMaterialized, r.session, b.stream, b.lastSeq, nowMs);
      }
      hide AllFaithful, FiledByTicker;
      FaithfulSnoc(r.rows, more[0], m);
    }
  }

  /** Opening streams keeps rows sound as long as no market gets a second carrier. */
  lemma OpeningKeepsRowsOk(r: Recording, e: Event, m: Ticker)
    requires Coupled(r.st) && IdsUsed(r) && RowsOk(r, m) && Legal(r, e) && (e.SubscribeEvent? || e.AddEvent?)
    ensures RowsOk(Step(r, e), m)
  {
    var r' := Step(r, e);
    OpeningKeepsBooks(r, e);
    OpeningKeepsCarriers(r, e);
    hide AllFaithful, BookOk, Subs.OneCarrierEach, Subs.Extends, Coupled, AfterSubscribe, AfterAdd;
    forall t ensures BookOf(r'.st.shelf, t) == BookOf(r.st.shelf, t) {
    }
    CarriersStay(r.st.subs, r'.st.subs, m);
  }

  lemma CarriersStay(st: Subs.SubState, st': Subs.SubState, m: Ticker)
    requires Subs.Extends(st, st')
    ensures forall id | Subs.Carries(st, id, m, OrderbookDelta) :: Subs.Carries(st', id, m, OrderbookDelta)
  {
    forall id | Subs.Carries(st, id, m, OrderbookDelta) ensures Subs.Carries(st', id, m, OrderbookDelta) {
      assert id in st.subs.Keys && id in st'.subs.Keys;
    }
  }

  lemma OpeningKeepsCarriers(r: Recording, e: Event)
    requires Coupled(r.st) && IdsUsed(r) && Legal(r, e) && (e.SubscribeEvent? || e.AddEvent?)
    requires Subs.OneCarrierEach(r.st.subs, OrderbookDelta)
    ensures var st' := Step(r, e).st.subs;
      Subs.Extends(r.st.subs, st') && Subs.OneCarrierEach(st', OrderbookDelta)
  {
    match e
    case SubscribeEvent(channel, markets, ids) =>
      SubscribeMayOpen(r, channel, markets, ids);
      SubscribedCarriers(r.st.subs, channel, markets, ids);
      hide Legal, Step, MayOpen, Subs.OneCarrierEach, Subs.Extends, Subs.Subscribed, Subs.Slices;
      OpenedCarriers(r, Subs.Subscribed(r.st.subs, channel, markets, MARKETS_PER_SUBSCRIPTION, ids), channel,
                     Subs.Slices(markets, MARKETS_PER_SUBSCRIPTION), ids);
    case AddEvent(channel, markets, ids) =>
      if r.st.subs.order == [] {
        assert Step(r, e).st.subs == r.st.subs;
      } else {
        AddMayOpen(r, channel, markets, ids);
        AddedCarriers(r.st.subs, channel, markets, ids);
        hide Legal, Step, MayOpen, Subs.OneCarrierEach, Subs.Extends, Subs.Added, Subs.NewShards;
        OpenedCarriers(r, Subs.Added(r.st.subs, channel, markets, MARKETS_PER_SUBSCRIPTION, ids), channel,
                       Unassociated(Subs.NewShards(r.st.subs, channel, markets, MARKETS_PER_SUBSCRIPTION)), ids);
      }
  }

  lemma OpenedCarriers(r: Recording, subs: Subs.SubState, channel: Channel, slices: seq<seq<Ticker>>,
                       ids: seq<Subs.NewIds>)
    requires MayOpen(r, subs, slices, ids)
    ensures Opened(r, subs, channel, slices, ids).st.subs == subs && Subs.Extends(r.st.subs, subs)
  {
    hide Subs.SubsOk, EpisodesOk, Agree, CarriedOnce, WithShardsOpen;
    KnownStay(r.st.subs, subs);
    OpeningStaysCoupled(r.st.(subs := subs), channel, slices, ids, |slices|);
  }

  lemma SubscribedCarriers(st: Subs.SubState, channel: Channel, markets: seq<Ticker>, ids: seq<Subs.NewIds>)
    requires Subs.SubsOk(st) && Subs.FreshIds(st, ids) && EnoughIds(markets, ids)
    requires Subs.OneCarrierEach(st, OrderbookDelta)
    requires (channel == OrderbookDelta ==>
                Subs.Distinct(markets) && forall m | m in markets :: Subs.NoCarrier(st, m, channel))
    ensures Subs.OneCarrierEach(Subs.Subscribed(st, channel, markets, MARKETS_PER_SUBSCRIPTION, ids), OrderbookDelta)
  {
    if channel == OrderbookDelta {
      Subs.SubscribingCarriesOnce(st, channel, markets, MARKETS_PER_SUBSCRIPTION, ids);
    } else {
      Runs.SubscribingKeeps(st, channel, markets, MARKETS_PER_SUBSCRIPTION, ids, OrderbookDelta);
    }
  }

  lemma AddedCarriers(st: Subs.SubState, channel: Channel, markets: seq<Ticker>, ids: seq<Subs.NewIds>)
    requires Subs.SubsOk(st) && Subs.FreshIds(st, ids) && EnoughIdsToAdd(st, channel, markets, ids)
    requires Subs.OneCarrierEach(st, OrderbookDelta)
    requires channel == OrderbookDelta ==> Subs.Distinct(markets)
    ensures Subs.OneCarrierEach(Subs.Added(st, channel, markets, MARKETS_PER_SUBSCRIPTION, ids), OrderbookDelta)
  {
    hide Subs.Added, Subs.Leftover, Subs.Slices;
    if channel == OrderbookDelta {
      Subs.AddingCarriesOnce(st, channel, markets, MARKETS_PER_SUBSCRIPTION, ids);
    } else {
      Runs.AddingKeeps(st, channel, markets, MARKETS_PER_SUBSCRIPTION, ids, OrderbookDelta);
    }
  }

  /** A market that leaves has no book to be sound about; the others keep their book and their carrier. */
  lemma RemoveKeepsRowsOk(r: Recording, markets: seq<Ticker>, drops: seq<(Ticker, StreamId)>, m: Ticker)
    requires Coupled(r.st) && RowsOk(r, m) && Legal(r, RemoveEvent(markets, drops))
    ensures RowsOk(Step(r, RemoveEvent(markets, drops)), m)
  {
    if r.st.subs.order != [] {
      var st' := AfterRemove(r.st, markets, drops);
      RemovalMirrors(r.st, markets, drops, r.rows, m);
      ForgettingIs(r.st.shelf, markets);
      DroppingKeepsSubs(r.st.subs, drops);
      hide AllFaithful, FiledByTicker, ForgottenAll, Subs.DroppedAll, Subs.Carries, BookAfter, LastChange, Coupled;
      var b := BookOf(r.st.shelf, m);
      assert BookOf(st'.shelf, m) == if m in TickerSet(markets) then NewBook(m) else b;
      if m !in markets && b.valid {
        assert Spared(drops, m);
        assert Subs.Carries(st'.subs, b.stream.value, m, OrderbookDelta);
      }
    }
  }

  lemma StepKeepsRowsOk(r: Recording, e: Event, m: Ticker)
    requires Coupled(r.st) && IdsUsed(r) && RowsOk(r, m) && Legal(r, e)
    ensures RowsOk(Step(r, e), m)
  {
    match e
    case FrameEvent(f) =>
      FrameKeepsRowsOk(r, f, m);
    case SubscribeEvent(_, _, _) =>
      OpeningKeepsRowsOk(r, e, m);
    case AddEvent(_, _, _) =>
      OpeningKeepsRowsOk(r, e, m);
    case RemoveEvent(markets, drops) =>
      RemoveKeepsRowsOk(r, markets, drops, m);
    case SampleEvent(t, now) =>
      SampleFaithful(r, t, now, m);
    case BindEvent(command, sid, channel) =>
      hide AllFaithful, BookOk, FiledByTicker, Coupled;
      BindKeepsCarriers(r.st, command, sid, channel, m);
    case ReapEvent(_) =>
      hide AllFaithful, BookOk, FiledByTicker, Coupled;
    case DisconnectEvent =>
      hide AllFaithful, Coupled, LaddersHash, BookAfter, LastChange;
      InvalidationMirrors(r.st.shelf, Disconnected, r.rows, m);
    case RestartEvent(_) =>
      hide AllFaithful, Coupled;
      assert forall t :: BookOf(EMPTY_SHELF, t) == NewBook(t);
  }

  lemma BindKeepsCarriers(st: State, command: Option<int>, sid: int, channel: Channel, m: Ticker)
    requires Coupled(st) && Subs.OneCarrierEach(st.subs, OrderbookDelta)
    ensures var st' := Subs.Bound(st.subs, command, sid, channel);
      && Subs.OneCarrierEach(st', OrderbookDelta)
      && forall id | Subs.Carries(st.subs, id, m, OrderbookDelta) :: Subs.Carries(st', id, m, OrderbookDelta)
  {
    var st' := Subs.Bound(st.subs, command, sid, channel);
    forall id, t ensures Subs.Carries(st', id, t, OrderbookDelta) == Subs.Carries(st.subs, id, t, OrderbookDelta) {
    }
  }

  /** In every legal run every recorded row is faithful to the rows before it. */
  lemma {:induction false} RowsAreFaithful(start: SessionId, events: seq<Event>, m: Ticker)
    requires LegalRun(start, events)
    ensures RowsOk(Run(start, events), m)
    decreases |events|
  {
    hide RowsOk, Coupled, Step, Legal;
    if events == [] {
      NothingRecorded(start, m);
    } else {
      var init := events[..|events| - 1];
      LegalPrefix(start, events);
      RowsAreFaithful(start, init, m);
      LegalIsFresh(start, init);
      MachinesStayCoupled(start, init);
      StepKeepsRowsOk(Run(start, init), events[|events| - 1], m);
    }
  }

  lemma NothingRecorded(start: SessionId, m: Ticker)
    ensures RowsOk(Begin(start), m)
  {
  }
}
