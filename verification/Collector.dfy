/** The synchronous frame path of the recorder (src/collector/collector.ts). */
module Collecting {
  import opened Values
  import opened CanonicalForm
  import opened MarketBooks
  import opened BookManagement
  import opened SequenceTracking
  import opened RecoveryMachine
  import Subs = Subscriptions
  import Runs = SubscriptionRuns

  // ---------------------------------------------------------------------------
  // Frames
  // ---------------------------------------------------------------------------

  datatype Payload =
    | SnapshotMsg(ticker: Ticker, yes: seq<Level>, no: seq<Level>)
    | DeltaMsg(ticker: Ticker, change: Change)
    | OtherMsg // trades, tickers, lifecycle, and anything that failed to parse

  /** A data frame. `sendFails`: the socket would refuse a snapshot request made while handling it. */
  datatype Frame = Frame(sid: Option<int>, seqNo: Option<int>, atMs: int, payload: Payload, sendFails: bool)

  const RECOVERY_TIMEOUT_MS := 30_000
  const MARKETS_PER_SUBSCRIPTION := 400

  datatype State = State(tracker: Streams, machine: Machine, shelf: Shelf, subs: Subs.SubState)

  const INITIAL_STATE := State(map[], EMPTY_MACHINE, EMPTY_SHELF, Subs.NO_SUBSCRIPTIONS)

  // ---------------------------------------------------------------------------
  // Specification of one frame
  // ---------------------------------------------------------------------------

  function StreamOf(st: State, sid: Option<int>): Option<StreamId> {
    if sid.Some? && sid.value in st.subs.bySid && st.subs.bySid[sid.value] in st.subs.subs
    then Some(st.subs.bySid[sid.value])
    else None
  }

  function StreamOrUnbound(stream: Option<StreamId>): StreamId {
    if stream.Some? then stream.value else UNBOUND_STREAM
  }

  datatype Gate = Gate(allowed: bool, reason: Option<Reason>)

  const OPEN_GATE := Gate(true, None)

  /** How many snapshots a gap on a stream asks for. */
  function GapRequests(st: State, id: StreamId, sendFails: bool): nat {
    if sendFails then 0 else Subs.RequestCount(st.subs, MarketsOf(st.shelf, id), OrderbookDelta)
  }

  /** Opens the one episode of a discontinuity, invalidates the stream's books and asks for snapshots. */
  function AfterGap(st: State, id: StreamId, r: SequenceResult, atMs: int, sendFails: bool): State {
    var affected := MarketsOf(st.shelf, id);
    var m1 := WithGap(st.machine, id, affected, r.expected, r.received, atMs);
    if id in st.machine.episodes then st.(machine := m1)
    else
      st.(shelf := StreamInvalidated(st.shelf, id, GapOnStream(r.expected, r.received)),
          machine := if GapRequests(st, id, sendFails) > 0 then WithRequest(m1, id, atMs) else WithUnavailable(m1, id))
  }

  function AfterVerdict(st: State, id: StreamId, r: SequenceResult, f: Frame): State {
    match r.verdict
    case Gap => AfterGap(st, id, r, f.atMs, f.sendFails)
    case WhileDegraded => st.(machine := WithWithheld(st.machine, id))
    case _ => st
  }

  function VerdictGate(r: SequenceResult, isSnapshot: bool): Gate {
    match r.verdict
    case Gap => Gate(false, Some(SkippedGap(r.expected, r.received)))
    case Duplicate => Gate(false, Some(SkippedRepeat(r.expected, r.received)))
    case OutOfOrder => Gate(false, Some(SkippedRepeat(r.expected, r.received)))
    case WhileDegraded => Gate(isSnapshot, Some(StreamDegraded))
    case _ => OPEN_GATE
  }

  /** The machine has the last word on whether deltas may touch a book. */
  function MachineGate(m: Machine, id: StreamId, g: Gate, isSnapshot: bool): Gate {
    if g.allowed && !isSnapshot && PhaseOf(m, id) != Healthy
    then Gate(false, if g.reason.Some? then g.reason else Some(StreamUnhealthy))
    else g
  }

  function SnapshotIn(f: Frame, session: SessionId, stream: Option<StreamId>, relevant: bool): SnapshotInput
    requires f.payload.SnapshotMsg?
  {
    SnapshotInput(f.payload.ticker, f.payload.yes, f.payload.no, f.seqNo, session, StreamOrUnbound(stream),
                  if relevant then WsRecovery else WsInitial, f.atMs)
  }

  function DeltaIn(f: Frame, session: SessionId, stream: Option<StreamId>): DeltaInput
    requires f.payload.DeltaMsg?
  {
    DeltaInput(f.payload.ticker, f.payload.change, if f.seqNo.Some? then f.seqNo.value else 0, session,
               StreamOrUnbound(stream), f.atMs)
  }

  function RecoveryEffect(st: State, stream: Option<StreamId>, ticker: Ticker): SnapshotOutcome {
    if stream.Some? then SnapshotEffect(st.machine, stream.value, ticker) else SnapshotOutcome(false, false)
  }

  function AfterSnapshotFrame(st: State, f: Frame, session: SessionId, stream: Option<StreamId>): State
    requires f.payload.SnapshotMsg?
  {
    var effect := RecoveryEffect(st, stream, f.payload.ticker);
    st.(machine := if stream.Some? then WithSnapshot(st.machine, stream.value, f.payload.ticker) else st.machine,
        shelf := AfterSnapshot(st.shelf, SnapshotIn(f, session, stream, effect.relevant)),
        tracker := if effect.completed then AfterRecovery(st.tracker, stream.value, f.seqNo) else st.tracker)
  }

  /** State, rows and what the frame meant for the stream's recovery. */
  datatype Effect = Effect(st: State, rows: seq<Row>, completed: bool)

  function NegativeRows(row: Row): seq<Row> {
    if row.DeltaRow? && row.post.Some? && row.post.value < 0 then [IntegrityRow(NegativeLevelEvent, Some(row.ticker))]
    else []
  }

  ghost function Dispatched(st: State, f: Frame, session: SessionId, stream: Option<StreamId>, g: Gate): Effect {
    match f.payload
    case SnapshotMsg(t, _, _) =>
      var effect := RecoveryEffect(st, stream, t);
      Effect(AfterSnapshotFrame(st, f, session, stream),
             [SnapshotRowFor(st.shelf, SnapshotIn(f, session, stream, effect.relevant))],
             effect.completed)
    case DeltaMsg(_, _) =>
      var i := DeltaIn(f, session, stream);
      var row := DeltaRowFor(st.shelf, i, g.allowed, g.reason);
      Effect(st.(shelf := AfterDelta(st.shelf, i, g.allowed)), [row] + NegativeRows(row), false)
    case OtherMsg => Effect(st, [], false)
  }

  /** A frame is classified when it came in on a sequenced subscription. */
  predicate IsClassified(st: State, stream: Option<StreamId>) {
    stream.Some? && stream.value in st.subs.subs && IsSequenced(st.subs.subs[stream.value].channel)
  }

  function ResultFor(st: State, id: StreamId, f: Frame): SequenceResult
    requires id in st.subs.subs
  {
    Observation(st.tracker, id, st.subs.subs[id].channel, f.seqNo)
  }

  /** The state once the frame's sequence number has been dealt with. */
  function Classified(st: State, id: StreamId, f: Frame): State
    requires id in st.subs.subs
  {
    AfterVerdict(st.(tracker := Observed(st.tracker, id, st.subs.subs[id].channel, f.seqNo)),
                 id, ResultFor(st, id, f), f)
  }

  function GateAt(st: State, id: StreamId, f: Frame): Gate
    requires id in st.subs.subs
  {
    MachineGate(Classified(st, id, f).machine, id, VerdictGate(ResultFor(st, id, f), f.payload.SnapshotMsg?),
                f.payload.SnapshotMsg?)
  }

  /** Whether this frame opens a recovery episode. */
  predicate OpensEpisode(st: State, id: StreamId, f: Frame)
    requires id in st.subs.subs
  {
    ResultFor(st, id, f).verdict == Gap && id !in st.machine.episodes
  }

  function GapRows(st: State, id: StreamId, f: Frame): seq<Row>
    requires id in st.subs.subs
  {
    if OpensEpisode(st, id, f) then [IntegrityRow(SequenceGapEvent, None)] else []
  }

  ghost function Handled(st: State, f: Frame, session: SessionId): Effect {
    var stream := StreamOf(st, f.sid);
    if !IsClassified(st, stream) then Dispatched(st, f, session, stream, OPEN_GATE)
    else
      var id := stream.value;
      var e := Dispatched(Classified(st, id, f), f, session, stream, GateAt(st, id, f));
      e.(rows := GapRows(st, id, f) + e.rows)
  }

  // ---------------------------------------------------------------------------
  // Specification of the other events
  // ---------------------------------------------------------------------------

  function AssociatedAll(s: Shelf, id: StreamId, ts: seq<Ticker>): Shelf {
    if ts == [] then s
    else Associated(AssociatedAll(s, id, ts[..|ts| - 1]), id, ts[|ts| - 1])
  }

  function ClosedAll(tracker: Streams, ids: seq<StreamId>): Streams {
    if ids == [] then tracker else ClosedAll(tracker, ids[..|ids| - 1]) - {ids[|ids| - 1]}
  }

  /** A disconnect: no book, stream or episode survives. */
  function AfterDisconnect(st: State): State {
    State(ClosedAll(st.tracker, st.subs.order), EMPTY_MACHINE,
          AllInvalidated(st.shelf, Disconnected), Subs.NO_SUBSCRIPTIONS)
  }

  /** A freshly opened episode may always request its snapshots. */
  lemma EpisodeIsDegraded(m: Machine, id: StreamId, affected: seq<Ticker>,
                          expected: Option<int>, received: Option<int>, atMs: int)
    ensures id !in m.episodes ==> PhaseOf(WithGap(m, id, affected, expected, received, atMs), id) == Degraded
  {
  }

  /** What `subscribeAll` does for one channel. */
  function AfterSubscribe(st: State, channel: Channel, markets: seq<Ticker>, ids: seq<Subs.NewIds>): State
    requires |ids| >= |Subs.Slices(markets, MARKETS_PER_SUBSCRIPTION)|
  {
    var slices := Subs.Slices(markets, MARKETS_PER_SUBSCRIPTION);
    WithShardsOpen(st.(subs := Subs.Subscribed(st.subs, channel, markets, MARKETS_PER_SUBSCRIPTION, ids)),
                   channel, slices, ids, |slices|)
  }

  /** Registers the first n shards with the tracker and the machine and associates their markets. */
  function WithShardsOpen(st: State, channel: Channel, slices: seq<seq<Ticker>>, ids: seq<Subs.NewIds>, n: nat): State
    requires n <= |slices| <= |ids|
  {
    if n == 0 then st
    else
      var init := WithShardsOpen(st, channel, slices, ids, n - 1);
      var id := ids[n - 1].stream;
      init.(tracker := Registered(init.tracker, id, channel),
            machine := WithRegistered(init.machine, id),
            shelf := AssociatedAll(init.shelf, id, slices[n - 1]))
  }

  /** The streams opened for added markets: registered, their markets not yet associated. */
  function Unassociated(n: nat): (slices: seq<seq<Ticker>>)
    ensures |slices| == n && forall i | 0 <= i < n :: slices[i] == []
  {
    if n == 0 then [] else Unassociated(n - 1) + [[]]
  }

  /** Markets join the universe on one channel; nothing happens before the first subscription. */
  function AfterAdd(st: State, channel: Channel, markets: seq<Ticker>, ids: seq<Subs.NewIds>): State
    requires |ids| >= |Subs.Slices(Subs.Leftover(st.subs, channel, markets, MARKETS_PER_SUBSCRIPTION),
                                   MARKETS_PER_SUBSCRIPTION)|
  {
    if st.subs.order == [] then st
    else
      var n := Subs.NewShards(st.subs, channel, markets, MARKETS_PER_SUBSCRIPTION);
      WithShardsOpen(st.(subs := Subs.Added(st.subs, channel, markets, MARKETS_PER_SUBSCRIPTION, ids)),
                     channel, Unassociated(n), ids, n)
  }

  /** Markets leave the universe: off their subscriptions, then out of the books. */
  function AfterRemove(st: State, markets: seq<Ticker>, drops: seq<(Ticker, StreamId)>): State {
    if st.subs.order == [] then st
    else st.(subs := Subs.DroppedAll(st.subs, drops), shelf := ForgottenAll(st.shelf, markets))
  }

  lemma OpenNone(st: State, channel: Channel, slices: seq<seq<Ticker>>, ids: seq<Subs.NewIds>)
    requires |slices| <= |ids|
    ensures WithShardsOpen(st, channel, slices, ids, 0) == st
  {
  }

  lemma OpenOneMore(st: State, channel: Channel, slices: seq<seq<Ticker>>, ids: seq<Subs.NewIds>, n: nat)
    requires 0 < n <= |slices| <= |ids|
    ensures var init := WithShardsOpen(st, channel, slices, ids, n - 1);
      WithShardsOpen(st, channel, slices, ids, n) ==
        init.(tracker := Registered(init.tracker, ids[n - 1].stream, channel),
              machine := WithRegistered(init.machine, ids[n - 1].stream),
              shelf := AssociatedAll(init.shelf, ids[n - 1].stream, slices[n - 1]))
  {
  }

  lemma ClosedOneMore(tracker: Streams, ids: seq<StreamId>, i: nat)
    requires i < |ids|
    ensures ClosedAll(tracker, ids[..0]) == tracker
    ensures ClosedAll(tracker, ids[..i + 1]) == ClosedAll(tracker, ids[..i]) - {ids[i]}
  {
    assert ids[..i + 1][..i] == ids[..i];
  }

  lemma ClosedNone(tracker: Streams)
    ensures ClosedAll(tracker, []) == tracker
  {
  }

  // ---------------------------------------------------------------------------
  // The collector object
  // ---------------------------------------------------------------------------

  class Collector {
    const session: SessionId
    const sequences: SequenceTracker
    const recovery: StreamRecoveryMachine
    const books: BookManager
    const subscriptions: Subs.SubscriptionManager

    ghost predicate Valid()
      reads this, books, books.books.Values, subscriptions
    {
      books.Valid() && Subs.IndexIsInverse(subscriptions.View())
    }

    function View(): State
      reads this, sequences, recovery, books, books.books.Values, subscriptions
    {
      State(sequences.streams, recovery.View(), books.View(), subscriptions.View())
    }

    constructor (session: SessionId)
      ensures Valid() && View() == INITIAL_STATE && this.session == session
      ensures recovery.timeoutMs == RECOVERY_TIMEOUT_MS && subscriptions.limit == MARKETS_PER_SUBSCRIPTION
      ensures fresh(sequences) && fresh(recovery) && fresh(books) && fresh(subscriptions) && books.books == map[]
    {
      this.session := session;
      sequences := new SequenceTracker();
      recovery := new StreamRecoveryMachine(RECOVERY_TIMEOUT_MS);
      books := new BookManager();
      subscriptions := new Subs.SubscriptionManager(MARKETS_PER_SUBSCRIPTION);
    }

    /** Classifies one frame, updates what it may update, and returns the normalised rows. */
    method HandleFrame(f: Frame) returns (rows: seq<Row>)
      requires Valid()
      modifies sequences, recovery, books, books.books.Values
      ensures Valid() && fresh(books.books.Values - old(books.books.Values))
      ensures View() == Handled(old(View()), f, session).st
      ensures rows == Handled(old(View()), f, session).rows
    {
      hide BookManager.Valid, BookManager.View, Dispatched, Classified, GateAt, GapRows;
      var stream := if f.sid.Some? && f.sid.value in subscriptions.bySid &&
                       subscriptions.bySid[f.sid.value] in subscriptions.subs
                    then Some(subscriptions.bySid[f.sid.value]) else None;
      var gate := OPEN_GATE;
      rows := [];
      if stream.Some? && IsSequenced(subscriptions.subs[stream.value].channel) {
        gate, rows := ClassifyFrame(stream.value, f);
      }
      var more := Dispatch(f, stream, gate);
      rows := rows + more;
    }

    method ClassifyFrame(id: StreamId, f: Frame) returns (gate: Gate, rows: seq<Row>)
      requires Valid() && id in subscriptions.subs
      modifies sequences, recovery, books.books.Values
      ensures Valid() && View() == Classified(old(View()), id, f)
      ensures gate == GateAt(old(View()), id, f) && rows == GapRows(old(View()), id, f)
    {
      hide BookManager.Valid, BookManager.View, Observed, Observation, AfterGap, WithWithheld, VerdictGate,
          Subs.IndexIsInverse;
      var isSnapshot := f.payload.SnapshotMsg?;
      var r := sequences.Observe(id, subscriptions.subs[id].channel, f.seqNo);
      rows := [];
      if r.verdict == Gap {
        rows := HandleSequenceGap(id, r, f.atMs, f.sendFails);
      } else if r.verdict == WhileDegraded {
        recovery.Withhold(id);
      }
      gate := VerdictGate(r, isSnapshot);
      if gate.allowed && !isSnapshot && PhaseOf(recovery.View(), id) != Healthy {
        gate := Gate(false, if gate.reason.Some? then gate.reason else Some(StreamUnhealthy));
      }
    }

    method HandleSequenceGap(id: StreamId, r: SequenceResult, atMs: int, sendFails: bool) returns (rows: seq<Row>)
      requires Valid()
      modifies recovery, books.books.Values
      ensures Valid() && View() == AfterGap(old(View()), id, r, atMs, sendFails)
      ensures rows == if id in old(View()).machine.episodes then [] else [IntegrityRow(SequenceGapEvent, None)]
    {
      hide BookManager.Valid, BookManager.Books, StreamInvalidated, WithGap, WithRequest, WithUnavailable,
          Subs.IndexIsInverse;
      EpisodeIsDegraded(recovery.View(), id, MarketsOf(books.View(), id), r.expected, r.received, atMs);
      var affected := if id in books.streamMarkets then books.streamMarkets[id] else [];
      var isNew := recovery.OpenGap(id, affected, r.expected, r.received, atMs);
      if !isNew {
        return [];
      }
      var _ := books.InvalidateStream(id, GapOnStream(r.expected, r.received));
      rows := [IntegrityRow(SequenceGapEvent, None)];
      RequestRecovery(id, affected, atMs, sendFails);
    }

    /** Asks once for the snapshots of a new episode, or gives the episode up. */
    method RequestRecovery(id: StreamId, affected: seq<Ticker>, atMs: int, sendFails: bool)
      requires Subs.IndexIsInverse(subscriptions.View()) && PhaseOf(recovery.View(), id) == Degraded
      modifies recovery
      ensures recovery.View() ==
        if !sendFails && Subs.RequestCount(subscriptions.View(), affected, OrderbookDelta) > 0
        then WithRequest(old(recovery.View()), id, atMs) else WithUnavailable(old(recovery.View()), id)
    {
      hide WithRequest, WithUnavailable;
      hide Subs.Grouped, Subs.RequestFor, Subs.OneCarrierEach, Subs.AskedOnce, Subs.Distinct, Subs.IndexIsInverse;
      var requested := 0;
      if |affected| > 0 && PhaseOf(recovery.View(), id) == Degraded && !sendFails {
        var n, _, _ := subscriptions.RequestSnapshots(affected, OrderbookDelta);
        requested := n;
      }
      if requested > 0 {
        recovery.MarkRecoveryRequested(id, atMs);
      } else {
        recovery.MarkRecoveryUnavailable(id);
      }
    }

    method Dispatch(f: Frame, stream: Option<StreamId>, gate: Gate) returns (rows: seq<Row>)
      requires Valid()
      modifies sequences, recovery, books, books.books.Values
      ensures Valid() && fresh(books.books.Values - old(books.books.Values))
      ensures View() == Dispatched(old(View()), f, session, stream, gate).st
      ensures rows == Dispatched(old(View()), f, session, stream, gate).rows
    {
      hide BookManager.Valid, BookManager.Books;
      match f.payload
      case SnapshotMsg(_, _, _) => rows := HandleSnapshot(f, stream);
      case DeltaMsg(_, _) => rows := HandleDelta(f, stream, gate);
      case OtherMsg => rows := [];
    }

    method HandleSnapshot(f: Frame, stream: Option<StreamId>) returns (rows: seq<Row>)
      requires Valid() && f.payload.SnapshotMsg?
      modifies sequences, recovery, books, books.books.Values
      ensures Valid() && fresh(books.books.Values - old(books.books.Values))
      ensures View() == AfterSnapshotFrame(old(View()), f, session, stream)
      ensures rows == [SnapshotRowFor(old(View()).shelf,
        SnapshotIn(f, session, stream, RecoveryEffect(old(View()), stream, f.payload.ticker).relevant))]
    {
      hide BookManager.Valid, BookManager.Books, AfterSnapshot, SnapshotRowFor;
      var outcome := SnapshotOutcome(false, false);
      if stream.Some? {
        outcome := recovery.RecordSnapshot(stream.value, f.payload.ticker);
      }
      var row := books.ApplySnapshot(SnapshotIn(f, session, stream, outcome.relevant));
      if outcome.completed && stream.Some? {
        var _ := sequences.ResetAfterRecovery(stream.value, f.seqNo);
      }
      rows := [row];
    }

    method HandleDelta(f: Frame, stream: Option<StreamId>, gate: Gate) returns (rows: seq<Row>)
      requires Valid() && f.payload.DeltaMsg?
      modifies books, books.books.Values
      ensures Valid() && fresh(books.books.Values - old(books.books.Values))
      ensures View() == Dispatched(old(View()), f, session, stream, gate).st
      ensures rows == Dispatched(old(View()), f, session, stream, gate).rows
    {
      hide BookManager.Valid, BookManager.Books, AfterDelta, DeltaRowFor;
      var row := books.ApplyDelta(DeltaIn(f, session, stream), gate.allowed, gate.reason);
      rows := [row] + NegativeRows(row);
    }

    /** Subscribes a channel and opens a stream for every shard. */
    method SubscribeChannel(channel: Channel, markets: seq<Ticker>, ids: seq<Subs.NewIds>)
      requires Valid() && Subs.SubsOk(subscriptions.View()) && Subs.FreshIds(subscriptions.View(), ids)
      requires |ids| >= |Subs.Slices(markets, MARKETS_PER_SUBSCRIPTION)|
      requires subscriptions.limit == MARKETS_PER_SUBSCRIPTION
      modifies sequences, recovery, books`streamMarkets, subscriptions
      ensures Valid() && View() == AfterSubscribe(old(View()), channel, markets, ids)
    {
      hide BookManager.Valid, BookManager.Books, Subs.IndexIsInverse, Subs.LookupsLive, Subs.Extends, WithShardsOpen;
      hide Subs.FreshIds, Subs.WithShards, AssociatedAll;
      var slices := Subs.Slices(markets, MARKETS_PER_SUBSCRIPTION);
      Subs.ShardsKeepIndex(subscriptions.View(), channel, slices, ids);
      subscriptions.Subscribe(channel, markets, ids);
      ghost var st := View();
      var n := 0;
      OpenNone(st, channel, slices, ids);
      while n < |slices|
        invariant 0 <= n <= |slices|
        invariant Valid() && View() == WithShardsOpen(st, channel, slices, ids, n)
      {
        OpenOneMore(st, channel, slices, ids, n + 1);
        OpenShard(channel, slices[n], ids[n].stream);
        n := n + 1;
      }
    }

    method OpenShard(channel: Channel, slice: seq<Ticker>, id: StreamId)
      requires Valid()
      modifies sequences, recovery, books`streamMarkets
      ensures Valid()
      ensures View() == old(View()).(tracker := Registered(old(View()).tracker, id, channel),
                                     machine := WithRegistered(old(View()).machine, id),
                                     shelf := AssociatedAll(old(View()).shelf, id, slice))
    {
      hide BookManager.Valid, BookManager.Books;
      sequences.Register(id, channel);
      recovery.Register(id);
      ghost var shelf := books.View();
      var i := 0;
      assert slice[..0] == [];
      while i < |slice|
        invariant 0 <= i <= |slice|
        invariant sequences.streams == Registered(old(sequences.streams), id, channel)
        invariant recovery.View() == WithRegistered(old(recovery.View()), id)
        invariant Valid() && books.View() == AssociatedAll(shelf, id, slice[..i])
      {
        assert slice[..i + 1][..i] == slice[..i];
        books.Associate(id, slice[i]);
        i := i + 1;
      }
      assert slice[..i] == slice;
    }

    /** Adds markets to a channel of the live connection. */
    method AddMarkets(channel: Channel, markets: seq<Ticker>, ids: seq<Subs.NewIds>)
      requires Valid() && Subs.SubsOk(subscriptions.View()) && Subs.FreshIds(subscriptions.View(), ids)
      requires |ids| >= |Subs.Slices(Subs.Leftover(subscriptions.View(), channel, markets, MARKETS_PER_SUBSCRIPTION),
                                     MARKETS_PER_SUBSCRIPTION)|
      requires subscriptions.limit == MARKETS_PER_SUBSCRIPTION
      modifies sequences, recovery, books`streamMarkets, subscriptions
      ensures Valid() && View() == AfterAdd(old(View()), channel, markets, ids)
    {
      hide BookManager.Valid, BookManager.Books, Subs.IndexIsInverse, Subs.LookupsLive, Subs.Extends, WithShardsOpen,
          Subs.Added, Subs.Leftover, Subs.Slices, Subs.NewShards;
      if subscriptions.order == [] {
        return;
      }
      Subs.AddingOpens(subscriptions.View(), channel, markets, MARKETS_PER_SUBSCRIPTION, ids);
      Runs.AddingKeeps(subscriptions.View(), channel, markets, MARKETS_PER_SUBSCRIPTION, ids, channel);
      var before := |subscriptions.order|;
      subscriptions.AddMarkets(channel, markets, ids);
      var created := |subscriptions.order| - before;
      ghost var st, slices := View(), Unassociated(created);
      var n := 0;
      OpenNone(st, channel, slices, ids);
      while n < created
        invariant 0 <= n <= created
        invariant Valid() && View() == WithShardsOpen(st, channel, slices, ids, n)
      {
        OpenOneMore(st, channel, slices, ids, n + 1);
        OpenShard(channel, [], ids[n].stream);
        n := n + 1;
      }
    }

    /** Takes markets off every enabled channel, then releases their books. */
    method RemoveMarkets(channels: seq<Channel>, markets: seq<Ticker>) returns (ghost drops: seq<(Ticker, StreamId)>)
      requires Valid() && Subs.SubsOk(subscriptions.View())
      modifies subscriptions, books
      ensures Valid() && View() == AfterRemove(old(View()), markets, drops)
      ensures forall k | 0 <= k < |drops| :: drops[k].0 in markets
      ensures books.books.Values <= old(books.books.Values)
    {
      hide BookManager.Valid, BookManager.Books, Subs.IndexIsInverse, Subs.LookupsLive, Subs.DroppedAll, Forgotten;
      drops := [];
      if subscriptions.order == [] {
        return;
      }
      ghost var subs, shelf := subscriptions.View(), books.View();
      Subs.DroppingNothing(subs);
      for i := 0 to |channels|
        invariant Valid() && Subs.SubsOk(subscriptions.View()) && books.View() == shelf
        invariant books.books == old(books.books)
        invariant sequences.streams == old(sequences.streams) && recovery.View() == old(recovery.View())
        invariant subscriptions.View() == Subs.DroppedAll(subs, drops)
        invariant forall k | 0 <= k < |drops| :: drops[k].0 in markets
      {
        ghost var more := subscriptions.RemoveMarkets(channels[i], markets);
        Subs.DroppingAppends(subs, drops, more);
        drops := drops + more;
      }
      assert markets[..0] == [];
      for i := 0 to |markets|
        invariant Valid() && books.View() == ForgottenAll(shelf, markets[..i])
        invariant books.books.Values <= old(books.books.Values)
        invariant sequences.streams == old(sequences.streams) && recovery.View() == old(recovery.View())
        invariant subscriptions.View() == Subs.DroppedAll(subs, drops)
      {
        assert markets[..i + 1][..i] == markets[..i];
        books.Remove(markets[i]);
      }
      assert markets[..|markets|] == markets;
    }

    /** Binds a sid from a `subscribed` response. */
    method HandleSubscribed(command: Option<int>, sid: int, channel: Channel)
      requires Valid() && Subs.SubsOk(subscriptions.View())
      modifies subscriptions
      ensures Valid() && View() == old(View()).(subs := Subs.Bound(old(View()).subs, command, sid, channel))
    {
      hide BookManager.Valid, BookManager.Books, Subs.IndexIsInverse, Subs.LookupsLive;
      Subs.BindKeepsAll(subscriptions.View(), command, sid, channel);
      var _ := subscriptions.BindSid(command, sid, channel);
    }

    method ReapStalledRecoveries(nowMs: int)
      requires Valid()
      modifies recovery
      ensures Valid() && View() == old(View()).(machine := Reaped(old(View()).machine, nowMs, recovery.timeoutMs))
    {
      hide BookManager.Valid, BookManager.Books, Reaped;
      var _ := recovery.ReapTimeouts(nowMs);
    }

    /** The full-book sampler reads one book. */
    method Sample(t: Ticker, nowMs: int) returns (rows: seq<Row>)
      requires Valid()
      modifies books.books.Values
      ensures Valid() && View() == old(View())
      ensures rows == SampleOf(old(View()).shelf, session, t, nowMs)
    {
      hide BookManager.Valid, BookManager.Books, SampleOf;
      rows := books.SampleBook(t, session, nowMs);
    }

    /** Drops every stream and distrusts every book. */
    method HandleDisconnect()
      requires Valid()
      modifies sequences, recovery, books.books.Values, subscriptions
      ensures Valid() && View() == AfterDisconnect(old(View()))
    {
      hide BookManager.Valid, BookManager.Books, AllInvalidated, ClosedAll, BookManager.View;
      books.InvalidateAll(Disconnected);
      var streams := subscriptions.Reset();
      CloseStreams(streams);
      recovery.Reset();
    }

    /** The streams of a lost connection leave the tracker and the machine. */
    method CloseStreams(streams: seq<StreamId>)
      modifies sequences, recovery
      ensures sequences.streams == ClosedAll(old(sequences.streams), streams)
    {
      hide ClosedAll;
      ghost var tracker := sequences.streams;
      var i := 0;
      assert streams[..0] == [];
      ClosedNone(tracker);
      while i < |streams|
        invariant 0 <= i <= |streams|
        invariant sequences.streams == ClosedAll(tracker, streams[..i])
      {
        ClosedOneMore(tracker, streams, i);
        sequences.Remove(streams[i]);
        var _ := recovery.Close(streams[i]);
        i := i + 1;
      }
      assert streams[..i] == streams;
    }
  }
}
