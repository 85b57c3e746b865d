/**
 * Whole runs of the recorder: every sequence of subscriptions, frames, timeouts, samples,
 * disconnects and restarts, and what each leaves behind.
 */
module Capture {
  import opened Values
  import opened CanonicalForm
  import opened MarketBooks
  import opened BookManagement
  import opened SequenceTracking
  import opened RecoveryMachine
  import opened Collecting
  import Subs = Subscriptions
  import Runs = SubscriptionRuns

  datatype Event =
    | SubscribeEvent(channel: Channel, markets: seq<Ticker>, ids: seq<Subs.NewIds>)
    | AddEvent(channel: Channel, markets: seq<Ticker>, ids: seq<Subs.NewIds>) // markets join the universe
    | RemoveEvent(markets: seq<Ticker>, drops: seq<(Ticker, StreamId)>) // markets leave it
    | BindEvent(command: Option<int>, sid: int, channel: Channel)
    | FrameEvent(frame: Frame)
    | ReapEvent(reapMs: int)
    | SampleEvent(ticker: Ticker, sampleMs: int) // the full-book sampler reads one book
    | DisconnectEvent
    | RestartEvent(session: SessionId) // a new collector process takes over

  /** What a frame meant for recovery, in order of occurrence. */
  datatype Mark = GapReported(id: StreamId) | SnapshotsRequested(id: StreamId) | Recovered(id: StreamId)

  datatype Recording = Recording(session: SessionId, st: State, rows: seq<Row>, marks: seq<Mark>, used: set<StreamId>)

  function Begin(session: SessionId): Recording {
    Recording(session, INITIAL_STATE, [], [], {UNBOUND_STREAM})
  }

  /** The frame is reported as a gap. */
  predicate ReportsGap(st: State, f: Frame) {
    var stream := StreamOf(st, f.sid);
    IsClassified(st, stream) && ResultFor(st, stream.value, f).verdict == Gap
  }

  /** The frame makes the recorder ask for recovery snapshots. */
  predicate RequestsRecovery(st: State, f: Frame) {
    var stream := StreamOf(st, f.sid);
    IsClassified(st, stream) && OpensEpisode(st, stream.value, f) && GapRequests(st, stream.value, f.sendFails) > 0
  }

  function MarksOf(st: State, f: Frame, completed: bool): seq<Mark> {
    var id := StreamOrUnbound(StreamOf(st, f.sid));
    (if ReportsGap(st, f) then [GapReported(id)] else [])
    + (if RequestsRecovery(st, f) then [SnapshotsRequested(id)] else [])
    + (if completed then [Recovered(id)] else [])
  }

  function StreamIds(ids: seq<Subs.NewIds>): set<StreamId> {
    set i | 0 <= i < |ids| :: ids[i].stream
  }

  ghost function SampleRows(r: Recording, t: Ticker, nowMs: int): seq<Row> {
    SampleOf(r.st.shelf, r.session, t, nowMs)
  }

  predicate EnoughIds(markets: seq<Ticker>, ids: seq<Subs.NewIds>) {
    |ids| >= |Subs.Slices(markets, MARKETS_PER_SUBSCRIPTION)|
  }

  predicate EnoughIdsToAdd(st: Subs.SubState, channel: Channel, markets: seq<Ticker>, ids: seq<Subs.NewIds>) {
    EnoughIds(Subs.Leftover(st, channel, markets, MARKETS_PER_SUBSCRIPTION), ids)
  }

  ghost function Step(r: Recording, e: Event): Recording {
    match e
    case SubscribeEvent(channel, markets, ids) =>
      if EnoughIds(markets, ids)
      then r.(st := AfterSubscribe(r.st, channel, markets, ids), used := r.used + StreamIds(ids))
      else r
    case AddEvent(channel, markets, ids) =>
      if EnoughIdsToAdd(r.st.subs, channel, markets, ids)
      then r.(st := AfterAdd(r.st, channel, markets, ids), used := r.used + StreamIds(ids))
      else r
    case RemoveEvent(markets, drops) => r.(st := AfterRemove(r.st, markets, drops))
    case BindEvent(command, sid, channel) => r.(st := r.st.(subs := Subs.Bound(r.st.subs, command, sid, channel)))
    case FrameEvent(f) =>
      var effect := Handled(r.st, f, r.session);
      r.(st := effect.st, rows := r.rows + effect.rows, marks := r.marks + MarksOf(r.st, f, effect.completed))
    case ReapEvent(now) => r.(st := r.st.(machine := Reaped(r.st.machine, now, RECOVERY_TIMEOUT_MS)))
    case SampleEvent(t, now) => r.(rows := r.rows + SampleRows(r, t, now))
    case DisconnectEvent => r.(st := AfterDisconnect(r.st))
    case RestartEvent(session) => r.(session := session, st := INITIAL_STATE)
  }

  ghost function Run(start: SessionId, events: seq<Event>): Recording {
    if events == [] then Begin(start) else Step(Run(start, events[..|events| - 1]), events[|events| - 1])
  }

  ghost predicate UnusedIds(used: set<StreamId>, ids: seq<Subs.NewIds>) {
    && (forall i | 0 <= i < |ids| :: ids[i].stream !in used)
    && (forall i, j | 0 <= i < j < |ids| :: ids[i].stream != ids[j].stream)
  }

  /** Stream ids are random UUIDs: never reused. This much holds of every run. */
  ghost predicate Fresh(r: Recording, e: Event) {
    e.SubscribeEvent? || e.AddEvent? ==> UnusedIds(r.used, e.ids)
  }

  ghost predicate FreshAt(start: SessionId, events: seq<Event>, k: nat)
    requires k < |events|
  {
    Fresh(Run(start, events[..k]), events[k])
  }

  ghost predicate FreshRun(start: SessionId, events: seq<Event>) {
    forall k | 0 <= k < |events| :: FreshAt(start, events, k)
  }

  lemma FreshPrefix(start: SessionId, events: seq<Event>)
    requires FreshRun(start, events) && events != []
    ensures FreshRun(start, events[..|events| - 1])
    ensures Fresh(Run(start, events[..|events| - 1]), events[|events| - 1])
  {
    var init := events[..|events| - 1];
    forall k | 0 <= k < |init| ensures FreshAt(start, init, k) {
      assert FreshAt(start, events, k);
      assert init[..k] == events[..k];
    }
    assert FreshAt(start, events, |events| - 1);
  }

  lemma LegalIsFresh(start: SessionId, events: seq<Event>)
    requires LegalRun(start, events)
    ensures FreshRun(start, events)
  {
    forall k | 0 <= k < |events| ensures FreshAt(start, events, k) {
      assert LegalAt(start, events, k);
    }
  }

  /**
   * What the outside world owes the recorder: stream ids are never reused, a subscription names
   * each market once and none already carried, only markets leaving the universe are taken off
   * their subscriptions, and the server only sends a subscription its own markets.
   */
  ghost predicate Legal(r: Recording, e: Event) {
    match e
    case SubscribeEvent(channel, markets, ids) =>
      && EnoughIds(markets, ids) && UnusedIds(r.used, ids)
      && (channel == OrderbookDelta ==>
            Subs.Distinct(markets) && forall m | m in markets :: Subs.NoCarrier(r.st.subs, m, channel))
    case AddEvent(channel, markets, ids) =>
      && EnoughIdsToAdd(r.st.subs, channel, markets, ids) && UnusedIds(r.used, ids)
      && (channel == OrderbookDelta ==> Subs.Distinct(markets))
    case RemoveEvent(markets, drops) => forall k | 0 <= k < |drops| :: drops[k].0 in markets
    case FrameEvent(f) => FrameAtHome(r.st, f)
    case _ => true
  }

  ghost predicate FrameAtHome(st: State, f: Frame) {
    !f.payload.OtherMsg? ==>
      var stream := StreamOf(st, f.sid);
      && stream.Some? && f.seqNo.Some?
      && Subs.Carries(st.subs, stream.value, f.payload.ticker, OrderbookDelta)
  }

  ghost predicate LegalRun(start: SessionId, events: seq<Event>) {
    forall k | 0 <= k < |events| :: LegalAt(start, events, k)
  }

  ghost predicate LegalAt(start: SessionId, events: seq<Event>, k: nat)
    requires k < |events|
  {
    Legal(Run(start, events[..k]), events[k])
  }

  lemma LegalPrefix(start: SessionId, events: seq<Event>)
    requires LegalRun(start, events) && events != []
    ensures LegalRun(start, events[..|events| - 1])
    ensures Legal(Run(start, events[..|events| - 1]), events[|events| - 1])
  {
    var init := events[..|events| - 1];
    forall k | 0 <= k < |init| ensures LegalAt(start, init, k) {
      assert LegalAt(start, events, k);
      assert init[..k] == events[..k];
    }
    assert LegalAt(start, events, |events| - 1);
  }

  // ---------------------------------------------------------------------------
  // The two state machines stay coupled
  // ---------------------------------------------------------------------------

  predicate IsDegraded(tracker: Streams, id: StreamId) {
    id in tracker && tracker[id].degraded
  }

  /** The tracker is degraded exactly when the machine is not healthy. */
  ghost predicate Agree(tracker: Streams, m: Machine) {
    forall id :: IsDegraded(tracker, id) <==> PhaseOf(m, id) != Healthy
  }

  /** Recovering means an open episode that still waits for some of the markets it was opened for. */
  ghost predicate EpisodesOk(m: Machine) {
    && (forall id :: PhaseOf(m, id) == Recovering <==> id in m.episodes)
    && (forall id | id in m.episodes ::
          EpisodeOk(m.episodes[id]) && m.episodes[id].outstanding != {} && m.episodes[id].phase == Recovering)
  }

  ghost predicate CarriedOnce(s: Shelf) {
    forall id | id in s.carried :: Subs.Distinct(s.carried[id])
  }

  ghost predicate TrackedOnly(tracker: Streams, subs: Subs.SubState) {
    && (forall id | id in tracker :: id in subs.subs)
    && (forall id | id in subs.subs :: id in subs.order)
  }

  ghost predicate Coupled(st: State) {
    && Agree(st.tracker, st.machine)
    && EpisodesOk(st.machine)
    && CarriedOnce(st.shelf)
    && TrackedOnly(st.tracker, st.subs)
    && Subs.SubsOk(st.subs)
  }

  lemma PhaseAfter(m: Machine, id: StreamId, to: Phase)
    ensures forall i :: PhaseOf(WithPhase(m, id, to), i) == if i == id then to else PhaseOf(m, i)
    ensures WithPhase(m, id, to).episodes.Keys == m.episodes.Keys
    ensures id !in m.episodes ==> WithPhase(m, id, to).episodes == m.episodes
    ensures id in m.episodes ==>
      WithPhase(m, id, to).episodes == m.episodes[id := m.episodes[id].(
          phase := if PhaseOf(m, id) == to then m.episodes[id].phase else to)]
  {
  }

  lemma {:induction false} DistinctMembers(s: seq<Ticker>)
    requires Subs.Distinct(s)
    ensures |MembersOf(s)| == |s|
  {
    if s == [] {
      assert MembersOf(s) == {};
    } else {
      var init, last := s[..|s| - 1], s[|s| - 1];
      DistinctMembers(init);
      assert MembersOf(s) == MembersOf(init) + {last};
      assert last !in init;
    }
  }

  /** A gap leaves its stream recovering with a full episode, or degraded with none. */
  lemma GapMachine(st: State, id: StreamId, r: SequenceResult, atMs: int, sendFails: bool)
    requires EpisodesOk(st.machine) && CarriedOnce(st.shelf) && PhaseOf(st.machine, id) == Healthy
    ensures var m := AfterGap(st, id, r, atMs, sendFails).machine;
      && EpisodesOk(m)
      && (PhaseOf(m, id) == if GapRequests(st, id, sendFails) > 0 then Recovering else Degraded)
      && (forall i | i != id :: PhaseOf(m, i) == PhaseOf(st.machine, i))
  {
    var affected := MarketsOf(st.shelf, id);
    assert Subs.Distinct(affected) by {
      assert id in st.shelf.carried ==> Subs.Distinct(st.shelf.carried[id]);
    }
    DistinctMembers(affected);
    var m0 := st.machine.(episodes := st.machine.episodes[id := NewEpisode(affected, r.expected, r.received, atMs)]);
    PhaseAfter(m0, id, Degraded);
    var m1 := WithPhase(m0, id, Degraded);
    assert m1 == WithGap(st.machine, id, affected, r.expected, r.received, atMs);
    assert m1.episodes[id] == NewEpisode(affected, r.expected, r.received, atMs);
    if GapRequests(st, id, sendFails) > 0 {
      assert affected != [];
      assert affected[0] in MembersOf(affected);
      var m2 := m1.(episodes := m1.episodes[id := m1.episodes[id].(requestedAtMs := Some(atMs))]);
      PhaseAfter(m2, id, Recovering);
    } else {
      PhaseAfter(m1.(episodes := m1.episodes - {id}), id, Degraded);
    }
  }

  lemma StreamInvalidatedCarries(s: Shelf, id: StreamId, reason: Reason)
    ensures StreamInvalidated(s, id, reason).carried == s.carried
  {
  }

  lemma AssociateCarriedOnce(s: Shelf, id: StreamId, t: Ticker)
    requires CarriedOnce(s)
    ensures CarriedOnce(Associated(s, id, t))
  {
    var list := MarketsOf(s, id);
    assert Subs.Distinct(list) by {
      assert id in s.carried ==> Subs.Distinct(s.carried[id]);
    }
    assert t !in list ==> Subs.Distinct(list + [t]);
    forall i | i in Associated(s, id, t).carried ensures Subs.Distinct(Associated(s, id, t).carried[i]) {
      if i != id {
        assert Subs.Distinct(s.carried[i]);
      }
    }
  }

  lemma WithholdKeeps(m: Machine, id: StreamId)
    requires EpisodesOk(m)
    ensures EpisodesOk(WithWithheld(m, id)) && forall i :: PhaseOf(WithWithheld(m, id), i) == PhaseOf(m, i)
  {
  }

  lemma HealthyHasNoEpisode(m: Machine, id: StreamId)
    requires EpisodesOk(m)
    ensures PhaseOf(m, id) == Healthy ==> id !in m.episodes
  {
    assert PhaseOf(m, id) == Recovering <==> id in m.episodes;
  }

  /** Only a gap degrades a stream, and only one that was not degraded. */
  lemma ObservingDegrades(tracker: Streams, id: StreamId, channel: Channel, seqNo: Option<int>)
    requires IsSequenced(channel)
    ensures var tracker', r := Observed(tracker, id, channel, seqNo), Observation(tracker, id, channel, seqNo);
      && id in tracker' && tracker'.Keys == tracker.Keys + {id}
      && (forall i | i != id :: IsDegraded(tracker', i) == IsDegraded(tracker, i))
      && IsDegraded(tracker', id) == (IsDegraded(tracker, id) || r.verdict == Gap)
      && (r.verdict == Gap ==> !IsDegraded(tracker, id))
  {
  }

  /** Dealing with a frame's sequence number keeps the machines coupled. */
  lemma ClassifiedStaysCoupled(st: State, id: StreamId, f: Frame)
    requires Coupled(st) && id in st.subs.subs && IsSequenced(st.subs.subs[id].channel)
    ensures Coupled(Classified(st, id, f)) && id in Classified(st, id, f).tracker
  {
    hide Subs.SubsOk, Observed, Observation, AfterGap, WithWithheld;
    var r := ResultFor(st, id, f);
    var tracker' := Observed(st.tracker, id, st.subs.subs[id].channel, f.seqNo);
    ObservingDegrades(st.tracker, id, st.subs.subs[id].channel, f.seqNo);
    hide IsDegraded, EpisodesOk, CarriedOnce;
    if r.verdict == Gap {
      GapStaysCoupled(st, tracker', id, r, f);
    } else {
      NoGapAgrees(st.tracker, tracker', st.machine, id);
      if r.verdict == WhileDegraded {
        WithholdKeeps(st.machine, id);
        WithheldAgrees(tracker', st.machine, WithWithheld(st.machine, id));
      }
    }
  }

  lemma GapStaysCoupled(st: State, tracker': Streams, id: StreamId, r: SequenceResult, f: Frame)
    requires Agree(st.tracker, st.machine) && EpisodesOk(st.machine) && CarriedOnce(st.shelf)
    requires forall i | i != id :: IsDegraded(tracker', i) == IsDegraded(st.tracker, i)
    requires IsDegraded(tracker', id) && !IsDegraded(st.tracker, id)
    ensures var st' := AfterGap(st.(tracker := tracker'), id, r, f.atMs, f.sendFails);
      && Agree(st'.tracker, st'.machine) && EpisodesOk(st'.machine) && CarriedOnce(st'.shelf)
      && st'.tracker == tracker' && st'.subs == st.subs
  {
    var mid := st.(tracker := tracker');
    assert PhaseOf(st.machine, id) == Healthy;
    HealthyHasNoEpisode(st.machine, id);
    GapMachine(mid, id, r, f.atMs, f.sendFails);
    StreamInvalidatedCarries(st.shelf, id, GapOnStream(r.expected, r.received));
    hide EpisodesOk, IsDegraded, PhaseOf;
  }

  lemma NoGapAgrees(tracker: Streams, tracker': Streams, m: Machine, id: StreamId)
    requires Agree(tracker, m) && forall i :: IsDegraded(tracker', i) == IsDegraded(tracker, i)
    ensures Agree(tracker', m)
  {
    hide IsDegraded, PhaseOf;
  }

  lemma WithheldAgrees(tracker: Streams, m: Machine, m': Machine)
    requires Agree(tracker, m) && forall i :: PhaseOf(m', i) == PhaseOf(m, i)
    ensures Agree(tracker, m')
  {
    hide IsDegraded, PhaseOf;
  }

  /** A recovery snapshot keeps the episodes sound; the last one makes its stream healthy. */
  lemma SnapshotMachine(m: Machine, id: StreamId, t: Ticker)
    requires EpisodesOk(m)
    ensures var m' := WithSnapshot(m, id, t);
      && EpisodesOk(m')
      && (forall i | i != id :: PhaseOf(m', i) == PhaseOf(m, i))
      && PhaseOf(m', id) == if SnapshotEffect(m, id, t).completed then Healthy else PhaseOf(m, id)
    ensures SnapshotEffect(m, id, t).completed ==> id in m.episodes
  {
    var effect := SnapshotEffect(m, id, t);
    if effect.completed {
      PhaseAfter(m.(episodes := m.episodes - {id}), id, Healthy);
    } else if effect.relevant {
      var e := m.episodes[id];
      assert e.outstanding - {t} == {} ==> e.outstanding == {t};
      assert |e.outstanding - {t}| == |e.outstanding| - 1;
    }
  }

  lemma DispatchedStaysCoupled(st: State, f: Frame, session: SessionId, stream: Option<StreamId>, g: Gate)
    requires Coupled(st)
    requires stream.Some? ==> stream.value in st.machine.episodes ==> stream.value in st.tracker
    ensures Coupled(Dispatched(st, f, session, stream, g).st)
  {
    match f.payload
    case SnapshotMsg(t, _, _) =>
      var effect := RecoveryEffect(st, stream, t);
      var i := SnapshotIn(f, session, stream, effect.relevant);
      AssociateCarriedOnce(st.shelf.(books := st.shelf.books[i.ticker := SnapshotBook(st.shelf, i)]), i.stream,
          i.ticker);
      if stream.Some? {
        SnapshotMachine(st.machine, stream.value, t);
        RecoveryAgrees(st.tracker, st.machine, stream.value, t, f.seqNo);
      }
    case DeltaMsg(_, _) =>
      var i := DeltaIn(f, session, stream);
      AssociateCarriedOnce(st.shelf.(books := st.shelf.books[i.ticker := DeltaBook(st.shelf, i, g.allowed)]),
          i.stream, i.ticker);
    case OtherMsg =>
  }

  lemma RecoveryAgrees(tracker: Streams, m: Machine, id: StreamId, t: Ticker, seqNo: Option<int>)
    requires Agree(tracker, m) && EpisodesOk(m) && (id in m.episodes ==> id in tracker)
    ensures Agree(if SnapshotEffect(m, id, t).completed then AfterRecovery(tracker, id, seqNo) else tracker,
                  WithSnapshot(m, id, t))
  {
    SnapshotMachine(m, id, t);
    var tracker' := AfterRecovery(tracker, id, seqNo);
    assert forall i | i != id :: IsDegraded(tracker', i) == IsDegraded(tracker, i);
  }

  lemma FrameStaysCoupled(st: State, f: Frame, session: SessionId)
    requires Coupled(st)
    ensures Coupled(Handled(st, f, session).st)
  {
    var stream := StreamOf(st, f.sid);
    if stream.Some? {
      OpenEpisodeIsTracked(st, stream.value);
    }
    if !IsClassified(st, stream) {
      DispatchedStaysCoupled(st, f, session, stream, OPEN_GATE);
    } else {
      ClassifiedStaysCoupled(st, stream.value, f);
      DispatchedStaysCoupled(Classified(st, stream.value, f), f, session, stream, GateAt(st, stream.value, f));
    }
  }

  lemma OpenEpisodeIsTracked(st: State, id: StreamId)
    requires Agree(st.tracker, st.machine) && EpisodesOk(st.machine)
    ensures id in st.machine.episodes ==> id in st.tracker
  {
    assert id in st.machine.episodes ==> PhaseOf(st.machine, id) == Recovering;
    assert PhaseOf(st.machine, id) == Recovering ==> IsDegraded(st.tracker, id);
  }

  lemma {:induction false} AssociateAllCarriedOnce(s: Shelf, id: StreamId, ts: seq<Ticker>)
    requires CarriedOnce(s)
    ensures CarriedOnce(AssociatedAll(s, id, ts)) && AssociatedAll(s, id, ts).books == s.books
  {
    if ts != [] {
      AssociateAllCarriedOnce(s, id, ts[..|ts| - 1]);
      AssociateCarriedOnce(AssociatedAll(s, id, ts[..|ts| - 1]), id, ts[|ts| - 1]);
    }
  }

  /** Registering streams touches neither verdicts, phases nor books. */
  lemma {:induction false} OpeningStaysCoupled(
      st: State, channel: Channel, slices: seq<seq<Ticker>>, ids: seq<Subs.NewIds>, n: nat)
    requires n <= |slices| <= |ids|
    requires Agree(st.tracker, st.machine) && EpisodesOk(st.machine) && CarriedOnce(st.shelf) &&
        TrackedOnly(st.tracker, st.subs)
    requires forall i | 0 <= i < n :: ids[i].stream in st.subs.subs
    ensures var st' := WithShardsOpen(st, channel, slices, ids, n);
      && Agree(st'.tracker, st'.machine) && EpisodesOk(st'.machine) && CarriedOnce(st'.shelf)
      && TrackedOnly(st'.tracker, st'.subs) && st'.subs == st.subs && st'.shelf.books == st.shelf.books
      && st'.machine.episodes == st.machine.episodes
      && (forall id :: PhaseOf(st'.machine, id) == PhaseOf(st.machine, id))
      && (forall id | id in st.tracker :: id in st'.tracker && st'.tracker[id] == st.tracker[id])
      && (forall id | id in st'.tracker && id !in st.tracker ::
            st'.tracker[id].lastSeq == None && !st'.tracker[id].degraded)
  {
    hide CarriedOnce, WithShardsOpen, EpisodesOk, Agree, PhaseOf;
    if n == 0 {
      assert WithShardsOpen(st, channel, slices, ids, n) == st by {
        OpenNone(st, channel, slices, ids);
      }
    } else {
      OpeningStaysCoupled(st, channel, slices, ids, n - 1);
      var init := WithShardsOpen(st, channel, slices, ids, n - 1);
      var id := ids[n - 1].stream;
      AssociateAllCarriedOnce(init.shelf, id, slices[n - 1]);
      RegisteringAgrees(init.tracker, init.machine, id, channel);
      RegisteringKeepsEpisodes(init.machine, id);
      OpenOneMore(st, channel, slices, ids, n);
    }
  }

  lemma RegisteringKeepsEpisodes(m: Machine, id: StreamId)
    ensures WithRegistered(m, id).episodes == m.episodes
  {
  }

  lemma RegisteringAgrees(tracker: Streams, m: Machine, id: StreamId, channel: Channel)
    requires Agree(tracker, m) && EpisodesOk(m)
    ensures Agree(Registered(tracker, id, channel), WithRegistered(m, id)) && EpisodesOk(WithRegistered(m, id))
    ensures forall i :: PhaseOf(WithRegistered(m, id), i) == PhaseOf(m, i)
  {
    assert forall i :: IsDegraded(Registered(tracker, id, channel), i) == IsDegraded(tracker, i);
  }

  /** Streams with new ids have been opened, the first n of `ids` among them, and nothing else was lost. */
  ghost predicate Grows(st: Subs.SubState, st': Subs.SubState, ids: seq<Subs.NewIds>, n: nat) {
    && Subs.SubsOk(st') && Subs.Extends(st, st') && n <= |ids|
    && (forall i | 0 <= i < n :: ids[i].stream in st'.subs)
    && (forall id | id in st'.subs :: id in st'.order)
    && (forall id | id in st'.subs && id !in st.subs :: IsAmong(ids, id))
  }

  lemma SubscribeGrows(st: Subs.SubState, channel: Channel, markets: seq<Ticker>, ids: seq<Subs.NewIds>)
    requires Subs.SubsOk(st) && Subs.FreshIds(st, ids) && EnoughIds(markets, ids)
    requires forall id | id in st.subs :: id in st.order
    ensures Grows(st, Subs.Subscribed(st, channel, markets, MARKETS_PER_SUBSCRIPTION, ids), ids,
                  |Subs.Slices(markets, MARKETS_PER_SUBSCRIPTION)|)
  {
    var slices := Subs.Slices(markets, MARKETS_PER_SUBSCRIPTION);
    Subs.ShardsKeepIndex(st, channel, slices, ids);
    ShardsInOrder(st, channel, slices, ids);
    forall i | 0 <= i < |slices|
      ensures ids[i].stream in Subs.Subscribed(st, channel, markets, MARKETS_PER_SUBSCRIPTION, ids).subs
    {
      assert ids[i].stream in Subs.TakenIds(|slices|, ids);
    }
  }

  lemma AddGrows(st: Subs.SubState, channel: Channel, markets: seq<Ticker>, ids: seq<Subs.NewIds>)
    requires Subs.SubsOk(st) && Subs.FreshIds(st, ids) && EnoughIdsToAdd(st, channel, markets, ids)
    requires forall id | id in st.subs :: id in st.order
    ensures Grows(st, Subs.Added(st, channel, markets, MARKETS_PER_SUBSCRIPTION, ids), ids,
                  Subs.NewShards(st, channel, markets, MARKETS_PER_SUBSCRIPTION))
  {
    hide Subs.Filled, Subs.Subscribed, Subs.Slices, Subs.Uncarried, Subs.SubsOk;
    var limit := MARKETS_PER_SUBSCRIPTION;
    var list, wanted := Subs.ForChannel(st, st.order, channel), Subs.Uncarried(st, markets, channel);
    Subs.ForChannelAre(st, st.order, channel);
    Runs.FillingKeeps(st, list, wanted, limit, channel);
    Subs.FillingOpensNone(st, list, wanted, limit);
    var outcome := Subs.Filled(st, list, wanted, limit);
    var filled, rest := outcome.st, outcome.rest;
    Runs.FillSays(st, filled, limit, channel);
    assert forall id :: id in filled.subs <==> id in st.subs by {
      assert forall id :: id in filled.subs.Keys <==> id in st.subs.Keys;
    }
    if rest != [] {
      SubscribeGrows(filled, channel, rest, ids);
      Subs.ExtendsFurther(st, filled, Subs.Subscribed(filled, channel, rest, limit, ids));
    }
  }

  ghost predicate AllOrdered(st: Subs.SubState) {
    forall id | id in st.subs :: id in st.order
  }

  lemma ShardInOrder(st: Subs.SubState, channel: Channel, markets: seq<Ticker>, ids: Subs.NewIds)
    requires AllOrdered(st)
    ensures var mid := Subs.WithSub(st, channel, markets, ids);
      mid.subs.Keys == st.subs.Keys + {ids.stream} && AllOrdered(mid)
  {
    var mid := Subs.WithSub(st, channel, markets, ids);
    assert mid.order == st.order + [ids.stream];
    assert mid.order[|st.order|] == ids.stream;
    forall id | id in mid.subs ensures id in mid.order {
      if id in st.subs {
        var k :| 0 <= k < |st.order| && st.order[k] == id;
        assert mid.order[k] == id;
      }
    }
  }

  lemma {:induction false} ShardsInOrder(st: Subs.SubState, channel: Channel, slices: seq<seq<Ticker>>,
      ids: seq<Subs.NewIds>)
    requires |ids| >= |slices| && AllOrdered(st)
    ensures AllOrdered(Subs.WithShards(st, channel, slices, ids))
    ensures var st' := Subs.WithShards(st, channel, slices, ids);
      (forall id | id in st'.subs && id !in st.subs :: IsAmong(ids, id))
    decreases |slices|
  {
    if slices != [] {
      var mid := Subs.WithSub(st, channel, slices[0], ids[0]);
      ShardInOrder(st, channel, slices[0], ids[0]);
      hide Subs.WithSub, AllOrdered;
      ShardsInOrder(mid, channel, slices[1..], ids[1..]);
      var st' := Subs.WithShards(st, channel, slices, ids);
      assert st' == Subs.WithShards(mid, channel, slices[1..], ids[1..]);
      hide Subs.WithShards;
      forall id | id in st'.subs && id !in st.subs ensures IsAmong(ids, id) {
        if id in mid.subs {
          assert ids[0].stream == id;
        } else {
          var i :| 0 <= i < |ids[1..]| && ids[1..][i].stream == id;
          assert ids[i + 1].stream == id;
        }
      }
    }
  }

  ghost predicate IsAmong(ids: seq<Subs.NewIds>, id: StreamId) {
    exists i :: 0 <= i < |ids| && ids[i].stream == id
  }

  lemma ReapStaysCoupled(st: State, nowMs: int)
    requires Coupled(st)
    ensures Coupled(st.(machine := Reaped(st.machine, nowMs, RECOVERY_TIMEOUT_MS)))
  {
    var gone := Expired(st.machine, nowMs, RECOVERY_TIMEOUT_MS);
    var m := Reaped(st.machine, nowMs, RECOVERY_TIMEOUT_MS);
    forall id ensures PhaseOf(m, id) == if id in gone then Degraded else PhaseOf(st.machine, id) {
    }
    assert forall id | id in gone :: PhaseOf(st.machine, id) == Recovering;
    forall id | id in m.episodes
      ensures id in st.machine.episodes && m.episodes[id] == st.machine.episodes[id] && id !in gone
    {
    }
  }

  lemma {:induction false} ClosedAllEmpties(tracker: Streams, ids: seq<StreamId>)
    ensures forall id :: id in ClosedAll(tracker, ids) <==> id in tracker && id !in ids
  {
    if ids != [] {
      ClosedAllEmpties(tracker, ids[..|ids| - 1]);
      assert ids == ids[..|ids| - 1] + [ids[|ids| - 1]];
    }
  }

  lemma DisconnectStaysCoupled(st: State)
    requires Coupled(st)
    ensures Coupled(AfterDisconnect(st)) && AfterDisconnect(st).tracker == map[]
  {
    ClosedAllEmpties(st.tracker, st.subs.order);
    var tracker' := ClosedAll(st.tracker, st.subs.order);
    assert forall id :: id !in tracker';
    assert tracker' == map[];
    assert forall id :: PhaseOf(EMPTY_MACHINE, id) == Healthy;
  }

  /** Every live stream id has been used. */
  ghost predicate IdsUsed(r: Recording) {
    forall id | id in r.st.subs.subs :: id in r.used
  }

  /** The recording once new streams, already known to the subscriptions, are registered. */
  function Opened(r: Recording, subs: Subs.SubState, channel: Channel, slices: seq<seq<Ticker>>,
                  ids: seq<Subs.NewIds>): Recording
    requires |slices| <= |ids|
  {
    r.(st := WithShardsOpen(r.st.(subs := subs), channel, slices, ids, |slices|), used := r.used + StreamIds(ids))
  }

  /** What opening streams needs. */
  ghost predicate MayOpen(r: Recording, subs: Subs.SubState, slices: seq<seq<Ticker>>, ids: seq<Subs.NewIds>) {
    Coupled(r.st) && IdsUsed(r) && UnusedIds(r.used, ids) && Grows(r.st.subs, subs, ids, |slices|)
  }

  lemma SubscribeMayOpen(r: Recording, channel: Channel, markets: seq<Ticker>, ids: seq<Subs.NewIds>)
    requires Coupled(r.st) && IdsUsed(r) && EnoughIds(markets, ids) && UnusedIds(r.used, ids)
    ensures var subs := Subs.Subscribed(r.st.subs, channel, markets, MARKETS_PER_SUBSCRIPTION, ids);
      var slices := Subs.Slices(markets, MARKETS_PER_SUBSCRIPTION);
      && MayOpen(r, subs, slices, ids)
      && Step(r, SubscribeEvent(channel, markets, ids)) == Opened(r, subs, channel, slices, ids)
  {
    hide Subs.SubsOk, Subs.Subscribed, Subs.Slices, WithShardsOpen, EpisodesOk, Agree, CarriedOnce;
    UnusedAreFresh(r, ids);
    SubscribeGrows(r.st.subs, channel, markets, ids);
  }

  lemma AddMayOpen(r: Recording, channel: Channel, markets: seq<Ticker>, ids: seq<Subs.NewIds>)
    requires Coupled(r.st) && IdsUsed(r) && EnoughIdsToAdd(r.st.subs, channel, markets, ids) && UnusedIds(r.used, ids)
    requires r.st.subs.order != []
    ensures var subs := Subs.Added(r.st.subs, channel, markets, MARKETS_PER_SUBSCRIPTION, ids);
      var slices := Unassociated(Subs.NewShards(r.st.subs, channel, markets, MARKETS_PER_SUBSCRIPTION));
      && MayOpen(r, subs, slices, ids)
      && Step(r, AddEvent(channel, markets, ids)) == Opened(r, subs, channel, slices, ids)
  {
    hide Subs.SubsOk, Subs.Added, Subs.Slices, Subs.NewShards, Subs.Leftover, WithShardsOpen, EpisodesOk, Agree,
        CarriedOnce, Unassociated;
    UnusedAreFresh(r, ids);
    AddGrows(r.st.subs, channel, markets, ids);
  }

  lemma UnusedAreFresh(r: Recording, ids: seq<Subs.NewIds>)
    requires IdsUsed(r) && UnusedIds(r.used, ids)
    ensures Subs.FreshIds(r.st.subs, ids)
  {
  }

  lemma OpenedStaysCoupled(r: Recording, subs: Subs.SubState, channel: Channel, slices: seq<seq<Ticker>>,
                           ids: seq<Subs.NewIds>)
    requires MayOpen(r, subs, slices, ids)
    ensures var r' := Opened(r, subs, channel, slices, ids); Coupled(r'.st) && IdsUsed(r')
  {
    hide Subs.SubsOk, EpisodesOk, Agree, CarriedOnce, WithShardsOpen;
    KnownStay(r.st.subs, subs);
    OpeningStaysCoupled(r.st.(subs := subs), channel, slices, ids, |slices|);
    forall id | id in subs.subs ensures id in r.used + StreamIds(ids) {
      if id !in r.st.subs.subs {
        var i :| 0 <= i < |ids| && ids[i].stream == id;
      }
    }
  }

  lemma KnownStay(st: Subs.SubState, st': Subs.SubState)
    requires Subs.Extends(st, st')
    ensures forall id | id in st.subs :: id in st'.subs
  {
    forall id | id in st.subs ensures id in st'.subs {
      assert id in st.subs.Keys && id in st'.subs.Keys;
    }
  }

  lemma {:induction false} DistinctWithout(ts: seq<Ticker>, t: Ticker)
    requires Subs.Distinct(ts)
    ensures Subs.Distinct(WithoutTicker(ts, t))
  {
    if ts != [] {
      var init := ts[..|ts| - 1];
      DistinctWithout(init, t);
      WithoutTickerIs(init, t);
      var kept := WithoutTicker(init, t);
      forall i | 0 <= i < |kept| ensures kept[i] != ts[|ts| - 1] {
        assert kept[i] in init;
      }
    }
  }

  lemma {:induction false} ForgettingCarriesOnce(s: Shelf, ts: seq<Ticker>)
    requires CarriedOnce(s)
    ensures CarriedOnce(ForgottenAll(s, ts))
  {
    if ts != [] {
      ForgettingCarriesOnce(s, ts[..|ts| - 1]);
      var mid := ForgottenAll(s, ts[..|ts| - 1]);
      forall id | id in mid.carried ensures Subs.Distinct(WithoutTicker(mid.carried[id], ts[|ts| - 1])) {
        DistinctWithout(mid.carried[id], ts[|ts| - 1]);
      }
    }
  }

  ghost predicate Spared(drops: seq<(Ticker, StreamId)>, t: Ticker) {
    forall k | 0 <= k < |drops| :: drops[k].0 != t
  }

  /** Taking markets off subscriptions keeps the subscriptions, and what else they carry. */
  ghost predicate DropsOnly(st: Subs.SubState, st': Subs.SubState, drops: seq<(Ticker, StreamId)>) {
    && Subs.SubsOk(st') && st'.subs.Keys == st.subs.Keys && st'.order == st.order && st'.bySid == st.bySid
    && (forall id | id in st.subs :: id in st'.subs && st'.subs[id].channel == st.subs[id].channel)
    && (forall id, t, c :: Subs.Carries(st', id, t, c) ==> Subs.Carries(st, id, t, c))
    && (forall id, t, c | Subs.Carries(st, id, t, c) && Spared(drops, t) :: Subs.Carries(st', id, t, c))
  }

  lemma {:induction false} DroppingKeepsSubs(st: Subs.SubState, drops: seq<(Ticker, StreamId)>)
    requires Subs.SubsOk(st)
    ensures DropsOnly(st, Subs.DroppedAll(st, drops), drops)
  {
    if drops != [] {
      var init, last := Subs.DroppedAll(st, drops[..|drops| - 1]), drops[|drops| - 1];
      DroppingKeepsSubs(st, drops[..|drops| - 1]);
      if last.1 in init.subs {
        Subs.DropKeepsIndex(init, last.0, last.1);
        DroppedOne(st, init, Subs.Dropped(init, last.0, last.1), drops);
      } else {
        DroppedNone(st, init, drops);
      }
    }
  }

  lemma DroppedOne(st: Subs.SubState, init: Subs.SubState, st': Subs.SubState, drops: seq<(Ticker, StreamId)>)
    requires drops != [] && DropsOnly(st, init, drops[..|drops| - 1])
    requires var last := drops[|drops| - 1];
      && last.1 in init.subs && st' == Subs.Dropped(init, last.0, last.1)
      && Subs.SubsOk(st') && st'.subs.Keys == init.subs.Keys && st'.order == init.order
      && (forall i, t, c ::
            Subs.Carries(st', i, t, c) <==> Subs.Carries(init, i, t, c) && !(i == last.1 && t == last.0))
    ensures DropsOnly(st, st', drops)
  {
    hide Subs.SubsOk;
    forall id | id in st.subs ensures id in st'.subs && st'.subs[id].channel == st.subs[id].channel {
      assert id in init.subs;
    }
    hide Subs.Carries, Subs.Dropped;
    forall id, t, c | Subs.Carries(st, id, t, c) && Spared(drops, t) ensures Subs.Carries(st', id, t, c) {
      assert Spared(drops[..|drops| - 1], t);
      assert Subs.Carries(init, id, t, c);
    }
  }

  lemma DroppedNone(st: Subs.SubState, init: Subs.SubState, drops: seq<(Ticker, StreamId)>)
    requires drops != [] && DropsOnly(st, init, drops[..|drops| - 1])
    ensures DropsOnly(st, init, drops)
  {
    hide Subs.SubsOk, Subs.Carries;
    forall id, t, c | Subs.Carries(st, id, t, c) && Spared(drops, t) ensures Subs.Carries(init, id, t, c) {
      assert Spared(drops[..|drops| - 1], t);
    }
  }

  lemma RemoveStaysCoupled(r: Recording, markets: seq<Ticker>, drops: seq<(Ticker, StreamId)>)
    requires Coupled(r.st) && IdsUsed(r)
    ensures var r' := Step(r, RemoveEvent(markets, drops)); Coupled(r'.st) && IdsUsed(r')
  {
    hide Subs.SubsOk, EpisodesOk, Agree, CarriedOnce, ForgottenAll, Subs.DroppedAll;
    DroppingKeepsSubs(r.st.subs, drops);
    ForgettingCarriesOnce(r.st.shelf, markets);
    var subs' := Subs.DroppedAll(r.st.subs, drops);
    assert forall id :: id in subs'.subs <==> id in r.st.subs.subs by {
      assert forall id :: id in subs'.subs.Keys <==> id in r.st.subs.subs.Keys;
    }
  }

  lemma BindStaysCoupled(st: State, command: Option<int>, sid: int, channel: Channel)
    requires Coupled(st)
    ensures var subs' := Subs.Bound(st.subs, command, sid, channel);
      Coupled(st.(subs := subs')) && subs'.subs.Keys == st.subs.subs.Keys
  {
    Subs.BindKeepsAll(st.subs, command, sid, channel);
    var subs' := Subs.Bound(st.subs, command, sid, channel);
    assert subs'.order == st.subs.order;
    forall id | id in subs'.subs ensures id in st.subs.subs {
      assert id in subs'.subs.Keys;
    }
    forall id | id in st.tracker ensures id in subs'.subs {
      assert id in st.subs.subs.Keys;
    }
  }

  lemma HandledKeepsSubs(st: State, f: Frame, session: SessionId)
    ensures Handled(st, f, session).st.subs == st.subs
  {
  }

  lemma StepStaysCoupled(r: Recording, e: Event)
    requires Coupled(r.st) && IdsUsed(r) && Fresh(r, e)
    ensures Coupled(Step(r, e).st) && IdsUsed(Step(r, e))
  {
    hide Coupled, Handled;
    match e
    case SubscribeEvent(channel, markets, ids) =>
      if EnoughIds(markets, ids) {
        SubscribeMayOpen(r, channel, markets, ids);
        OpenedStaysCoupled(r, Subs.Subscribed(r.st.subs, channel, markets, MARKETS_PER_SUBSCRIPTION, ids), channel,
                           Subs.Slices(markets, MARKETS_PER_SUBSCRIPTION), ids);
      }
    case AddEvent(channel, markets, ids) =>
      if EnoughIdsToAdd(r.st.subs, channel, markets, ids) && r.st.subs.order != [] {
        AddMayOpen(r, channel, markets, ids);
        OpenedStaysCoupled(r, Subs.Added(r.st.subs, channel, markets, MARKETS_PER_SUBSCRIPTION, ids), channel,
                           Unassociated(Subs.NewShards(r.st.subs, channel, markets, MARKETS_PER_SUBSCRIPTION)), ids);
      }
    case RemoveEvent(markets, drops) =>
      RemoveStaysCoupled(r, markets, drops);
    case BindEvent(command, sid, channel) =>
      BindStaysCoupled(r.st, command, sid, channel);
      var subs' := Subs.Bound(r.st.subs, command, sid, channel);
      forall id | id in subs'.subs ensures id in r.used {
        assert id in subs'.subs.Keys && id in r.st.subs.subs;
      }
    case FrameEvent(f) =>
      FrameStaysCoupled(r.st, f, r.session);
      HandledKeepsSubs(r.st, f, r.session);
    case ReapEvent(now) =>
      ReapStaysCoupled(r.st, now);
    case SampleEvent(_, _) =>
    case DisconnectEvent =>
      DisconnectStaysCoupled(r.st);
    case RestartEvent(_) =>
      InitialIsCoupled();
  }

  lemma InitialIsCoupled()
    ensures Coupled(INITIAL_STATE)
  {
    assert forall id :: PhaseOf(EMPTY_MACHINE, id) == Healthy;
  }

  /**
   * In every reachable state the tracker is degraded exactly where the machine is not healthy,
   * and a recovering stream has an open episode still waiting for some of its markets.
   */
  lemma {:induction false} MachinesStayCoupled(start: SessionId, events: seq<Event>)
    requires FreshRun(start, events)
    ensures Coupled(Run(start, events).st) && IdsUsed(Run(start, events))
    decreases |events|
  {
    hide Coupled;
    if events == [] {
      InitialIsCoupled();
    } else {
      var init := events[..|events| - 1];
      FreshPrefix(start, events);
      MachinesStayCoupled(start, init);
      StepStaysCoupled(Run(start, init), events[|events| - 1]);
    }
  }

  /** While its stream is degraded, no delta reaches a book: the row says so and nothing moves. */
  lemma NoDeltaWhileDegraded(start: SessionId, events: seq<Event>, f: Frame)
    requires FreshRun(start, events) && f.payload.DeltaMsg?
    ensures var r := Run(start, events);
      var stream := StreamOf(r.st, f.sid);
      IsClassified(r.st, stream) && f.seqNo.Some? && IsDegraded(r.st.tracker, stream.value) ==>
        var e := Handled(r.st, f, r.session);
        && |e.rows| == 1 && e.rows[0].DeltaRow? && !e.rows[0].applied
        && BookOf(e.st.shelf, f.payload.ticker) == BookOf(r.st.shelf, f.payload.ticker)
        && (forall t | t != f.payload.ticker :: BookOf(e.st.shelf, t) == BookOf(r.st.shelf, t))
  {
    MachinesStayCoupled(start, events);
    var r := Run(start, events);
    var stream := StreamOf(r.st, f.sid);
    hide Run, Coupled;
    if IsClassified(r.st, stream) && f.seqNo.Some? && IsDegraded(r.st.tracker, stream.value) {
      WithheldWhileDegraded(r.st, stream.value, f);
      hide Classified, GateAt, GapRows;
    }
  }

  lemma WithheldWhileDegraded(st: State, id: StreamId, f: Frame)
    requires id in st.subs.subs && IsSequenced(st.subs.subs[id].channel) && IsDegraded(st.tracker, id)
    requires Coupled(st) && f.payload.DeltaMsg? && f.seqNo.Some?
    ensures !GateAt(st, id, f).allowed && GapRows(st, id, f) == [] && Classified(st, id, f).shelf == st.shelf
  {
    hide Coupled;
    assert ResultFor(st, id, f).verdict == WhileDegraded;
  }

  // ---------------------------------------------------------------------------
  // One discontinuity, one episode
  // ---------------------------------------------------------------------------

  /** A gap was reported on the stream and no recovery has completed since. */
  function OpenGap(marks: seq<Mark>, id: StreamId): bool {
    if marks == [] then false
    else
      var last := marks[|marks| - 1];
      if last == GapReported(id) then true
      else if last == Recovered(id) then false
      else OpenGap(marks[..|marks| - 1], id)
  }

  function CountMarks(marks: seq<Mark>, m: Mark): nat {
    if marks == [] then 0
    else CountMarks(marks[..|marks| - 1], m) + (if marks[|marks| - 1] == m then 1 else 0)
  }

  ghost predicate RecoveredBetween(marks: seq<Mark>, id: StreamId, i: int, j: int)
    requires 0 <= i < j < |marks|
  {
    exists k :: i < k < j && marks[k] == Recovered(id)
  }

  /** Any two gap reports on one stream have a completed recovery between them. */
  ghost predicate GapsSeparated(marks: seq<Mark>, id: StreamId) {
    forall i, j | 0 <= i < j < |marks| && marks[i] == GapReported(id) && marks[j] == GapReported(id) ::
      RecoveredBetween(marks, id, i, j)
  }

  ghost predicate NoMarks(marks: seq<Mark>, id: StreamId) {
    forall k | 0 <= k < |marks| :: marks[k] != GapReported(id) && marks[k] != Recovered(id)
  }

  lemma {:induction false} ClosedGapsRecovered(marks: seq<Mark>, id: StreamId, i: nat) returns (k: nat)
    requires !OpenGap(marks, id) && i < |marks| && marks[i] == GapReported(id)
    ensures i < k < |marks| && marks[k] == Recovered(id)
  {
    if marks[|marks| - 1] == Recovered(id) {
      k := |marks| - 1;
    } else {
      k := ClosedGapsRecovered(marks[..|marks| - 1], id, i);
    }
  }

  lemma OpenGapSnoc(marks: seq<Mark>, m: Mark, id: StreamId)
    ensures OpenGap(marks + [m], id) ==
      if m == GapReported(id) then true else if m == Recovered(id) then false else OpenGap(marks, id)
  {
    assert (marks + [m])[..|marks|] == marks;
  }

  lemma SeparatedSnoc(marks: seq<Mark>, m: Mark, id: StreamId)
    requires GapsSeparated(marks, id) && (m == GapReported(id) ==> !OpenGap(marks, id))
    ensures GapsSeparated(marks + [m], id)
  {
    var all := marks + [m];
    forall i, j | 0 <= i < j < |all| && all[i] == GapReported(id) && all[j] == GapReported(id)
      ensures RecoveredBetween(all, id, i, j)
    {
      if j < |marks| {
        assert RecoveredBetween(marks, id, i, j);
        var k :| i < k < j && marks[k] == Recovered(id);
        assert all[k] == Recovered(id);
      } else {
        var k := ClosedGapsRecovered(marks, id, i);
        assert all[k] == Recovered(id);
      }
    }
  }

  lemma {:induction false} NoMarksNoGap(marks: seq<Mark>, id: StreamId)
    requires NoMarks(marks, id)
    ensures !OpenGap(marks, id)
  {
    if marks != [] {
      NoMarksNoGap(marks[..|marks| - 1], id);
    }
  }

  /** The gap marks of live streams tell exactly which of them the tracker holds degraded. */
  ghost predicate MarksFit(r: Recording) {
    && (forall id | id in r.st.subs.subs :: OpenGap(r.marks, id) == IsDegraded(r.st.tracker, id))
    && (forall id | id !in r.used :: NoMarks(r.marks, id))
    && (forall id :: GapsSeparated(r.marks, id))
  }

  /** Only the last awaited snapshot of an episode makes its stream healthy again. */
  lemma DispatchDegrades(st: State, f: Frame, session: SessionId, stream: Option<StreamId>, g: Gate)
    requires Coupled(st)
    ensures var e := Dispatched(st, f, session, stream, g);
      && (e.completed ==>
            stream.Some? && !IsDegraded(e.st.tracker, stream.value) && IsDegraded(st.tracker, stream.value))
      && (!e.completed ==> e.st.tracker == st.tracker)
      && (forall id | Some(id) != stream :: IsDegraded(e.st.tracker, id) == IsDegraded(st.tracker, id))
  {
    if stream.Some? {
      OpenEpisodeIsTracked(st, stream.value);
      assert IsDegraded(st.tracker, stream.value) <==> PhaseOf(st.machine, stream.value) != Healthy;
      assert PhaseOf(st.machine, stream.value) == Recovering <==> stream.value in st.machine.episodes;
    }
  }

  lemma ClassifyDegrades(st: State, id: StreamId, f: Frame)
    requires Coupled(st) && id in st.subs.subs
    ensures var gap := ResultFor(st, id, f).verdict == Gap;
      && IsDegraded(Classified(st, id, f).tracker, id) == (IsDegraded(st.tracker, id) || gap)
      && (gap ==> !IsDegraded(st.tracker, id) && OpensEpisode(st, id, f))
      && (forall i | i != id :: IsDegraded(Classified(st, id, f).tracker, i) == IsDegraded(st.tracker, i))
  {
    assert IsDegraded(st.tracker, id) <==> PhaseOf(st.machine, id) != Healthy;
    assert PhaseOf(st.machine, id) == Recovering <==> id in st.machine.episodes;
  }

  /** Appending the marks of one frame. */
  lemma AppendMarks(marks: seq<Mark>, id: StreamId, gap: bool, requested: bool, completed: bool)
    requires gap ==> !OpenGap(marks, id)
    requires forall i :: GapsSeparated(marks, i)
    ensures var all := marks + ((if gap then [GapReported(id)] else [])
                                + (if requested then [SnapshotsRequested(id)] else [])
                                + (if completed then [Recovered(id)] else []));
      && (forall i :: GapsSeparated(all, i))
      && (OpenGap(all, id) == (!completed && (OpenGap(marks, id) || gap)))
      && (forall i | i != id :: OpenGap(all, i) == OpenGap(marks, i))
      && (forall i | i != id && NoMarks(marks, i) :: NoMarks(all, i))
  {
    var m1 := if gap then marks + [GapReported(id)] else marks;
    var m2 := if requested then m1 + [SnapshotsRequested(id)] else m1;
    var m3 := if completed then m2 + [Recovered(id)] else m2;
    assert m3 == marks + ((if gap then [GapReported(id)] else [])
                          + (if requested then [SnapshotsRequested(id)] else [])
                          + (if completed then [Recovered(id)] else []));
    forall i ensures GapsSeparated(m3, i)
                  && OpenGap(m3, i) == if i == id then !completed && (OpenGap(marks, id) || gap) else OpenGap(marks, i)
    {
      OpenGapSnoc(marks, GapReported(id), i);
      OpenGapSnoc(m1, SnapshotsRequested(id), i);
      OpenGapSnoc(m2, Recovered(id), i);
      if gap { SeparatedSnoc(marks, GapReported(id), i); }
      if requested { SeparatedSnoc(m1, SnapshotsRequested(id), i); }
      if completed { SeparatedSnoc(m2, Recovered(id), i); }
    }
  }

  /** How a frame changes which streams are degraded. */
  lemma FrameDegrades(st: State, f: Frame, session: SessionId)
    requires Coupled(st)
    ensures var e := Handled(st, f, session);
      var stream := StreamOf(st, f.sid);
      && (stream.None? ==> !e.completed && e.st.tracker == st.tracker)
      && (stream.Some? ==>
            (IsDegraded(e.st.tracker, stream.value)
             == (!e.completed && (IsDegraded(st.tracker, stream.value) || ReportsGap(st, f)))))
      && (ReportsGap(st, f) ==> !IsDegraded(st.tracker, stream.value) && stream.value !in st.machine.episodes)
      && (forall id | Some(id) != stream :: IsDegraded(e.st.tracker, id) == IsDegraded(st.tracker, id))
  {
    var stream := StreamOf(st, f.sid);
    if IsClassified(st, stream) {
      var id := stream.value;
      ClassifyDegrades(st, id, f);
      ClassifiedStaysCoupled(st, id, f);
      hide Coupled, Dispatched, Classified;
      DispatchDegrades(Classified(st, id, f), f, session, stream, GateAt(st, id, f));
    } else {
      hide Coupled, Dispatched;
      DispatchDegrades(st, f, session, stream, OPEN_GATE);
    }
  }

  lemma RequestsOnlyOnGaps(st: State, f: Frame)
    ensures RequestsRecovery(st, f) ==> ReportsGap(st, f)
    ensures ReportsGap(st, f) ==> StreamOf(st, f.sid).Some?
  {
  }

  lemma FrameKeepsMarks(r: Recording, f: Frame)
    requires Coupled(r.st) && IdsUsed(r) && MarksFit(r)
    ensures MarksFit(Step(r, FrameEvent(f)))
  {
    hide Handled, Coupled, ReportsGap, RequestsRecovery, GapsSeparated, OpenGap, NoMarks, IsDegraded;
    var e := Handled(r.st, f, r.session);
    var stream := StreamOf(r.st, f.sid);
    HandledKeepsSubs(r.st, f, r.session);
    FrameDegrades(r.st, f, r.session);
    RequestsOnlyOnGaps(r.st, f);
    var gap, requested := ReportsGap(r.st, f), RequestsRecovery(r.st, f);
    if stream.Some? {
      assert stream.value in r.st.subs.subs;
      AppendMarks(r.marks, stream.value, gap, requested, e.completed);
    } else {
      assert Step(r, FrameEvent(f)).marks == r.marks;
    }
  }

  lemma StepKeepsMarks(r: Recording, e: Event)
    requires Coupled(r.st) && IdsUsed(r) && MarksFit(r) && Fresh(r, e)
    ensures MarksFit(Step(r, e))
  {
    hide GapsSeparated, OpenGap, NoMarks;
    match e
    case FrameEvent(f) =>
      FrameKeepsMarks(r, f);
    case SubscribeEvent(channel, markets, ids) =>
      if EnoughIds(markets, ids) {
        SubscribeMayOpen(r, channel, markets, ids);
        hide MarksFit, Opened, MayOpen;
        OpenedKeepsMarks(r, Subs.Subscribed(r.st.subs, channel, markets, MARKETS_PER_SUBSCRIPTION, ids), channel,
                         Subs.Slices(markets, MARKETS_PER_SUBSCRIPTION), ids);
      }
    case AddEvent(channel, markets, ids) =>
      if EnoughIdsToAdd(r.st.subs, channel, markets, ids) && r.st.subs.order != [] {
        AddMayOpen(r, channel, markets, ids);
        hide MarksFit, Opened, MayOpen;
        OpenedKeepsMarks(r, Subs.Added(r.st.subs, channel, markets, MARKETS_PER_SUBSCRIPTION, ids), channel,
                         Unassociated(Subs.NewShards(r.st.subs, channel, markets, MARKETS_PER_SUBSCRIPTION)), ids);
      }
    case RemoveEvent(markets, drops) =>
      RemoveKeepsMarks(r, markets, drops);
    case BindEvent(command, sid, channel) =>
      BindStaysCoupled(r.st, command, sid, channel);
      var subs' := Subs.Bound(r.st.subs, command, sid, channel);
      forall id | id in subs'.subs ensures OpenGap(r.marks, id) == IsDegraded(r.st.tracker, id) {
        assert id in subs'.subs.Keys && id in r.st.subs.subs;
      }
    case ReapEvent(_) =>
    case SampleEvent(_, _) =>
    case DisconnectEvent =>
    case RestartEvent(_) =>
  }

  lemma OpenedKeepsMarks(r: Recording, subs: Subs.SubState, channel: Channel, slices: seq<seq<Ticker>>,
                         ids: seq<Subs.NewIds>)
    requires MayOpen(r, subs, slices, ids) && MarksFit(r)
    ensures MarksFit(Opened(r, subs, channel, slices, ids))
  {
    hide Subs.SubsOk, EpisodesOk, Agree, CarriedOnce, WithShardsOpen, GapsSeparated;
    KnownStay(r.st.subs, subs);
    var st := r.st.(subs := subs);
    OpeningStaysCoupled(st, channel, slices, ids, |slices|);
    var st' := WithShardsOpen(st, channel, slices, ids, |slices|);
    forall id | id in st'.subs.subs ensures OpenGap(r.marks, id) == IsDegraded(st'.tracker, id) {
      if id !in r.st.subs.subs {
        assert id !in st.tracker;
        var i :| 0 <= i < |ids| && ids[i].stream == id;
        NoMarksNoGap(r.marks, id);
      } else {
        assert id in st.tracker || id !in st.tracker;
      }
    }
  }

  lemma RemoveKeepsMarks(r: Recording, markets: seq<Ticker>, drops: seq<(Ticker, StreamId)>)
    requires Coupled(r.st) && MarksFit(r)
    ensures MarksFit(Step(r, RemoveEvent(markets, drops)))
  {
    hide Subs.SubsOk, ForgottenAll, Subs.DroppedAll, GapsSeparated;
    DroppingKeepsSubs(r.st.subs, drops);
    var subs' := Subs.DroppedAll(r.st.subs, drops);
    assert forall id :: id in subs'.subs <==> id in r.st.subs.subs by {
      assert forall id :: id in subs'.subs.Keys <==> id in r.st.subs.subs.Keys;
    }
  }

  /**
   * On one stream any two reported gaps have a completed recovery between them, so one
   * discontinuity is one episode; and a gap is only ever reported where no episode is open.
   */
  lemma {:induction false} OneDiscontinuityOneEpisode(start: SessionId, events: seq<Event>)
    requires FreshRun(start, events)
    ensures MarksFit(Run(start, events))
    ensures forall f: Frame :: ReportsGap(Run(start, events).st, f) ==>
      OpensEpisode(Run(start, events).st, StreamOf(Run(start, events).st, f.sid).value, f)
    decreases |events|
  {
    var r := Run(start, events);
    if events == [] {
    } else {
      var init := events[..|events| - 1];
      FreshPrefix(start, events);
      OneDiscontinuityOneEpisode(start, init);
      MachinesStayCoupled(start, init);
      StepKeepsMarks(Run(start, init), events[|events| - 1]);
    }
    MachinesStayCoupled(start, events);
    forall f: Frame | ReportsGap(r.st, f) ensures OpensEpisode(r.st, StreamOf(r.st, f.sid).value, f) {
      FrameDegrades(r.st, f, r.session);
    }
  }

  /** Gap-driven snapshot requests never outnumber reported gaps. */
  lemma {:induction false} RequestsNeverOutnumberGaps(start: SessionId, events: seq<Event>, id: StreamId)
    ensures var marks := Run(start, events).marks;
      CountMarks(marks, SnapshotsRequested(id)) <= CountMarks(marks, GapReported(id))
    decreases |events|
  {
    if events != [] {
      hide Step, CountMarks;
      var init, last := events[..|events| - 1], events[|events| - 1];
      RequestsNeverOutnumberGaps(start, init, id);
      var r := Run(start, init);
      MarksGrow(r, last);
      if last.FrameEvent? {
        var e := Handled(r.st, last.frame, r.session);
        hide Handled, MarksOf;
        RequestsAreReported(r.st, last.frame);
        var more := MarksOf(r.st, last.frame, e.completed);
        CountAppend(r.marks, more, SnapshotsRequested(id));
        CountAppend(r.marks, more, GapReported(id));
        CountFrameMarks(r.st, last.frame, e.completed, id);
      }
    }
  }

  /** Only frames leave marks. */
  lemma MarksGrow(r: Recording, e: Event)
    ensures Step(r, e).marks ==
      if e.FrameEvent? then r.marks + MarksOf(r.st, e.frame, Handled(r.st, e.frame, r.session).completed) else r.marks
  {
    hide AfterSubscribe, AfterAdd, AfterRemove, AfterDisconnect, Reaped, SampleRows, Subs.Bound, EnoughIdsToAdd;
    hide Handled, MarksOf;
  }

  lemma RequestsAreReported(st: State, f: Frame)
    ensures RequestsRecovery(st, f) ==> ReportsGap(st, f)
  {
  }

  lemma {:induction false} CountAppend(a: seq<Mark>, b: seq<Mark>, m: Mark)
    ensures CountMarks(a + b, m) == CountMarks(a, m) + CountMarks(b, m)
  {
    if b == [] {
      assert a + b == a;
    } else {
      CountAppend(a, b[..|b| - 1], m);
      assert (a + b)[..|a + b| - 1] == a + b[..|b| - 1];
    }
  }

  lemma CountFrameMarks(st: State, f: Frame, completed: bool, id: StreamId)
    requires RequestsRecovery(st, f) ==> ReportsGap(st, f)
    ensures var more := MarksOf(st, f, completed);
      CountMarks(more, SnapshotsRequested(id)) <= CountMarks(more, GapReported(id))
  {
    hide ReportsGap, RequestsRecovery;
    var at := StreamOrUnbound(StreamOf(st, f.sid));
    var g := if ReportsGap(st, f) then [GapReported(at)] else [];
    var q := if RequestsRecovery(st, f) then [SnapshotsRequested(at)] else [];
    var c := if completed then [Recovered(at)] else [];
    CountAppend(g + q, c, SnapshotsRequested(id));
    CountAppend(g + q, c, GapReported(id));
    CountAppend(g, q, SnapshotsRequested(id));
    CountAppend(g, q, GapReported(id));
  }
}
