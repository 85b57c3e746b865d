/** Driving collectors over any sequence of events: what whole runs are about is what the objects do. */
module Recorders {
  import opened Values
  import opened CanonicalForm
  import opened MarketBooks
  import opened BookManagement
  import opened SequenceTracking
  import opened RecoveryMachine
  import opened Collecting
  import opened Capture
  import Subs = Subscriptions

  const EVERY_CHANNEL := [OrderbookDelta, TickerChannel, Trade, Fill, Lifecycle, UserOrders, MarketPositions]

  /** The collector is where the run is. */
  ghost predicate IsAt(c: Collector, r: Recording)
    reads c, c.sequences, c.recovery, c.books, c.books.books.Values, c.subscriptions
  {
    && c.Valid() && c.View() == r.st && c.session == r.session
    && c.recovery.timeoutMs == RECOVERY_TIMEOUT_MS && c.subscriptions.limit == MARKETS_PER_SUBSCRIPTION
  }

  /** The same event, up to which markets were found on which streams when they left. */
  predicate SameCommand(a: Event, b: Event) {
    if a.RemoveEvent? then b.RemoveEvent? && a.markets == b.markets else a == b
  }

  /** The stream ids the commands bring along, in order. */
  function IdsIn(commands: seq<Event>): seq<StreamId> {
    if commands == [] then []
    else IdsIn(commands[..|commands| - 1]) + IdsOf(commands[|commands| - 1])
  }

  function IdsOf(e: Event): seq<StreamId> {
    if e.SubscribeEvent? || e.AddEvent? then seq(|e.ids|, i requires 0 <= i < |e.ids| => e.ids[i].stream) else []
  }

  ghost predicate AllDifferent(ids: seq<StreamId>) {
    forall i, j | 0 <= i < j < |ids| :: ids[i] != ids[j]
  }

  /** Ids used so far are the ones brought along so far. */
  ghost predicate UsedFrom(r: Recording, ids: seq<StreamId>) {
    forall id | id in r.used :: id == UNBOUND_STREAM || id in ids
  }

  lemma CoupledSubs(st: State)
    requires Coupled(st)
    ensures Subs.SubsOk(st.subs)
  {
  }

  /** A subscription, skipped where the events carry too few ids for it. */
  method Subscribe(c: Collector, channel: Channel, markets: seq<Ticker>, ids: seq<Subs.NewIds>, ghost r: Recording)
    requires IsAt(c, r) && Coupled(r.st) && IdsUsed(r) && UnusedIds(r.used, ids)
    modifies c.sequences, c.recovery, c.books, c.subscriptions
    ensures IsAt(c, Step(r, SubscribeEvent(channel, markets, ids))) && c.books.books == old(c.books.books)
  {
    if EnoughIds(markets, ids) {
      UnusedAreFresh(r, ids);
      CoupledSubs(r.st);
      assert c.subscriptions.View() == r.st.subs;
      hide Coupled, AfterSubscribe, Collector.Valid, Collector.View, Subs.FreshIds, Subs.SubsOk;
      c.SubscribeChannel(channel, markets, ids);
    }
  }

  /** Markets join, skipped where the events carry too few ids for them. */
  method Add(c: Collector, channel: Channel, markets: seq<Ticker>, ids: seq<Subs.NewIds>, ghost r: Recording)
    requires IsAt(c, r) && Coupled(r.st) && IdsUsed(r) && UnusedIds(r.used, ids)
    modifies c.sequences, c.recovery, c.books, c.subscriptions
    ensures IsAt(c, Step(r, AddEvent(channel, markets, ids))) && c.books.books == old(c.books.books)
  {
    if EnoughIdsToAdd(c.subscriptions.View(), channel, markets, ids) {
      UnusedAreFresh(r, ids);
      CoupledSubs(r.st);
      assert c.subscriptions.View() == r.st.subs;
      hide Coupled, AfterAdd, Collector.Valid, Collector.View, Subs.FreshIds, Subs.SubsOk;
      c.AddMarkets(channel, markets, ids);
    }
  }

  /** The events that write rows. */
  method Record(c: Collector, e: Event, ghost r: Recording) returns (rows: seq<Row>)
    requires IsAt(c, r) && Coupled(r.st) && (e.FrameEvent? || e.SampleEvent?)
    modifies c.sequences, c.recovery, c.books, c.books.books.Values
    ensures IsAt(c, Step(r, e)) && Step(r, e).rows == r.rows + rows
    ensures fresh(c.books.books.Values - old(c.books.books.Values))
  {
    CoupledSubs(r.st);
    assert c.subscriptions.View() == r.st.subs;
    hide Coupled, Handled, SampleOf, Collector.Valid, Collector.View, Subs.SubsOk;
    if e.FrameEvent? {
      rows := c.HandleFrame(e.frame);
    } else {
      rows := c.Sample(e.ticker, e.sampleMs);
    }
  }

  /** The events that change what is subscribed, awaited or trusted, and write no row. */
  method Obey(c: Collector, e: Event, ghost r: Recording) returns (ghost e': Event)
    requires IsAt(c, r) && Coupled(r.st) && IdsUsed(r) && Fresh(r, e)
    requires !e.FrameEvent? && !e.SampleEvent? && !e.RestartEvent?
    modifies c.sequences, c.recovery, c.books, c.books.books.Values, c.subscriptions
    ensures SameCommand(e, e') && Fresh(r, e')
    ensures IsAt(c, Step(r, e')) && Step(r, e').rows == r.rows
    ensures fresh(c.books.books.Values - old(c.books.books.Values))
  {
    CoupledSubs(r.st);
    assert c.subscriptions.View() == r.st.subs;
    hide Coupled, IdsUsed, AfterSubscribe, AfterAdd, AfterRemove, AfterDisconnect, Reaped, Subs.Bound;
    hide Collector.Valid, Collector.View, Subs.SubsOk;
    e' := e;
    match e {
      case SubscribeEvent(channel, markets, ids) => Subscribe(c, channel, markets, ids, r);
      case AddEvent(channel, markets, ids) => Add(c, channel, markets, ids, r);
      case RemoveEvent(markets, _) =>
        ghost var drops := c.RemoveMarkets(EVERY_CHANNEL, markets);
        e' := RemoveEvent(markets, drops);
      case BindEvent(command, sid, channel) => c.HandleSubscribed(command, sid, channel);
      case ReapEvent(now) => c.ReapStalledRecoveries(now);
      case DisconnectEvent => c.HandleDisconnect();
    }
  }

  /** One event reaches the collector, or a new one takes over. */
  method Act(c: Collector, e: Event, ghost r: Recording) returns (c': Collector, rows: seq<Row>, ghost e': Event)
    requires IsAt(c, r) && Coupled(r.st) && IdsUsed(r) && Fresh(r, e)
    modifies c.sequences, c.recovery, c.books, c.books.books.Values, c.subscriptions
    ensures SameCommand(e, e') && Fresh(r, e')
    ensures IsAt(c', Step(r, e')) && Step(r, e').rows == r.rows + rows
    ensures c' == c || fresh(c')
    ensures fresh(c'.books.books.Values - old(c.books.books.Values))
    ensures c' != c ==> fresh(c'.sequences) && fresh(c'.recovery) && fresh(c'.books) && fresh(c'.subscriptions)
  {
    hide Coupled, IdsUsed, Handled, AfterSubscribe, AfterAdd, AfterRemove, AfterDisconnect, Reaped, SampleOf;
    hide Collector.Valid, Collector.View, Subs.SubsOk, Subs.Bound;
    if e.RestartEvent? {
      c' := new Collector(e.session);
      rows, e' := [], e;
      assert r.rows + [] == r.rows;
    } else if e.FrameEvent? || e.SampleEvent? {
      rows := Record(c, e, r);
      c', e' := c, e;
    } else {
      e' := Obey(c, e, r);
      c', rows := c, [];
      assert r.rows + [] == r.rows;
    }
  }

  lemma UsedGrows(r: Recording, e: Event, ids: seq<StreamId>)
    requires UsedFrom(r, ids)
    ensures UsedFrom(Step(r, e), ids + IdsOf(e))
  {
    hide Handled, AfterSubscribe, AfterAdd, AfterRemove, AfterDisconnect, Reaped, SampleOf, Subs.Bound;
    var all, r' := ids + IdsOf(e), Step(r, e);
    forall id | id in r'.used ensures id == UNBOUND_STREAM || id in all {
      if id !in r.used {
        var i :| 0 <= i < |e.ids| && e.ids[i].stream == id;
        assert all[|ids| + i] == id;
      }
    }
  }

  lemma LaterIsNew(ids: seq<StreamId>, own: seq<StreamId>, i: nat)
    requires AllDifferent(ids + own) && i < |own|
    ensures own[i] !in ids
  {
    var all := ids + own;
    forall j | 0 <= j < |ids| ensures ids[j] != own[i] {
      assert all[j] == ids[j] && all[|ids| + i] == own[i];
    }
  }

  /** Ids that were not brought along before are unused. */
  lemma NextIsFresh(r: Recording, e: Event, ids: seq<StreamId>)
    requires UsedFrom(r, ids) && AllDifferent(ids + IdsOf(e)) && UNBOUND_STREAM !in ids + IdsOf(e)
    ensures Fresh(r, e)
  {
    if e.SubscribeEvent? || e.AddEvent? {
      var own, all := IdsOf(e), ids + IdsOf(e);
      forall i | 0 <= i < |e.ids| ensures e.ids[i].stream !in r.used {
        LaterIsNew(ids, own, i);
        assert own[i] == e.ids[i].stream && all[|ids| + i] == own[i];
      }
      forall i, j | 0 <= i < j < |e.ids| ensures e.ids[i].stream != e.ids[j].stream {
        assert all[|ids| + i] == e.ids[i].stream && all[|ids| + j] == e.ids[j].stream;
      }
    }
  }

  lemma {:induction false} IdsPrefix(commands: seq<Event>, n: nat)
    requires n <= |commands|
    ensures IdsIn(commands[..n]) <= IdsIn(commands)
  {
    if n == |commands| {
      assert commands[..n] == commands;
    } else {
      var init := commands[..|commands| - 1];
      IdsPrefix(init, n);
      assert init[..n] == commands[..n];
    }
  }

  lemma FirstAreDifferent(ids: seq<StreamId>, some: seq<StreamId>)
    requires some <= ids && AllDifferent(ids) && UNBOUND_STREAM !in ids
    ensures AllDifferent(some) && UNBOUND_STREAM !in some
  {
    assert forall i | 0 <= i < |some| :: some[i] == ids[i];
    forall x | x in some ensures x in ids {
      var i :| 0 <= i < |some| && some[i] == x;
      assert ids[i] == x;
    }
  }

  /**
   * A recorder driven by any events, whose stream ids are new each time, returns exactly the rows of a
   * run of those events.
   */
  method Drive(start: SessionId, commands: seq<Event>) returns (rows: seq<Row>, ghost events: seq<Event>)
    requires AllDifferent(IdsIn(commands)) && UNBOUND_STREAM !in IdsIn(commands)
    ensures |events| == |commands| && forall i | 0 <= i < |events| :: SameCommand(commands[i], events[i])
    ensures FreshRun(start, events) && rows == Run(start, events).rows
  {
    hide IsAt, Coupled, IdsUsed, Step, IdsOf;
    var c := new Collector(start);
    rows, events := [], [];
    BeginsAt(c, start);
    assert commands[..0] == [];
    for n := 0 to |commands|
      invariant c.books.books.Values !! {c} && fresh(c) && fresh(c.sequences) && fresh(c.recovery) && fresh(c.books)
      invariant fresh(c.subscriptions) && fresh(c.books.books.Values)
      invariant |events| == n && forall i | 0 <= i < n :: SameCommand(commands[i], events[i])
      invariant FreshRun(start, events) && IsAt(c, Run(start, events)) && rows == Run(start, events).rows
      invariant UsedFrom(Run(start, events), IdsIn(commands[..n]))
    {
      ghost var r := Run(start, events);
      assert commands[..n + 1][..n] == commands[..n];
      IdsPrefix(commands, n + 1);
      FirstAreDifferent(IdsIn(commands), IdsIn(commands[..n + 1]));
      NextIsFresh(r, commands[n], IdsIn(commands[..n]));
      MachinesStayCoupled(start, events);
      var c', more, e' := Act(c, commands[n], r);
      UsedGrows(r, e', IdsIn(commands[..n]));
      SameIds(commands[n], e');
      RunFreshOn(start, events, e');
      c, rows, events := c', rows + more, events + [e'];
    }
  }

  lemma BeginsAt(c: Collector, start: SessionId)
    requires c.Valid() && c.View() == INITIAL_STATE && c.session == start
    requires c.recovery.timeoutMs == RECOVERY_TIMEOUT_MS && c.subscriptions.limit == MARKETS_PER_SUBSCRIPTION
    ensures IsAt(c, Run(start, [])) && FreshRun(start, []) && Run(start, []).rows == [] && UsedFrom(Run(start, []), [])
  {
  }

  lemma SameIds(a: Event, b: Event)
    requires SameCommand(a, b)
    ensures IdsOf(a) == IdsOf(b)
  {
  }

  lemma RunFreshOn(start: SessionId, events: seq<Event>, e: Event)
    requires FreshRun(start, events) && Fresh(Run(start, events), e)
    ensures Run(start, events + [e]) == Step(Run(start, events), e) && FreshRun(start, events + [e])
  {
    hide Step, Fresh;
    var all := events + [e];
    assert all[..|events|] == events;
    forall k | 0 <= k < |all| ensures FreshAt(start, all, k) {
      if k < |events| {
        assert FreshAt(start, events, k);
        assert all[..k] == events[..k];
      }
    }
  }
}
