/** Whatever calls a subscription manager receives, its index stays exact. */
module SubscriptionRuns {
  import opened Values
  import opened SequenceTracking
  import opened Subscriptions

  datatype Call =
    | SubscribeCall(channel: Channel, markets: seq<Ticker>, ids: seq<NewIds>)
    | BindCall(command: Option<int>, sid: int, channel: Channel)
    | AddCall(channel: Channel, markets: seq<Ticker>, ids: seq<NewIds>)
    | RemoveCall(drops: seq<(Ticker, StreamId)>)
    | ResetCall

  function Called(st: SubState, call: Call, limit: int): SubState {
    match call
    case SubscribeCall(channel, markets, ids) =>
      if |ids| >= |Slices(markets, limit)| then Subscribed(st, channel, markets, limit, ids) else st
    case BindCall(command, sid, channel) => Bound(st, command, sid, channel)
    case AddCall(channel, markets, ids) =>
      if |ids| >= |Slices(Leftover(st, channel, markets, limit), limit)|
      then Added(st, channel, markets, limit, ids)
      else st
    case RemoveCall(drops) => DroppedAll(st, drops)
    case ResetCall => NO_SUBSCRIPTIONS
  }

  function AfterCalls(calls: seq<Call>, limit: int): SubState {
    if calls == [] then NO_SUBSCRIPTIONS
    else Called(AfterCalls(calls[..|calls| - 1], limit), calls[|calls| - 1], limit)
  }

  /** New streams get new ids. */
  ghost predicate FreshCall(st: SubState, call: Call) {
    (call.SubscribeCall? ==> FreshIds(st, call.ids)) && (call.AddCall? ==> FreshIds(st, call.ids))
  }

  /** On one channel: markets are named once, and subscribed only when nobody carries them. */
  ghost predicate FairCall(st: SubState, call: Call, c: Channel) {
    && (call.SubscribeCall? && call.channel == c ==>
          Distinct(call.markets) && forall m | m in call.markets :: NoCarrier(st, m, c))
    && (call.AddCall? && call.channel == c ==> Distinct(call.markets))
  }

  ghost predicate FreshCallAt(calls: seq<Call>, limit: int, k: nat)
    requires k < |calls|
  {
    FreshCall(AfterCalls(calls[..k], limit), calls[k])
  }

  ghost predicate FreshCalls(calls: seq<Call>, limit: int) {
    forall k | 0 <= k < |calls| :: FreshCallAt(calls, limit, k)
  }

  ghost predicate FairCallAt(calls: seq<Call>, limit: int, c: Channel, k: nat)
    requires k < |calls|
  {
    FairCall(AfterCalls(calls[..k], limit), calls[k], c)
  }

  ghost predicate FairCalls(calls: seq<Call>, limit: int, c: Channel) {
    forall k | 0 <= k < |calls| :: FairCallAt(calls, limit, c, k)
  }

  // ---------------------------------------------------------------------------
  // One call
  // ---------------------------------------------------------------------------

  ghost predicate SameCarriers(st: SubState, st': SubState, c: Channel) {
    forall id, m :: Carries(st', id, m, c) <==> Carries(st, id, m, c)
  }

  /** Filling subscriptions of one channel, whatever the markets. */
  ghost predicate FillKeeps(st: SubState, st': SubState, limit: int, channel: Channel) {
    && SubsOk(st') && Extends(st, st') && st'.subs.Keys == st.subs.Keys
    && (WithinLimit(st, limit) ==> WithinLimit(st', limit))
    && (forall c | c != channel :: SameCarriers(st, st', c))
  }

  lemma WidenKeeps(st: SubState, id: StreamId, take: seq<Ticker>, limit: int, channel: Channel)
    requires SubsOk(st) && id in st.subs && st.subs[id].channel == channel && |take| <= limit - |st.subs[id].markets|
    ensures FillKeeps(st, Widened(st, id, take), limit, channel)
  {
    WidenKeepsIndex(st, id, take);
    MarketSetSize(take);
    forall c | c != channel ensures SameCarriers(st, Widened(st, id, take), c) {
    }
  }

  lemma FillTransitive(a: SubState, b: SubState, d: SubState, limit: int, channel: Channel)
    requires FillKeeps(a, b, limit, channel) && FillKeeps(b, d, limit, channel)
    ensures FillKeeps(a, d, limit, channel)
  {
    forall id | id in a.subs
      ensures id in d.subs && d.subs[id].channel == a.subs[id].channel && d.subs[id].sid == a.subs[id].sid
           && a.subs[id].markets <= d.subs[id].markets
    {
      assert id in a.subs.Keys && id in b.subs.Keys && id in d.subs.Keys;
    }
    forall c | c != channel ensures SameCarriers(a, d, c) {
      assert SameCarriers(a, b, c) && SameCarriers(b, d, c);
    }
  }

  lemma {:induction false} FillingKeeps(st: SubState, ids: seq<StreamId>, remaining: seq<Ticker>, limit: int,
      channel: Channel)
    requires SubsOk(st) && OnChannel(st, ids, channel)
    ensures FillKeeps(st, Filled(st, ids, remaining, limit).st, limit, channel)
    decreases |ids|
  {
    hide SubsOk, Widened, Filled, OnChannel, FillKeeps;
    if ids == [] || remaining == [] {
      FilledNothing(st, ids, remaining, limit);
      NothingFilled(st, limit, channel);
    } else {
      var id := ids[0];
      FilledStep(st, ids, remaining, limit);
      OnChannelTail(st, ids, channel);
      if id !in st.subs || st.subs[id].sid.None? || limit - |st.subs[id].markets| <= 0 {
        FillingKeeps(st, ids[1..], remaining, limit, channel);
      } else {
        var n := Min(limit - |st.subs[id].markets|, |remaining|);
        var mid := Widened(st, id, remaining[..n]);
        WidenKeeps(st, id, remaining[..n], limit, channel);
        FillSays(st, mid, limit, channel);
        OnChannelKept(st, mid, ids[1..], channel);
        FillingKeeps(mid, ids[1..], remaining[n..], limit, channel);
        FillTransitive(st, mid, Filled(mid, ids[1..], remaining[n..], limit).st, limit, channel);
      }
    }
  }

  lemma NothingFilled(st: SubState, limit: int, channel: Channel)
    requires SubsOk(st)
    ensures FillKeeps(st, st, limit, channel)
  {
  }

  lemma FillSays(st: SubState, st': SubState, limit: int, channel: Channel)
    requires FillKeeps(st, st', limit, channel)
    ensures SubsOk(st') && Extends(st, st') && st'.subs.Keys == st.subs.Keys
  {
  }

  lemma {:induction false} SubscribingKeeps(st: SubState, channel: Channel, markets: seq<Ticker>, limit: int,
      ids: seq<NewIds>, c: Channel)
    requires SubsOk(st) && FreshIds(st, ids) && |ids| >= |Slices(markets, limit)| && limit > 0
    ensures var st' := Subscribed(st, channel, markets, limit, ids);
      && SubsOk(st') && (WithinLimit(st, limit) ==> WithinLimit(st', limit))
      && (c != channel && OneCarrierEach(st, c) ==> OneCarrierEach(st', c))
  {
    var slices := Slices(markets, limit);
    ShardsKeepIndex(st, channel, slices, ids);
    SlicesFit(markets, limit);
    if WithinLimit(st, limit) {
      ShardsKeepLimit(st, channel, slices, ids, limit);
    }
    if c != channel && OneCarrierEach(st, c) {
      ShardsKeepCarriers(st, channel, slices, ids, c);
    }
  }

  lemma SlicesFit(markets: seq<Ticker>, limit: int)
    requires limit > 0
    ensures forall k | 0 <= k < |Slices(markets, limit)| :: |Slices(markets, limit)[k]| <= limit
  {
  }

  lemma AddingKeeps(st: SubState, channel: Channel, markets: seq<Ticker>, limit: int, ids: seq<NewIds>, c: Channel)
    requires SubsOk(st) && FreshIds(st, ids) && limit > 0
    requires |ids| >= |Slices(Leftover(st, channel, markets, limit), limit)|
    ensures var st' := Added(st, channel, markets, limit, ids);
      && SubsOk(st') && (WithinLimit(st, limit) ==> WithinLimit(st', limit))
      && (c != channel && OneCarrierEach(st, c) ==> OneCarrierEach(st', c))
  {
    hide SubsOk, Filled, Subscribed, Slices, Uncarried;
    var list := ForChannel(st, st.order, channel);
    ForChannelAre(st, st.order, channel);
    var FillOutcome(filled, rest) := Filled(st, list, Uncarried(st, markets, channel), limit);
    FillingKeeps(st, list, Uncarried(st, markets, channel), limit, channel);
    if c != channel {
      assert SameCarriers(st, filled, c);
    }
    assert FreshIds(filled, ids) by {
      forall i | 0 <= i < |ids| ensures ids[i].stream !in filled.subs {
        assert ids[i].stream !in st.subs.Keys;
      }
    }
    if rest != [] {
      SubscribingKeeps(filled, channel, rest, limit, ids, c);
    }
  }

  lemma {:induction false} DroppingKeeps(st: SubState, drops: seq<(Ticker, StreamId)>, limit: int, c: Channel)
    requires SubsOk(st)
    ensures var st' := DroppedAll(st, drops);
      && SubsOk(st') && (WithinLimit(st, limit) ==> WithinLimit(st', limit))
      && (OneCarrierEach(st, c) ==> OneCarrierEach(st', c))
  {
    hide SubsOk, OneCarrierEach, WithinLimit;
    if drops != [] {
      var init, last := DroppedAll(st, drops[..|drops| - 1]), drops[|drops| - 1];
      DroppingKeeps(st, drops[..|drops| - 1], limit, c);
      if last.1 in init.subs {
        DropKeepsIndex(init, last.0, last.1);
        DropNarrows(init, last.0, last.1, limit, c);
      }
    }
  }

  lemma DropNarrows(st: SubState, m: Ticker, id: StreamId, limit: int, c: Channel)
    requires id in st.subs
    ensures WithinLimit(st, limit) ==> WithinLimit(Dropped(st, m, id), limit)
    ensures OneCarrierEach(st, c) ==> OneCarrierEach(Dropped(st, m, id), c)
  {
    var st' := Dropped(st, m, id);
    assert |st.subs[id].markets - {m}| <= |st.subs[id].markets|;
    assert forall i, t | Carries(st', i, t, c) :: Carries(st, i, t, c);
  }

  lemma BindKeepsLimit(st: SubState, command: Option<int>, sid: int, channel: Channel, limit: int)
    requires WithinLimit(st, limit)
    ensures WithinLimit(Bound(st, command, sid, channel), limit)
  {
  }

  lemma CallKeeps(st: SubState, call: Call, limit: int, c: Channel)
    requires SubsOk(st) && WithinLimit(st, limit) && limit > 0 && FreshCall(st, call)
    ensures SubsOk(Called(st, call, limit)) && WithinLimit(Called(st, call, limit), limit)
    ensures OneCarrierEach(st, c) && FairCall(st, call, c) ==> OneCarrierEach(Called(st, call, limit), c)
  {
    hide SubsOk, WithinLimit, OneCarrierEach, Added, Subscribed, Slices, Leftover;
    match call
    case SubscribeCall(channel, markets, ids) =>
      if |ids| >= |Slices(markets, limit)| {
        SubscribingKeeps(st, channel, markets, limit, ids, c);
        if c == channel && OneCarrierEach(st, c) && FairCall(st, call, c) {
          SubscribingCarriesOnce(st, channel, markets, limit, ids);
        }
      }
    case BindCall(command, sid, channel) =>
      BindKeepsAll(st, command, sid, channel);
      BindKeepsLimit(st, command, sid, channel, limit);
      SameCarriersOnce(st, Bound(st, command, sid, channel), c);
    case AddCall(channel, markets, ids) =>
      if |ids| >= |Slices(Leftover(st, channel, markets, limit), limit)| {
        AddingKeeps(st, channel, markets, limit, ids, c);
        if c == channel && OneCarrierEach(st, c) && FairCall(st, call, c) {
          AddingCarriesOnce(st, channel, markets, limit, ids);
        }
      }
    case RemoveCall(drops) =>
      DroppingKeeps(st, drops, limit, c);
    case ResetCall =>
      NothingSubscribed(limit, c);
  }

  lemma SameCarriersOnce(st: SubState, st': SubState, c: Channel)
    requires forall d, id, m :: Carries(st', id, m, d) <==> Carries(st, id, m, d)
    ensures OneCarrierEach(st, c) ==> OneCarrierEach(st', c)
  {
  }

  lemma NothingSubscribed(limit: int, c: Channel)
    ensures SubsOk(NO_SUBSCRIPTIONS) && WithinLimit(NO_SUBSCRIPTIONS, limit) && OneCarrierEach(NO_SUBSCRIPTIONS, c)
  {
  }

  lemma FreshCallsPrefix(calls: seq<Call>, limit: int)
    requires calls != [] && FreshCalls(calls, limit)
    ensures FreshCalls(calls[..|calls| - 1], limit)
    ensures FreshCall(AfterCalls(calls[..|calls| - 1], limit), calls[|calls| - 1])
  {
    var init := calls[..|calls| - 1];
    forall k | 0 <= k < |init| ensures FreshCallAt(init, limit, k) {
      assert FreshCallAt(calls, limit, k);
      assert init[..k] == calls[..k];
    }
    assert FreshCallAt(calls, limit, |calls| - 1);
  }

  lemma FairCallsPrefix(calls: seq<Call>, limit: int, c: Channel)
    requires calls != [] && FairCalls(calls, limit, c)
    ensures FairCalls(calls[..|calls| - 1], limit, c)
    ensures FairCall(AfterCalls(calls[..|calls| - 1], limit), calls[|calls| - 1], c)
  {
    var init := calls[..|calls| - 1];
    forall k | 0 <= k < |init| ensures FairCallAt(init, limit, c, k) {
      assert FairCallAt(calls, limit, c, k);
      assert init[..k] == calls[..k];
    }
    assert FairCallAt(calls, limit, c, |calls| - 1);
  }

  /**
   * After any calls the market index is exactly the inverse of the subscriptions' market sets, with
   * no empty entry, and no shard exceeds its limit.
   */
  lemma {:induction false} IndexIsAlwaysInverse(calls: seq<Call>, limit: int)
    requires limit > 0 && FreshCalls(calls, limit)
    ensures SubsOk(AfterCalls(calls, limit)) && WithinLimit(AfterCalls(calls, limit), limit)
  {
    hide SubsOk, WithinLimit, Called, FreshCall, FreshCalls, FairCall;
    if calls == [] {
      NothingSubscribed(limit, OrderbookDelta);
    } else {
      FreshCallsPrefix(calls, limit);
      IndexIsAlwaysInverse(calls[..|calls| - 1], limit);
      CallKeeps(AfterCalls(calls[..|calls| - 1], limit), calls[|calls| - 1], limit, OrderbookDelta);
    }
  }

  /** With markets named once per call and never subscribed twice, each has at most one carrier on the channel. */
  lemma {:induction false} MarketsAreCarriedOnce(calls: seq<Call>, limit: int, c: Channel)
    requires limit > 0 && FreshCalls(calls, limit) && FairCalls(calls, limit, c)
    ensures OneCarrierEach(AfterCalls(calls, limit), c)
  {
    hide SubsOk, WithinLimit, Called, FreshCall, FreshCalls, FairCall, FairCalls, OneCarrierEach;
    if calls == [] {
      NothingSubscribed(limit, c);
    } else {
      var init := calls[..|calls| - 1];
      FreshCallsPrefix(calls, limit);
      FairCallsPrefix(calls, limit, c);
      MarketsAreCarriedOnce(init, limit, c);
      IndexIsAlwaysInverse(init, limit);
      CallKeeps(AfterCalls(init, limit), calls[|calls| - 1], limit, c);
    }
  }
}
