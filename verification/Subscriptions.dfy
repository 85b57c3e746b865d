/** Subscriptions of one connection and their market index (src/collector/subscriptionManager.ts). */
module Subscriptions {
  import opened Values
  import opened SequenceTracking

  datatype Sub = Sub(channel: Channel, sid: Option<int>, markets: set<Ticker>, pending: Option<int>)

  /** `order` is the insertion order of the subscription map. */
  datatype SubState = SubState(
    order: seq<StreamId>,
    subs: map<StreamId, Sub>,
    bySid: map<int, StreamId>,
    byCommand: map<int, StreamId>,
    index: map<Ticker, set<StreamId>>)

  const NO_SUBSCRIPTIONS := SubState([], map[], map[], map[], map[])

  // ---------------------------------------------------------------------------
  // Specification
  // ---------------------------------------------------------------------------

  function IndexedUnder(st: SubState, m: Ticker): set<StreamId> {
    if m in st.index then st.index[m] else {}
  }

  /** Streams carrying a market on a channel. */
  function Carriers(st: SubState, m: Ticker, channel: Channel): set<StreamId> {
    set id | id in IndexedUnder(st, m) && id in st.subs && st.subs[id].channel == channel
  }

  function BoundCarriers(st: SubState, m: Ticker, channel: Channel): set<StreamId> {
    set id | id in Carriers(st, m, channel) && st.subs[id].sid.Some?
  }

  function Chunks<T>(items: seq<T>, size: int): (cs: seq<seq<T>>)
    ensures size > 0 ==> forall i | 0 <= i < |cs| :: 0 < |cs[i]| <= size
    decreases |items|
  {
    if size <= 0 then [items]
    else if items == [] then []
    else if |items| <= size then [items]
    else [items[..size]] + Chunks(items[size..], size)
  }

  /** A market list that is empty still subscribes once. */
  function Slices(markets: seq<Ticker>, limit: int): seq<seq<Ticker>> {
    if markets == [] then [[]] else Chunks(markets, limit)
  }

  function Indexed(index: map<Ticker, set<StreamId>>, slice: seq<Ticker>, id: StreamId): map<Ticker, set<StreamId>> {
    map m | m in index.Keys + MarketSet(slice) ::
      (if m in index then index[m] else {}) + (if m in slice then {id} else {})
  }

  function MarketSet(slice: seq<Ticker>): set<Ticker> {
    set m | m in slice
  }

  datatype NewIds = NewIds(stream: StreamId, command: int)

  function WithSub(st: SubState, channel: Channel, slice: seq<Ticker>, ids: NewIds): SubState {
    SubState(
      st.order + [ids.stream],
      st.subs[ids.stream := Sub(channel, None, MarketSet(slice), Some(ids.command))],
      st.bySid,
      st.byCommand[ids.command := ids.stream],
      Indexed(st.index, slice, ids.stream))
  }

  function WithShards(st: SubState, channel: Channel, slices: seq<seq<Ticker>>, ids: seq<NewIds>): SubState
    requires |ids| >= |slices|
    decreases |slices|
  {
    if slices == [] then st
    else WithShards(WithSub(st, channel, slices[0], ids[0]), channel, slices[1..], ids[1..])
  }

  function Subscribed(st: SubState, channel: Channel, markets: seq<Ticker>, limit: int, ids: seq<NewIds>): SubState
    requires |ids| >= |Slices(markets, limit)|
  {
    WithShards(st, channel, Slices(markets, limit), ids)
  }

  function ForChannel(st: SubState, order: seq<StreamId>, channel: Channel): seq<StreamId> {
    if order == [] then []
    else
      var id := order[0];
      (if id in st.subs && st.subs[id].channel == channel then [id] else []) + ForChannel(st, order[1..], channel)
  }

  function FirstUnbound(st: SubState, ids: seq<StreamId>): Option<StreamId> {
    if ids == [] then None
    else if ids[0] in st.subs && st.subs[ids[0]].sid.None? then Some(ids[0])
    else FirstUnbound(st, ids[1..])
  }

  /** The subscription a `subscribed` response is for. */
  function Awaiting(st: SubState, command: Option<int>, channel: Channel): Option<StreamId> {
    if command.Some? && command.value in st.byCommand && st.byCommand[command.value] in st.subs
    then Some(st.byCommand[command.value])
    else FirstUnbound(st, ForChannel(st, st.order, channel))
  }

  function Bound(st: SubState, command: Option<int>, sid: int, channel: Channel): SubState {
    match Awaiting(st, command, channel)
    case None => st
    case Some(id) =>
      if id !in st.subs then st
      else
        st.(subs := st.subs[id := st.subs[id].(sid := Some(sid), pending := None)],
            byCommand := if command.Some? then st.byCommand - {command.value} else st.byCommand,
            bySid := st.bySid[sid := id])
  }

  function Widened(st: SubState, id: StreamId, take: seq<Ticker>): SubState
    requires id in st.subs
  {
    st.(subs := st.subs[id := st.subs[id].(markets := st.subs[id].markets + MarketSet(take))],
        index := Indexed(st.index, take, id))
  }

  datatype FillOutcome = FillOutcome(st: SubState, rest: seq<Ticker>)

  /** Fills bound subscriptions up to the limit, in order; returns what did not fit. */
  function Filled(st: SubState, ids: seq<StreamId>, remaining: seq<Ticker>, limit: int): FillOutcome
    decreases |ids|
  {
    if ids == [] || remaining == [] then FillOutcome(st, remaining)
    else if ids[0] !in st.subs || st.subs[ids[0]].sid.None? then Filled(st, ids[1..], remaining, limit)
    else
      var capacity := limit - |st.subs[ids[0]].markets|;
      if capacity <= 0 then Filled(st, ids[1..], remaining, limit)
      else
        var n := Min(capacity, |remaining|);
        Filled(Widened(st, ids[0], remaining[..n]), ids[1..], remaining[n..], limit)
  }

  function Uncarried(st: SubState, markets: seq<Ticker>, channel: Channel): seq<Ticker> {
    if markets == [] then []
    else (if Carriers(st, markets[0], channel) == {} then [markets[0]] else []) + Uncarried(st, markets[1..], channel)
  }

  function Leftover(st: SubState, channel: Channel, markets: seq<Ticker>, limit: int): seq<Ticker> {
    Filled(st, ForChannel(st, st.order, channel), Uncarried(st, markets, channel), limit).rest
  }

  function Added(st: SubState, channel: Channel, markets: seq<Ticker>, limit: int, ids: seq<NewIds>): SubState
    requires |ids| >= |Slices(Leftover(st, channel, markets, limit), limit)|
  {
    var FillOutcome(filled, rest) := Filled(st, ForChannel(st, st.order, channel), Uncarried(st, markets, channel),
        limit);
    if rest == [] then filled else Subscribed(filled, channel, rest, limit, ids)
  }

  function Dropped(st: SubState, m: Ticker, id: StreamId): SubState
    requires id in st.subs
  {
    st.(subs := st.subs[id := st.subs[id].(markets := st.subs[id].markets - {m})],
        index := if IndexedUnder(st, m) - {id} == {} then st.index - {m} else st.index[m := IndexedUnder(st, m) - {id}])
  }

  /** Taking markets off subscriptions, pair by pair. */
  function DroppedAll(st: SubState, drops: seq<(Ticker, StreamId)>): SubState {
    if drops == [] then st
    else
      var init, last := DroppedAll(st, drops[..|drops| - 1]), drops[|drops| - 1];
      if last.1 in init.subs then Dropped(init, last.0, last.1) else init
  }

  lemma DropOneMore(st: SubState, drops: seq<(Ticker, StreamId)>, m: Ticker, id: StreamId)
    requires id in DroppedAll(st, drops).subs
    ensures DroppedAll(st, drops + [(m, id)]) == Dropped(DroppedAll(st, drops), m, id)
  {
    assert (drops + [(m, id)])[..|drops|] == drops;
  }

  /** How many (subscription, market) pairs a snapshot request names. */
  function RequestCount(st: SubState, markets: seq<Ticker>, channel: Channel): nat {
    if markets == [] then 0
    else RequestCount(st, markets[..|markets| - 1], channel) + |BoundCarriers(st, markets[|markets| - 1], channel)|
  }

  // ---------------------------------------------------------------------------
  // Invariants
  // ---------------------------------------------------------------------------

  /** The index is exactly the inverse of the market sets, with no empty entry. */
  ghost predicate IndexIsInverse(st: SubState) {
    && (forall m, id :: id in IndexedUnder(st, m) <==> id in st.subs && m in st.subs[id].markets)
    && (forall m | m in st.index :: st.index[m] != {})
  }

  ghost predicate WithinLimit(st: SubState, limit: int) {
    forall id | id in st.subs :: |st.subs[id].markets| <= limit
  }

  ghost predicate Carries(st: SubState, id: StreamId, m: Ticker, channel: Channel) {
    id in st.subs && st.subs[id].channel == channel && m in st.subs[id].markets
  }

  ghost predicate OneCarrierEach(st: SubState, channel: Channel) {
    forall m, a, b | Carries(st, a, m, channel) && Carries(st, b, m, channel) :: a == b
  }

  ghost predicate NoCarrier(st: SubState, m: Ticker, channel: Channel) {
    forall id | id in st.subs :: !Carries(st, id, m, channel)
  }

  ghost predicate Distinct<T(!new)>(s: seq<T>) {
    forall i, j | 0 <= i < j < |s| :: s[i] != s[j]
  }

  /** Stream ids are random UUIDs, so a new one is never in use. */
  ghost predicate FreshIds(st: SubState, ids: seq<NewIds>) {
    && (forall i | 0 <= i < |ids| :: ids[i].stream !in st.subs)
    && (forall i, j | 0 <= i < j < |ids| :: ids[i].stream != ids[j].stream)
  }

  /** Lookups by sid or command only ever name a live subscription. */
  ghost predicate LookupsLive(st: SubState) {
    && (forall sid | sid in st.bySid :: st.bySid[sid] in st.subs)
    && (forall c | c in st.byCommand :: st.byCommand[c] in st.subs)
  }

  /** Everything the manager keeps true between calls. */
  ghost predicate SubsOk(st: SubState) {
    IndexIsInverse(st) && LookupsLive(st)
  }

  /** The other subscriptions, and the sid bindings, are left as they were. */
  ghost predicate Extends(st: SubState, st': SubState) {
    st.subs.Keys <= st'.subs.Keys && st'.bySid == st.bySid
    && forall id | id in st.subs ::
         && st'.subs[id].channel == st.subs[id].channel
         && st'.subs[id].sid == st.subs[id].sid
         && st.subs[id].markets <= st'.subs[id].markets
  }

  lemma CarriersAre(st: SubState, m: Ticker, channel: Channel)
    requires IndexIsInverse(st)
    ensures forall id :: id in Carriers(st, m, channel) <==> Carries(st, id, m, channel)
    ensures Carriers(st, m, channel) == {} <==> NoCarrier(st, m, channel)
  {
    forall id ensures id in Carriers(st, m, channel) <==> Carries(st, id, m, channel) {
      assert id in IndexedUnder(st, m) <==> id in st.subs && m in st.subs[id].markets;
    }
    if Carriers(st, m, channel) != {} {
      var id := PickElement(Carriers(st, m, channel));
      assert Carries(st, id, m, channel);
    }
  }

  lemma {:induction false} MarketSetSize(slice: seq<Ticker>)
    ensures |MarketSet(slice)| <= |slice|
  {
    if slice == [] {
      assert MarketSet(slice) == {};
    } else {
      var init := slice[..|slice| - 1];
      MarketSetSize(init);
      assert MarketSet(slice) == MarketSet(init) + {slice[|slice| - 1]};
    }
  }

  lemma SubKeepsIndex(st: SubState, channel: Channel, slice: seq<Ticker>, ids: NewIds)
    requires SubsOk(st) && ids.stream !in st.subs
    ensures SubsOk(WithSub(st, channel, slice, ids))
  {
    var st' := WithSub(st, channel, slice, ids);
    forall m, id ensures id in IndexedUnder(st', m) <==> id in st'.subs && m in st'.subs[id].markets {
      assert id in IndexedUnder(st, m) <==> id in st.subs && m in st.subs[id].markets;
    }
    forall m | m in st'.index ensures st'.index[m] != {} {
      if m in st.index {
        assert st.index[m] != {};
      } else {
        assert ids.stream in st'.index[m];
      }
    }
  }

  lemma SubCarries(st: SubState, channel: Channel, slice: seq<Ticker>, ids: NewIds, id: StreamId, m: Ticker, c: Channel)
    requires ids.stream !in st.subs
    ensures Carries(WithSub(st, channel, slice, ids), id, m, c)
       <==> Carries(st, id, m, c) || (id == ids.stream && c == channel && m in slice)
  {
  }

  /** Opening one more shard of markets nobody carries yet. */
  lemma SubKeepsCarriers(st: SubState, channel: Channel, slice: seq<Ticker>, ids: NewIds, c: Channel)
    requires ids.stream !in st.subs && OneCarrierEach(st, c)
    requires c == channel ==> forall m | m in slice :: NoCarrier(st, m, channel)
    ensures OneCarrierEach(WithSub(st, channel, slice, ids), c)
  {
    var st' := WithSub(st, channel, slice, ids);
    forall m, a, b | Carries(st', a, m, c) && Carries(st', b, m, c) ensures a == b {
      SubCarries(st, channel, slice, ids, a, m, c);
      SubCarries(st, channel, slice, ids, b, m, c);
      if c == channel && m in slice {
        assert NoCarrier(st, m, channel);
        assert !Carries(st, a, m, c) && !Carries(st, b, m, c);
      }
    }
  }

  /** The markets of the slices, each listed once and carried by no one. */
  ghost predicate Unclaimed(st: SubState, slices: seq<seq<Ticker>>, channel: Channel) {
    && (forall k, m | 0 <= k < |slices| && m in slices[k] :: NoCarrier(st, m, channel))
    && (forall j, k, m | 0 <= j < k < |slices| && m in slices[j] :: m !in slices[k])
  }

  /** The stream ids used up by a run of shards. */
  function TakenIds(count: nat, ids: seq<NewIds>): (r: set<StreamId>)
    requires count <= |ids|
    ensures forall k | 0 <= k < count :: ids[k].stream in r
  {
    if count == 0 then {} else TakenIds(count - 1, ids[1..]) + {ids[0].stream}
  }

  lemma {:induction false} ShardsKeepIndex(st: SubState, channel: Channel, slices: seq<seq<Ticker>>, ids: seq<NewIds>)
    requires SubsOk(st) && FreshIds(st, ids) && |ids| >= |slices|
    ensures var st' := WithShards(st, channel, slices, ids);
      SubsOk(st') && Extends(st, st') && st'.subs.Keys == st.subs.Keys + TakenIds(|slices|, ids)
    decreases |slices|
  {
    hide SubsOk, IndexIsInverse, LookupsLive;
    if slices != [] {
      var mid := WithSub(st, channel, slices[0], ids[0]);
      SubKeepsIndex(st, channel, slices[0], ids[0]);
      FreshIdsLeft(st, channel, slices[0], ids);
      TakenOneMore(|slices|, ids);
      assert WithShards(st, channel, slices, ids) == WithShards(mid, channel, slices[1..], ids[1..]);
      hide WithSub, FreshIds, TakenIds, WithShards;
      ShardsKeepIndex(mid, channel, slices[1..], ids[1..]);
      hide Extends;
      ExtendsFurther(st, mid, WithShards(st, channel, slices, ids));
    }
  }

  lemma FreshIdsLeft(st: SubState, channel: Channel, slice: seq<Ticker>, ids: seq<NewIds>)
    requires FreshIds(st, ids) && ids != []
    ensures FreshIds(WithSub(st, channel, slice, ids[0]), ids[1..])
  {
  }

  lemma TakenOneMore(n: nat, ids: seq<NewIds>)
    requires 0 < n <= |ids|
    ensures TakenIds(n, ids) == {ids[0].stream} + TakenIds(n - 1, ids[1..])
  {
  }

  lemma ExtendsFurther(a: SubState, b: SubState, c: SubState)
    requires Extends(a, b) && Extends(b, c)
    ensures Extends(a, c)
  {
    forall id | id in a.subs
      ensures id in c.subs && c.subs[id].channel == a.subs[id].channel && c.subs[id].sid == a.subs[id].sid
           && a.subs[id].markets <= c.subs[id].markets
    {
      assert id in a.subs.Keys && id in b.subs.Keys && id in c.subs.Keys;
    }
  }

  lemma {:induction false} ShardsKeepLimit(
      st: SubState, channel: Channel, slices: seq<seq<Ticker>>, ids: seq<NewIds>, limit: int)
    requires FreshIds(st, ids) && |ids| >= |slices|
    requires WithinLimit(st, limit) && forall k | 0 <= k < |slices| :: |slices[k]| <= limit
    ensures WithinLimit(WithShards(st, channel, slices, ids), limit)
    decreases |slices|
  {
    if slices != [] {
      MarketSetSize(slices[0]);
      var mid := WithSub(st, channel, slices[0], ids[0]);
      assert WithinLimit(mid, limit);
      ShardsKeepLimit(mid, channel, slices[1..], ids[1..], limit);
    }
  }

  lemma {:induction false} ShardsKeepCarriers(
      st: SubState, channel: Channel, slices: seq<seq<Ticker>>, ids: seq<NewIds>, c: Channel)
    requires FreshIds(st, ids) && |ids| >= |slices|
    requires OneCarrierEach(st, c) && (c == channel ==> Unclaimed(st, slices, channel))
    ensures OneCarrierEach(WithShards(st, channel, slices, ids), c)
    decreases |slices|
  {
    if slices != [] {
      SubKeepsCarriers(st, channel, slices[0], ids[0], c);
      if c == channel {
        StillUnclaimed(st, channel, slices, ids[0]);
      }
      ShardsKeepCarriers(WithSub(st, channel, slices[0], ids[0]), channel, slices[1..], ids[1..], c);
    }
  }

  /** Every market of every slice ends up on the shard opened for that slice. */
  lemma {:induction false} ShardsCarryAll(
      st: SubState, channel: Channel, slices: seq<seq<Ticker>>, ids: seq<NewIds>, k: nat, m: Ticker)
    requires SubsOk(st) && FreshIds(st, ids) && |ids| >= |slices| && k < |slices| && m in slices[k]
    ensures Carries(WithShards(st, channel, slices, ids), ids[k].stream, m, channel)
    decreases |slices|
  {
    var mid := WithSub(st, channel, slices[0], ids[0]);
    SubKeepsIndex(st, channel, slices[0], ids[0]);
    if k == 0 {
      assert Carries(mid, ids[0].stream, m, channel);
      ShardsKeepIndex(mid, channel, slices[1..], ids[1..]);
    } else {
      ShardsCarryAll(mid, channel, slices[1..], ids[1..], k - 1, m);
    }
  }

  lemma StillUnclaimed(st: SubState, channel: Channel, slices: seq<seq<Ticker>>, ids: NewIds)
    requires slices != [] && ids.stream !in st.subs && Unclaimed(st, slices, channel)
    ensures Unclaimed(WithSub(st, channel, slices[0], ids), slices[1..], channel)
  {
    var mid := WithSub(st, channel, slices[0], ids);
    forall k, m | 0 <= k < |slices[1..]| && m in slices[1..][k] ensures NoCarrier(mid, m, channel) {
      assert m in slices[k + 1] && m !in slices[0];
      assert NoCarrier(st, m, channel);
      forall id | id in mid.subs ensures !Carries(mid, id, m, channel) {
        SubCarries(st, channel, slices[0], ids, id, m, channel);
      }
    }
    forall j, k, m | 0 <= j < k < |slices[1..]| && m in slices[1..][j] ensures m !in slices[1..][k] {
      assert slices[1..][j] == slices[j + 1] && slices[1..][k] == slices[k + 1];
    }
  }

  ghost predicate InSome(cs: seq<seq<Ticker>>, m: Ticker) {
    exists k :: 0 <= k < |cs| && m in cs[k]
  }

  /** Chunks of a list without repeats: nothing lost, nothing shared between two chunks. */
  lemma {:induction false} ChunksPartition(items: seq<Ticker>, size: int)
    requires Distinct(items)
    ensures forall k, m | 0 <= k < |Chunks(items, size)| && m in Chunks(items, size)[k] :: m in items
    ensures forall m | m in items :: InSome(Chunks(items, size), m)
    ensures forall j, k, m | 0 <= j < k < |Chunks(items, size)| && m in Chunks(items, size)[j] ::
              m !in Chunks(items, size)[k]
    decreases |items|
  {
    var cs := Chunks(items, size);
    if size <= 0 || items == [] || |items| <= size {
      forall m | m in items ensures InSome(cs, m) {
        assert m in cs[0];
      }
    } else {
      var head, tail := items[..size], items[size..];
      assert Distinct(tail);
      ChunksPartition(tail, size);
      var rest := Chunks(tail, size);
      assert cs == [head] + rest;
      forall k, m | 0 <= k < |cs| && m in cs[k] ensures m in items {
        if k > 0 {
          assert cs[k] == rest[k - 1];
          assert m in tail;
        }
      }
      forall m | m in items ensures InSome(cs, m) {
        if m in head {
          assert m in cs[0];
        } else {
          assert m in tail;
          assert InSome(rest, m);
          var k :| 0 <= k < |rest| && m in rest[k];
          assert m in cs[k + 1];
        }
      }
      forall j, k, m | 0 <= j < k < |cs| && m in cs[j] ensures m !in cs[k] {
        assert cs[k] == rest[k - 1];
        if j == 0 {
          var i :| 0 <= i < size && items[i] == m;
          assert forall t | 0 <= t < |tail| :: tail[t] == items[t + size] != m;
          assert m !in tail;
          assert m in rest[k - 1] ==> m in tail;
        } else {
          assert cs[j] == rest[j - 1];
        }
      }
    }
  }

  lemma SlicesAreUnclaimed(st: SubState, markets: seq<Ticker>, limit: int, channel: Channel)
    requires Distinct(markets) && forall m | m in markets :: NoCarrier(st, m, channel)
    ensures Unclaimed(st, Slices(markets, limit), channel)
    ensures forall m | m in markets :: InSome(Slices(markets, limit), m)
    ensures limit > 0 ==> forall k | 0 <= k < |Slices(markets, limit)| :: |Slices(markets, limit)[k]| <= limit
  {
    if markets != [] {
      ChunksPartition(markets, limit);
    }
  }

  /** Subscribing markets nobody carries: each ends up on exactly one subscription. */
  lemma SubscribingCarriesOnce(st: SubState, channel: Channel, markets: seq<Ticker>, limit: int, ids: seq<NewIds>)
    requires SubsOk(st) && FreshIds(st, ids) && |ids| >= |Slices(markets, limit)|
    requires OneCarrierEach(st, channel)
    requires Distinct(markets) && forall m | m in markets :: NoCarrier(st, m, channel)
    ensures var st' := Subscribed(st, channel, markets, limit, ids);
      && SubsOk(st') && Extends(st, st') && OneCarrierEach(st', channel)
      && (limit > 0 && WithinLimit(st, limit) ==> WithinLimit(st', limit))
      && (forall m | m in markets :: !NoCarrier(st', m, channel))
  {
    var slices := Slices(markets, limit);
    SlicesAreUnclaimed(st, markets, limit, channel);
    ShardsKeepIndex(st, channel, slices, ids);
    ShardsKeepCarriers(st, channel, slices, ids, channel);
    if limit > 0 && WithinLimit(st, limit) {
      ShardsKeepLimit(st, channel, slices, ids, limit);
    }
    forall m | m in markets ensures !NoCarrier(Subscribed(st, channel, markets, limit, ids), m, channel) {
      assert InSome(slices, m);
      var k :| 0 <= k < |slices| && m in slices[k];
      ShardsCarryAll(st, channel, slices, ids, k, m);
    }
  }

  lemma WidenKeepsIndex(st: SubState, id: StreamId, take: seq<Ticker>)
    requires SubsOk(st) && id in st.subs
    ensures SubsOk(Widened(st, id, take)) && Extends(st, Widened(st, id, take))
  {
    var st' := Widened(st, id, take);
    forall m, i ensures i in IndexedUnder(st', m) <==> i in st'.subs && m in st'.subs[i].markets {
      assert i in IndexedUnder(st, m) <==> i in st.subs && m in st.subs[i].markets;
    }
    forall m | m in st'.index ensures st'.index[m] != {} {
      if m in st.index {
        assert st.index[m] != {};
      } else {
        assert id in st'.index[m];
      }
    }
  }

  lemma WidenCarries(st: SubState, id: StreamId, take: seq<Ticker>, i: StreamId, m: Ticker, c: Channel)
    requires id in st.subs
    ensures Carries(Widened(st, id, take), i, m, c)
       <==> Carries(st, i, m, c) || (i == id && c == st.subs[id].channel && m in take)
  {
  }

  /** What adding markets to existing subscriptions keeps and what it achieves. */
  ghost predicate FillResult(st: SubState, remaining: seq<Ticker>, st': SubState, rest: seq<Ticker>, limit: int,
      channel: Channel) {
    && SubsOk(st') && Extends(st, st') && st'.subs.Keys == st.subs.Keys
    && OneCarrierEach(st', channel)
    && (WithinLimit(st, limit) ==> WithinLimit(st', limit))
    && Distinct(rest) && (forall m | m in rest :: m in remaining && NoCarrier(st', m, channel))
    && (forall m | m in remaining && m !in rest :: !NoCarrier(st', m, channel))
  }

  lemma {:induction false} FillingCarriesOnce(
      st: SubState, ids: seq<StreamId>, remaining: seq<Ticker>, limit: int, channel: Channel)
    requires SubsOk(st) && OneCarrierEach(st, channel)
    requires OnChannel(st, ids, channel)
    requires Distinct(remaining) && forall m | m in remaining :: NoCarrier(st, m, channel)
    ensures var FillOutcome(st', rest) := Filled(st, ids, remaining, limit);
      FillResult(st, remaining, st', rest, limit, channel)
    decreases |ids|
  {
    hide FillResult, SubsOk, OneCarrierEach, Distinct, NoCarrier, Widened, Filled, OnChannel;
    if ids == [] || remaining == [] {
      FillNone(st, ids, remaining, limit, channel);
    } else {
      var id := ids[0];
      FilledStep(st, ids, remaining, limit);
      OnChannelTail(st, ids, channel);
      if id !in st.subs || st.subs[id].sid.None? || limit - |st.subs[id].markets| <= 0 {
        FillingCarriesOnce(st, ids[1..], remaining, limit, channel);
      } else {
        var n := Min(limit - |st.subs[id].markets|, |remaining|);
        var mid := Widened(st, id, remaining[..n]);
        FillOne(st, id, remaining, n, limit, channel);
        OnChannelKept(st, mid, ids[1..], channel);
        FillingCarriesOnce(mid, ids[1..], remaining[n..], limit, channel);
        var FillOutcome(st', rest) := Filled(mid, ids[1..], remaining[n..], limit);
        FillTwice(st, id, remaining, n, mid, st', rest, limit, channel);
      }
    }
  }

  ghost predicate OnChannel(st: SubState, ids: seq<StreamId>, channel: Channel) {
    forall i | 0 <= i < |ids| :: ids[i] in st.subs ==> st.subs[ids[i]].channel == channel
  }

  lemma OnChannelTail(st: SubState, ids: seq<StreamId>, channel: Channel)
    requires OnChannel(st, ids, channel) && ids != []
    ensures OnChannel(st, ids[1..], channel)
    ensures ids[0] in st.subs ==> st.subs[ids[0]].channel == channel
  {
    assert forall i | 0 <= i < |ids[1..]| :: ids[1..][i] == ids[i + 1];
  }

  lemma OnChannelKept(st: SubState, mid: SubState, ids: seq<StreamId>, channel: Channel)
    requires OnChannel(st, ids, channel) && Extends(st, mid) && mid.subs.Keys == st.subs.Keys
    ensures OnChannel(mid, ids, channel)
  {
    forall i | 0 <= i < |ids| && ids[i] in mid.subs ensures mid.subs[ids[i]].channel == channel {
      assert ids[i] in mid.subs.Keys && ids[i] in st.subs.Keys;
      var id := ids[i];
      assert id in st.subs && st.subs[id].channel == channel;
      assert mid.subs[id].channel == st.subs[id].channel;
    }
  }

  lemma FilledStep(st: SubState, ids: seq<StreamId>, remaining: seq<Ticker>, limit: int)
    requires ids != [] && remaining != []
    ensures var id := ids[0];
      Filled(st, ids, remaining, limit) ==
        if id !in st.subs || st.subs[id].sid.None? || limit - |st.subs[id].markets| <= 0
        then Filled(st, ids[1..], remaining, limit)
        else
          var n := Min(limit - |st.subs[id].markets|, |remaining|);
          Filled(Widened(st, id, remaining[..n]), ids[1..], remaining[n..], limit)
  {
    hide Widened;
  }

  lemma FillNone(st: SubState, ids: seq<StreamId>, remaining: seq<Ticker>, limit: int, channel: Channel)
    requires ids == [] || remaining == []
    requires SubsOk(st) && OneCarrierEach(st, channel)
    requires Distinct(remaining) && forall m | m in remaining :: NoCarrier(st, m, channel)
    ensures Filled(st, ids, remaining, limit) == FillOutcome(st, remaining)
    ensures FillResult(st, remaining, st, remaining, limit, channel)
  {
  }

  lemma FillTwice(st: SubState, id: StreamId, remaining: seq<Ticker>, n: nat, mid: SubState, st': SubState,
                  rest: seq<Ticker>, limit: int, channel: Channel)
    requires id in st.subs && st.subs[id].channel == channel && n <= |remaining|
    requires mid == Widened(st, id, remaining[..n]) && Extends(st, mid)
    requires WithinLimit(st, limit) ==> WithinLimit(mid, limit)
    requires FillResult(mid, remaining[n..], st', rest, limit, channel)
    ensures FillResult(st, remaining, st', rest, limit, channel)
  {
    forall m | m in remaining && m !in rest ensures !NoCarrier(st', m, channel) {
      if m in remaining[..n] {
        assert Carries(mid, id, m, channel);
        assert Carries(st', id, m, channel);
      } else {
        assert remaining == remaining[..n] + remaining[n..];
        assert m in remaining[n..];
      }
    }
  }

  lemma FillOne(st: SubState, id: StreamId, remaining: seq<Ticker>, n: nat, limit: int, channel: Channel)
    requires SubsOk(st) && OneCarrierEach(st, channel) && id in st.subs && st.subs[id].channel == channel
    requires Distinct(remaining) && forall m | m in remaining :: NoCarrier(st, m, channel)
    requires n <= |remaining| && n <= limit - |st.subs[id].markets|
    ensures var mid := Widened(st, id, remaining[..n]);
      && SubsOk(mid) && Extends(st, mid) && mid.subs.Keys == st.subs.Keys && OneCarrierEach(mid, channel)
      && (WithinLimit(st, limit) ==> WithinLimit(mid, limit))
      && Distinct(remaining[n..]) && (forall m | m in remaining[n..] :: NoCarrier(mid, m, channel))
  {
    var take := remaining[..n];
    var mid := Widened(st, id, take);
    WidenKeepsIndex(st, id, take);
    MarketSetSize(take);
    forall m, a, b | Carries(mid, a, m, channel) && Carries(mid, b, m, channel) ensures a == b {
      WidenCarries(st, id, take, a, m, channel);
      WidenCarries(st, id, take, b, m, channel);
      if m in take {
        assert NoCarrier(st, m, channel);
        assert !Carries(st, a, m, channel) && !Carries(st, b, m, channel);
      }
    }
    forall m | m in remaining[n..] ensures NoCarrier(mid, m, channel) {
      assert NoCarrier(st, m, channel);
      var k :| 0 <= k < |remaining[n..]| && remaining[n..][k] == m;
      assert remaining[k + n] == m;
      assert m !in take;
      forall i | i in mid.subs ensures !Carries(mid, i, m, channel) {
        WidenCarries(st, id, take, i, m, channel);
      }
    }
  }

  lemma {:induction false} UncarriedAre(st: SubState, markets: seq<Ticker>, channel: Channel)
    requires IndexIsInverse(st)
    ensures forall m :: m in Uncarried(st, markets, channel) <==> m in markets && NoCarrier(st, m, channel)
    ensures Distinct(markets) ==> Distinct(Uncarried(st, markets, channel))
    decreases |markets|
  {
    if markets != [] {
      var tail := markets[1..];
      UncarriedAre(st, tail, channel);
      CarriersAre(st, markets[0], channel);
      assert markets == [markets[0]] + tail;
      if Distinct(markets) {
        assert Distinct(tail);
        assert markets[0] !in tail;
      }
    }
  }

  lemma {:induction false} ForChannelAre(st: SubState, order: seq<StreamId>, channel: Channel)
    ensures forall i | 0 <= i < |ForChannel(st, order, channel)| ::
      ForChannel(st, order, channel)[i] in st.subs && st.subs[ForChannel(st, order, channel)[i]].channel == channel
    decreases |order|
  {
    if order != [] {
      ForChannelAre(st, order[1..], channel);
    }
  }

  /**
   * Adding distinct markets leaves each requested market on exactly one subscription of the
   * channel, keeps the index exact and never overfills a shard.
   */
  lemma AddingCarriesOnce(st: SubState, channel: Channel, markets: seq<Ticker>, limit: int, ids: seq<NewIds>)
    requires SubsOk(st) && OneCarrierEach(st, channel) && Distinct(markets) && FreshIds(st, ids)
    requires |ids| >= |Slices(Leftover(st, channel, markets, limit), limit)|
    ensures var st' := Added(st, channel, markets, limit, ids);
      && SubsOk(st') && Extends(st, st') && OneCarrierEach(st', channel)
      && (limit > 0 && WithinLimit(st, limit) ==> WithinLimit(st', limit))
      && (forall m | m in markets :: !NoCarrier(st', m, channel))
  {
    var list := ForChannel(st, st.order, channel);
    var wanted := Uncarried(st, markets, channel);
    ForChannelAre(st, st.order, channel);
    UncarriedAre(st, markets, channel);
    FillingCarriesOnce(st, list, wanted, limit, channel);
    var FillOutcome(filled, rest) := Filled(st, list, wanted, limit);
    assert OnChannel(st, list, channel);
    hide Filled, Subscribed, IndexIsInverse, LookupsLive, OnChannel;
    var st' := Added(st, channel, markets, limit, ids);
    if rest != [] {
      SubscribingCarriesOnce(filled, channel, rest, limit, ids);
    }
    forall m | m in markets ensures !NoCarrier(st', m, channel) {
      if NoCarrier(st, m, channel) {
        assert m in wanted;
        if m !in rest {
          assert !NoCarrier(filled, m, channel);
          var id :| id in filled.subs && Carries(filled, id, m, channel);
          assert Carries(st', id, m, channel);
        }
      } else {
        var id :| id in st.subs && Carries(st, id, m, channel);
        assert Carries(filled, id, m, channel);
        assert Carries(st', id, m, channel);
      }
    }
  }

  lemma {:induction false} BindKeepsAll(st: SubState, command: Option<int>, sid: int, channel: Channel)
    requires SubsOk(st)
    ensures var st' := Bound(st, command, sid, channel);
      && SubsOk(st') && st'.subs.Keys == st.subs.Keys
      && (forall c, id, m :: Carries(st', id, m, c) <==> Carries(st, id, m, c))
  {
    var st' := Bound(st, command, sid, channel);
    forall m, id ensures id in IndexedUnder(st', m) <==> id in st'.subs && m in st'.subs[id].markets {
      assert id in IndexedUnder(st, m) <==> id in st.subs && m in st.subs[id].markets;
    }
    forall k | k in st'.bySid ensures st'.bySid[k] in st'.subs {
      assert k in st.bySid ==> st.bySid[k] in st.subs;
    }
  }

  lemma CarriedIsIndexed(st: SubState, m: Ticker, id: StreamId)
    requires IndexIsInverse(st) && id in st.subs && m in st.subs[id].markets
    ensures m in st.index
  {
    assert id in IndexedUnder(st, m);
  }

  lemma DropKeepsIndex(st: SubState, m: Ticker, id: StreamId)
    requires SubsOk(st) && id in st.subs
    ensures var st' := Dropped(st, m, id);
      && SubsOk(st') && st'.subs.Keys == st.subs.Keys && st'.order == st.order
      && (forall i, t, c :: Carries(st', i, t, c) <==> Carries(st, i, t, c) && !(i == id && t == m))
  {
    var st' := Dropped(st, m, id);
    forall t, i ensures i in IndexedUnder(st', t) <==> i in st'.subs && t in st'.subs[i].markets {
      assert i in IndexedUnder(st, t) <==> i in st.subs && t in st.subs[i].markets;
    }
  }

  datatype Request = Request(stream: StreamId, sid: int, market: Ticker)

  ghost predicate RequestFor(st: SubState, r: Request, channel: Channel) {
    Carries(st, r.stream, r.market, channel) && st.subs[r.stream].sid == Some(r.sid)
  }

  lemma CarrierIsAsked(st: SubState, id: StreamId, m: Ticker, channel: Channel)
    requires IndexIsInverse(st) && id in BoundCarriers(st, m, channel)
    ensures id in st.subs && st.subs[id].sid.Some? && RequestFor(st, Request(id, st.subs[id].sid.value, m), channel)
  {
    CarriersAre(st, m, channel);
  }

  /** No market is asked for twice. */
  ghost predicate AskedOnce(asked: seq<Request>) {
    forall i, j | 0 <= i < j < |asked| :: asked[i].market != asked[j].market
  }

  /** Every market asked for through every bound carrier; with one carrier each, once. */
  ghost predicate AskedFor(st: SubState, markets: seq<Ticker>, asked: seq<Request>, channel: Channel) {
    && |asked| == RequestCount(st, markets, channel)
    && (forall k | 0 <= k < |asked| :: asked[k].market in markets && RequestFor(st, asked[k], channel))
    && (OneCarrierEach(st, channel) && Distinct(markets) ==> AskedOnce(asked))
  }

  lemma NothingAsked(st: SubState, channel: Channel)
    ensures AskedFor(st, [], [], channel)
  {
  }

  lemma AskedNext(st: SubState, markets: seq<Ticker>, m: Ticker, past: seq<Request>, asked: seq<Request>,
                  channel: Channel)
    requires AskedFor(st, markets, past, channel)
    requires |asked| == |past| + |BoundCarriers(st, m, channel)| && asked[..|past|] == past
    requires forall k | |past| <= k < |asked| :: asked[k].market == m && RequestFor(st, asked[k], channel)
    requires OneCarrierEach(st, channel) ==> |asked| <= |past| + 1
    ensures AskedFor(st, markets + [m], asked, channel)
  {
    hide RequestFor, OneCarrierEach, BoundCarriers;
    var all := markets + [m];
    assert all[..|markets|] == markets;
    assert forall k | 0 <= k < |past| :: asked[k] == past[k];
    if Distinct(all) {
      assert Distinct(markets) by {
        assert forall i | 0 <= i < |markets| :: markets[i] == all[i];
      }
      assert m !in markets by {
        assert forall i | 0 <= i < |markets| :: all[i] != all[|markets|];
      }
    }
  }

  lemma AskedSays(st: SubState, markets: seq<Ticker>, asked: seq<Request>, channel: Channel)
    requires AskedFor(st, markets, asked, channel)
    ensures |asked| == RequestCount(st, markets, channel)
    ensures forall k | 0 <= k < |asked| :: asked[k].market in markets && RequestFor(st, asked[k], channel)
    ensures OneCarrierEach(st, channel) && Distinct(markets) ==> AskedOnce(asked)
  {
  }

  function AskedOf(asked: seq<Request>, sid: int): seq<Ticker> {
    if asked == [] then []
    else
      var last := asked[|asked| - 1];
      AskedOf(asked[..|asked| - 1], sid) + (if last.sid == sid then [last.market] else [])
  }

  /** The commands are the requests grouped by sid. */
  ghost predicate Grouped(asked: seq<Request>, commands: map<int, seq<Ticker>>) {
    && (forall sid | sid in commands :: commands[sid] == AskedOf(asked, sid))
    && (forall i | 0 <= i < |asked| :: asked[i].sid in commands)
  }

  function CountIn(asked: seq<Request>, sids: set<int>): nat {
    if asked == [] then 0
    else CountIn(asked[..|asked| - 1], sids) + (if asked[|asked| - 1].sid in sids then 1 else 0)
  }

  lemma GroupedNone()
    ensures Grouped([], map[])
  {
  }

  lemma GroupedMore(asked: seq<Request>, commands: map<int, seq<Ticker>>, r: Request)
    requires Grouped(asked, commands)
    ensures Grouped(asked + [r], commands[r.sid := (if r.sid in commands then commands[r.sid] else []) + [r.market]])
  {
    var more := commands[r.sid := (if r.sid in commands then commands[r.sid] else []) + [r.market]];
    assert (asked + [r])[..|asked|] == asked;
    if r.sid !in commands {
      NeverAsked(asked, r.sid);
    }
    forall sid | sid in more ensures more[sid] == AskedOf(asked + [r], sid) {
      assert sid != r.sid ==> sid in commands;
    }
  }

  lemma {:induction false} NeverAsked(asked: seq<Request>, sid: int)
    requires forall i | 0 <= i < |asked| :: asked[i].sid != sid
    ensures AskedOf(asked, sid) == []
  {
    if asked != [] {
      NeverAsked(asked[..|asked| - 1], sid);
    }
  }

  lemma {:induction false} AllCounted(asked: seq<Request>, sids: set<int>)
    requires forall i | 0 <= i < |asked| :: asked[i].sid in sids
    ensures CountIn(asked, sids) == |asked|
  {
    if asked != [] {
      AllCounted(asked[..|asked| - 1], sids);
    }
  }

  lemma {:induction false} NoneCounted(asked: seq<Request>)
    ensures CountIn(asked, {}) == 0
  {
    if asked != [] {
      NoneCounted(asked[..|asked| - 1]);
    }
  }

  lemma {:induction false} CountOut(asked: seq<Request>, sids: set<int>, sid: int)
    requires sid in sids
    ensures CountIn(asked, sids) == CountIn(asked, sids - {sid}) + |AskedOf(asked, sid)|
  {
    if asked != [] {
      CountOut(asked[..|asked| - 1], sids, sid);
    }
  }

  lemma AtMostOne(s: set<StreamId>, st: SubState, m: Ticker, channel: Channel)
    requires OneCarrierEach(st, channel) && forall id | id in s :: Carries(st, id, m, channel)
    ensures |s| <= 1
  {
    if s != {} {
      var a := PickElement(s);
      forall b | b in s ensures b == a {
      }
      assert s == {a};
    }
  }

  ghost predicate SameBindings(a: map<StreamId, Sub>, b: map<StreamId, Sub>) {
    a.Keys == b.Keys && forall id | id in a :: id in b && a[id].sid == b[id].sid && a[id].channel == b[id].channel
  }

  // ---------------------------------------------------------------------------
  // The manager object
  // ---------------------------------------------------------------------------

  class SubscriptionManager {
    const limit: int
    var order: seq<StreamId>
    var subs: map<StreamId, Sub>
    var bySid: map<int, StreamId>
    var byCommand: map<int, StreamId>
    var index: map<Ticker, set<StreamId>>

    function View(): SubState
      reads this
    {
      SubState(order, subs, bySid, byCommand, index)
    }

    constructor (limit: int)
      ensures View() == NO_SUBSCRIPTIONS && this.limit == limit
    {
      order, subs, bySid, byCommand, index, this.limit := [], map[], map[], map[], map[], limit;
    }

    /** Subscribes a channel to a set of markets, sharding as needed. */
    method Subscribe(channel: Channel, markets: seq<Ticker>, ids: seq<NewIds>)
      requires |ids| >= |Slices(markets, limit)|
      modifies this
      ensures View() == Subscribed(old(View()), channel, markets, limit, ids)
    {
      var slices := Slices(markets, limit);
      var i := 0;
      while i < |slices|
        invariant 0 <= i <= |slices|
        invariant WithShards(View(), channel, slices[i..], ids[i..]) == WithShards(old(View()), channel, slices, ids)
      {
        assert slices[i..][1..] == slices[i + 1..] && ids[i..][1..] == ids[i + 1..];
        AddSub(channel, slices[i], ids[i]);
        i := i + 1;
      }
    }

    method AddSub(channel: Channel, slice: seq<Ticker>, ids: NewIds)
      modifies this
      ensures View() == WithSub(old(View()), channel, slice, ids)
    {
      order := order + [ids.stream];
      subs := subs[ids.stream := Sub(channel, None, MarketSet(slice), Some(ids.command))];
      byCommand := byCommand[ids.command := ids.stream];
      IndexAll(slice, ids.stream);
    }

    method IndexAll(slice: seq<Ticker>, id: StreamId)
      modifies `index
      ensures index == Indexed(old(index), slice, id)
    {
      hide Indexed;
      var i := 0;
      IndexedNone(index, id);
      while i < |slice|
        invariant 0 <= i <= |slice|
        invariant index == Indexed(old(index), slice[..i], id)
      {
        assert slice[..i + 1] == slice[..i] + [slice[i]];
        IndexedMore(old(index), slice[..i], slice[i], id);
        IndexMarket(slice[i], id);
        i := i + 1;
      }
      assert slice[..i] == slice;
    }

    method IndexMarket(m: Ticker, id: StreamId)
      modifies `index
      ensures index == old(index)[m := (if m in old(index) then old(index)[m] else {}) + {id}]
    {
      index := index[m := (if m in index then index[m] else {}) + {id}];
    }

    /** Binds the server's sid to the subscription its response is for. */
    method BindSid(command: Option<int>, sid: int, channel: Channel) returns (id: Option<StreamId>)
      modifies this
      ensures View() == Bound(old(View()), command, sid, channel)
      ensures id == Awaiting(old(View()), command, channel)
    {
      id := Awaiting(View(), command, channel);
      if id.Some? && id.value in subs {
        subs := subs[id.value := subs[id.value].(sid := Some(sid), pending := None)];
        if command.Some? {
          byCommand := byCommand - {command.value};
        }
        bySid := bySid[sid := id.value];
      }
    }

    /** Adds markets, filling bound subscriptions to the limit before opening new ones. */
    method AddMarkets(channel: Channel, markets: seq<Ticker>, ids: seq<NewIds>)
      requires |ids| >= |Slices(Leftover(View(), channel, markets, limit), limit)|
      modifies this
      ensures View() == Added(old(View()), channel, markets, limit, ids)
    {
      hide Filled, Widened, Subscribed, Uncarried;
      var remaining := Uncarried(View(), markets, channel);
      var list := ForChannel(View(), order, channel);
      var i := 0;
      while i < |list| && remaining != []
        invariant 0 <= i <= |list|
        invariant Filled(View(), list[i..], remaining, limit) ==
          Filled(old(View()), list, Uncarried(old(View()), markets, channel), limit)
      {
        FilledStep(View(), list[i..], remaining, limit);
        assert list[i..][1..] == list[i + 1..];
        var id := list[i];
        i := i + 1;
        if id in subs && subs[id].sid.Some? {
          var capacity := limit - |subs[id].markets|;
          if capacity > 0 {
            var n := Min(capacity, |remaining|);
            Widen(id, remaining[..n]);
            remaining := remaining[n..];
          }
        }
      }
      FilledNothing(View(), list[i..], remaining, limit);
      if |remaining| > 0 {
        Subscribe(channel, remaining, ids);
      }
    }

    method Widen(id: StreamId, take: seq<Ticker>)
      requires id in subs
      modifies `subs, `index
      ensures View() == Widened(old(View()), id, take)
    {
      subs := subs[id := subs[id].(markets := subs[id].markets + MarketSet(take))];
      IndexAll(take, id);
    }

    /** Takes markets off the bound subscriptions of a channel. */
    method RemoveMarkets(channel: Channel, markets: seq<Ticker>) returns (ghost drops: seq<(Ticker, StreamId)>)
      requires SubsOk(View())
      modifies this
      ensures SubsOk(View()) && order == old(order) && View() == DroppedAll(old(View()), drops)
      ensures forall id, m, c :: Carries(View(), id, m, c) <==>
        Carries(old(View()), id, m, c) && !(c == channel && m in markets && old(subs)[id].sid.Some?)
      ensures SameBindings(subs, old(subs)) && forall k | 0 <= k < |drops| :: drops[k].0 in markets
    {
      var i := 0;
      drops := [];
      while i < |markets|
        invariant 0 <= i <= |markets|
        invariant SubsOk(View()) && order == old(order) && View() == DroppedAll(old(View()), drops)
        invariant forall k | 0 <= k < |drops| :: drops[k].0 in markets
        invariant SameBindings(subs, old(subs))
        invariant forall id, m, c :: Carries(View(), id, m, c) <==>
          Carries(old(View()), id, m, c) && !(c == channel && m in markets[..i] && old(subs)[id].sid.Some?)
      {
        ghost var before := drops;
        drops := RemoveOne(channel, markets[i], old(View()), drops);
        assert forall k | 0 <= k < |before| :: drops[k] == drops[..|before|][k];
        assert markets[..i + 1] == markets[..i] + [markets[i]];
        i := i + 1;
      }
      assert markets[..i] == markets;
    }

    method RemoveOne(channel: Channel, m: Ticker, ghost start: SubState, ghost before: seq<(Ticker, StreamId)>)
      returns (ghost drops: seq<(Ticker, StreamId)>)
      requires SubsOk(View()) && View() == DroppedAll(start, before)
      modifies `subs, `index
      ensures SubsOk(View()) && View() == DroppedAll(start, drops)
      ensures |before| <= |drops| && drops[..|before|] == before
      ensures forall k | |before| <= k < |drops| :: drops[k].0 == m
      ensures SameBindings(subs, old(subs))
      ensures forall id, t, c :: Carries(View(), id, t, c) <==>
        Carries(old(View()), id, t, c) && !(c == channel && t == m && old(subs)[id].sid.Some?)
    {
      hide IndexIsInverse, LookupsLive, DroppedAll;
      drops := before;
      var rest := BoundCarriers(View(), m, channel);
      CarriersAre(View(), m, channel);
      ghost var was := View();
      while rest != {}
        invariant SubsOk(View()) && View() == DroppedAll(start, drops)
        invariant |before| <= |drops| && drops[..|before|] == before
        invariant forall k | |before| <= k < |drops| :: drops[k].0 == m
        invariant SameBindings(subs, was.subs)
        invariant rest <= BoundCarriers(was, m, channel)
        invariant forall id, t, c :: Carries(View(), id, t, c) <==>
          Carries(was, id, t, c) && !(t == m && id in BoundCarriers(was, m, channel) - rest)
        decreases |rest|
      {
        var id := NextElement(rest);
        assert Carries(View(), id, m, channel);
        DropKeepsIndex(View(), m, id);
        CarriedIsIndexed(View(), m, id);
        DropOneMore(start, drops, m, id);
        Drop(m, id);
        drops := drops + [(m, id)];
        rest := rest - {id};
      }
    }

    method Drop(m: Ticker, id: StreamId)
      requires id in subs && m in index
      modifies `subs, `index
      ensures View() == Dropped(old(View()), m, id)
    {
      subs := subs[id := subs[id].(markets := subs[id].markets - {m})];
      UnindexMarket(m, id);
    }

    method UnindexMarket(m: Ticker, id: StreamId)
      modifies `index
      ensures m !in old(index) ==> index == old(index)
      ensures m in old(index) ==>
        index == if old(index)[m] - {id} == {} then old(index) - {m} else old(index)[m := old(index)[m] - {id}]
    {
      if m in index {
        index := index[m := index[m] - {id}];
        if |index[m]| == 0 {
          index := index - {m};
        }
      }
    }

    /**
     * Asks every bound carrier of each market for a fresh snapshot. `asked` lists the requests in
     * the order they were collected; the commands sent group them by sid.
     */
    method RequestSnapshots(markets: seq<Ticker>, channel: Channel := OrderbookDelta)
      returns (requested: nat, commands: map<int, seq<Ticker>>, ghost asked: seq<Request>)
      requires IndexIsInverse(View())
      ensures requested == |asked| == RequestCount(View(), markets, channel)
      ensures Grouped(asked, commands)
      ensures forall k | 0 <= k < |asked| :: asked[k].market in markets && RequestFor(View(), asked[k], channel)
      ensures OneCarrierEach(View(), channel) && Distinct(markets) ==> AskedOnce(asked)
    {
      hide IndexIsInverse, Grouped, RequestFor, OneCarrierEach, BoundCarriers, AskedFor;
      commands, asked := map[], [];
      GroupedNone();
      NothingAsked(View(), channel);
      var i := 0;
      while i < |markets|
        invariant 0 <= i <= |markets|
        invariant Grouped(asked, commands) && AskedFor(View(), markets[..i], asked, channel)
      {
        ghost var past := asked;
        commands, asked := AskCarriers(markets[i], channel, commands, asked);
        assert markets[..i + 1] == markets[..i] + [markets[i]];
        AskedNext(View(), markets[..i], markets[i], past, asked, channel);
        i := i + 1;
      }
      assert markets[..i] == markets;
      AskedSays(View(), markets, asked, channel);
      requested := CountRequests(commands, asked);
    }

    method AskCarriers(m: Ticker, channel: Channel, before: map<int, seq<Ticker>>, ghost past: seq<Request>)
      returns (commands: map<int, seq<Ticker>>, ghost asked: seq<Request>)
      requires IndexIsInverse(View()) && Grouped(past, before)
      ensures Grouped(asked, commands)
      ensures |asked| == |past| + |BoundCarriers(View(), m, channel)| && asked[..|past|] == past
      ensures forall k | |past| <= k < |asked| :: asked[k].market == m && RequestFor(View(), asked[k], channel)
      ensures OneCarrierEach(View(), channel) ==> |asked| <= |past| + 1
    {
      var rest := BoundCarriers(View(), m, channel);
      CarriersAre(View(), m, channel);
      if OneCarrierEach(View(), channel) {
        AtMostOne(rest, View(), m, channel);
      }
      commands, asked := before, past;
      while rest != {}
        invariant rest <= BoundCarriers(View(), m, channel)
        invariant Grouped(asked, commands)
        invariant |asked| + |rest| == |past| + |BoundCarriers(View(), m, channel)|
        invariant |past| <= |asked| && asked[..|past|] == past
        invariant forall k | |past| <= k < |asked| :: asked[k].market == m && RequestFor(View(), asked[k], channel)
        decreases |rest|
      {
        hide Grouped, IndexIsInverse, OneCarrierEach, RequestFor, BoundCarriers;
        var id := NextElement(rest);
        CarrierIsAsked(View(), id, m, channel);
        var sid := subs[id].sid.value;
        GroupedMore(asked, commands, Request(id, sid, m));
        commands := commands[sid := (if sid in commands then commands[sid] else []) + [m]];
        asked := asked + [Request(id, sid, m)];
        rest := rest - {id};
      }
    }

    method CountRequests(commands: map<int, seq<Ticker>>, ghost asked: seq<Request>) returns (n: nat)
      requires Grouped(asked, commands)
      ensures n == |asked|
    {
      n := 0;
      var rest := commands.Keys;
      AllCounted(asked, rest);
      while rest != {}
        invariant rest <= commands.Keys
        invariant n + CountIn(asked, rest) == |asked|
        decreases |rest|
      {
        var sid := NextElement(rest);
        CountOut(asked, rest, sid);
        n := n + |commands[sid]|;
        rest := rest - {sid};
      }
      NoneCounted(asked);
    }

    /** Clears all state; nothing survives a connection. */
    method Reset() returns (all: seq<StreamId>)
      modifies this
      ensures View() == NO_SUBSCRIPTIONS && all == old(order)
    {
      all := order;
      order, subs, bySid, byCommand, index := [], map[], map[], map[], map[];
    }
  }

  lemma IndexedNone(index: map<Ticker, set<StreamId>>, id: StreamId)
    ensures Indexed(index, [], id) == index
  {
    assert forall m | m in index :: Indexed(index, [], id)[m] == index[m];
  }

  lemma IndexedAt(index: map<Ticker, set<StreamId>>, slice: seq<Ticker>, id: StreamId, k: Ticker)
    ensures k in Indexed(index, slice, id) <==> k in index || k in slice
    ensures k in Indexed(index, slice, id) ==>
      Indexed(index, slice, id)[k] == (if k in index then index[k] else {}) + (if k in slice then {id} else {})
  {
  }

  lemma IndexedMore(index: map<Ticker, set<StreamId>>, slice: seq<Ticker>, m: Ticker, id: StreamId)
    ensures var before := Indexed(index, slice, id);
      Indexed(index, slice + [m], id) == before[m := (if m in before then before[m] else {}) + {id}]
  {
    hide Indexed;
    var before, after := Indexed(index, slice, id), Indexed(index, slice + [m], id);
    var expected := before[m := (if m in before then before[m] else {}) + {id}];
    forall k
      ensures k in after <==> k in expected
      ensures k in after ==> after[k] == expected[k]
    {
      IndexedAt(index, slice, id, k);
      IndexedAt(index, slice + [m], id, k);
    }
    assert after.Keys == expected.Keys;
  }

  lemma DroppingNothing(st: SubState)
    ensures DroppedAll(st, []) == st
  {
  }

  lemma {:induction false} DroppingAppends(st: SubState, a: seq<(Ticker, StreamId)>, b: seq<(Ticker, StreamId)>)
    ensures DroppedAll(st, a + b) == DroppedAll(DroppedAll(st, a), b)
  {
    hide Dropped;
    if b == [] {
      assert a + b == a;
    } else {
      DroppingAppends(st, a, b[..|b| - 1]);
      assert (a + b)[..|a + b| - 1] == a + b[..|b| - 1];
    }
  }

  /** Filling opens no stream; adding opens one per shard that is left over. */
  lemma {:induction false} FillingOpensNone(st: SubState, ids: seq<StreamId>, remaining: seq<Ticker>, limit: int)
    ensures Filled(st, ids, remaining, limit).st.order == st.order
    decreases |ids|
  {
    hide Filled;
    if ids == [] || remaining == [] {
      FilledNothing(st, ids, remaining, limit);
    } else {
      FilledStep(st, ids, remaining, limit);
      var id := ids[0];
      if id !in st.subs || st.subs[id].sid.None? || limit - |st.subs[id].markets| <= 0 {
        FillingOpensNone(st, ids[1..], remaining, limit);
      } else {
        var n := Min(limit - |st.subs[id].markets|, |remaining|);
        FillingOpensNone(Widened(st, id, remaining[..n]), ids[1..], remaining[n..], limit);
      }
    }
  }

  lemma {:induction false} ShardsOpened(st: SubState, channel: Channel, slices: seq<seq<Ticker>>, ids: seq<NewIds>)
    requires |ids| >= |slices|
    ensures |WithShards(st, channel, slices, ids).order| == |st.order| + |slices|
    decreases |slices|
  {
    if slices != [] {
      ShardsOpened(WithSub(st, channel, slices[0], ids[0]), channel, slices[1..], ids[1..]);
    }
  }

  /** How many streams adding markets opens. */
  function NewShards(st: SubState, channel: Channel, markets: seq<Ticker>, limit: int): (n: nat)
    ensures n <= |Slices(Leftover(st, channel, markets, limit), limit)|
  {
    var rest := Leftover(st, channel, markets, limit);
    if rest == [] then 0 else |Slices(rest, limit)|
  }

  lemma AddingOpens(st: SubState, channel: Channel, markets: seq<Ticker>, limit: int, ids: seq<NewIds>)
    requires |ids| >= |Slices(Leftover(st, channel, markets, limit), limit)|
    ensures |Added(st, channel, markets, limit, ids).order| == |st.order| + NewShards(st, channel, markets, limit)
  {
    hide Filled, WithShards;
    var list, wanted := ForChannel(st, st.order, channel), Uncarried(st, markets, channel);
    FillingOpensNone(st, list, wanted, limit);
    var FillOutcome(filled, rest) := Filled(st, list, wanted, limit);
    if rest != [] {
      ShardsOpened(filled, channel, Slices(rest, limit), ids);
    }
  }

  lemma FilledNothing(st: SubState, ids: seq<StreamId>, remaining: seq<Ticker>, limit: int)
    requires ids == [] || remaining == []
    ensures Filled(st, ids, remaining, limit) == FillOutcome(st, remaining)
  {
  }
}
