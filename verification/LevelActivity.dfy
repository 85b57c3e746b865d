/**
 * What happened at a watched price level, and how busy a market was lately
 * (src/research/calibration/levelActivity.ts).
 */
module LevelTracking {
  import opened Values
  import opened LadderDepth

  datatype LevelActivity = LevelActivity(executed: int, removed: int, added: int, trades: nat, unreconciled: int)

  const NO_ACTIVITY := LevelActivity(0, 0, 0, 0, 0)

  datatype Key = Key(ticker: Ticker, level: PublicLevel)

  /** A displayed size change, or a print; a print without a taker side says nothing about a level. */
  datatype MarketEvent =
    | Delta(ticker: Ticker, side: Side, price: int, change: int)
    | Trade(ticker: Ticker, takerOutcome: Option<Side>, yesPrice: int, count: int)

  function OnDelta(a: LevelActivity, change: int): LevelActivity {
    if change >= 0 then a.(added := a.added + change)
    else
      var explained := Min(-change, a.unreconciled);
      a.(unreconciled := a.unreconciled - explained, removed := a.removed + (-change - explained))
  }

  function OnTrade(a: LevelActivity, count: int): LevelActivity {
    a.(executed := a.executed + count, unreconciled := a.unreconciled + count, trades := a.trades + 1)
  }

  /** A taker buying YES consumes YES asks, which are published as NO bids. */
  function LevelHit(e: MarketEvent): Option<Key> {
    match e
    case Delta(t, side, price, _) => Some(Key(t, PublicLevel(side, price)))
    case Trade(t, taker, yesPrice, _) =>
      if taker.None? then None
      else
        var side := if taker.value == Yes then No else Yes;
        Some(Key(t, PublicLevel(side, YesPriceOfPublicLevel(side, yesPrice))))
  }

  function After(a: LevelActivity, e: MarketEvent): LevelActivity {
    match e
    case Delta(_, _, _, change) => OnDelta(a, change)
    case Trade(_, _, _, count) => OnTrade(a, count)
  }

  /** What a tracker that began watching a level has seen. */
  function Seen(events: seq<MarketEvent>, key: Key): LevelActivity {
    if events == [] then NO_ACTIVITY
    else
      var a, e := Seen(events[..|events| - 1], key), events[|events| - 1];
      if LevelHit(e) == Some(key) then After(a, e) else a
  }

  /** The change of the displayed size of a level over the same events. */
  function NetChange(events: seq<MarketEvent>, key: Key): int {
    if events == [] then 0
    else
      var e := events[|events| - 1];
      NetChange(events[..|events| - 1], key) + (if e.Delta? && LevelHit(e) == Some(key) then e.change else 0)
  }

  function Traded(events: seq<MarketEvent>, key: Key): int {
    if events == [] then 0
    else
      var e := events[|events| - 1];
      Traded(events[..|events| - 1], key) + (if e.Trade? && LevelHit(e) == Some(key) then e.count else 0)
  }

  ghost predicate RealTrades(events: seq<MarketEvent>) {
    forall i | 0 <= i < |events| && events[i].Trade? :: events[i].count >= 0
  }

  /**
   * Over any interleaving of trades and displayed changes the level's net change is what was added,
   * less what was withdrawn, less what traded and has shown up as a decrease; and no more awaits
   * reconciliation than was executed.
   */
  lemma {:induction false} LevelActivityConserves(events: seq<MarketEvent>, key: Key)
    requires RealTrades(events)
    ensures var a := Seen(events, key);
      && NetChange(events, key) == a.added - a.removed - (a.executed - a.unreconciled)
      && 0 <= a.unreconciled <= a.executed == Traded(events, key)
      && a.added >= 0 && a.removed >= 0
  {
    if events != [] {
      var init := events[..|events| - 1];
      assert forall i | 0 <= i < |init| :: init[i] == events[i];
      LevelActivityConserves(init, key);
    }
  }

  class LevelActivityTracker {
    var watched: map<Key, LevelActivity>

    constructor ()
      ensures watched == map[]
    {
      watched := map[];
    }

    /** Begins counting at a level; any earlier count for it is forgotten. */
    method Watch(ticker: Ticker, side: LadderSide, yesPrice: int) returns (key: Key)
      modifies this
      ensures key == Key(ticker, PublicLevelFor(side, yesPrice))
      ensures watched == old(watched)[key := NO_ACTIVITY]
    {
      key := Key(ticker, PublicLevelFor(side, yesPrice));
      watched := watched[key := NO_ACTIVITY];
    }

    method Unwatch(key: Key)
      modifies this
      ensures watched == old(watched) - {key}
    {
      watched := watched - {key};
    }

    method ReceiveDelta(ticker: Ticker, side: Side, price: int, change: int)
      modifies this
      ensures watched == AfterAll(old(watched), Delta(ticker, side, price, change))
    {
      var key := Key(ticker, PublicLevel(side, price));
      if key !in watched || change == 0 {
        return;
      }
      var activity := watched[key];
      if change > 0 {
        watched := watched[key := activity.(added := activity.added + change)];
        return;
      }
      var decrease := -change;
      var explained := Min(decrease, activity.unreconciled);
      activity := activity.(unreconciled := activity.unreconciled - explained);
      activity := activity.(removed := activity.removed + (decrease - explained));
      watched := watched[key := activity];
    }

    method ReceiveTrade(ticker: Ticker, taker: Option<Side>, yesPrice: int, count: int)
      modifies this
      ensures watched == AfterAll(old(watched), Trade(ticker, taker, yesPrice, count))
    {
      if taker.None? {
        return;
      }
      var side := if taker.value == Yes then No else Yes;
      var key := Key(ticker, PublicLevel(side, YesPriceOfPublicLevel(side, yesPrice)));
      if key !in watched {
        return;
      }
      var activity := watched[key];
      activity := activity.(executed := activity.executed + count);
      activity := activity.(unreconciled := activity.unreconciled + count);
      activity := activity.(trades := activity.trades + 1);
      watched := watched[key := activity];
    }

    /** Follows a market for a while. */
    method Follow(events: seq<MarketEvent>)
      modifies this
      ensures watched.Keys == old(watched).Keys
      ensures forall key | key in old(watched) && old(watched)[key] == NO_ACTIVITY :: watched[key] == Seen(events, key)
    {
      for i := 0 to |events|
        invariant watched.Keys == old(watched).Keys
        invariant forall key | key in old(watched) && old(watched)[key] == NO_ACTIVITY ::
          watched[key] == Seen(events[..i], key)
      {
        assert events[..i + 1][..i] == events[..i];
        match events[i] {
          case Delta(t, side, price, change) => ReceiveDelta(t, side, price, change);
          case Trade(t, taker, yesPrice, count) => ReceiveTrade(t, taker, yesPrice, count);
        }
      }
      assert events[..|events|] == events;
    }
  }

  /** One event changes at most the level it hits. */
  function AfterAll(watched: map<Key, LevelActivity>, e: MarketEvent): map<Key, LevelActivity> {
    var key := LevelHit(e);
    if key.Some? && key.value in watched then watched[key.value := After(watched[key.value], e)] else watched
  }

  // ---------------------------------------------------------------------------
  // Recent activity
  // ---------------------------------------------------------------------------

  const DEFAULT_WINDOW_MS := 120_000

  ghost predicate InOrder(times: seq<int>) {
    forall i, j | 0 <= i < j < |times| :: times[i] <= times[j]
  }

  function DropBefore(times: seq<int>, cutoff: int): seq<int> {
    if times != [] && times[0] < cutoff then DropBefore(times[1..], cutoff) else times
  }

  /** What the trimmed list holds after the instants so far. */
  function Trimmed(history: seq<int>, windowMs: int): seq<int> {
    if history == [] then []
    else
      var last := history[|history| - 1];
      DropBefore(Trimmed(history[..|history| - 1], windowMs) + [last], last - windowMs)
  }

  function CountFrom(times: seq<int>, cutoff: int): nat {
    if times == [] then 0 else CountFrom(times[..|times| - 1], cutoff) + (if times[|times| - 1] >= cutoff then 1 else 0)
  }

  /** Counting back from the newest until one is too old. */
  function CountBack(times: seq<int>, cutoff: int): nat {
    if times == [] || times[|times| - 1] < cutoff then 0 else CountBack(times[..|times| - 1], cutoff) + 1
  }

  lemma {:induction false} CountBackIsCount(times: seq<int>, cutoff: int)
    requires InOrder(times)
    ensures CountBack(times, cutoff) == CountFrom(times, cutoff)
  {
    if times != [] {
      CountBackIsCount(times[..|times| - 1], cutoff);
      if times[|times| - 1] < cutoff {
        NoneFrom(times, cutoff);
      }
    }
  }

  lemma {:induction false} NoneFrom(times: seq<int>, cutoff: int)
    requires forall i | 0 <= i < |times| :: times[i] < cutoff
    ensures CountFrom(times, cutoff) == 0
  {
    if times != [] {
      NoneFrom(times[..|times| - 1], cutoff);
    }
  }

  /** Dropping a prefix before a cutoff changes no count from that cutoff on. */
  lemma {:induction false} DroppingKeepsCounts(times: seq<int>, cutoff: int, from: int)
    requires InOrder(times) && cutoff <= from
    ensures InOrder(DropBefore(times, cutoff)) && CountFrom(DropBefore(times, cutoff), from) == CountFrom(times, from)
    ensures forall t | t in DropBefore(times, cutoff) :: t in times
  {
    if times != [] && times[0] < cutoff {
      DroppingKeepsCounts(times[1..], cutoff, from);
      CountFromCons(times[0], times[1..], from);
      assert times == [times[0]] + times[1..];
    }
  }

  lemma {:induction false} CountFromCons(t: int, times: seq<int>, cutoff: int)
    ensures CountFrom([t] + times, cutoff) == (if t >= cutoff then 1 else 0) + CountFrom(times, cutoff)
  {
    if times == [] {
      assert [t] + times == [t];
      assert CountFrom([t][..0], cutoff) == 0;
    } else {
      CountFromCons(t, times[..|times| - 1], cutoff);
      assert ([t] + times)[..|times|] == [t] + times[..|times| - 1];
    }
  }

  /** Trimming as instants arrive loses nothing a query at or after the last of them would count. */
  lemma {:induction false} TrimmedCountsAll(history: seq<int>, windowMs: int, from: int)
    requires InOrder(history) && windowMs >= 0
    requires history != [] ==> history[|history| - 1] - windowMs <= from
    ensures InOrder(Trimmed(history, windowMs)) &&
        CountFrom(Trimmed(history, windowMs), from) == CountFrom(history, from)
    ensures forall t | t in Trimmed(history, windowMs) :: t in history
  {
    if history != [] {
      var n := |history| - 1;
      var init, last := history[..n], history[n];
      var kept := Trimmed(init, windowMs);
      OrderedInit(history);
      TrimmedCountsAll(init, windowMs, from);
      KeptAndLast(kept, init, last, from);
      TrimmedSnoc(init, last, windowMs);
      assert history == init + [last];
      hide InOrder, DropBefore, Trimmed;
      CountFromSnoc(init, last, from);
      hide CountFrom;
      DroppingKeepsCounts(kept + [last], last - windowMs, from);
    }
  }

  lemma OrderedInit(history: seq<int>)
    requires InOrder(history) && history != []
    ensures var init := history[..|history| - 1];
      InOrder(init) && (init != [] ==> init[|init| - 1] <= history[|history| - 1])
      && forall i | 0 <= i < |init| :: init[i] <= history[|history| - 1]
  {
  }

  lemma CountFromSnoc(times: seq<int>, t: int, cutoff: int)
    ensures CountFrom(times + [t], cutoff) == CountFrom(times, cutoff) + (if t >= cutoff then 1 else 0)
  {
    assert (times + [t])[..|times|] == times;
  }

  /** What was kept of the history so far stays in order with the newest instant. */
  lemma KeptAndLast(kept: seq<int>, init: seq<int>, last: int, from: int)
    requires InOrder(kept) && (forall t | t in kept :: t in init)
    requires forall i | 0 <= i < |init| :: init[i] <= last
    ensures InOrder(kept + [last]) && forall t | t in kept + [last] :: t in init + [last]
    ensures CountFrom(kept + [last], from) == CountFrom(kept, from) + (if last >= from then 1 else 0)
  {
    CountFromSnoc(kept, last, from);
    hide CountFrom;
    forall i | 0 <= i < |kept| ensures kept[i] <= last {
      assert kept[i] in kept && kept[i] in init;
    }
  }

  /** The sliding count is exact: it equals the count over the full history of in-order instants. */
  lemma RecentActivityIsExact(history: seq<int>, windowMs: int, nowMs: int)
    requires InOrder(history) && windowMs >= 0 && (history != [] ==> history[|history| - 1] <= nowMs)
    ensures CountBack(Trimmed(history, windowMs), nowMs - windowMs) == CountFrom(history, nowMs - windowMs)
  {
    TrimmedCountsAll(history, windowMs, nowMs - windowMs);
    CountBackIsCount(Trimmed(history, windowMs), nowMs - windowMs);
  }

  datatype Touch = Touch(atMs: int, bid: Option<int>, ask: Option<int>)

  /** Instants at which the touch prices differ from the last ones seen. */
  function Moves(touches: seq<Touch>): seq<int> {
    if touches == [] then []
    else
      var n := |touches| - 1;
      Moves(touches[..n])
      + (if n > 0 && touches[n - 1].bid == touches[n].bid && touches[n - 1].ask == touches[n].ask then []
         else [touches[n].atMs])
  }

  lemma MovesSnoc(touches: seq<Touch>, t: Touch)
    ensures var n := |touches|;
      Moves(touches + [t]) ==
        if n > 0 && touches[n - 1].bid == t.bid && touches[n - 1].ask == t.ask then Moves(touches)
        else Moves(touches) + [t.atMs]
  {
    assert (touches + [t])[..|touches|] == touches;
    assert Moves(touches) + [] == Moves(touches);
  }

  lemma TrimmedSnoc(history: seq<int>, t: int, windowMs: int)
    ensures Trimmed(history + [t], windowMs) == DropBefore(Trimmed(history, windowMs) + [t], t - windowMs)
  {
    assert (history + [t])[..|history|] == history;
  }

  /** One market's rolling activity. */
  class RecentActivity {
    const windowMs: int
    var trades: seq<int>
    var bboChanges: seq<int>
    var lastBbo: Option<(Option<int>, Option<int>)>

    /** Everything ever recorded. */
    ghost var allTrades: seq<int>
    ghost var allTouches: seq<Touch>

    ghost predicate Valid()
      reads this
    {
      && windowMs >= 0
      && trades == Trimmed(allTrades, windowMs)
      && bboChanges == Trimmed(Moves(allTouches), windowMs)
      && (if allTouches == [] then lastBbo == None
          else lastBbo == Some((allTouches[|allTouches| - 1].bid, allTouches[|allTouches| - 1].ask)))
    }

    constructor (windowMs: nat := DEFAULT_WINDOW_MS)
      ensures Valid() && allTrades == [] && allTouches == [] && this.windowMs == windowMs
    {
      this.windowMs := windowMs;
      trades, bboChanges, lastBbo, allTrades, allTouches := [], [], None, [], [];
    }

    static method Push(times: seq<int>, atMs: int, windowMs: int) returns (out: seq<int>)
      ensures out == DropBefore(times + [atMs], atMs - windowMs)
    {
      out := times + [atMs];
      var cutoff := atMs - windowMs;
      var drop := 0;
      while drop < |out| && out[drop] < cutoff
        invariant 0 <= drop <= |out| && DropBefore(out[drop..], cutoff) == DropBefore(out, cutoff)
      {
        assert out[drop..][1..] == out[drop + 1..];
        drop := drop + 1;
      }
      out := out[drop..];
    }

    static method Count(times: seq<int>, nowMs: int, windowMs: int) returns (n: nat)
      ensures n == CountBack(times, nowMs - windowMs)
    {
      n := 0;
      var i := |times|;
      assert times[..i] == times;
      while i > 0 && times[i - 1] >= nowMs - windowMs
        invariant 0 <= i <= |times| && n + CountBack(times[..i], nowMs - windowMs) == CountBack(times, nowMs - windowMs)
      {
        assert times[..i][..i - 1] == times[..i - 1];
        n, i := n + 1, i - 1;
      }
    }

    method RecordTrade(atMs: int)
      requires Valid()
      modifies this
      ensures Valid() && allTrades == old(allTrades) + [atMs] && allTouches == old(allTouches)
    {
      assert (allTrades + [atMs])[..|allTrades|] == allTrades;
      trades := Push(trades, atMs, windowMs);
      allTrades := allTrades + [atMs];
    }

    /** A touch counts only when its prices move. */
    method RecordBbo(atMs: int, bid: Option<int>, ask: Option<int>)
      requires Valid()
      modifies this
      ensures Valid() && allTouches == old(allTouches) + [Touch(atMs, bid, ask)] && allTrades == old(allTrades)
    {
      hide Moves, Trimmed, DropBefore;
      ghost var all := allTouches + [Touch(atMs, bid, ask)];
      MovesSnoc(allTouches, Touch(atMs, bid, ask));
      if lastBbo == Some((bid, ask)) {
        allTouches := all;
        return;
      }
      lastBbo := Some((bid, ask));
      TrimmedSnoc(Moves(allTouches), atMs, windowMs);
      bboChanges := Push(bboChanges, atMs, windowMs);
      allTouches := all;
    }

    /** Exact for in-order trades, asked at or after the last one. */
    method TradesIn(nowMs: int) returns (n: nat)
      requires Valid()
      ensures (InOrder(allTrades) && (allTrades != [] ==> allTrades[|allTrades| - 1] <= nowMs) ==>
                 n == CountFrom(allTrades, nowMs - windowMs))
    {
      n := Count(trades, nowMs, windowMs);
      if InOrder(allTrades) && (allTrades != [] ==> allTrades[|allTrades| - 1] <= nowMs) {
        RecentActivityIsExact(allTrades, windowMs, nowMs);
      }
    }

    method BboChangesIn(nowMs: int) returns (n: nat)
      requires Valid()
      ensures var moves := Moves(allTouches);
        (InOrder(moves) && (moves != [] ==> moves[|moves| - 1] <= nowMs) ==> n == CountFrom(moves, nowMs - windowMs))
    {
      n := Count(bboChanges, nowMs, windowMs);
      ghost var moves := Moves(allTouches);
      if InOrder(moves) && (moves != [] ==> moves[|moves| - 1] <= nowMs) {
        RecentActivityIsExact(moves, windowMs, nowMs);
      }
    }
  }
}
