/** Where a YES-ladder order sits in the public book, and what is ahead of it (src/book/ladder.ts). */
module LadderDepth {
  import opened Values
  import opened Ordering
  import opened CanonicalForm
  import opened MarketBooks

  datatype LadderSide = Bid | Ask

  datatype PublicLevel = PublicLevel(side: Side, price: int)

  /** One dollar, in millionths. */
  const ONE := 1_000_000
  const CENT := 10_000

  function PublicLevelFor(side: LadderSide, yesPrice: int): PublicLevel {
    if side == Bid then PublicLevel(Yes, yesPrice) else PublicLevel(No, ONE - yesPrice)
  }

  function YesPriceOfPublicLevel(side: Side, price: int): int {
    if side == Yes then price else ONE - price
  }

  predicate IsBetterYesPrice(side: LadderSide, ours: int, other: int) {
    if side == Bid then other > ours else other < ours
  }

  /** The complement is its own inverse, and a better YES price is a higher public price on either side. */
  lemma ComplementRoundTrip(side: LadderSide, ours: int, publicPrice: int)
    ensures var at := PublicLevelFor(side, ours);
      && YesPriceOfPublicLevel(at.side, at.price) == ours
      && PublicLevelFor(side, YesPriceOfPublicLevel(at.side, publicPrice)) == PublicLevel(at.side, publicPrice)
      && (IsBetterYesPrice(side, ours, YesPriceOfPublicLevel(at.side, publicPrice)) <==> publicPrice > at.price)
  {
  }

  // ---------------------------------------------------------------------------
  // Depth ahead
  // ---------------------------------------------------------------------------

  datatype AheadDepth = AheadDepth(better: int, sameLevel: int, betterLevels: nat)

  const NOTHING_AHEAD := AheadDepth(0, 0, 0)

  function Added(a: AheadDepth, b: AheadDepth): AheadDepth {
    AheadDepth(a.better + b.better, a.sameLevel + b.sameLevel, a.betterLevels + b.betterLevels)
  }

  /** What one level puts ahead of, or beside, an order at a public price. */
  function LevelAhead(e: Level, q: int): AheadDepth {
    if e.1 <= 0 || e.0 < q then NOTHING_AHEAD
    else if e.0 == q then AheadDepth(0, e.1, 0)
    else AheadDepth(e.1, 0, 1)
  }

  /** What lies above and at a public price, over a list of levels. */
  function Ahead(es: seq<Level>, q: int): AheadDepth {
    if es == [] then NOTHING_AHEAD else Added(Ahead(es[..|es| - 1], q), LevelAhead(es[|es| - 1], q))
  }

  lemma NothingAheadOfNobody(q: int)
    ensures Ahead([], q) == NOTHING_AHEAD
  {
  }

  lemma AheadLast(es: seq<Level>, q: int)
    requires es != []
    ensures Ahead(es, q) == Added(Ahead(es[..|es| - 1], q), LevelAhead(es[|es| - 1], q))
  {
  }

  /** Sums one published ladder; the other one holds no interest ahead of ours. */
  method Scan(es: seq<Level>, publicSide: Side, side: LadderSide, ours: int, start: AheadDepth) returns (d: AheadDepth)
    ensures var at, mine := PublicLevelFor(side, ours), Ahead(es, PublicLevelFor(side, ours).price);
      d == if publicSide != at.side then start else Added(start, mine)
  {
    hide Ahead;
    var at := PublicLevelFor(side, ours);
    d := start;
    NothingAheadOfNobody(at.price);
    assert es[..0] == [];
    for i := 0 to |es|
      invariant publicSide != at.side ==> d == start
      invariant publicSide == at.side ==> d == Added(start, Ahead(es[..i], at.price))
    {
      assert es[..i + 1][..i] == es[..i];
      AheadLast(es[..i + 1], at.price);
      var (price, qty) := es[i];
      if qty <= 0 || publicSide != at.side {
        continue;
      }
      var yes := YesPriceOfPublicLevel(publicSide, price);
      ComplementRoundTrip(side, ours, price);
      if yes == ours {
        d := d.(sameLevel := d.sameLevel + qty);
        continue;
      }
      if IsBetterYesPrice(side, ours, yes) {
        d := d.(better := d.better + qty, betterLevels := d.betterLevels + 1);
      }
    }
    assert es[..|es|] == es;
  }

  /** The published ladder an order rests on. */
  function OwnLadder(l: Ladders, side: LadderSide): Levels {
    if side == Bid then l.yes else l.no
  }

  /** Depth ahead of a YES-ladder order, from both published ladders in whatever order they are listed. */
  method DepthAhead(side: LadderSide, yesPrice: int, yesBids: seq<Level>, noBids: seq<Level>) returns (d: AheadDepth)
    ensures d == Ahead(if side == Bid then yesBids else noBids, PublicLevelFor(side, yesPrice).price)
  {
    hide Ahead;
    d := Scan(yesBids, Yes, side, yesPrice, NOTHING_AHEAD);
    d := Scan(noBids, No, side, yesPrice, d);
  }

  /** Cumulative size across the best k levels of a side. */
  function SumTop(es: seq<Level>, k: nat): int {
    if k == 0 || es == [] then 0 else SumTop(es, k - 1) + (if k <= |es| then es[k - 1].1 else 0)
  }

  /** A YES ask at 1 - q for each NO bid at q, and the other way round. */
  function Complemented(es: seq<Level>): seq<Level> {
    seq(|es|, i requires 0 <= i < |es| => (ONE - es[i].0, es[i].1))
  }

  /** One side of the YES view, best first. */
  ghost function YesView(l: Ladders, side: LadderSide): seq<Level> {
    if side == Bid then Canonical(l.yes) else Complemented(Canonical(l.no))
  }

  /** The YES asks are the NO bids at their complements, each once, the lowest ask first. */
  lemma YesAsksComplementNoBids(l: Ladders)
    ensures var asks := YesView(l, Ask);
      && (forall i, j | 0 <= i < j < |asks| :: asks[i].0 < asks[j].0)
      && (forall e: Level :: e in asks <==> ONE - e.0 in l.no && l.no[ONE - e.0] == e.1)
  {
    var bids, asks := Canonical(l.no), YesView(l, Ask);
    forall e: Level ensures e in asks <==> ONE - e.0 in l.no && l.no[ONE - e.0] == e.1 {
      if ONE - e.0 in l.no && l.no[ONE - e.0] == e.1 {
        assert Lists(bids, ONE - e.0);
        var i :| 0 <= i < |bids| && bids[i].0 == ONE - e.0;
        assert asks[i] == e;
      }
    }
  }

  lemma {:induction false} ComplementKeepsSums(es: seq<Level>, k: nat)
    ensures SumTop(Complemented(es), k) == SumTop(es, k)
  {
    if k > 0 && es != [] {
      ComplementKeepsSums(es, k - 1);
    }
  }

  /** The depth of one side of the YES view: its best k levels. */
  ghost function DepthOf(l: Ladders, side: LadderSide, k: nat): int {
    SumTop(YesView(l, side), k)
  }

  lemma DepthIsOfOwnLadder(l: Ladders, side: LadderSide, k: nat)
    ensures DepthOf(l, side, k) == SumTop(Canonical(OwnLadder(l, side)), k)
  {
    ComplementKeepsSums(Canonical(l.no), k);
  }

  datatype Depth = Depth(bid: int, ask: int)

  method TopSize(levels: seq<Level>, k: nat) returns (size: int)
    ensures size == SumTop(levels, k)
  {
    size := 0;
    var best := levels[..if k <= |levels| then k else |levels|];
    for i := 0 to |best|
      invariant size == SumTop(levels, i)
    {
      size := size + best[i].1;
    }
    NothingBeyond(levels, k);
  }

  lemma {:induction false} NothingBeyond(es: seq<Level>, k: nat)
    ensures k >= |es| ==> SumTop(es, k) == SumTop(es, |es|)
  {
    if k > |es| {
      NothingBeyond(es, k - 1);
    }
  }

  /** Cumulative size across the best k levels of each side of the YES view. */
  method GetDepth(l: Ladders, k: nat) returns (d: Depth)
    requires NoZeros(l)
    ensures d == Depth(DepthOf(l, Bid, k), DepthOf(l, Ask, k))
  {
    var yes := Entries(l.yes);
    var no := Entries(l.no);
    var bids := CanonicalLevels(yes);
    var noBids := CanonicalLevels(no);
    var bid := TopSize(bids, k);
    var ask := TopSize(Complemented(noBids), k);
    d := Depth(bid, ask);
  }

  // ---------------------------------------------------------------------------
  // The scan agrees with the sorted book
  // ---------------------------------------------------------------------------

  lemma {:induction false} AheadAppend(a: seq<Level>, b: seq<Level>, q: int)
    ensures Ahead(a + b, q) == Added(Ahead(a, q), Ahead(b, q))
  {
    hide Ahead, LevelAhead;
    NothingAheadOfNobody(q);
    if b == [] {
      assert a + b == a;
    } else {
      AheadAppend(a, b[..|b| - 1], q);
      assert (a + b)[..|a + b| - 1] == a + b[..|b| - 1];
      AheadLast(a + b, q);
      AheadLast(b, q);
    }
  }

  lemma AheadWithout(left: seq<Level>, e: Level, right: seq<Level>, q: int)
    ensures Ahead(left + [e] + right, q) == Added(Ahead(left + right, q), LevelAhead(e, q))
  {
    hide Ahead, LevelAhead;
    AheadAppend(left, right, q);
    AheadAppend(left + [e], right, q);
    assert (left + [e])[..|left|] == left;
    AheadLast(left + [e], q);
  }

  /** The order of the levels does not matter. */
  lemma {:induction false} AheadPermutation(a: seq<Level>, b: seq<Level>, q: int)
    requires multiset(a) == multiset(b)
    ensures Ahead(a, q) == Ahead(b, q)
    decreases |a|
  {
    hide Ahead, LevelAhead;
    assert |multiset(a)| == |a| && |multiset(b)| == |b|;
    if a != [] {
      var n := |a| - 1;
      var k := TakeMatch(a, b);
      AheadPermutation(a[..n], b[..k] + b[k + 1..], q);
      AheadWithout(b[..k], a[n], b[k + 1..], q);
      AheadLast(a, q);
    }
  }

  /** Two listings of one side hold the same levels. */
  lemma ListingsAgree(a: seq<Level>, b: seq<Level>, m: Levels)
    requires Enumerates(a, m) && Enumerates(b, m)
    ensures multiset(a) == multiset(b)
  {
    forall e: Level ensures multiset(a)[e] == multiset(b)[e] {
      CountIn(a, m, e);
      CountIn(b, m, e);
    }
  }

  lemma CountIn(es: seq<Level>, m: Levels, e: Level)
    requires Enumerates(es, m)
    ensures multiset(es)[e] == if e.0 in m && m[e.0] == e.1 then 1 else 0
  {
    OnceIn(es, e);
    if e.0 in m && m[e.0] == e.1 {
      assert Lists(es, e.0);
      var i :| 0 <= i < |es| && es[i].0 == e.0;
      assert es[i] == e;
      assert e in multiset(es);
    } else if e in multiset(es) {
      var i := IndexIn(es, e);
    }
  }

  /** The better levels of a best-first list are its first ones; our own level, if listed, comes next. */
  ghost predicate AheadIs(d: AheadDepth, es: seq<Level>, q: int) {
    && d.betterLevels <= |es| && d.better == SumTop(es, d.betterLevels)
    && (forall i | 0 <= i < |es| :: i < d.betterLevels <==> es[i].0 > q)
    && (if Lists(es, q) then d.betterLevels < |es| && es[d.betterLevels].0 == q && d.sameLevel == es[d.betterLevels].1
        else d.sameLevel == 0)
  }

  lemma {:induction false} AheadIsAPrefix(es: seq<Level>, q: int)
    requires Descending(es) && forall i | 0 <= i < |es| :: es[i].1 > 0
    ensures AheadIs(Ahead(es, q), es, q)
  {
    hide AheadIs, LevelAhead;
    if es == [] {
      NothingAheadOfNone(q);
    } else {
      var n := |es| - 1;
      AheadIsAPrefix(es[..n], q);
      assert es == es[..n] + [es[n]];
      AheadNext(es[..n], es[n], q, Ahead(es[..n], q));
    }
  }

  lemma NothingAheadOfNone(q: int)
    ensures AheadIs(NOTHING_AHEAD, [], q)
  {
  }

  lemma AheadNext(init: seq<Level>, last: Level, q: int, d: AheadDepth)
    requires Descending(init + [last]) && last.1 > 0 && AheadIs(d, init, q)
    ensures AheadIs(Added(d, LevelAhead(last, q)), init + [last], q)
  {
    var es, n := init + [last], |init|;
    assert es[..n] == init && es[n] == last;
    SumTopInit(es, d.betterLevels);
    ListsSnoc(init, last, q);
    hide SumTop, Lists, Descending;
    if last.0 < q {
      assert Added(d, LevelAhead(last, q)) == d;
    } else {
      AllBetterAbove(init, last, q, d);
      SumTopNext(es, n);
    }
  }

  lemma SumTopNext(es: seq<Level>, n: nat)
    requires n < |es|
    ensures SumTop(es, n + 1) == SumTop(es, n) + es[n].1
  {
  }

  lemma AllBetterAbove(init: seq<Level>, last: Level, q: int, d: AheadDepth)
    requires Descending(init + [last]) && last.0 >= q && AheadIs(d, init, q)
    ensures d.betterLevels == |init| && !Lists(init, q)
  {
    var es := init + [last];
    forall i | 0 <= i < |init| ensures init[i].0 > q {
      assert es[i].0 > es[|init|].0;
    }
    assert |init| > 0 ==> init[|init| - 1].0 > q;
  }

  lemma ListsSnoc(es: seq<Level>, e: Level, p: int)
    ensures Lists(es + [e], p) <==> Lists(es, p) || e.0 == p
  {
    if Lists(es, p) {
      var i :| 0 <= i < |es| && es[i].0 == p;
      assert (es + [e])[i].0 == p;
    }
    assert (es + [e])[|es|] == e;
  }

  lemma {:induction false} SumTopInit(es: seq<Level>, k: nat)
    requires es != [] && k <= |es| - 1
    ensures SumTop(es[..|es| - 1], k) == SumTop(es, k)
  {
    if k > 0 && |es| > 1 {
      SumTopInit(es, k - 1);
    }
  }

  /**
   * Depth ahead agrees with the sorted book on bid and ask: the better size is the depth of exactly
   * the better levels, and with our own level it is the depth through that level.
   */
  lemma DepthAheadAgreesWithTheBook(l: Ladders, side: LadderSide, yesPrice: int, es: seq<Level>)
    requires Positive(l) && Enumerates(es, OwnLadder(l, side))
    ensures var m, q := OwnLadder(l, side), PublicLevelFor(side, yesPrice).price;
      var d := Ahead(es, q);
      && d.sameLevel == LevelAt(m, q)
      && d.better == DepthOf(l, side, d.betterLevels)
      && d.better + d.sameLevel == DepthOf(l, side, d.betterLevels + (if q in m then 1 else 0))
  {
    var m, q := OwnLadder(l, side), PublicLevelFor(side, yesPrice).price;
    var c := Canonical(m);
    ListingsAgree(es, c, m);
    AheadPermutation(es, c, q);
    AheadIsAPrefix(c, q);
    var d := Ahead(c, q);
    DepthIsOfOwnLadder(l, side, d.betterLevels);
    DepthIsOfOwnLadder(l, side, d.betterLevels + 1);
    assert Lists(c, q) <==> q in m;
    if q in m {
      assert c[d.betterLevels].0 == q;
      assert SumTop(c, d.betterLevels + 1) == SumTop(c, d.betterLevels) + c[d.betterLevels].1;
    }
  }

  // ---------------------------------------------------------------------------
  // Ticks from the touch
  // ---------------------------------------------------------------------------

  /** The best price of our side of the YES view. */
  ghost function Touch(l: Ladders, side: LadderSide): Option<int> {
    var c := YesView(l, side);
    if c == [] then None else Some(c[0].0)
  }

  /** Math.round: to the nearest whole number, halves up. */
  function Rounded(n: int, d: int): int
    requires d > 0
  {
    (2 * n + d) / (2 * d)
  }

  function TicksFromTouch(side: LadderSide, yesPrice: int, bestYesBid: Option<int>,
      bestYesAsk: Option<int>): Option<int> {
    var touch := if side == Bid then bestYesBid else bestYesAsk;
    if touch.None? then None
    else
      var diff := if side == Bid then touch.value - yesPrice else yesPrice - touch.value;
      Some(Max(0, Rounded(diff, CENT)))
  }

  lemma BestIsHighest(c: seq<Level>, m: Levels)
    requires IsCanonical(c, m) && c != []
    ensures c[0].0 in m && forall p | p in m :: p <= c[0].0
  {
    forall p | p in m ensures p <= c[0].0 {
      assert Lists(c, p);
      var i :| 0 <= i < |c| && c[i].0 == p;
    }
  }

  /** Zero ticks means less than half a cent behind the touch; on the cent grid, nothing better at all. */
  lemma ZeroTicksMeansNothingBetter(l: Ladders, side: LadderSide, yesPrice: int, es: seq<Level>)
    requires Positive(l) && Enumerates(es, OwnLadder(l, side))
    ensures var m, q := OwnLadder(l, side), PublicLevelFor(side, yesPrice).price;
      var ticks := TicksFromTouch(side, yesPrice, Touch(l, Bid), Touch(l, Ask));
      && (ticks == None <==> m == map[])
      && (ticks.Some? ==>
            && (ticks == Some(0) <==> forall p | p in m :: 2 * (p - q) < CENT)
            && ((yesPrice % CENT == 0 && forall p | p in m :: p % CENT == 0) ==>
                  (ticks == Some(0) <==> Ahead(es, q).betterLevels == 0)))
  {
    hide Ahead, SumTop, LevelAhead;
    var m, q := OwnLadder(l, side), PublicLevelFor(side, yesPrice).price;
    var c := Canonical(m);
    if c == [] {
      NothingListed(c, m);
      assert Touch(l, side) == None;
    } else {
      var top := c[0].0;
      BestIsHighest(c, m);
      ListingsAgree(es, c, m);
      AheadPermutation(es, c, q);
      AheadIsAPrefix(c, q);
      RoundedIsZero(top - q);
      if yesPrice % CENT == 0 && forall p | p in m :: p % CENT == 0 {
        assert q % CENT == 0;
        OnGrid(top, q);
      }
    }
  }

  lemma RoundedIsZero(diff: int)
    ensures Max(0, Rounded(diff, CENT)) == 0 <==> 2 * diff < CENT
  {
  }

  lemma OnGrid(a: int, b: int)
    requires a % CENT == 0 && b % CENT == 0
    ensures 2 * (a - b) < CENT <==> a <= b
  {
  }
}
