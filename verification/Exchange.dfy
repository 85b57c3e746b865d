/**
 * The recorder against an exchange that numbers each stream's messages consecutively and a channel
 * that loses frames but keeps their order: which of the exchange's states a local book shows.
 */
module ExchangeAgreement {
  import opened Values
  import opened CanonicalForm
  import opened MarketBooks
  import opened BookManagement
  import opened SequenceTracking
  import opened RecoveryMachine
  import opened Collecting
  import opened Capture
  import opened LiveHistory
  import opened FaithfulRows
  import Subs = Subscriptions

  // ---------------------------------------------------------------------------
  // The exchange's side of one stream
  // ---------------------------------------------------------------------------

  /** Message i of a stream carries sequence number base + i. */
  datatype Feed = Feed(base: int, opening: map<Ticker, Ladders>, sent: seq<Payload>) {
    predicate Numbers(seqNo: int) {
      base <= seqNo < base + |sent|
    }
  }

  predicate IsDeltaFor(p: Payload, m: Ticker) {
    p.DeltaMsg? && p.ticker == m
  }

  /** The exchange's own book of a market after the first n messages of a stream. */
  function BookAfterSending(feed: Feed, n: nat, m: Ticker): Ladders
    requires n <= |feed.sent|
  {
    if n == 0 then (if m in feed.opening then feed.opening[m] else EMPTY_LADDERS)
    else
      var l := BookAfterSending(feed, n - 1, m);
      if IsDeltaFor(feed.sent[n - 1], m) then Folded(l, feed.sent[n - 1].change) else l
  }

  /** The exchange's book as of a sequence number. */
  function ExchangeBook(feed: Feed, seqNo: int, m: Ticker): Ladders
    requires feed.Numbers(seqNo)
  {
    BookAfterSending(feed, seqNo - feed.base + 1, m)
  }

  /** An order-book stream carries only snapshots and deltas, and a snapshot tells the book as it is. */
  ghost predicate TellsTruth(feed: Feed, i: nat)
    requires i < |feed.sent|
  {
    && !feed.sent[i].OtherMsg?
    && (feed.sent[i].SnapshotMsg? ==>
          Ladders(Load(feed.sent[i].yes), Load(feed.sent[i].no)) == BookAfterSending(feed, i, feed.sent[i].ticker))
  }

  ghost predicate Truthful(feed: Feed) {
    forall i | 0 <= i < |feed.sent| :: TellsTruth(feed, i)
  }

  /** No delta for the market is numbered in (p, q]. */
  ghost predicate QuietFor(feed: Feed, m: Ticker, p: int, q: int) {
    forall i | 0 <= i < |feed.sent| && p < feed.base + i <= q :: !IsDeltaFor(feed.sent[i], m)
  }

  lemma {:induction false} QuietKeepsTheBook(feed: Feed, m: Ticker, p: int, q: int)
    requires feed.Numbers(p) && feed.Numbers(q) && p <= q && QuietFor(feed, m, p, q)
    ensures ExchangeBook(feed, q, m) == ExchangeBook(feed, p, m)
    decreases q - p
  {
    if p < q {
      QuietKeepsTheBook(feed, m, p, q - 1);
      assert !IsDeltaFor(feed.sent[q - feed.base], m);
    }
  }

  // ---------------------------------------------------------------------------
  // The net effect of a stretch of messages
  // ---------------------------------------------------------------------------

  function SizeAt(l: Ladders, side: Side, price: int): int {
    LevelAt(SideLevels(l, side), price)
  }

  /** What a message adds to one level of a market. */
  function AmountAt(p: Payload, m: Ticker, side: Side, price: int): int {
    if IsDeltaFor(p, m) && p.change.side == side && p.change.price == price then p.change.amount else 0
  }

  /** What the messages from the i-th up to the n-th add to one level. */
  function Added(feed: Feed, m: Ticker, i: nat, n: nat, side: Side, price: int): int
    requires n <= |feed.sent|
  {
    if i >= n then 0 else Added(feed, m, i, n - 1, side, price) + AmountAt(feed.sent[n - 1], m, side, price)
  }

  /** What the deltas numbered in (p, q] add to one level. */
  function Net(feed: Feed, m: Ticker, p: int, q: int, side: Side, price: int): int
    requires feed.Numbers(p) && feed.Numbers(q)
  {
    Added(feed, m, p - feed.base + 1, q - feed.base + 1, side, price)
  }

  /** The deltas for the market numbered in (p, q] cancel out, level by level. */
  ghost predicate CancelOut(feed: Feed, m: Ticker, p: int, q: int)
    requires feed.Numbers(p) && feed.Numbers(q)
  {
    forall side, price :: Net(feed, m, p, q, side, price) == 0
  }

  lemma FoldAdds(l: Ladders, c: Change, side: Side, price: int)
    ensures SizeAt(Folded(l, c), side, price) ==
      SizeAt(l, side, price) + (if c.side == side && c.price == price then c.amount else 0)
  {
  }

  lemma {:induction false} SendingAdds(feed: Feed, m: Ticker, i: nat, n: nat, side: Side, price: int)
    requires i <= n <= |feed.sent|
    ensures SizeAt(BookAfterSending(feed, n, m), side, price) ==
      SizeAt(BookAfterSending(feed, i, m), side, price) + Added(feed, m, i, n, side, price)
  {
    hide SizeAt, Folded;
    if i < n {
      SendingAdds(feed, m, i, n - 1, side, price);
      if IsDeltaFor(feed.sent[n - 1], m) {
        FoldAdds(BookAfterSending(feed, n - 1, m), feed.sent[n - 1].change, side, price);
      }
    }
  }

  /** Two books without empty levels that show the same size everywhere are the same book. */
  lemma SameSizesSameBook(a: Ladders, b: Ladders)
    requires NoZeros(a) && NoZeros(b) && forall side, price :: SizeAt(a, side, price) == SizeAt(b, side, price)
    ensures a == b
  {
    forall price ensures price in a.yes <==> price in b.yes {
      assert SizeAt(a, Yes, price) == SizeAt(b, Yes, price);
    }
    forall price ensures price in a.no <==> price in b.no {
      assert SizeAt(a, No, price) == SizeAt(b, No, price);
    }
    forall price | price in a.yes ensures a.yes[price] == b.yes[price] {
      assert SizeAt(a, Yes, price) == SizeAt(b, Yes, price);
    }
    forall price | price in a.no ensures a.no[price] == b.no[price] {
      assert SizeAt(a, No, price) == SizeAt(b, No, price);
    }
    assert a.yes == b.yes && a.no == b.no;
  }

  lemma {:induction false} SendingKeepsNoZeros(feed: Feed, m: Ticker, i: nat, n: nat)
    requires i <= n <= |feed.sent| && NoZeros(BookAfterSending(feed, i, m))
    ensures NoZeros(BookAfterSending(feed, n, m))
  {
    if i < n {
      SendingKeepsNoZeros(feed, m, i, n - 1);
    }
  }

  lemma {:induction false} QuietAddsNothing(feed: Feed, m: Ticker, p: int, q: int, side: Side, price: int)
    requires feed.Numbers(p) && feed.Numbers(q) && QuietFor(feed, m, p, q)
    ensures Net(feed, m, p, q, side, price) == 0
    decreases q - p
  {
    if p < q {
      assert feed.Numbers(q - 1);
      QuietAddsNothing(feed, m, p, q - 1, side, price);
      assert !IsDeltaFor(feed.sent[q - feed.base], m);
    }
  }

  // ---------------------------------------------------------------------------
  // The channel
  // ---------------------------------------------------------------------------

  type Feeds = map<StreamId, Feed>
  type Arrived = map<StreamId, int>

  predicate OnBookStream(st: State, sid: Option<int>) {
    StreamOf(st, sid).Some? && st.subs.subs[StreamOf(st, sid).value].channel == OrderbookDelta
  }

  /** The last number that arrived on each stream. */
  ghost function ArrivedBy(start: SessionId, events: seq<Event>): Arrived {
    if events == [] then map[]
    else WithArrival(ArrivedBy(start, events[..|events| - 1]), Run(start, events[..|events| - 1]).st,
        events[|events| - 1])
  }

  function WithArrival(arrived: Arrived, st: State, e: Event): Arrived {
    if e.FrameEvent? && OnBookStream(st, e.frame.sid) && e.frame.seqNo.Some?
    then arrived[StreamOf(st, e.frame.sid).value := e.frame.seqNo.value]
    else arrived
  }

  /** A frame on an order-book stream is a message the exchange sent, later than any that arrived before. */
  ghost predicate Delivered(feeds: Feeds, arrived: Arrived, st: State, e: Event) {
    e.FrameEvent? && OnBookStream(st, e.frame.sid) ==>
      var f, id := e.frame, StreamOf(st, e.frame.sid).value;
      && id in feeds && Truthful(feeds[id])
      && f.seqNo.Some? && feeds[id].Numbers(f.seqNo.value)
      && f.payload == feeds[id].sent[f.seqNo.value - feeds[id].base]
      && (id in arrived ==> arrived[id] < f.seqNo.value)
  }

  /**
   * When the last awaited snapshot closes an episode, a market whose book was already restored has
   * had no further delta sent since.
   */
  ghost predicate RecoversQuietly(feeds: Feeds, r: Recording, e: Event, m: Ticker) {
    e.FrameEvent? && Handled(r.st, e.frame, r.session).completed ==>
      var id, b := StreamOrUnbound(StreamOf(r.st, e.frame.sid)), BookOf(r.st.shelf, m);
      b.valid && b.stream == Some(id) && id in feeds && b.lastSeq.Some? && e.frame.seqNo.Some?
      && !e.frame.payload.OtherMsg? && e.frame.payload.ticker != m ==>
        QuietFor(feeds[id], m, b.lastSeq.value, e.frame.seqNo.value)
  }

  ghost predicate DeliveredAt(feeds: Feeds, start: SessionId, events: seq<Event>, k: nat)
    requires k < |events|
  {
    Delivered(feeds, ArrivedBy(start, events[..k]), Run(start, events[..k]).st, events[k])
  }

  ghost predicate AllDelivered(feeds: Feeds, start: SessionId, events: seq<Event>) {
    forall k | 0 <= k < |events| :: DeliveredAt(feeds, start, events, k)
  }

  ghost predicate QuietAt(feeds: Feeds, start: SessionId, events: seq<Event>, m: Ticker, k: nat)
    requires k < |events|
  {
    RecoversQuietly(feeds, Run(start, events[..k]), events[k], m)
  }

  ghost predicate AlwaysRecoversQuietly(feeds: Feeds, start: SessionId, events: seq<Event>, m: Ticker) {
    forall k | 0 <= k < |events| :: QuietAt(feeds, start, events, m, k)
  }

  lemma DeliveredPrefix(feeds: Feeds, start: SessionId, events: seq<Event>)
    requires events != [] && AllDelivered(feeds, start, events)
    ensures var init := events[..|events| - 1];
      && AllDelivered(feeds, start, init)
      && Delivered(feeds, ArrivedBy(start, init), Run(start, init).st, events[|events| - 1])
  {
    hide Delivered, ArrivedBy, Run;
    var init := events[..|events| - 1];
    forall k | 0 <= k < |init| ensures DeliveredAt(feeds, start, init, k) {
      assert DeliveredAt(feeds, start, events, k);
      assert init[..k] == events[..k];
    }
    assert DeliveredAt(feeds, start, events, |events| - 1);
  }

  lemma QuietPrefix(feeds: Feeds, start: SessionId, events: seq<Event>, m: Ticker)
    requires events != [] && AlwaysRecoversQuietly(feeds, start, events, m)
    ensures var init := events[..|events| - 1];
      && AlwaysRecoversQuietly(feeds, start, init, m)
      && RecoversQuietly(feeds, Run(start, init), events[|events| - 1], m)
  {
    hide RecoversQuietly, Run;
    var init := events[..|events| - 1];
    forall k | 0 <= k < |init| ensures QuietAt(feeds, start, init, m, k) {
      assert QuietAt(feeds, start, events, m, k);
      assert init[..k] == events[..k];
    }
    assert QuietAt(feeds, start, events, m, |events| - 1);
  }

  // ---------------------------------------------------------------------------
  // What recovery withholds from a market
  // ---------------------------------------------------------------------------

  /**
   * The number of the snapshot a market's book was last restored from, and of the snapshot that
   * closed the episode on its stream after that, if one did.
   */
  datatype Restoration = Restoration(at: int, healed: Option<int>)

  ghost function RestorationBy(start: SessionId, events: seq<Event>, m: Ticker): Option<Restoration> {
    if events == [] then None
    else
      var init := events[..|events| - 1];
      WithEvent(RestorationBy(start, init, m), Run(start, init), events[|events| - 1], m)
  }

  ghost function WithEvent(was: Option<Restoration>, r: Recording, e: Event, m: Ticker): Option<Restoration> {
    if !e.FrameEvent? || e.frame.seqNo.None? then was
    else if e.frame.payload.SnapshotMsg? && e.frame.payload.ticker == m then
      Some(Restoration(e.frame.seqNo.value, None))
    else if Heals(r, e.frame, m) && was.Some? then Some(was.value.(healed := e.frame.seqNo))
    else was
  }

  /** The frame closes the episode of the stream a trusted book of the market sits on. */
  ghost predicate Heals(r: Recording, f: Frame, m: Ticker) {
    Handled(r.st, f, r.session).completed && BookOf(r.st.shelf, m).valid &&
        BookOf(r.st.shelf, m).stream == StreamOf(r.st, f.sid)
  }

  /** What the deltas withheld between restoration and completion would have added to one level. */
  function Withheld(feed: Feed, rest: Restoration, m: Ticker, side: Side, price: int): int {
    if rest.healed.Some? && feed.Numbers(rest.at) && feed.Numbers(rest.healed.value)
    then Net(feed, m, rest.at, rest.healed.value, side, price)
    else 0
  }

  /** All that was withheld from the market cancels out. */
  ghost predicate NothingMissed(feed: Feed, rest: Restoration, m: Ticker) {
    forall side, price :: Withheld(feed, rest, m, side, price) == 0
  }

  /** The book is the other one short of what was withheld. */
  ghost predicate Lags(l: Ladders, x: Ladders, feed: Feed, rest: Restoration, m: Ticker) {
    forall side, price :: SizeAt(l, side, price) + Withheld(feed, rest, m, side, price) == SizeAt(x, side, price)
  }

  /** The number a healthy book is up to. */
  function Since(rest: Restoration, lastSeq: int): int {
    if rest.healed.Some? then Max(lastSeq, rest.healed.value) else lastSeq
  }

  // ---------------------------------------------------------------------------
  // The invariant
  // ---------------------------------------------------------------------------

  function BaselineOf(tracker: Streams, id: StreamId): Option<int> {
    if id in tracker then tracker[id].lastSeq else None
  }

  function ArrivedOn(arrived: Arrived, id: StreamId): Option<int> {
    if id in arrived then Some(arrived[id]) else None
  }

  /** A healthy order-book stream has classified everything that arrived on it. */
  ghost predicate Baselined(st: State, arrived: Arrived) {
    forall id | id in st.subs.subs && st.subs.subs[id].channel == OrderbookDelta && !IsDegraded(st.tracker, id) ::
      BaselineOf(st.tracker, id) == ArrivedOn(arrived, id)
  }

  /** The book and its restoration are placed on the stream. */
  ghost predicate Placed(b: BookData, feed: Feed, rest: Option<Restoration>, upTo: int, m: Ticker) {
    && b.lastSeq.Some? && rest.Some? && feed.Numbers(b.lastSeq.value) && feed.Numbers(rest.value.at)
    && rest.value.at <= b.lastSeq.value <= upTo
    && (rest.value.healed.Some? ==> feed.Numbers(rest.value.healed.value) && rest.value.healed.value <= upTo)
    && NoZeros(ExchangeBook(feed, rest.value.at, m))
  }

  /**
   * On a degraded stream the book is still the snapshot it was restored from. On a healthy one it is
   * the exchange's book short of what was withheld, and nothing else has come for the market.
   */
  ghost predicate Follows(b: BookData, feed: Feed, degraded: bool, rest: Restoration, upTo: int, m: Ticker)
    requires Placed(b, feed, Some(rest), upTo, m)
  {
    var p := b.lastSeq.value;
    var since := Since(rest, p);
    if degraded then rest == Restoration(p, None) && b.ladders == ExchangeBook(feed, p, m)
    else Lags(b.ladders, ExchangeBook(feed, since, m), feed, rest, m) && QuietFor(feed, m, since, upTo)
  }

  /** A book restored on a stream follows the exchange's book on that stream. */
  ghost predicate ShowsExchange(b: BookData, id: StreamId, feeds: Feeds, arrived: Arrived, degraded: bool,
                                rest: Option<Restoration>, m: Ticker) {
    && id in feeds && id in arrived && feeds[id].Numbers(arrived[id])
    && Placed(b, feeds[id], rest, arrived[id], m)
    && Follows(b, feeds[id], degraded, rest.value, arrived[id], m)
  }

  ghost predicate AgreesWith(st: State, feeds: Feeds, arrived: Arrived, rest: Option<Restoration>, m: Ticker) {
    var b := BookOf(st.shelf, m);
    b.valid ==>
      && b.stream.Some?
      && m in MarketsOf(st.shelf, b.stream.value)
      && ShowsExchange(b, b.stream.value, feeds, arrived, IsDegraded(st.tracker, b.stream.value), rest, m)
  }

  ghost predicate ArrivedOnUsed(arrived: Arrived, used: set<StreamId>) {
    forall id | id in arrived :: id in used
  }

  // ---------------------------------------------------------------------------
  // Classifying a frame
  // ---------------------------------------------------------------------------

  /** What classifying a later number does on a book stream. */
  lemma LaterNumber(st: State, id: StreamId, f: Frame, arrived: Arrived)
    requires Coupled(st) && id in st.subs.subs && st.subs.subs[id].channel == OrderbookDelta && f.seqNo.Some?
    requires Baselined(st, arrived) && (id in arrived ==> arrived[id] < f.seqNo.value)
    ensures var mid, q := Classified(st, id, f), f.seqNo.value;
      && mid.subs == st.subs && id in mid.tracker && mid.shelf.carried == st.shelf.carried
      && (forall i | i != id :: IsDegraded(mid.tracker, i) == IsDegraded(st.tracker, i)
                             && BaselineOf(mid.tracker, i) == BaselineOf(st.tracker, i))
      && if IsDegraded(st.tracker, id) then
           IsDegraded(mid.tracker, id) && mid.shelf == st.shelf &&
           (GateAt(st, id, f).allowed ==> f.payload.SnapshotMsg?)
         else if id !in arrived || q == arrived[id] + 1 then
           && !IsDegraded(mid.tracker, id) && BaselineOf(mid.tracker, id) == Some(q) && mid.shelf == st.shelf
           && GateAt(st, id, f).allowed
         else
           && IsDegraded(mid.tracker, id) && !GateAt(st, id, f).allowed
           && forall m | m in MarketsOf(st.shelf, id) :: !BookOf(mid.shelf, m).valid
  {
    assert IsDegraded(st.tracker, id) <==> PhaseOf(st.machine, id) != Healthy;
    assert PhaseOf(st.machine, id) == Recovering <==> id in st.machine.episodes;
    hide CarriedOnce, TrackedOnly, Subs.SubsOk, EpisodesOk, Agree;
  }

  /** Classifying a frame touches one stream's numbers and may distrust books. */
  lemma ClassifyElsewhere(st: State, id: StreamId, f: Frame, m: Ticker)
    requires id in st.subs.subs
    ensures var mid := Classified(st, id, f);
      && mid.subs == st.subs && mid.shelf.carried == st.shelf.carried
      && (forall i | i != id :: IsDegraded(mid.tracker, i) == IsDegraded(st.tracker, i)
                             && BaselineOf(mid.tracker, i) == BaselineOf(st.tracker, i))
      && (BookOf(mid.shelf, m).valid ==> BookOf(mid.shelf, m) == BookOf(st.shelf, m))
  {
  }

  // ---------------------------------------------------------------------------
  // Dispatching a delivered message
  // ---------------------------------------------------------------------------

  /** Just before message q of stream `id` is dispatched, the book follows the exchange up to q - 1. */
  ghost predicate ReadyFor(b: BookData, id: StreamId, q: int, feeds: Feeds, degraded: bool,
                           rest: Option<Restoration>, m: Ticker) {
    b.valid && b.stream == Some(id) ==>
      id in feeds && Placed(b, feeds[id], rest, q - 1, m) && Follows(b, feeds[id], degraded, rest.value, q - 1, m)
  }

  /** A book on another stream is not concerned. */
  ghost predicate ShowsElsewhere(b: BookData, id: StreamId, st: State, feeds: Feeds, arrived: Arrived,
                                 rest: Option<Restoration>, m: Ticker) {
    b.valid && b.stream != Some(id) ==>
      && b.stream.Some?
      && m in MarketsOf(st.shelf, b.stream.value)
      && ShowsExchange(b, b.stream.value, feeds, arrived, IsDegraded(st.tracker, b.stream.value), rest, m)
  }

  /** On a degraded stream more numbers change nothing. */
  lemma StillFollows(b: BookData, feed: Feed, rest: Option<Restoration>, upTo: int, further: int, m: Ticker)
    requires Placed(b, feed, rest, upTo, m) && Follows(b, feed, true, rest.value, upTo, m) && upTo <= further
    ensures Placed(b, feed, rest, further, m) && Follows(b, feed, true, rest.value, further, m)
  {
  }

  lemma ClassifyAgrees(st: State, id: StreamId, f: Frame, feeds: Feeds, arrived: Arrived, rest: Option<Restoration>,
      m: Ticker)
    requires Coupled(st) && id in st.subs.subs && st.subs.subs[id].channel == OrderbookDelta && f.seqNo.Some?
    requires Baselined(st, arrived) && (id in arrived ==> arrived[id] < f.seqNo.value)
    requires AgreesWith(st, feeds, arrived, rest, m)
    ensures var mid, b := Classified(st, id, f), BookOf(Classified(st, id, f).shelf, m);
      && ReadyFor(b, id, f.seqNo.value, feeds, IsDegraded(mid.tracker, id), rest, m)
      && ShowsElsewhere(b, id, mid, feeds, arrived, rest, m)
      && (b.valid && b.stream.Some? ==> m in MarketsOf(mid.shelf, b.stream.value))
      && (b.valid ==> b == BookOf(st.shelf, m))
      && (b.valid && b.stream == Some(id) && !GateAt(st, id, f).allowed ==> IsDegraded(mid.tracker, id))
      && (b.valid && b.stream == Some(id) ==> IsDegraded(st.tracker, id) == IsDegraded(mid.tracker, id))
  {
    LaterNumber(st, id, f, arrived);
    ClassifyElsewhere(st, id, f, m);
    hide Coupled, Classified, GateAt, ExchangeBook, QuietFor, Baselined, Placed, Follows;
    var b := BookOf(st.shelf, m);
    if b.valid && b.stream == Some(id) && IsDegraded(st.tracker, id) {
      StillFollows(b, feeds[id], rest, arrived[id], f.seqNo.value - 1, m);
    }
  }

  lemma QuietOneMore(feed: Feed, m: Ticker, p: int, q: int)
    requires feed.Numbers(q) && QuietFor(feed, m, p, q - 1) && !IsDeltaFor(feed.sent[q - feed.base], m)
    ensures QuietFor(feed, m, p, q)
  {
  }

  lemma NextExchangeBook(feed: Feed, q: int, m: Ticker)
    requires feed.Numbers(q)
    ensures var msg := feed.sent[q - feed.base];
      ExchangeBook(feed, q, m) ==
        (if IsDeltaFor(msg, m) then Folded(BookAfterSending(feed, q - feed.base, m), msg.change)
         else BookAfterSending(feed, q - feed.base, m))
    ensures Truthful(feed) && feed.sent[q - feed.base].SnapshotMsg? && feed.sent[q - feed.base].ticker == m ==>
      ExchangeBook(feed, q, m) == Ladders(Load(feed.sent[q - feed.base].yes), Load(feed.sent[q - feed.base].no))
  {
    assert Truthful(feed) ==> TellsTruth(feed, q - feed.base);
  }

  /** A snapshot restores the book as the exchange has it. */
  lemma RestoredFollows(b: BookData, feed: Feed, q: int, degraded: bool, m: Ticker)
    requires Truthful(feed) && feed.Numbers(q) && b.lastSeq == Some(q)
    requires feed.sent[q - feed.base].SnapshotMsg? && feed.sent[q - feed.base].ticker == m
    requires b.ladders == Ladders(Load(feed.sent[q - feed.base].yes), Load(feed.sent[q - feed.base].no))
    ensures Placed(b, feed, Some(Restoration(q, None)), q, m)
    ensures Follows(b, feed, degraded, Restoration(q, None), q, m)
  {
    NextExchangeBook(feed, q, m);
  }

  /** The snapshot that closes the episode leaves the book short of what it withheld. */
  lemma HealedFollows(b: BookData, feed: Feed, rest: Option<Restoration>, q: int, m: Ticker)
    requires Placed(b, feed, rest, q - 1, m) && Follows(b, feed, true, rest.value, q - 1, m) && feed.Numbers(q)
    ensures rest.Some? && Placed(b, feed, Some(rest.value.(healed := Some(q))), q, m)
    ensures Follows(b, feed, false, rest.value.(healed := Some(q)), q, m)
  {
    var p := b.lastSeq.value;
    forall side, price
      ensures SizeAt(b.ladders, side, price) + Withheld(feed, rest.value.(healed := Some(q)), m, side, price)
           == SizeAt(ExchangeBook(feed, q, m), side, price)
    {
      SendingAdds(feed, m, p - feed.base + 1, q - feed.base + 1, side, price);
    }
  }

  /** A message that is no delta for the market changes nothing for its book. */
  lemma PassedOver(b: BookData, feed: Feed, degraded: bool, rest: Option<Restoration>, q: int, m: Ticker)
    requires Placed(b, feed, rest, q - 1, m) && Follows(b, feed, degraded, rest.value, q - 1, m)
    requires feed.Numbers(q) && (degraded || !IsDeltaFor(feed.sent[q - feed.base], m))
    ensures Placed(b, feed, rest, q, m) && Follows(b, feed, degraded, rest.value, q, m)
  {
    hide ExchangeBook, Lags;
    if !degraded {
      QuietOneMore(feed, m, Since(rest.value, b.lastSeq.value), q);
    }
  }

  /** An applied delta carries the book along with the exchange. */
  lemma FoldedFollows(b: BookData, feed: Feed, rest: Option<Restoration>, q: int, m: Ticker, b': BookData)
    requires Placed(b, feed, rest, q - 1, m) && Follows(b, feed, false, rest.value, q - 1, m)
    requires feed.Numbers(q) && IsDeltaFor(feed.sent[q - feed.base], m)
    requires b'.lastSeq == Some(q) && b'.ladders == Folded(b.ladders, feed.sent[q - feed.base].change)
    ensures Placed(b', feed, rest, q, m) && Follows(b', feed, false, rest.value, q, m)
  {
    var c := feed.sent[q - feed.base].change;
    var since := Since(rest.value, b.lastSeq.value);
    var x := ExchangeBook(feed, since, m);
    QuietUpTo(feed, m, since, q);
    NextExchangeBook(feed, q, m);
    hide ExchangeBook, Folded, SizeAt, Withheld, BookAfterSending;
    assert ExchangeBook(feed, q, m) == Folded(x, c);
    forall side, price
      ensures SizeAt(b'.ladders, side, price) + Withheld(feed, rest.value, m, side, price)
           == SizeAt(ExchangeBook(feed, q, m), side, price)
    {
      FoldAdds(b.ladders, c, side, price);
      FoldAdds(x, c, side, price);
    }
  }

  /** What dispatching a snapshot does to one market's book and to the streams' health. */
  lemma SnapshotDispatch(mid: State, f: Frame, session: SessionId, id: StreamId, g: Gate, m: Ticker)
    requires f.payload.SnapshotMsg? && f.seqNo.Some? && id in mid.tracker
    ensures var e := Dispatched(mid, f, session, Some(id), g);
      var b' := BookOf(e.st.shelf, m);
      && (forall i | i != id || !e.completed :: IsDegraded(e.st.tracker, i) == IsDegraded(mid.tracker, i))
      && (e.completed ==> !IsDegraded(e.st.tracker, id))
      && (forall i | m in MarketsOf(mid.shelf, i) :: m in MarketsOf(e.st.shelf, i))
      && if f.payload.ticker != m then b' == BookOf(mid.shelf, m)
         else b'.valid && b'.stream == Some(id) && b'.lastSeq == f.seqNo && m in MarketsOf(e.st.shelf, id)
              && b'.ladders == Ladders(Load(f.payload.yes), Load(f.payload.no))
  {
    hide Load, SnapshotEffect;
  }

  lemma SnapshotAgrees(mid: State, f: Frame, session: SessionId, id: StreamId, g: Gate, feeds: Feeds,
      arrived: Arrived, rest: Option<Restoration>, m: Ticker)
    requires f.payload.SnapshotMsg? && f.seqNo.Some? && id in feeds && Truthful(feeds[id]) && id in mid.tracker
    requires feeds[id].Numbers(f.seqNo.value) && f.payload == feeds[id].sent[f.seqNo.value - feeds[id].base]
    requires var b := BookOf(mid.shelf, m);
      && ReadyFor(b, id, f.seqNo.value, feeds, IsDegraded(mid.tracker, id), rest, m)
      && ShowsElsewhere(b, id, mid, feeds, arrived, rest, m)
      && (b.valid && b.stream.Some? ==> m in MarketsOf(mid.shelf, b.stream.value))
      && (Dispatched(mid, f, session, Some(id), g).completed ==> IsDegraded(mid.tracker, id))
    ensures var e, b := Dispatched(mid, f, session, Some(id), g), BookOf(mid.shelf, m);
      var rest' := if f.payload.ticker == m then Some(Restoration(f.seqNo.value, None))
                   else if e.completed && b.valid && b.stream == Some(id) && rest.Some?
                        then Some(rest.value.(healed := f.seqNo))
                   else rest;
      AgreesWith(e.st, feeds, arrived[id := f.seqNo.value], rest', m)
  {
    hide Dispatched, Load, Placed, Follows, Truthful, MarketsOf, BookOf, IsDegraded;
    var e, q := Dispatched(mid, f, session, Some(id), g), f.seqNo.value;
    var b, b' := BookOf(mid.shelf, m), BookOf(e.st.shelf, m);
    SnapshotDispatch(mid, f, session, id, g, m);
    if f.payload.ticker == m {
      RestoredFollows(b', feeds[id], q, IsDegraded(e.st.tracker, id), m);
    } else if b.valid && b.stream == Some(id) {
      if e.completed {
        HealedFollows(b, feeds[id], rest, q, m);
      } else {
        PassedOver(b, feeds[id], IsDegraded(mid.tracker, id), rest, q, m);
      }
    }
  }

  lemma DeltaAgrees(mid: State, f: Frame, session: SessionId, id: StreamId, g: Gate, feeds: Feeds, arrived: Arrived,
      rest: Option<Restoration>, m: Ticker)
    requires f.payload.DeltaMsg? && f.seqNo.Some? && id in feeds
    requires feeds[id].Numbers(f.seqNo.value) && f.payload == feeds[id].sent[f.seqNo.value - feeds[id].base]
    requires var b := BookOf(mid.shelf, m);
      && ReadyFor(b, id, f.seqNo.value, feeds, IsDegraded(mid.tracker, id), rest, m)
      && ShowsElsewhere(b, id, mid, feeds, arrived, rest, m)
      && (b.valid && b.stream.Some? ==> m in MarketsOf(mid.shelf, b.stream.value))
      && (b.valid && f.payload.ticker == m ==> b.stream == Some(id))
      && (IsDegraded(mid.tracker, id) ==> !g.allowed)
      && (b.valid && b.stream == Some(id) && !g.allowed ==> IsDegraded(mid.tracker, id))
    ensures AgreesWith(Dispatched(mid, f, session, Some(id), g).st, feeds, arrived[id := f.seqNo.value], rest, m)
  {
    var e, q, feed := Dispatched(mid, f, session, Some(id), g), f.seqNo.value, feeds[id];
    var b, b' := BookOf(mid.shelf, m), BookOf(e.st.shelf, m);
    assert e.st.tracker == mid.tracker;
    assert forall i :: m in MarketsOf(mid.shelf, i) ==> m in MarketsOf(e.st.shelf, i);
    var folds := b.valid && b.stream == Some(id) && !IsDegraded(mid.tracker, id) && f.payload.ticker == m;
    assert folds ==> b' == Changed(b, f.payload.change, Some(q), f.atMs, DEFAULT_RETENTION);
    assert folds && b'.valid ==>
      b'.lastSeq == Some(q) && b'.stream == Some(id) && b'.ladders == Folded(b.ladders, f.payload.change);
    assert !folds && b.valid ==> b' == b;
    assert !b.valid ==> !b'.valid;
    hide Dispatched, Changed, Placed, Follows, MarketsOf, BookOf, Folded;
    if b.valid && b.stream == Some(id) {
      if folds {
        if b'.valid {
          FoldedFollows(b, feed, rest, q, m, b');
        }
      } else {
        PassedOver(b, feed, IsDegraded(mid.tracker, id), rest, q, m);
      }
    }
  }

  lemma QuietUpTo(feed: Feed, m: Ticker, p: int, q: int)
    requires feed.Numbers(p) && feed.Numbers(q) && p < q && QuietFor(feed, m, p, q - 1)
    ensures ExchangeBook(feed, p, m) == BookAfterSending(feed, q - feed.base, m)
  {
    QuietKeepsTheBook(feed, m, p, q - 1);
  }

  // ---------------------------------------------------------------------------
  // One event
  // ---------------------------------------------------------------------------

  ghost predicate Agreeing(r: Recording, feeds: Feeds, arrived: Arrived, rest: Option<Restoration>, m: Ticker) {
    && Baselined(r.st, arrived)
    && AgreesWith(r.st, feeds, arrived, rest, m)
    && ArrivedOnUsed(arrived, r.used)
  }

  /** Book messages only come on the stream that carries their market. */
  lemma BookMessagesAtHome(r: Recording, f: Frame, m: Ticker)
    requires FrameAtHome(r.st, f) && CarriedAtHome(r, m)
    ensures !f.payload.OtherMsg? ==> OnBookStream(r.st, f.sid) && f.seqNo.Some?
    ensures !f.payload.OtherMsg? && f.payload.ticker == m && BookOf(r.st.shelf, m).valid ==>
      BookOf(r.st.shelf, m).stream == StreamOf(r.st, f.sid)
  {
    var b := BookOf(r.st.shelf, m);
    if !f.payload.OtherMsg? && f.payload.ticker == m && b.valid {
      assert Subs.Carries(r.st.subs, b.stream.value, m, OrderbookDelta);
      assert Subs.Carries(r.st.subs, StreamOf(r.st, f.sid).value, m, OrderbookDelta);
    }
  }

  lemma DispatchedBaseline(mid: State, f: Frame, session: SessionId, id: StreamId, g: Gate, arrived: Arrived)
    requires f.seqNo.Some? && id in mid.tracker
    requires !IsDegraded(mid.tracker, id) ==> BaselineOf(mid.tracker, id) == f.seqNo
    requires forall i | i != id && i in mid.subs.subs && mid.subs.subs[i].channel == OrderbookDelta &&
        !IsDegraded(mid.tracker, i) ::
      BaselineOf(mid.tracker, i) == ArrivedOn(arrived, i)
    ensures Baselined(Dispatched(mid, f, session, Some(id), g).st, arrived[id := f.seqNo.value])
  {
    var e := Dispatched(mid, f, session, Some(id), g);
    assert e.st.subs == mid.subs;
    assert e.st.tracker == mid.tracker || e.st.tracker == AfterRecovery(mid.tracker, id, f.seqNo);
    assert forall i | i != id :: IsDegraded(e.st.tracker, i) == IsDegraded(mid.tracker, i)
                              && BaselineOf(e.st.tracker, i) == BaselineOf(mid.tracker, i);
  }

  lemma HandledOnBookStream(st: State, f: Frame, session: SessionId)
    requires OnBookStream(st, f.sid)
    ensures var id := StreamOf(st, f.sid).value;
      var e, d := Handled(st, f, session), Dispatched(Classified(st, id, f), f, session, Some(id), GateAt(st, id, f));
      e.st == d.st && e.completed == d.completed
  {
    hide Classified, GateAt, Dispatched, GapRows;
  }

  /** An episode a frame has just opened still waits for every market but its own. */
  lemma StillWaiting(st: State, f: Frame, id: StreamId, m: Ticker)
    requires EpisodesOk(st.machine) && PhaseOf(st.machine, id) == Healthy && id in st.subs.subs
    requires f.payload.SnapshotMsg? && f.payload.ticker != m && m in MarketsOf(st.shelf, id)
    ensures !SnapshotEffect(Classified(st, id, f).machine, id, f.payload.ticker).completed
  {
    assert id !in st.machine.episodes;
    assert m in MembersOf(MarketsOf(st.shelf, id));
    hide EpisodesOk;
  }

  /** Another market's snapshot closes an episode past a trusted book only on a stream already degraded. */
  lemma HealthyDoesNotComplete(st: State, f: Frame, session: SessionId, id: StreamId, m: Ticker)
    requires Coupled(st) && StreamOf(st, f.sid) == Some(id) && f.payload.SnapshotMsg? && f.payload.ticker != m
    requires !IsDegraded(st.tracker, id) && m in MarketsOf(st.shelf, id)
    ensures !Handled(st, f, session).completed
  {
    assert PhaseOf(st.machine, id) == Recovering <==> id in st.machine.episodes;
    assert IsDegraded(st.tracker, id) <==> PhaseOf(st.machine, id) != Healthy;
    hide Coupled, Classified, GateAt, GapRows;
    StillWaiting(st, f, id, m);
  }

  /** An episode is closed only on a stream that was degraded until then. */
  lemma CompletesDegraded(st: State, id: StreamId, f: Frame, session: SessionId)
    requires Coupled(st) && id in st.subs.subs && st.subs.subs[id].channel == OrderbookDelta
    ensures var mid := Classified(st, id, f);
      Dispatched(mid, f, session, Some(id), GateAt(st, id, f)).completed ==> IsDegraded(mid.tracker, id)
  {
    ClassifiedStaysCoupled(st, id, f);
    hide Classified, GateAt, CarriedOnce, TrackedOnly, Subs.SubsOk;
    var mid := Classified(st, id, f);
    assert PhaseOf(mid.machine, id) == Recovering <==> id in mid.machine.episodes;
    assert IsDegraded(mid.tracker, id) <==> PhaseOf(mid.machine, id) != Healthy;
  }

  /** Where the restoration stands after a snapshot on a book stream. */
  lemma RestorationAfter(r: Recording, id: StreamId, f: Frame, rest: Option<Restoration>, arrived: Arrived, m: Ticker)
    requires Coupled(r.st) && StreamOf(r.st, f.sid) == Some(id) && r.st.subs.subs[id].channel == OrderbookDelta
    requires f.seqNo.Some? && Baselined(r.st, arrived) && (id in arrived ==> arrived[id] < f.seqNo.value)
    requires BookOf(r.st.shelf, m).valid && BookOf(r.st.shelf, m).stream.Some? ==>
      m in MarketsOf(r.st.shelf, BookOf(r.st.shelf, m).stream.value)
    ensures var mid, completed := Classified(r.st, id, f), Handled(r.st, f, r.session).completed;
      var b := BookOf(mid.shelf, m);
      WithEvent(rest, r, FrameEvent(f), m) ==
        if f.payload.SnapshotMsg? && f.payload.ticker == m then Some(Restoration(f.seqNo.value, None))
        else if completed && b.valid && b.stream == Some(id) && rest.Some? then Some(rest.value.(healed := f.seqNo))
        else rest
  {
    LaterNumber(r.st, id, f, arrived);
    ClassifyElsewhere(r.st, id, f, m);
    if Handled(r.st, f, r.session).completed {
      OtherHealsNothing(r, f, m);
      if f.payload.ticker != m && !IsDegraded(r.st.tracker, id) && m in MarketsOf(r.st.shelf, id) {
        HealthyDoesNotComplete(r.st, f, r.session, id, m);
      }
    }
    hide Coupled, Classified, GateAt, Handled, Baselined, MarketsOf, IsDegraded;
  }

  /** A message delivered on a book stream keeps the agreement. */
  lemma BookFrameAgrees(r: Recording, f: Frame, feeds: Feeds, arrived: Arrived, rest: Option<Restoration>,
      m: Ticker)
    requires Coupled(r.st) && CarriedAtHome(r, m) && FrameAtHome(r.st, f) && Agreeing(r, feeds, arrived, rest, m)
    requires OnBookStream(r.st, f.sid) && Delivered(feeds, arrived, r.st, FrameEvent(f))
    ensures var st' := Handled(r.st, f, r.session).st;
      var arrived' := WithArrival(arrived, r.st, FrameEvent(f));
      Baselined(st', arrived') && AgreesWith(st', feeds, arrived', WithEvent(rest, r, FrameEvent(f), m), m)
  {
    hide Handled, Coupled, CarriedAtHome, Classified, GateAt, Dispatched, ReadyFor, ShowsElsewhere, FrameAtHome;
    hide ShowsExchange, Truthful, IsDegraded, BookOf, MarketsOf, WithEvent, Baselined, BaselineOf;
    var id := StreamOf(r.st, f.sid).value;
    var q := f.seqNo.value;
    var mid, g := Classified(r.st, id, f), GateAt(r.st, id, f);
    TruthIsBookish(feeds[id], q);
    HandledOnBookStream(r.st, f, r.session);
    BookMessagesAtHome(r, f, m);
    LaterNumber(r.st, id, f, arrived);
    ClassifyAgrees(r.st, id, f, feeds, arrived, rest, m);
    CompletesDegraded(r.st, id, f, r.session);
    RestorationAfter(r, id, f, rest, arrived, m);
    hide AgreesWith;
    BaselineAfter(r.st, f, r.session, id, arrived);
    if f.payload.SnapshotMsg? {
      SnapshotAgrees(mid, f, r.session, id, g, feeds, arrived, rest, m);
    } else {
      OnlySnapshotsComplete(mid, f, r.session, id, g);
      DeltaAgrees(mid, f, r.session, id, g, feeds, arrived, rest, m);
    }
  }

  lemma TruthIsBookish(feed: Feed, q: int)
    requires Truthful(feed) && feed.Numbers(q)
    ensures !feed.sent[q - feed.base].OtherMsg?
  {
    assert TellsTruth(feed, q - feed.base);
  }

  lemma OnlySnapshotsComplete(mid: State, f: Frame, session: SessionId, id: StreamId, g: Gate)
    ensures Dispatched(mid, f, session, Some(id), g).completed ==> f.payload.SnapshotMsg?
  {
  }

  lemma BaselineAfter(st: State, f: Frame, session: SessionId, id: StreamId, arrived: Arrived)
    requires Coupled(st) && OnBookStream(st, f.sid) && StreamOf(st, f.sid) == Some(id) && f.seqNo.Some?
    requires Baselined(st, arrived) && (id in arrived ==> arrived[id] < f.seqNo.value)
    ensures Baselined(Dispatched(Classified(st, id, f), f, session, Some(id), GateAt(st, id, f)).st,
                      arrived[id := f.seqNo.value])
  {
    hide Coupled, Classified, GateAt, Dispatched, IsDegraded, BaselineOf;
    LaterNumber(st, id, f, arrived);
    DispatchedBaseline(Classified(st, id, f), f, session, id, GateAt(st, id, f), arrived);
  }

  /** Any other frame at most distrusts books. */
  lemma OtherFrameAgrees(r: Recording, f: Frame, feeds: Feeds, arrived: Arrived, rest: Option<Restoration>,
      m: Ticker)
    requires CarriedAtHome(r, m) && FrameAtHome(r.st, f) && Agreeing(r, feeds, arrived, rest, m)
    requires !OnBookStream(r.st, f.sid)
    ensures Baselined(Handled(r.st, f, r.session).st, arrived) &&
        AgreesWith(Handled(r.st, f, r.session).st, feeds, arrived, rest, m)
    ensures WithEvent(rest, r, FrameEvent(f), m) == rest
  {
    BookMessagesAtHome(r, f, m);
    var stream := StreamOf(r.st, f.sid);
    assert f.payload.OtherMsg?;
    OtherNeverCompletes(r.st, f, r.session);
    if IsClassified(r.st, stream) {
      ClassifyElsewhere(r.st, stream.value, f, m);
      assert Handled(r.st, f, r.session).st == Classified(r.st, stream.value, f);
      hide Handled, Classified, ShowsExchange;
    }
  }

  lemma OtherNeverCompletes(st: State, f: Frame, session: SessionId)
    requires f.payload.OtherMsg?
    ensures !Handled(st, f, session).completed
  {
    hide Classified, GateAt, GapRows;
  }

  lemma FrameAgrees(r: Recording, f: Frame, feeds: Feeds, arrived: Arrived, rest: Option<Restoration>,
      m: Ticker)
    requires Coupled(r.st) && IdsUsed(r) && CarriedAtHome(r, m) && FrameAtHome(r.st, f) &&
        Agreeing(r, feeds, arrived, rest, m)
    requires Delivered(feeds, arrived, r.st, FrameEvent(f))
    ensures Agreeing(Step(r, FrameEvent(f)), feeds, WithArrival(arrived, r.st, FrameEvent(f)),
                     WithEvent(rest, r, FrameEvent(f), m), m)
  {
    hide Handled, Coupled, CarriedAtHome, FrameAtHome, Baselined, AgreesWith, WithEvent;
    if OnBookStream(r.st, f.sid) {
      BookFrameAgrees(r, f, feeds, arrived, rest, m);
    } else {
      OtherFrameAgrees(r, f, feeds, arrived, rest, m);
    }
  }

  /** Opening streams leaves the others, and every book, as they were; the new ones are unnumbered. */
  ghost predicate OpensQuietly(r: Recording, st': State, m: Ticker) {
    && st'.shelf.books == r.st.shelf.books
    && (forall id | m in MarketsOf(r.st.shelf, id) :: m in MarketsOf(st'.shelf, id))
    && (forall id :: IsDegraded(st'.tracker, id) == IsDegraded(r.st.tracker, id)
                     && BaselineOf(st'.tracker, id) == BaselineOf(r.st.tracker, id))
    && (forall id | id in st'.subs.subs ::
          if id in r.st.subs.subs then st'.subs.subs[id].channel == r.st.subs.subs[id].channel
          else id !in r.used && BaselineOf(st'.tracker, id) == None)
  }

  lemma OpenedQuietly(r: Recording, subs: Subs.SubState, channel: Channel, slices: seq<seq<Ticker>>,
                      ids: seq<Subs.NewIds>, m: Ticker)
    requires MayOpen(r, subs, slices, ids)
    ensures OpensQuietly(r, Opened(r, subs, channel, slices, ids).st, m)
  {
    var st := r.st.(subs := subs);
    var st' := WithShardsOpen(st, channel, slices, ids, |slices|);
    KnownStay(r.st.subs, subs);
    hide Subs.SubsOk, EpisodesOk, Agree, CarriedOnce, WithShardsOpen;
    OpeningStaysCoupled(st, channel, slices, ids, |slices|);
    OpeningKeepsCarried(st, channel, slices, ids, |slices|, m);
    forall id ensures IsDegraded(st'.tracker, id) == IsDegraded(r.st.tracker, id)
                   && BaselineOf(st'.tracker, id) == BaselineOf(r.st.tracker, id)
    {
      assert id in r.st.tracker || id !in r.st.tracker;
    }
    forall id | id in st'.subs.subs && id !in r.st.subs.subs
      ensures id !in r.used && BaselineOf(st'.tracker, id) == None
    {
      assert id !in r.st.tracker;
      var i :| 0 <= i < |ids| && ids[i].stream == id;
    }
  }

  lemma QuietOpeningAgrees(r: Recording, r': Recording, feeds: Feeds, arrived: Arrived, rest: Option<Restoration>,
      m: Ticker)
    requires Agreeing(r, feeds, arrived, rest, m) && OpensQuietly(r, r'.st, m) && r.used <= r'.used
    ensures Agreeing(r', feeds, arrived, rest, m)
  {
    hide ShowsExchange, IsDegraded, BaselineOf, MarketsOf;
    assert BookOf(r'.st.shelf, m) == BookOf(r.st.shelf, m);
  }

  lemma OpeningAgrees(r: Recording, e: Event, feeds: Feeds, arrived: Arrived, rest: Option<Restoration>,
      m: Ticker)
    requires Coupled(r.st) && IdsUsed(r) && Fresh(r, e) && (e.SubscribeEvent? || e.AddEvent?)
    requires Agreeing(r, feeds, arrived, rest, m)
    ensures Agreeing(Step(r, e), feeds, arrived, rest, m)
  {
    hide Coupled, IdsUsed, MayOpen, Agreeing, OpensQuietly, WithShardsOpen;
    match e
    case SubscribeEvent(channel, markets, ids) =>
      if EnoughIds(markets, ids) {
        SubscribeMayOpen(r, channel, markets, ids);
        OpenedQuietly(r, Subs.Subscribed(r.st.subs, channel, markets, MARKETS_PER_SUBSCRIPTION, ids), channel,
                      Subs.Slices(markets, MARKETS_PER_SUBSCRIPTION), ids, m);
        QuietOpeningAgrees(r, Step(r, e), feeds, arrived, rest, m);
      }
    case AddEvent(channel, markets, ids) =>
      if EnoughIdsToAdd(r.st.subs, channel, markets, ids) {
        if r.st.subs.order != [] {
          AddMayOpen(r, channel, markets, ids);
          OpenedQuietly(r, Subs.Added(r.st.subs, channel, markets, MARKETS_PER_SUBSCRIPTION, ids), channel,
                        Unassociated(Subs.NewShards(r.st.subs, channel, markets, MARKETS_PER_SUBSCRIPTION)), ids, m);
        } else {
          NothingOpens(r, m);
        }
        QuietOpeningAgrees(r, Step(r, e), feeds, arrived, rest, m);
      }
  }

  lemma NothingOpens(r: Recording, m: Ticker)
    ensures OpensQuietly(r, r.st, m)
  {
  }

  /** A market that leaves has no book; the others keep theirs, and no stream's numbering changes. */
  lemma RemovalAgrees(r: Recording, markets: seq<Ticker>, drops: seq<(Ticker, StreamId)>, feeds: Feeds,
                      arrived: Arrived, rest: Option<Restoration>, m: Ticker)
    requires Coupled(r.st) && Agreeing(r, feeds, arrived, rest, m)
    ensures Agreeing(Step(r, RemoveEvent(markets, drops)), feeds, arrived, rest, m)
  {
    if r.st.subs.order != [] {
      DroppingKeepsSubs(r.st.subs, drops);
      ForgettingIs(r.st.shelf, markets);
      hide Coupled, ShowsExchange, Subs.DroppedAll, ForgottenAll, IsDegraded, BaselineOf, MarketsOf;
      var st' := AfterRemove(r.st, markets, drops);
      forall id | id in st'.subs.subs
        ensures id in r.st.subs.subs && st'.subs.subs[id].channel == r.st.subs.subs[id].channel
      {
        assert id in st'.subs.subs.Keys;
      }
      assert BookOf(st'.shelf, m) == if m in TickerSet(markets) then NewBook(m) else BookOf(r.st.shelf, m);
    }
  }

  lemma {:induction false} OpeningKeepsCarried(
      st: State, channel: Channel, slices: seq<seq<Ticker>>, ids: seq<Subs.NewIds>, n: nat, m: Ticker)
    requires n <= |slices| <= |ids|
    ensures forall id | m in MarketsOf(st.shelf, id) ::
        m in MarketsOf(WithShardsOpen(st, channel, slices, ids, n).shelf, id)
  {
    if n > 0 {
      OpeningKeepsCarried(st, channel, slices, ids, n - 1, m);
      OpenOneMore(st, channel, slices, ids, n);
      AssociatingKeepsCarried(WithShardsOpen(st, channel, slices, ids, n - 1).shelf, ids[n - 1].stream,
          slices[n - 1], m);
    }
  }

  lemma {:induction false} AssociatingKeepsCarried(s: Shelf, id: StreamId, ts: seq<Ticker>, m: Ticker)
    ensures forall i | m in MarketsOf(s, i) :: m in MarketsOf(AssociatedAll(s, id, ts), i)
  {
    if ts != [] {
      AssociatingKeepsCarried(s, id, ts[..|ts| - 1], m);
    }
  }

  lemma BindAgrees(r: Recording, command: Option<int>, sid: int, channel: Channel, feeds: Feeds, arrived: Arrived,
      rest: Option<Restoration>, m: Ticker)
    requires Coupled(r.st) && Agreeing(r, feeds, arrived, rest, m)
    ensures Agreeing(Step(r, BindEvent(command, sid, channel)), feeds, arrived, rest, m)
  {
    var subs' := Subs.Bound(r.st.subs, command, sid, channel);
    Subs.BindKeepsAll(r.st.subs, command, sid, channel);
    hide Coupled, ShowsExchange;
    forall id | id in subs'.subs
      ensures id in r.st.subs.subs && subs'.subs[id].channel == r.st.subs.subs[id].channel
    {
      assert id in subs'.subs.Keys;
    }
  }

  lemma StepAgrees(r: Recording, e: Event, feeds: Feeds, arrived: Arrived, rest: Option<Restoration>,
      m: Ticker)
    requires Coupled(r.st) && IdsUsed(r) && CarriedAtHome(r, m) && Legal(r, e) && Agreeing(r, feeds, arrived, rest, m)
    requires Delivered(feeds, arrived, r.st, e)
    ensures Agreeing(Step(r, e), feeds, WithArrival(arrived, r.st, e), WithEvent(rest, r, e, m), m)
  {
    match e
    case FrameEvent(f) =>
      hide Agreeing, Coupled;
      FrameAgrees(r, f, feeds, arrived, rest, m);
    case SubscribeEvent(_, _, _) =>
      hide Agreeing, Coupled;
      OpeningAgrees(r, e, feeds, arrived, rest, m);
    case AddEvent(_, _, _) =>
      hide Agreeing, Coupled;
      OpeningAgrees(r, e, feeds, arrived, rest, m);
    case RemoveEvent(markets, drops) =>
      hide Agreeing, Coupled;
      RemovalAgrees(r, markets, drops, feeds, arrived, rest, m);
    case BindEvent(command, sid, channel) =>
      hide Agreeing, Coupled;
      BindAgrees(r, command, sid, channel, feeds, arrived, rest, m);
    case ReapEvent(_) =>
      hide Coupled;
    case SampleEvent(_, _) =>
      hide Coupled;
    case DisconnectEvent =>
      hide Coupled, CarriedAtHome;
      NothingTrusted(r.st, m);
    case RestartEvent(_) =>
      hide Coupled, CarriedAtHome;
  }

  lemma NothingTrusted(st: State, m: Ticker)
    ensures !BookOf(AfterDisconnect(st).shelf, m).valid
  {
  }

  /** In every run fed by an exchange, streams stay baselined and trusted books stay in agreement. */
  lemma {:induction false} RunAgrees(start: SessionId, events: seq<Event>, feeds: Feeds, m: Ticker)
    requires LegalRun(start, events) && AllDelivered(feeds, start, events)
    ensures Agreeing(Run(start, events), feeds, ArrivedBy(start, events), RestorationBy(start, events, m), m)
    decreases |events|
  {
    hide Coupled, Agreeing, Step, Legal, RowsOk, AllDelivered, Delivered;
    if events == [] {
      NothingAgreed(start, feeds, m);
    } else {
      var init := events[..|events| - 1];
      DeliveredPrefix(feeds, start, events);
      LegalPrefix(start, events);
      RunAgrees(start, init, feeds, m);
      LegalIsFresh(start, init);
      MachinesStayCoupled(start, init);
      RowsAreFaithful(start, init, m);
      RowsOkIsHome(Run(start, init), m);
      StepAgrees(Run(start, init), events[|events| - 1], feeds, ArrivedBy(start, init),
                 RestorationBy(start, init, m), m);
    }
  }

  lemma RowsOkIsHome(r: Recording, m: Ticker)
    requires RowsOk(r, m)
    ensures CarriedAtHome(r, m)
  {
  }

  lemma NothingAgreed(start: SessionId, feeds: Feeds, m: Ticker)
    ensures Agreeing(Begin(start), feeds, map[], None, m)
  {
  }

  // ---------------------------------------------------------------------------
  // Exchange agreement
  // ---------------------------------------------------------------------------

  /** What a trusted book is, and where it stands, in any run fed by an exchange. */
  ghost predicate Stands(r: Recording, feeds: Feeds, arrived: Arrived, rest: Option<Restoration>, m: Ticker)
  {
    var b := BookOf(r.st.shelf, m);
    && b.stream.Some? && b.stream.value in r.st.subs.subs && b.stream.value in feeds && b.lastSeq.Some? && rest.Some?
    && var id, feed := b.stream.value, feeds[b.stream.value];
    && feed.Numbers(b.lastSeq.value) && feed.Numbers(rest.value.at) && rest.value.at <= b.lastSeq.value
    && (!IsDegraded(r.st.tracker, id) ==>
          && BaselineOf(r.st.tracker, id).Some? && feed.Numbers(BaselineOf(r.st.tracker, id).value)
          && ArrivedOn(arrived, id) == BaselineOf(r.st.tracker, id))
  }

  /**
   * A healthy book is the exchange's book as of the last number that arrived exactly when what was
   * withheld from it cancels out.
   */
  lemma AgreesExactly(b: BookData, feed: Feed, rest: Restoration, upTo: int, m: Ticker)
    requires feed.Numbers(upTo) && Placed(b, feed, Some(rest), upTo, m) && Follows(b, feed, false, rest, upTo, m)
    requires NoZeros(b.ladders)
    ensures b.ladders == ExchangeBook(feed, upTo, m) <==> NothingMissed(feed, rest, m)
  {
    var x, since := ExchangeBook(feed, upTo, m), Since(rest, b.lastSeq.value);
    QuietKeepsTheBook(feed, m, since, upTo);
    SendingKeepsNoZeros(feed, m, rest.at - feed.base + 1, upTo - feed.base + 1);
    hide SizeAt, Withheld, ExchangeBook, NoZeros, QuietFor;
    assert Lags(b.ladders, x, feed, rest, m);
    if b.ladders == x {
      forall side, price ensures Withheld(feed, rest, m, side, price) == 0 {
        assert SizeAt(b.ladders, side, price) + Withheld(feed, rest, m, side, price) == SizeAt(x, side, price);
      }
    }
    if NothingMissed(feed, rest, m) {
      forall side, price ensures SizeAt(b.ladders, side, price) == SizeAt(x, side, price) {
        assert Withheld(feed, rest, m, side, price) == 0;
      }
      SameSizesSameBook(b.ladders, x);
    }
  }

  /**
   * Over every run fed by an exchange, however its recoveries go: on a degraded stream a trusted book
   * is the exchange's book as of its own last number. On a healthy one it is the exchange's book as of
   * the tracker's number if and only if the deltas withheld from it - those numbered after the snapshot
   * it was restored from, up to the one that closed the episode - cancel out.
   */
  lemma TrustedBooksAgreeExactly(start: SessionId, events: seq<Event>, feeds: Feeds, m: Ticker)
    requires LegalRun(start, events) && AllDelivered(feeds, start, events)
    ensures var r, rest := Run(start, events), RestorationBy(start, events, m);
      var b := BookOf(r.st.shelf, m);
      b.valid ==>
        && Stands(r, feeds, ArrivedBy(start, events), rest, m)
        && var id, feed := b.stream.value, feeds[b.stream.value];
        if IsDegraded(r.st.tracker, id) then b.ladders == ExchangeBook(feed, b.lastSeq.value, m)
        else
          b.ladders == ExchangeBook(feed, BaselineOf(r.st.tracker, id).value, m) <==> NothingMissed(feed, rest.value, m)
  {
    var r, rest, arrived := Run(start, events), RestorationBy(start, events, m), ArrivedBy(start, events);
    var b := BookOf(r.st.shelf, m);
    RunAgrees(start, events, feeds, m);
    RowsAreFaithful(start, events, m);
    RowsOkIsHome(r, m);
    assert NoZeros(b.ladders) by { RowsOkNoZeros(r, m); }
    hide RowsOk, ExchangeBook, QuietFor, LegalRun, AllDelivered, Run, ArrivedBy, RestorationBy, NoZeros, NothingMissed,
        Lags;
    if b.valid {
      var id := b.stream.value;
      assert Subs.Carries(r.st.subs, id, m, OrderbookDelta);
      if !IsDegraded(r.st.tracker, id) {
        AgreesExactly(b, feeds[id], rest.value, arrived[id], m);
      }
    }
  }

  lemma RowsOkNoZeros(r: Recording, m: Ticker)
    requires RowsOk(r, m)
    ensures NoZeros(BookOf(r.st.shelf, m).ladders)
  {
  }

  /** With quiet recoveries nothing was withheld from a trusted book. */
  ghost predicate WithheldNothing(st: State, feeds: Feeds, rest: Option<Restoration>, m: Ticker) {
    var b := BookOf(st.shelf, m);
    b.valid && b.stream.Some? && b.stream.value in feeds && rest.Some? && rest.value.healed.Some? ==>
      QuietFor(feeds[b.stream.value], m, rest.value.at, rest.value.healed.value)
  }

  /** A trusted book was trusted before, on the same stream, or has just been restored. */
  lemma StaysTrusted(r: Recording, e: Event, m: Ticker)
    requires Coupled(r.st) && IdsUsed(r) && Fresh(r, e)
    ensures var b, b' := BookOf(r.st.shelf, m), BookOf(Step(r, e).st.shelf, m);
      b'.valid ==>
        || (b.valid && b'.stream == b.stream)
        || (e.FrameEvent? && e.frame.payload.SnapshotMsg? && e.frame.payload.ticker == m)
  {
    hide Coupled, IdsUsed, Handled, Opened, MayOpen, AfterSubscribe, AfterAdd;
    match e
    case FrameEvent(f) =>
      FrameBookStream(r.st, f, r.session, m);
    case SubscribeEvent(_, _, _) =>
      OpeningKeepsBooks(r, e);
    case AddEvent(_, _, _) =>
      OpeningKeepsBooks(r, e);
    case RemoveEvent(markets, drops) =>
      ForgettingIs(r.st.shelf, markets);
    case DisconnectEvent =>
      NothingTrusted(r.st, m);
    case BindEvent(_, _, _) =>
    case ReapEvent(_) =>
    case SampleEvent(_, _) =>
    case RestartEvent(_) =>
  }

  /** Only a snapshot closes an episode. */
  lemma OtherHealsNothing(r: Recording, f: Frame, m: Ticker)
    requires Handled(r.st, f, r.session).completed
    ensures f.payload.SnapshotMsg?
  {
    hide Classified, GateAt, GapRows, RecoveryEffect;
  }

  lemma QuietStep(r: Recording, e: Event, feeds: Feeds, arrived: Arrived, rest: Option<Restoration>, m: Ticker)
    requires Coupled(r.st) && IdsUsed(r) && CarriedAtHome(r, m) && Legal(r, e) && Agreeing(r, feeds, arrived, rest, m)
    requires RecoversQuietly(feeds, r, e, m) && WithheldNothing(r.st, feeds, rest, m)
    ensures WithheldNothing(Step(r, e).st, feeds, WithEvent(rest, r, e, m), m)
  {
    StaysTrusted(r, e, m);
    if e.FrameEvent? && e.frame.seqNo.Some? && Heals(r, e.frame, m) && rest.Some? {
      OtherHealsNothing(r, e.frame, m);
      var id := StreamOf(r.st, e.frame.sid);
      if e.frame.payload.ticker != m && id.Some? && !IsDegraded(r.st.tracker, id.value) {
        HealthyDoesNotComplete(r.st, e.frame, r.session, id.value, m);
      }
    }
    hide Coupled, IdsUsed, Handled, QuietFor, Lags, ExchangeBook, Step;
  }

  lemma {:induction false} QuietWithholdsNothing(start: SessionId, events: seq<Event>, feeds: Feeds, m: Ticker)
    requires LegalRun(start, events) && AllDelivered(feeds, start, events) &&
        AlwaysRecoversQuietly(feeds, start, events, m)
    ensures WithheldNothing(Run(start, events).st, feeds, RestorationBy(start, events, m), m)
    decreases |events|
  {
    hide Coupled, Agreeing, Step, Legal, RowsOk, AllDelivered, AlwaysRecoversQuietly, Delivered, RecoversQuietly;
    if events != [] {
      var init := events[..|events| - 1];
      DeliveredPrefix(feeds, start, events);
      QuietPrefix(feeds, start, events, m);
      LegalPrefix(start, events);
      QuietWithholdsNothing(start, init, feeds, m);
      RunAgrees(start, init, feeds, m);
      LegalIsFresh(start, init);
      MachinesStayCoupled(start, init);
      RowsAreFaithful(start, init, m);
      RowsOkIsHome(Run(start, init), m);
      QuietStep(Run(start, init), events[|events| - 1], feeds, ArrivedBy(start, init), RestorationBy(start, init, m),
                m);
    }
  }

  /**
   * With quiet recoveries a trusted book shows the exchange's book as of its own last number, and on a
   * healthy stream also as of the last number the tracker has seen there, with nothing arrived beyond it.
   */
  lemma TrustedBooksAgree(start: SessionId, events: seq<Event>, feeds: Feeds, m: Ticker)
    requires LegalRun(start, events) && AllDelivered(feeds, start, events) &&
        AlwaysRecoversQuietly(feeds, start, events, m)
    ensures var r := Run(start, events);
      var b := BookOf(r.st.shelf, m);
      b.valid ==>
        && b.stream.Some? && b.stream.value in r.st.subs.subs && b.stream.value in feeds && b.lastSeq.Some?
        && var id, feed := b.stream.value, feeds[b.stream.value];
        && feed.Numbers(b.lastSeq.value) && b.ladders == ExchangeBook(feed, b.lastSeq.value, m)
        && (!IsDegraded(r.st.tracker, id) ==>
              && BaselineOf(r.st.tracker, id).Some? && feed.Numbers(BaselineOf(r.st.tracker, id).value)
              && ArrivedOn(ArrivedBy(start, events), id) == BaselineOf(r.st.tracker, id)
              && b.ladders == ExchangeBook(feed, BaselineOf(r.st.tracker, id).value, m))
  {
    var r, rest, arrived := Run(start, events), RestorationBy(start, events, m), ArrivedBy(start, events);
    var b := BookOf(r.st.shelf, m);
    RunAgrees(start, events, feeds, m);
    TrustedBooksAgreeExactly(start, events, feeds, m);
    QuietWithholdsNothing(start, events, feeds, m);
    hide ExchangeBook, QuietFor, LegalRun, AllDelivered, AlwaysRecoversQuietly, Run, ArrivedBy, RestorationBy, Lags;
    if b.valid && !IsDegraded(r.st.tracker, b.stream.value) {
      NothingWithheldNothingMissed(b, feeds[b.stream.value], rest.value, arrived[b.stream.value], m);
    }
  }

  lemma NothingWithheldNothingMissed(b: BookData, feed: Feed, rest: Restoration, upTo: int, m: Ticker)
    requires feed.Numbers(upTo) && Placed(b, feed, Some(rest), upTo, m) && Follows(b, feed, false, rest, upTo, m)
    requires rest.healed.Some? ==> QuietFor(feed, m, rest.at, rest.healed.value)
    ensures NothingMissed(feed, rest, m)
    ensures ExchangeBook(feed, b.lastSeq.value, m) == ExchangeBook(feed, upTo, m)
  {
    if rest.healed.Some? {
      forall side, price ensures Withheld(feed, rest, m, side, price) == 0 {
        QuietAddsNothing(feed, m, rest.at, rest.healed.value, side, price);
      }
    }
    hide ExchangeBook, Lags;
    QuietKeepsTheBook(feed, m, b.lastSeq.value, upTo);
  }

  /**
   * The moment that decides: the snapshot that closes an episode makes the stream healthy at its own
   * number q but leaves every other book where it was, so a book restored at p agrees with the
   * exchange at q exactly when the deltas numbered in (p, q] cancel out.
   */
  lemma CompletionAgreesExactly(r: Recording, f: Frame, feeds: Feeds, arrived: Arrived, rest: Option<Restoration>,
      m: Ticker)
    requires Coupled(r.st) && OnBookStream(r.st, f.sid) && Delivered(feeds, arrived, r.st, FrameEvent(f))
    requires Agreeing(r, feeds, arrived, rest, m) && NoZeros(BookOf(r.st.shelf, m).ladders)
    requires Handled(r.st, f, r.session).completed && f.payload.ticker != m
    requires BookOf(r.st.shelf, m).valid && BookOf(r.st.shelf, m).stream == StreamOf(r.st, f.sid)
    requires IsDegraded(r.st.tracker, StreamOf(r.st, f.sid).value)
    ensures var st', id := Handled(r.st, f, r.session).st, StreamOf(r.st, f.sid).value;
      var b, feed := BookOf(st'.shelf, m), feeds[id];
      && !IsDegraded(st'.tracker, id) && BaselineOf(st'.tracker, id) == f.seqNo && b.valid
      && b.lastSeq.Some? && feed.Numbers(b.lastSeq.value) && feed.Numbers(f.seqNo.value)
      && (b.ladders == ExchangeBook(feed, f.seqNo.value, m) <==> CancelOut(feed, m, b.lastSeq.value, f.seqNo.value))
  {
    var id, q := StreamOf(r.st, f.sid).value, f.seqNo.value;
    var mid, g, b := Classified(r.st, id, f), GateAt(r.st, id, f), BookOf(r.st.shelf, m);
    var e := Dispatched(mid, f, r.session, Some(id), g);
    LaterNumber(r.st, id, f, arrived);
    assert Handled(r.st, f, r.session).st == e.st && e.completed;
    hide Handled, Classified, GateAt, ExchangeBook, QuietFor, Coupled, Baselined, Load, Placed, Follows;
    assert f.payload.SnapshotMsg?;
    assert e.st.tracker == AfterRecovery(mid.tracker, id, f.seqNo);
    assert BookOf(e.st.shelf, m) == b;
    StillFollows(b, feeds[id], rest, arrived[id], q - 1, m);
    HealedFollows(b, feeds[id], rest, q, m);
    AgreesExactly(b, feeds[id], rest.value.(healed := Some(q)), q, m);
    MissedIsNet(b, feeds[id], rest.value, q, m);
  }

  lemma MissedIsNet(b: BookData, feed: Feed, rest: Restoration, q: int, m: Ticker)
    requires Placed(b, feed, Some(rest), q - 1, m) && Follows(b, feed, true, rest, q - 1, m) && feed.Numbers(q)
    ensures NothingMissed(feed, rest.(healed := Some(q)), m) <==> CancelOut(feed, m, b.lastSeq.value, q)
  {
    var healed := rest.(healed := Some(q));
    assert forall side, price ::
      Withheld(feed, healed, m, side, price) == Net(feed, m, b.lastSeq.value, q, side, price);
  }

  /** Throughout the run, a stream that carries this market carries no other. */
  ghost predicate AloneAt(start: SessionId, events: seq<Event>, m: Ticker, k: nat)
    requires k <= |events|
  {
    var subs := Run(start, events[..k]).st.subs;
    forall id, t | Subs.Carries(subs, id, m, OrderbookDelta) && Subs.Carries(subs, id, t, OrderbookDelta) :: t == m
  }

  ghost predicate AlwaysAlone(start: SessionId, events: seq<Event>, m: Ticker) {
    forall k | 0 <= k < |events| :: AloneAt(start, events, m, k)
  }

  /** On a stream that carries one market nothing needs to be asked of the exchange during recovery. */
  lemma AloneRecoversQuietly(start: SessionId, events: seq<Event>, feeds: Feeds, m: Ticker)
    requires LegalRun(start, events) && AlwaysAlone(start, events, m)
    ensures AlwaysRecoversQuietly(feeds, start, events, m)
  {
    forall k | 0 <= k < |events| ensures QuietAt(feeds, start, events, m, k) {
      var init := events[..k];
      var r, e := Run(start, init), events[k];
      assert LegalAt(start, events, k) && AloneAt(start, events, m, k);
      forall j | 0 <= j < k ensures LegalAt(start, init, j) {
        assert LegalAt(start, events, j);
        assert init[..j] == events[..j];
      }
      RowsAreFaithful(start, init, m);
      RowsOkIsHome(r, m);
      hide RowsOk, Run, LegalRun, AlwaysAlone, Handled, ExchangeBook;
      AloneIsQuiet(r, e, feeds, m);
    }
  }

  lemma AloneIsQuiet(r: Recording, e: Event, feeds: Feeds, m: Ticker)
    requires CarriedAtHome(r, m) && Legal(r, e)
    requires forall id, t | Subs.Carries(r.st.subs, id, m, OrderbookDelta) &&
        Subs.Carries(r.st.subs, id, t, OrderbookDelta) :: t == m
    ensures RecoversQuietly(feeds, r, e, m)
  {
    hide Handled, QuietFor;
  }

  /** Exchange agreement for a market alone on its stream, with no assumption on how recoveries go. */
  lemma LoneBooksAgree(start: SessionId, events: seq<Event>, feeds: Feeds, m: Ticker)
    requires LegalRun(start, events) && AllDelivered(feeds, start, events) && AlwaysAlone(start, events, m)
    ensures var r := Run(start, events);
      var b := BookOf(r.st.shelf, m);
      b.valid && b.stream.Some? && !IsDegraded(r.st.tracker, b.stream.value) ==>
        && b.stream.value in feeds
        && var feed, at := feeds[b.stream.value], BaselineOf(r.st.tracker, b.stream.value);
        && at.Some? && feed.Numbers(at.value) && b.ladders == ExchangeBook(feed, at.value, m)
  {
    AloneRecoversQuietly(start, events, feeds, m);
    hide LegalRun, AllDelivered, AlwaysAlone, AlwaysRecoversQuietly, Run, ArrivedBy, ExchangeBook;
    TrustedBooksAgree(start, events, feeds, m);
  }
}
