/**
 * Why recoveries must be quiet: a legal run over any two markets, faithfully delivered but for one lost
 * frame, that ends with a trusted book on a healthy stream which is not the exchange's book.
 */
module StaleAfterRecovery {
  import opened Values
  import opened CanonicalForm
  import opened MarketBooks
  import opened BookManagement
  import opened SequenceTracking
  import opened RecoveryMachine
  import opened Collecting
  import opened Capture
  import opened ExchangeAgreement
  import Subs = Subscriptions

  const STREAM: StreamId := 7
  const SID := 100
  const SESSION: SessionId := 1
  const CONTRACT := 1_000_000
  const PRICE := 500_000

  const BUY := Change(Yes, PRICE, CONTRACT)

  // ---------------------------------------------------------------------------
  // What the exchange sent, and what arrived
  // ---------------------------------------------------------------------------

  /** The exchange's seven messages about two markets. */
  function Sent(a: Ticker, b: Ticker, n: int): Payload {
    match n
    case 1 => SnapshotMsg(a, [], [])
    case 2 => SnapshotMsg(b, [], [])
    case 5 => SnapshotMsg(a, [(PRICE, 2 * CONTRACT)], [])
    case 7 => SnapshotMsg(b, [], [])
    case _ => DeltaMsg(a, BUY)
  }

  function Message(a: Ticker, b: Ticker, n: int): Frame {
    Frame(Some(SID), Some(n), n, Sent(a, b, n), false)
  }

  /** Message 3 is lost; message 6 arrives while the episode still waits for the other market. */
  function EventAt(a: Ticker, b: Ticker, k: nat): Event {
    match k
    case 0 => SubscribeEvent(OrderbookDelta, [a, b], [Subs.NewIds(STREAM, 1)])
    case 1 => BindEvent(Some(1), SID, OrderbookDelta)
    case 2 => FrameEvent(Message(a, b, 1))
    case 3 => FrameEvent(Message(a, b, 2))
    case _ => FrameEvent(Message(a, b, k))
  }

  function Events(a: Ticker, b: Ticker, k: nat): seq<Event> {
    if k == 0 then [] else Events(a, b, k - 1) + [EventAt(a, b, k - 1)]
  }

  function Feeding(a: Ticker, b: Ticker): Feed {
    Feed(1, map[], seq(7, (i: int) => Sent(a, b, i + 1)))
  }

  // ---------------------------------------------------------------------------
  // The recorder's state after each event
  // ---------------------------------------------------------------------------

  function Subscription(a: Ticker, b: Ticker, bound: bool): Subs.SubState {
    var index := map[a := {STREAM}, b := {STREAM}];
    if bound then
      Subs.SubState([STREAM], map[STREAM := Subs.Sub(OrderbookDelta, Some(SID), {a, b}, None)],
                    map[SID := STREAM], map[], index)
    else
      Subs.SubState([STREAM], map[STREAM := Subs.Sub(OrderbookDelta, None, {a, b}, Some(1))],
                    map[], map[1 := STREAM], index)
  }

  function Numbers(last: Option<int>, gaps: nat, messages: nat, degraded: bool, skipped: nat): Streams {
    map[STREAM := StreamSeq(OrderbookDelta, if last.None? then None else Some(1), last, gaps, 0, 0, messages,
                            degraded, skipped)]
  }

  function BookAt(t: Ticker, levels: Levels, seqNo: int): BookData {
    BookData(t, Ladders(levels, map[]), Some(seqNo), true, None, seqNo, seqNo, Some(SESSION), Some(STREAM), [])
  }

  const LOST := GapOnStream(Some(3), Some(4))

  function Waiting(a: Ticker, b: Ticker, outstanding: set<Ticker>, restored: nat, withheld: nat): Machine {
    Machine(map[STREAM := Recovering],
            map[STREAM := Episode(Recovering, outstanding, [a, b], 4, Some(4), Some(3), Some(4), restored, withheld)])
  }

  const AT_EASE := Machine(map[STREAM := Healthy], map[])

  const RESTORED: Levels := map[PRICE := 2 * CONTRACT]

  function Books(a: Ticker, b: Ticker, k: nat): map<Ticker, BookData> {
    match k
    case 3 => map[a := BookAt(a, map[], 1)]
    case 4 => map[a := BookAt(a, map[], 1), b := BookAt(b, map[], 2)]
    case 5 => map[a := Invalidated(BookAt(a, map[], 1), LOST), b := Invalidated(BookAt(b, map[], 2), LOST)]
    case 6 => map[a := BookAt(a, RESTORED, 5), b := Invalidated(BookAt(b, map[], 2), LOST)]
    case 7 => map[a := BookAt(a, RESTORED, 5), b := Invalidated(BookAt(b, map[], 2), LOST)]
    case 8 => map[a := BookAt(a, RESTORED, 5), b := BookAt(b, map[], 7)]
    case _ => map[]
  }

  function StateAfter(a: Ticker, b: Ticker, k: nat): State {
    var shelf := Shelf(Books(a, b, k), map[STREAM := [a, b]]);
    match k
    case 0 => INITIAL_STATE
    case 1 => State(Numbers(None, 0, 0, false, 0), AT_EASE, shelf, Subscription(a, b, false))
    case 2 => State(Numbers(None, 0, 0, false, 0), AT_EASE, shelf, Subscription(a, b, true))
    case 3 => State(Numbers(Some(1), 0, 1, false, 0), AT_EASE, shelf, Subscription(a, b, true))
    case 4 => State(Numbers(Some(2), 0, 2, false, 0), AT_EASE, shelf, Subscription(a, b, true))
    case 5 => State(Numbers(Some(2), 1, 3, true, 0), Waiting(a, b, {a, b}, 0, 0), shelf, Subscription(a, b, true))
    case 6 => State(Numbers(Some(2), 1, 4, true, 1), Waiting(a, b, {b}, 1, 1), shelf, Subscription(a, b, true))
    case 7 => State(Numbers(Some(2), 1, 5, true, 2), Waiting(a, b, {b}, 1, 2), shelf, Subscription(a, b, true))
    case _ => State(Numbers(Some(7), 1, 6, false, 0), AT_EASE, shelf, Subscription(a, b, true))
  }

  // ---------------------------------------------------------------------------
  // Step by step
  // ---------------------------------------------------------------------------

  lemma LoadsNothing()
    ensures Load([]) == map[]
  {
  }

  lemma LoadsOne()
    ensures Load([(PRICE, 2 * CONTRACT)]) == RESTORED
  {
    var levels: seq<Level> := [(PRICE, 2 * CONTRACT)];
    assert levels[..0] == [];
    LoadsNothing();
  }

  lemma BothSubscribed(a: Ticker, b: Ticker)
    requires a != b
    ensures Subs.Slices([a, b], MARKETS_PER_SUBSCRIPTION) == [[a, b]]
    ensures Subs.Subscribed(Subs.NO_SUBSCRIPTIONS, OrderbookDelta, [a, b], MARKETS_PER_SUBSCRIPTION,
                            [Subs.NewIds(STREAM, 1)]) == Subscription(a, b, false)
  {
    var slices, ids := [[a, b]], [Subs.NewIds(STREAM, 1)];
    assert slices[1..] == [] && ids[1..] == [];
    assert Subs.MarketSet([a, b]) == {a, b};
    var st := Subs.WithSub(Subs.NO_SUBSCRIPTIONS, OrderbookDelta, [a, b], ids[0]);
    var index := Subs.Indexed(map[], [a, b], STREAM);
    assert a in [a, b] && b in [a, b];
    assert index.Keys == {a, b} && index[a] == {} + {STREAM} == {STREAM} && index[b] == {} + {STREAM} == {STREAM};
    assert index == map[a := {STREAM}, b := {STREAM}];
    assert st.order == [] + [STREAM] == [STREAM];
    assert Subs.WithShards(st, OrderbookDelta, [], []) == st;
    assert Subs.WithShards(Subs.NO_SUBSCRIPTIONS, OrderbookDelta, slices, ids) == st;
  }

  lemma BothAssociated(a: Ticker, b: Ticker)
    requires a != b
    ensures AssociatedAll(EMPTY_SHELF, STREAM, [a, b]) == Shelf(map[], map[STREAM := [a, b]])
  {
    var none: seq<Ticker> := [];
    assert AssociatedAll(EMPTY_SHELF, STREAM, none) == EMPTY_SHELF;
    AssociateNext(none, a);
    AssociateNext([a], b);
    assert none + [a] == [a] && [a] + [b] == [a, b];
  }

  lemma AssociateNext(ts: seq<Ticker>, t: Ticker)
    ensures AssociatedAll(EMPTY_SHELF, STREAM, ts + [t])
         == Associated(AssociatedAll(EMPTY_SHELF, STREAM, ts), STREAM, t)
  {
    assert (ts + [t])[..|ts|] == ts;
  }

  lemma SubscribeStep(a: Ticker, b: Ticker)
    requires a != b
    ensures EnoughIds([a, b], [Subs.NewIds(STREAM, 1)])
    ensures AfterSubscribe(INITIAL_STATE, OrderbookDelta, [a, b], [Subs.NewIds(STREAM, 1)]) == StateAfter(a, b, 1)
  {
    hide Subs.Subscribed, Subs.Slices, WithShardsOpen, AssociatedAll;
    var ids, slices := [Subs.NewIds(STREAM, 1)], [[a, b]];
    BothSubscribed(a, b);
    var st := INITIAL_STATE.(subs := Subscription(a, b, false));
    OpenNone(st, OrderbookDelta, slices, ids);
    OpenOneMore(st, OrderbookDelta, slices, ids, 1);
    BothAssociated(a, b);
  }

  lemma BindStep(a: Ticker, b: Ticker)
    ensures var st := StateAfter(a, b, 1);
      st.(subs := Subs.Bound(st.subs, Some(1), SID, OrderbookDelta)) == StateAfter(a, b, 2)
  {
    assert Subs.Awaiting(StateAfter(a, b, 1).subs, Some(1), OrderbookDelta) == Some(STREAM);
  }

  /** Message n brings the recorder from state k to the next. */
  ghost predicate Steps(a: Ticker, b: Ticker, k: nat, n: int) {
    Handled(StateAfter(a, b, k), Message(a, b, n), SESSION).st == StateAfter(a, b, k + 1)
  }

  /** On the one bound stream a frame is classified, then dispatched. */
  lemma HandlingIs(st: State, f: Frame, a: Ticker, b: Ticker)
    requires st.subs == Subscription(a, b, true) && f.sid == Some(SID)
    ensures var g := GateAt(st, STREAM, f);
      Handled(st, f, SESSION).st == Dispatched(Classified(st, STREAM, f), f, SESSION, Some(STREAM), g).st
  {
    hide Classified, GateAt, Dispatched, GapRows;
  }

  lemma ShelvedSnapshot(books: map<Ticker, BookData>, a: Ticker, b: Ticker, f: Frame, relevant: bool)
    requires f.payload.SnapshotMsg? && f.payload.ticker in {a, b} && f.seqNo == Some(f.atMs)
    requires f.payload.ticker in books ==> books[f.payload.ticker].ticker == f.payload.ticker
    ensures var levels := Load(f.payload.yes);
      Load(f.payload.no) == map[] ==>
        AfterSnapshot(Shelf(books, map[STREAM := [a, b]]), SnapshotIn(f, SESSION, Some(STREAM), relevant))
        == Shelf(books[f.payload.ticker := BookAt(f.payload.ticker, levels, f.atMs)], map[STREAM := [a, b]])
  {
    hide Load;
  }

  /** A snapshot on a healthy stream. */
  lemma FirstSnapshot(a: Ticker, b: Ticker, last: Option<int>, n: nat, books: map<Ticker, BookData>, f: Frame)
    requires f.payload.SnapshotMsg? && f.payload.ticker in {a, b} && f.seqNo == Some(f.atMs) && f.sid == Some(SID)
    requires f.payload.yes == [] && f.payload.no == [] && f.payload.ticker !in books
    requires f.atMs == n + 1 && last == if n == 0 then None else Some(n)
    ensures var st := State(Numbers(last, 0, n, false, 0), AT_EASE, Shelf(books, map[STREAM := [a, b]]),
                            Subscription(a, b, true));
      Handled(st, f, SESSION).st ==
        State(Numbers(Some(n + 1), 0, n + 1, false, 0), AT_EASE,
              Shelf(books[f.payload.ticker := BookAt(f.payload.ticker, map[], n + 1)], map[STREAM := [a, b]]),
              Subscription(a, b, true))
  {
    var st := State(Numbers(last, 0, n, false, 0), AT_EASE, Shelf(books, map[STREAM := [a, b]]),
                    Subscription(a, b, true));
    var mid := st.(tracker := Numbers(Some(n + 1), 0, n + 1, false, 0));
    assert Classified(st, STREAM, f) == mid;
    HandlingIs(st, f, a, b);
    hide Handled, Classified, GateAt;
    LoadsNothing();
    ShelvedSnapshot(books, a, b, f, false);
    hide AfterSnapshot, Load, SnapshotRowFor;
  }

  lemma FirstSnapshots(a: Ticker, b: Ticker)
    requires a != b
    ensures Steps(a, b, 2, 1) && Steps(a, b, 3, 2)
  {
    hide Handled;
    FirstSnapshot(a, b, None, 0, map[], Message(a, b, 1));
    FirstSnapshot(a, b, Some(1), 1, Books(a, b, 3), Message(a, b, 2));
    assert Numbers(None, 0, 0, false, 0)[STREAM].firstSeq == None;
  }

  lemma BothAsked(a: Ticker, b: Ticker)
    requires a != b
    ensures Subs.RequestCount(Subscription(a, b, true), [a, b], OrderbookDelta) == 2
  {
    hide Subs.BoundCarriers, Subscription;
    var subs, none := Subscription(a, b, true), [];
    CarriedOnTheStream(a, b, a);
    CarriedOnTheStream(a, b, b);
    RequestNext(subs, none, a);
    RequestNext(subs, [a], b);
    RequestNone(subs);
    hide Subs.RequestCount;
    assert none + [a] == [a] && [a] + [b] == [a, b];
  }

  lemma RequestNone(subs: Subs.SubState)
    ensures Subs.RequestCount(subs, [], OrderbookDelta) == 0
  {
  }

  lemma CarriedOnTheStream(a: Ticker, b: Ticker, t: Ticker)
    requires t in {a, b}
    ensures Subs.BoundCarriers(Subscription(a, b, true), t, OrderbookDelta) == {STREAM}
  {
    var subs := Subscription(a, b, true);
    assert Subs.IndexedUnder(subs, t) == {STREAM};
    assert Subs.Carriers(subs, t, OrderbookDelta) == {STREAM};
  }

  lemma RequestNext(subs: Subs.SubState, ts: seq<Ticker>, t: Ticker)
    ensures Subs.RequestCount(subs, ts + [t], OrderbookDelta)
         == Subs.RequestCount(subs, ts, OrderbookDelta) + |Subs.BoundCarriers(subs, t, OrderbookDelta)|
  {
    assert (ts + [t])[..|ts|] == ts;
  }

  lemma GapOpens(a: Ticker, b: Ticker)
    requires a != b
    ensures WithRequest(WithGap(AT_EASE, STREAM, [a, b], Some(3), Some(4), 4), STREAM, 4) == Waiting(a, b, {a, b}, 0, 0)
  {
    assert MembersOf([a, b]) == {a, b};
  }

  lemma GapDistrusts(a: Ticker, b: Ticker)
    requires a != b
    ensures StreamInvalidated(Shelf(Books(a, b, 4), map[STREAM := [a, b]]), STREAM, LOST)
         == Shelf(Books(a, b, 5), map[STREAM := [a, b]])
  {
    assert TickerSet([a, b]) == {a, b};
    assert InvalidatedAt(Books(a, b, 4), {a, b}, LOST) == Books(a, b, 5);
  }

  lemma GapObserved()
    ensures Observed(Numbers(Some(2), 0, 2, false, 0), STREAM, OrderbookDelta, Some(4))
         == Numbers(Some(2), 1, 3, true, 0)
    ensures Observation(Numbers(Some(2), 0, 2, false, 0), STREAM, OrderbookDelta, Some(4))
         == SequenceResult(Gap, Some(3), Some(4), Some(1))
  {
  }

  /** The lost number shows: both books are distrusted and their snapshots asked for. */
  lemma GapClassified(a: Ticker, b: Ticker)
    requires a != b
    ensures Classified(StateAfter(a, b, 4), STREAM, Message(a, b, 4)) == StateAfter(a, b, 5)
    ensures !GateAt(StateAfter(a, b, 4), STREAM, Message(a, b, 4)).allowed
  {
    var st, f := StateAfter(a, b, 4), Message(a, b, 4);
    GapObserved();
    BothAsked(a, b);
    GapOpens(a, b);
    GapDistrusts(a, b);
    hide Subs.RequestCount, WithRequest, WithGap, WithUnavailable, StreamInvalidated, Books, Observed, Observation;
    assert ResultFor(st, STREAM, f) == SequenceResult(Gap, Some(3), Some(4), Some(1));
  }

  lemma UnappliedDelta(s: Shelf, i: DeltaInput)
    requires i.ticker in s.books && i.stream in s.carried && i.ticker in s.carried[i.stream]
    ensures AfterDelta(s, i, false) == s
  {
    assert s.books[i.ticker := s.books[i.ticker]] == s.books;
    assert s.carried[i.stream := s.carried[i.stream]] == s.carried;
  }

  lemma GapStep(a: Ticker, b: Ticker)
    requires a != b
    ensures Steps(a, b, 4, 4)
  {
    var st, f := StateAfter(a, b, 4), Message(a, b, 4);
    GapClassified(a, b);
    HandlingIs(st, f, a, b);
    hide Handled, Classified, GateAt;
    UnappliedDelta(StateAfter(a, b, 5).shelf, DeltaIn(f, SESSION, Some(STREAM)));
    hide AfterDelta, DeltaRowFor, NegativeRows;
  }

  function Degraded(a: Ticker, b: Ticker, outstanding: set<Ticker>, restored: nat, n: nat, shelf: Shelf): State {
    State(Numbers(Some(2), 1, 3 + n, true, n), Waiting(a, b, outstanding, restored, n), shelf, Subscription(a, b, true))
  }

  /** While the episode is open a frame is counted as withheld, and only a snapshot may pass. */
  lemma DegradedClassified(a: Ticker, b: Ticker, outstanding: set<Ticker>, restored: nat, n: nat, shelf: Shelf,
                           f: Frame)
    requires f.seqNo.Some?
    ensures var st := Degraded(a, b, outstanding, restored, n, shelf);
      && Classified(st, STREAM, f) == Degraded(a, b, outstanding, restored, n + 1, shelf)
      && GateAt(st, STREAM, f).allowed == f.payload.SnapshotMsg?
  {
  }

  lemma Restoring(a: Ticker, b: Ticker)
    requires a != b
    ensures SnapshotEffect(Waiting(a, b, {a, b}, 0, 1), STREAM, a) == SnapshotOutcome(true, false)
    ensures WithSnapshot(Waiting(a, b, {a, b}, 0, 1), STREAM, a) == Waiting(a, b, {b}, 1, 1)
  {
    assert b in {a, b};
    assert {a, b} - {a} == {b};
  }

  lemma BooksAfterSnapshots(a: Ticker, b: Ticker)
    requires a != b
    ensures Books(a, b, 5)[a := BookAt(a, RESTORED, 5)] == Books(a, b, 6)
    ensures Books(a, b, 7)[b := BookAt(b, map[], 7)] == Books(a, b, 8)
    ensures Books(a, b, 5)[a].ticker == a && Books(a, b, 7)[b].ticker == b
  {
  }

  /** A's snapshot restores its book, but the episode waits on. */
  lemma RestoreStep(a: Ticker, b: Ticker)
    requires a != b
    ensures Steps(a, b, 5, 5)
  {
    hide Handled, Classified, GateAt, Subscription, Numbers, Waiting, Books, AfterSnapshot, Load, SnapshotRowFor;
    hide WithSnapshot, SnapshotEffect, BookAt;
    var st, f := StateAfter(a, b, 5), Message(a, b, 5);
    DegradedClassified(a, b, {a, b}, 0, 0, st.shelf, f);
    HandlingIs(st, f, a, b);
    LoadsNothing();
    LoadsOne();
    Restoring(a, b);
    BooksAfterSnapshots(a, b);
    ShelvedSnapshot(st.shelf.books, a, b, f, true);
  }

  /** The next delta for the restored market is withheld, and its book stays trusted. */
  lemma WithheldStep(a: Ticker, b: Ticker)
    requires a != b
    ensures Steps(a, b, 6, 6)
  {
    var st, f := StateAfter(a, b, 6), Message(a, b, 6);
    DegradedClassified(a, b, {b}, 1, 1, st.shelf, f);
    HandlingIs(st, f, a, b);
    hide Handled, Classified, GateAt;
    UnappliedDelta(st.shelf, DeltaIn(f, SESSION, Some(STREAM)));
    hide AfterDelta, DeltaRowFor, NegativeRows;
  }

  lemma Completing(a: Ticker, b: Ticker)
    ensures SnapshotEffect(Waiting(a, b, {b}, 1, 3), STREAM, b) == SnapshotOutcome(true, true)
    ensures WithSnapshot(Waiting(a, b, {b}, 1, 3), STREAM, b) == AT_EASE
    ensures AfterRecovery(Numbers(Some(2), 1, 6, true, 3), STREAM, Some(7)) == Numbers(Some(7), 1, 6, false, 0)
  {
  }

  /** The last snapshot an episode waits for. */
  lemma LastSnapshot(a: Ticker, b: Ticker, books: map<Ticker, BookData>, f: Frame)
    requires f.payload == SnapshotMsg(b, [], []) && f.seqNo == Some(7) && f.atMs == 7 && f.sid == Some(SID)
    requires b in books ==> books[b].ticker == b
    ensures var carried := map[STREAM := [a, b]];
      Handled(Degraded(a, b, {b}, 1, 2, Shelf(books, carried)), f, SESSION).st ==
        State(Numbers(Some(7), 1, 6, false, 0), AT_EASE, Shelf(books[b := BookAt(b, map[], 7)], carried),
              Subscription(a, b, true))
  {
    hide Handled, Classified, GateAt, Subscription, Numbers, Waiting, AfterSnapshot, Load, SnapshotRowFor;
    hide WithSnapshot, SnapshotEffect, AfterRecovery, BookAt;
    var st := Degraded(a, b, {b}, 1, 2, Shelf(books, map[STREAM := [a, b]]));
    DegradedClassified(a, b, {b}, 1, 2, st.shelf, f);
    HandlingIs(st, f, a, b);
    LoadsNothing();
    Completing(a, b);
    ShelvedSnapshot(books, a, b, f, true);
  }

  /** The other snapshot closes the episode: the stream is healthy at 7, with A's book still as of 5. */
  lemma CompleteStep(a: Ticker, b: Ticker)
    requires a != b
    ensures Steps(a, b, 7, 7)
  {
    hide Handled, Books, Subscription, Numbers, Degraded, Waiting;
    BooksAfterSnapshots(a, b);
    LastSnapshot(a, b, Books(a, b, 7), Message(a, b, 7));
    DegradedAt(a, b);
  }

  lemma DegradedAt(a: Ticker, b: Ticker)
    ensures StateAfter(a, b, 7) == Degraded(a, b, {b}, 1, 2, Shelf(Books(a, b, 7), map[STREAM := [a, b]]))
  {
    hide Books, Subscription;
  }

  // ---------------------------------------------------------------------------
  // The whole run
  // ---------------------------------------------------------------------------

  lemma {:induction false} EventsAre(a: Ticker, b: Ticker, n: nat, k: nat)
    requires k <= n
    ensures |Events(a, b, n)| == n && Events(a, b, n)[..k] == Events(a, b, k)
    ensures k < n ==> Events(a, b, n)[k] == EventAt(a, b, k)
  {
    hide EventAt;
    if k < n {
      EventsAre(a, b, n - 1, k);
      EventsAre(a, b, n - 1, n - 1);
      assert Events(a, b, n)[..n - 1] == Events(a, b, n - 1);
      assert Events(a, b, n)[..k] == Events(a, b, n - 1)[..k];
    } else if n > 0 {
      EventsAre(a, b, n - 1, n - 1);
    }
  }

  /** Where the recorder is after k events. */
  ghost predicate Reaches(a: Ticker, b: Ticker, k: nat) {
    var r := Run(SESSION, Events(a, b, k));
    r.st == StateAfter(a, b, k) && r.session == SESSION && (k == 0 ==> r.used == {UNBOUND_STREAM})
  }

  lemma RunNext(a: Ticker, b: Ticker, k: nat)
    ensures Run(SESSION, Events(a, b, k + 1)) == Step(Run(SESSION, Events(a, b, k)), EventAt(a, b, k))
  {
    hide EventAt, Step;
    var events := Events(a, b, k) + [EventAt(a, b, k)];
    assert Events(a, b, k + 1) == events;
    assert events[..|events| - 1] == Events(a, b, k);
  }

  lemma OneMoreFrame(a: Ticker, b: Ticker, k: nat, n: int)
    requires 2 <= k < 8 && Reaches(a, b, k) && Steps(a, b, k, n) && EventAt(a, b, k) == FrameEvent(Message(a, b, n))
    ensures Reaches(a, b, k + 1)
  {
    RunNext(a, b, k);
    hide Handled, Run, StateAfter, EventAt, Message;
  }

  lemma {:induction false} ReachesAll(a: Ticker, b: Ticker, k: nat)
    requires a != b && k <= 8
    ensures Reaches(a, b, k)
  {
    hide Steps, Reaches;
    if k == 0 {
      ReachesStart(a, b);
    } else {
      ReachesAll(a, b, k - 1);
      match k
      case 1 => ReachesSubscribed(a, b);
      case 2 => ReachesBound(a, b);
      case 3 => FirstSnapshots(a, b); OneMoreFrame(a, b, 2, 1);
      case 4 => FirstSnapshots(a, b); OneMoreFrame(a, b, 3, 2);
      case 5 => GapStep(a, b); OneMoreFrame(a, b, 4, 4);
      case 6 => RestoreStep(a, b); OneMoreFrame(a, b, 5, 5);
      case 7 => WithheldStep(a, b); OneMoreFrame(a, b, 6, 6);
      case 8 => CompleteStep(a, b); OneMoreFrame(a, b, 7, 7);
    }
  }

  lemma ReachesStart(a: Ticker, b: Ticker)
    ensures Reaches(a, b, 0)
  {
  }

  lemma ReachesSubscribed(a: Ticker, b: Ticker)
    requires a != b && Reaches(a, b, 0)
    ensures Reaches(a, b, 1)
  {
    SubscribeStep(a, b);
    RunNext(a, b, 0);
    hide AfterSubscribe, Run;
  }

  lemma ReachesBound(a: Ticker, b: Ticker)
    requires a != b && Reaches(a, b, 1)
    ensures Reaches(a, b, 2)
  {
    hide Subs.Bound, Run, Handled, AfterSubscribe, AfterAdd, AfterRemove, AfterDisconnect, Reaped, SampleRows, Books;
    BindStep(a, b);
    RunNext(a, b, 1);
    assert EventAt(a, b, 1) == BindEvent(Some(1), SID, OrderbookDelta);
    hide EventAt, StateAfter;
  }

  // ---------------------------------------------------------------------------
  // The exchange's side
  // ---------------------------------------------------------------------------

  function Bought(n: nat): Ladders {
    Ladders(if n == 0 then map[] else map[PRICE := n * CONTRACT], map[])
  }

  /** How many of the first n messages raised the first market's level. */
  function Buys(n: nat): nat {
    if n <= 2 then 0 else if n <= 4 then n - 2 else if n == 5 then 2 else 3
  }

  lemma BuyOneMore(n: nat)
    ensures Folded(Bought(n), BUY) == Bought(n + 1)
  {
    assert Bought(n).yes[PRICE := (n + 1) * CONTRACT] == Bought(n + 1).yes;
  }

  lemma {:induction false} ExchangeBooks(a: Ticker, b: Ticker, n: nat)
    requires a != b && n <= 7
    ensures BookAfterSending(Feeding(a, b), n, a) == Bought(Buys(n))
    ensures BookAfterSending(Feeding(a, b), n, b) == EMPTY_LADDERS
  {
    hide Folded;
    if n > 0 {
      ExchangeBooks(a, b, n - 1);
      assert Feeding(a, b).sent[n - 1] == Sent(a, b, n);
      BuyOneMore(Buys(n - 1));
    }
  }

  lemma FeedIsTruthful(a: Ticker, b: Ticker)
    requires a != b
    ensures Truthful(Feeding(a, b))
  {
    var feed := Feeding(a, b);
    LoadsNothing();
    LoadsOne();
    hide Load, BookAfterSending;
    forall i | 0 <= i < |feed.sent| ensures TellsTruth(feed, i) {
      assert feed.sent[i] == Sent(a, b, i + 1);
      ExchangeBooks(a, b, i);
    }
  }

  /** The last number to arrive before event k. */
  function LastArrived(k: nat): Arrived {
    if k <= 2 then map[] else if k <= 4 then map[STREAM := k - 2] else map[STREAM := k - 1]
  }

  /** Once bound, the stream is known by its sid and carries both markets. */
  lemma StreamIsKnown(a: Ticker, b: Ticker, k: nat)
    requires a != b && 2 <= k <= 8
    ensures var st := Run(SESSION, Events(a, b, k)).st;
      && StreamOf(st, Some(SID)) == Some(STREAM) && OnBookStream(st, Some(SID))
      && Subs.Carries(st.subs, STREAM, a, OrderbookDelta) && Subs.Carries(st.subs, STREAM, b, OrderbookDelta)
  {
    ReachesAll(a, b, k);
    BoundFromThenOn(a, b, k);
    hide StateAfter, Run;
    KnownIn(StateAfter(a, b, k), a, b);
    hide StreamOf, OnBookStream, Subs.Carries;
  }

  lemma BoundFromThenOn(a: Ticker, b: Ticker, k: nat)
    requires 2 <= k <= 8
    ensures StateAfter(a, b, k).subs == Subscription(a, b, true)
  {
    hide Books, Subscription;
  }

  lemma KnownIn(st: State, a: Ticker, b: Ticker)
    requires st.subs == Subscription(a, b, true)
    ensures StreamOf(st, Some(SID)) == Some(STREAM) && OnBookStream(st, Some(SID))
    ensures Subs.Carries(st.subs, STREAM, a, OrderbookDelta) && Subs.Carries(st.subs, STREAM, b, OrderbookDelta)
  {
  }

  /** The message in event k. */
  function NumberAt(k: nat): int {
    if k <= 3 then k - 1 else k
  }

  lemma EventIsMessage(a: Ticker, b: Ticker, k: nat)
    requires 2 <= k < 8
    ensures EventAt(a, b, k) == FrameEvent(Message(a, b, NumberAt(k)))
  {
  }

  lemma {:induction false} ArrivedIs(a: Ticker, b: Ticker, k: nat)
    requires a != b && k <= 8
    ensures ArrivedBy(SESSION, Events(a, b, k)) == LastArrived(k)
  {
    hide ArrivedBy, Run, OnBookStream, StreamOf;
    if k == 0 {
      NoneArrived();
    } else {
      ArrivedIs(a, b, k - 1);
      ArrivedNext(a, b, k - 1);
      if k > 2 {
        StreamIsKnown(a, b, k - 1);
        EventIsMessage(a, b, k - 1);
        hide EventAt, Sent;
      }
    }
  }

  lemma NoneArrived()
    ensures ArrivedBy(SESSION, []) == map[]
  {
  }

  lemma ArrivedNext(a: Ticker, b: Ticker, k: nat)
    ensures var events := Events(a, b, k);
      ArrivedBy(SESSION, Events(a, b, k + 1))
      == WithArrival(ArrivedBy(SESSION, events), Run(SESSION, events).st, EventAt(a, b, k))
  {
    hide EventAt, Run;
    var events := Events(a, b, k) + [EventAt(a, b, k)];
    assert Events(a, b, k + 1) == events;
    assert events[..|events| - 1] == Events(a, b, k);
  }

  lemma EventIsLegal(a: Ticker, b: Ticker, k: nat)
    requires a != b && k < 8
    ensures Legal(Run(SESSION, Events(a, b, k)), EventAt(a, b, k))
  {
    hide Run, StreamOf, Subs.Carries;
    if k == 0 {
      FirstIsLegal(a, b);
    } else if k > 1 {
      StreamIsKnown(a, b, k);
      EventIsMessage(a, b, k);
      hide EventAt;
    }
  }

  lemma FirstIsLegal(a: Ticker, b: Ticker)
    requires a != b
    ensures Legal(Run(SESSION, Events(a, b, 0)), EventAt(a, b, 0))
  {
    SubscribeStep(a, b);
    ReachesStart(a, b);
    hide StateAfter;
    assert StateAfter(a, b, 0) == INITIAL_STATE by {
      StartIs(a, b);
    }
  }

  lemma StartIs(a: Ticker, b: Ticker)
    ensures StateAfter(a, b, 0) == INITIAL_STATE
  {
  }

  lemma FeedHas(a: Ticker, b: Ticker, n: int)
    requires 1 <= n <= 7
    ensures var feed := Feeding(a, b);
      feed.Numbers(n) && feed.base == 1 && feed.sent[n - 1] == Sent(a, b, n)
  {
    hide Sent;
  }

  lemma EventIsDelivered(a: Ticker, b: Ticker, k: nat)
    requires a != b && k < 8
    ensures var events := Events(a, b, k);
      Delivered(map[STREAM := Feeding(a, b)], ArrivedBy(SESSION, events), Run(SESSION, events).st, EventAt(a, b, k))
  {
    if k > 1 {
      StreamIsKnown(a, b, k);
      EventIsMessage(a, b, k);
      ArrivedIs(a, b, k);
      FeedIsTruthful(a, b);
      FeedHas(a, b, NumberAt(k));
      hide Run, StreamOf, OnBookStream, Truthful, ArrivedBy, EventAt, Sent, Feeding;
    }
  }

  /**
   * Everything is as it should be - the run legal, the exchange truthful, the channel in order, one
   * frame lost - but a delta came while another market's snapshot was still awaited. The book of the
   * market restored first is trusted, its stream is healthy, and it is not the exchange's book.
   */
  lemma TrustedButStale(a: Ticker, b: Ticker)
    requires a != b
    ensures var events, feed := Events(a, b, 8), Feeding(a, b);
      var r := Run(SESSION, events);
      var book := BookOf(r.st.shelf, a);
      && LegalRun(SESSION, events) && AllDelivered(map[STREAM := feed], SESSION, events)
      && book.valid && book.stream == Some(STREAM) && !IsDegraded(r.st.tracker, STREAM)
      && BaselineOf(r.st.tracker, STREAM) == Some(7) && feed.Numbers(7)
      && book.ladders == Bought(2) && ExchangeBook(feed, 7, a) == Bought(3) != Bought(2)
  {
    var events, feeds := Events(a, b, 8), map[STREAM := Feeding(a, b)];
    EventsAre(a, b, 8, 8);
    assert LegalRun(SESSION, events) by {
      hide Run, Legal, EventAt;
      forall k | 0 <= k < |events| ensures LegalAt(SESSION, events, k) {
        EventsAre(a, b, 8, k);
        EventIsLegal(a, b, k);
      }
    }
    assert AllDelivered(feeds, SESSION, events) by {
      hide Run, ArrivedBy, Delivered, EventAt;
      forall k | 0 <= k < |events| ensures DeliveredAt(feeds, SESSION, events, k) {
        EventsAre(a, b, 8, k);
        EventIsDelivered(a, b, k);
      }
    }
    hide LegalRun, AllDelivered, BookAfterSending, Run;
    ReachesAll(a, b, 8);
    ExchangeBooks(a, b, 7);
    assert Bought(3).yes[PRICE] != Bought(2).yes[PRICE];
  }
}
