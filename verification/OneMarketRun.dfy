/**
 * A short legal run over any one market: a snapshot, a delta, a snapshot of a book that has moved on, and
 * a delta, ten milliseconds apart on one stream, and the rows it leaves.
 */
module OneMarketRun {
  import opened Values
  import opened CanonicalForm
  import opened MarketBooks
  import opened BookManagement
  import opened SequenceTracking
  import opened RecoveryMachine
  import opened Collecting
  import opened Capture
  import opened LiveHistory
  import opened Ordering
  import opened Replaying
  import opened Queries
  import Subs = Subscriptions

  const STREAM: StreamId := 7
  const SID := 100
  const SESSION: SessionId := 1
  const CONTRACT := 1_000_000
  const PRICE := 500_000

  const BUY := Change(Yes, PRICE, CONTRACT)

  const IDS := [Subs.NewIds(STREAM, 1)]

  function Sent(m: Ticker, n: nat): Payload {
    match n
    case 1 => SnapshotMsg(m, [], [])
    case 3 => SnapshotMsg(m, [(PRICE, 3 * CONTRACT)], [])
    case _ => DeltaMsg(m, BUY)
  }

  function Message(m: Ticker, n: nat): Frame {
    Frame(Some(SID), Some(n), 10 * n, Sent(m, n), false)
  }

  function EventAt(m: Ticker, k: nat): Event {
    match k
    case 0 => SubscribeEvent(OrderbookDelta, [m], IDS)
    case 1 => BindEvent(Some(1), SID, OrderbookDelta)
    case _ => FrameEvent(Message(m, k - 1))
  }

  /** The subscription, the binding and the first n messages. */
  function Events(m: Ticker, n: nat): seq<Event> {
    Begun(m, n + 2)
  }

  function Begun(m: Ticker, k: nat): (events: seq<Event>)
    ensures |events| == k
  {
    if k == 0 then [] else Begun(m, k - 1) + [EventAt(m, k - 1)]
  }

  /** The live book after n messages. */
  function BookNow(n: nat): Ladders {
    Ladders(if n <= 1 then map[] else if n == 2 then map[PRICE := CONTRACT] else map[PRICE := n * CONTRACT], map[])
  }

  // ---------------------------------------------------------------------------
  // Step by step
  // ---------------------------------------------------------------------------

  function Subscription(m: Ticker, bound: bool): Subs.SubState {
    if bound then
      Subs.SubState([STREAM], map[STREAM := Subs.Sub(OrderbookDelta, Some(SID), {m}, None)],
                    map[SID := STREAM], map[], map[m := {STREAM}])
    else
      Subs.SubState([STREAM], map[STREAM := Subs.Sub(OrderbookDelta, None, {m}, Some(1))],
                    map[], map[1 := STREAM], map[m := {STREAM}])
  }

  function Numbers(n: nat): Streams {
    map[STREAM := StreamSeq(OrderbookDelta, if n == 0 then None else Some(1), if n == 0 then None else Some(n), 0, 0, 0,
                            n, false, 0)]
  }

  const AT_EASE := Machine(map[STREAM := Healthy], map[])

  /** After n messages the stream is healthy at n, and the book is trusted once it has been restored. */
  ghost predicate StandsAt(st: State, m: Ticker, n: nat) {
    && st.subs == Subscription(m, true) && st.tracker == Numbers(n) && st.machine == AT_EASE
    && st.shelf.carried == map[STREAM := [m]]
    && BookOf(st.shelf, m).ticker == m && BookOf(st.shelf, m).ladders == BookNow(n)
    && (n > 0 ==> BookOf(st.shelf, m).valid)
  }

  /** The row the n-th message leaves. */
  ghost predicate IsRowOf(r: Row, m: Ticker, n: nat) {
    About(r, m) && r.stream == Some(STREAM) && r.seqNo == Some(n) && r.atMs == 10 * n &&
    if n == 1 || n == 3 then r.SnapshotRow? && r.source == WsInitial && LaddersIn(r) == BookNow(n)
    else r.DeltaRow? && r.applied && r.change == BUY
  }

  lemma LoadsNothing()
    ensures Load([]) == map[]
  {
  }

  lemma LoadsOne()
    ensures Load([(PRICE, 3 * CONTRACT)]) == map[PRICE := 3 * CONTRACT]
  {
    var levels: seq<Level> := [(PRICE, 3 * CONTRACT)];
    assert levels[..0] == [];
    LoadsNothing();
  }

  lemma LoadsSent(m: Ticker, n: nat)
    requires n == 1 || n == 3
    ensures Ladders(Load(Sent(m, n).yes), Load(Sent(m, n).no)) == BookNow(n) && NoZeros(BookNow(n))
  {
    LoadsNothing();
    LoadsOne();
    hide Load;
  }

  lemma BuyFolds(n: nat)
    requires n == 1 || n == 3
    ensures Applies(BookNow(n), BUY) && Folded(BookNow(n), BUY) == BookNow(n + 1)
  {
    assert BookNow(3).yes[PRICE := 4 * CONTRACT] == BookNow(4).yes;
    assert BookNow(1).yes[PRICE := CONTRACT] == BookNow(2).yes;
  }

  /** A message in sequence on a healthy stream goes straight through. */
  lemma GoesThrough(st: State, m: Ticker, n: nat, f: Frame)
    requires StandsAt(st, m, n) && f.sid == Some(SID) && f.seqNo == Some(n + 1)
    ensures StreamOf(st, f.sid) == Some(STREAM)
    ensures Classified(st, STREAM, f) == st.(tracker := Numbers(n + 1)) && GateAt(st, STREAM, f) == OPEN_GATE
    ensures GapRows(st, STREAM, f) == [] && IsClassified(st, Some(STREAM))
  {
    hide BookNow;
  }

  lemma HandledStraight(st: State, m: Ticker, n: nat, f: Frame)
    requires StandsAt(st, m, n) && f.sid == Some(SID) && f.seqNo == Some(n + 1)
    ensures var mid := st.(tracker := Numbers(n + 1));
      var e, d := Handled(st, f, SESSION), Dispatched(mid, f, SESSION, Some(STREAM), OPEN_GATE);
      e.st == d.st && e.rows == d.rows
  {
    hide StandsAt, Classified, GateAt, GapRows, Dispatched, Numbers;
    GoesThrough(st, m, n, f);
    var rows := Dispatched(st.(tracker := Numbers(n + 1)), f, SESSION, Some(STREAM), OPEN_GATE).rows;
    assert [] + rows == rows;
  }

  lemma SnapshotDispatched(mid: State, f: Frame)
    requires f.payload.SnapshotMsg? && mid.machine == AT_EASE
    ensures var e := Dispatched(mid, f, SESSION, Some(STREAM), OPEN_GATE);
      var i := SnapshotIn(f, SESSION, Some(STREAM), false);
      e.st == mid.(shelf := AfterSnapshot(mid.shelf, i)) && e.rows == [SnapshotRowFor(mid.shelf, i)]
  {
    hide AfterSnapshot, SnapshotRowFor;
  }

  lemma SnapshotShelved(s: Shelf, m: Ticker, n: nat)
    requires n == 1 || n == 3
    requires s.carried == map[STREAM := [m]] && BookOf(s, m).ticker == m
    ensures var i := SnapshotIn(Message(m, n), SESSION, Some(STREAM), false);
      var s' := AfterSnapshot(s, i);
      && s'.carried == s.carried && BookOf(s', m).ticker == m
      && BookOf(s', m).valid && BookOf(s', m).ladders == BookNow(n)
      && IsRowOf(SnapshotRowFor(s, i), m, n)
  {
    hide Load, BookNow, LaddersIn;
    LoadsSent(m, n);
    var i := SnapshotIn(Message(m, n), SESSION, Some(STREAM), false);
    SnapshotRowLoadsBack(SnapshotBook(s, i), WsInitial, SESSION, Some(STREAM), i.seqNo, i.atMs);
  }

  lemma SnapshotArrives(st: State, m: Ticker, n: nat)
    requires StandsAt(st, m, n) && (n == 0 || n == 2)
    ensures var e := Handled(st, Message(m, n + 1), SESSION);
      StandsAt(e.st, m, n + 1) && |e.rows| == 1 && IsRowOf(e.rows[0], m, n + 1)
  {
    hide Handled, Dispatched, AfterSnapshot, SnapshotRowFor, IsRowOf, BookNow, Numbers, Subscription;
    var f, mid := Message(m, n + 1), st.(tracker := Numbers(n + 1));
    HandledStraight(st, m, n, f);
    SnapshotDispatched(mid, f);
    SnapshotShelved(mid.shelf, m, n + 1);
  }

  lemma DeltaDispatched(mid: State, f: Frame)
    requires f.payload.DeltaMsg?
    ensures var e, i := Dispatched(mid, f, SESSION, Some(STREAM), OPEN_GATE), DeltaIn(f, SESSION, Some(STREAM));
      var row := DeltaRowFor(mid.shelf, i, true, None);
      e.st == mid.(shelf := AfterDelta(mid.shelf, i, true)) && (NegativeRows(row) == [] ==> e.rows == [row])
  {
    hide AfterDelta, DeltaRowFor;
    var row := DeltaRowFor(mid.shelf, DeltaIn(f, SESSION, Some(STREAM)), true, None);
    assert [row] + [] == [row];
  }

  lemma DeltaShelved(s: Shelf, m: Ticker, n: nat)
    requires (n == 2 || n == 4) && s.carried == map[STREAM := [m]]
    requires BookOf(s, m).ticker == m && BookOf(s, m).valid && BookOf(s, m).ladders == BookNow(n - 1)
    ensures var i := DeltaIn(Message(m, n), SESSION, Some(STREAM));
      var s', row := AfterDelta(s, i, true), DeltaRowFor(s, i, true, None);
      && s'.carried == s.carried && BookOf(s', m).ticker == m
      && BookOf(s', m).valid && BookOf(s', m).ladders == BookNow(n)
      && IsRowOf(row, m, n) && NegativeRows(row) == []
  {
    hide BookNow, Folded, Trimmed;
    BuyFolds(n - 1);
  }

  lemma DeltaArrives(st: State, m: Ticker, n: nat)
    requires StandsAt(st, m, n) && (n == 1 || n == 3)
    ensures var e := Handled(st, Message(m, n + 1), SESSION);
      StandsAt(e.st, m, n + 1) && |e.rows| == 1 && IsRowOf(e.rows[0], m, n + 1)
  {
    hide Handled, Dispatched, AfterDelta, DeltaRowFor, NegativeRows, IsRowOf, BookNow, Numbers, Subscription;
    var f, mid := Message(m, n + 1), st.(tracker := Numbers(n + 1));
    HandledStraight(st, m, n, f);
    DeltaDispatched(mid, f);
    DeltaShelved(mid.shelf, m, n + 1);
  }

  lemma Subscribes(m: Ticker)
    ensures EnoughIds([m], IDS)
    ensures var st := AfterSubscribe(INITIAL_STATE, OrderbookDelta, [m], IDS);
      && st.subs == Subscription(m, false) && st.tracker == Numbers(0) && st.machine == AT_EASE
      && st.shelf == Shelf(map[], map[STREAM := [m]])
  {
    SubscribedOnce(m);
    hide Subs.Subscribed, Subs.Slices, WithShardsOpen, AssociatedAll;
    var st := INITIAL_STATE.(subs := Subscription(m, false));
    OpenNone(st, OrderbookDelta, [[m]], IDS);
    OpenOneMore(st, OrderbookDelta, [[m]], IDS, 1);
    AssociatedOnce(m);
  }

  lemma SubscribedOnce(m: Ticker)
    ensures Subs.Slices([m], MARKETS_PER_SUBSCRIPTION) == [[m]]
    ensures Subs.Subscribed(Subs.NO_SUBSCRIPTIONS, OrderbookDelta, [m], MARKETS_PER_SUBSCRIPTION, IDS) ==
      Subscription(m, false)
  {
    var slices := [[m]];
    assert slices[1..] == [] && IDS[1..] == [];
    assert Subs.MarketSet([m]) == {m};
    var st := Subs.WithSub(Subs.NO_SUBSCRIPTIONS, OrderbookDelta, [m], IDS[0]);
    var index := Subs.Indexed(map[], [m], STREAM);
    assert m in [m];
    assert index.Keys == {m} && index[m] == {} + {STREAM} == {STREAM};
    assert index == map[m := {STREAM}];
    assert st.order == [] + [STREAM] == [STREAM];
    assert Subs.WithShards(st, OrderbookDelta, [], []) == st;
    assert Subs.WithShards(Subs.NO_SUBSCRIPTIONS, OrderbookDelta, slices, IDS) == st;
  }

  lemma AssociatedOnce(m: Ticker)
    ensures AssociatedAll(EMPTY_SHELF, STREAM, [m]) == Shelf(map[], map[STREAM := [m]])
  {
    assert [m][..0] == [];
    assert AssociatedAll(EMPTY_SHELF, STREAM, []) == EMPTY_SHELF;
    assert [] + [m] == [m];
  }

  // ---------------------------------------------------------------------------
  // The whole run
  // ---------------------------------------------------------------------------

  lemma RunNext(m: Ticker, k: nat)
    ensures Run(SESSION, Begun(m, k + 1)) == Step(Run(SESSION, Begun(m, k)), EventAt(m, k))
  {
    hide EventAt, Step;
    var events := Begun(m, k) + [EventAt(m, k)];
    assert Begun(m, k + 1) == events;
    assert events[..|events| - 1] == Begun(m, k);
  }

  lemma {:induction false} BegunAre(m: Ticker, n: nat, k: nat)
    requires k <= n
    ensures Begun(m, n)[..k] == Begun(m, k)
    ensures k < n ==> Begun(m, n)[k] == EventAt(m, k)
  {
    hide EventAt;
    if k < n {
      BegunAre(m, n - 1, k);
      assert Begun(m, n)[..k] == Begun(m, n - 1)[..k];
    }
  }

  /** Where the recorder is, and what it has recorded, after n messages. */
  ghost predicate Recorded(r: Recording, m: Ticker, n: nat) {
    && StandsAt(r.st, m, n) && r.session == SESSION && |r.rows| == n
    && forall i | 0 <= i < n :: IsRowOf(r.rows[i], m, i + 1)
  }

  lemma RecordsBound(m: Ticker)
    ensures Run(SESSION, Begun(m, 0)) == Begin(SESSION)
    ensures Run(SESSION, Begun(m, 1)).st.subs == Subscription(m, false)
    ensures Recorded(Run(SESSION, Events(m, 0)), m, 0)
  {
    hide AfterSubscribe, Subs.Bound, Run, Handled, Begun, Step, Recorded, EventAt;
    BeginsEmpty(m);
    RunNext(m, 0);
    SubscribeRecorded(m);
    RunNext(m, 1);
    BindRecorded(m, Run(SESSION, Begun(m, 1)));
  }

  /** Subscribed, with nothing received. */
  ghost predicate IsSubscribed(r: Recording, m: Ticker) {
    && r.st.subs == Subscription(m, false) && r.st.tracker == Numbers(0) && r.st.machine == AT_EASE
    && r.st.shelf == Shelf(map[], map[STREAM := [m]]) && r.session == SESSION && r.rows == []
  }

  lemma SubscribeRecorded(m: Ticker)
    ensures IsSubscribed(Step(Begin(SESSION), EventAt(m, 0)), m)
  {
    hide AfterSubscribe, Subscription, Numbers;
    Subscribes(m);
  }

  lemma BindRecorded(m: Ticker, r: Recording)
    requires IsSubscribed(r, m)
    ensures Recorded(Step(r, EventAt(m, 1)), m, 0)
  {
    hide Subs.Bound, Subscription, Numbers;
    Binds(m);
  }

  lemma BeginsEmpty(m: Ticker)
    ensures Run(SESSION, Begun(m, 0)) == Begin(SESSION)
  {
  }

  lemma Binds(m: Ticker)
    ensures Subs.Bound(Subscription(m, false), Some(1), SID, OrderbookDelta) == Subscription(m, true)
  {
    assert Subs.Awaiting(Subscription(m, false), Some(1), OrderbookDelta) == Some(STREAM);
  }

  lemma MessageArrives(r: Recording, m: Ticker, n: nat)
    requires n < 4 && Recorded(r, m, n)
    ensures Recorded(Step(r, FrameEvent(Message(m, n + 1))), m, n + 1)
  {
    hide Handled, StandsAt, IsRowOf;
    if n == 0 || n == 2 {
      SnapshotArrives(r.st, m, n);
    } else {
      DeltaArrives(r.st, m, n);
    }
    hide Message;
  }

  lemma {:induction false} RunRecords(m: Ticker, n: nat)
    requires n <= 4
    ensures Recorded(Run(SESSION, Events(m, n)), m, n)
  {
    hide Recorded, Run, Begun, Step;
    if n == 0 {
      RecordsBound(m);
    } else {
      RunRecords(m, n - 1);
      RunNext(m, n + 1);
      assert EventAt(m, n + 1) == FrameEvent(Message(m, n));
      MessageArrives(Run(SESSION, Events(m, n - 1)), m, n - 1);
    }
  }

  lemma MessagesAtHome(m: Ticker, n: nat, st: State)
    requires st.subs == Subscription(m, true)
    ensures FrameAtHome(st, Message(m, n))
  {
    assert Subs.Carries(st.subs, STREAM, m, OrderbookDelta);
  }

  lemma SubscribingIsLegal(m: Ticker)
    ensures Legal(Begin(SESSION), EventAt(m, 0))
  {
    Subscribes(m);
    hide AfterSubscribe;
  }

  lemma EventIsLegal(m: Ticker, k: nat)
    requires k < 6
    ensures Legal(Run(SESSION, Begun(m, k)), EventAt(m, k))
  {
    hide Run, Begun, Recorded, Step, StandsAt;
    if k == 0 {
      RecordsBound(m);
      SubscribingIsLegal(m);
    } else if k > 1 {
      RunRecords(m, k - 2);
      SubscriptionStands(Run(SESSION, Begun(m, k)), m, k - 2);
      MessagesAtHome(m, k - 1, Run(SESSION, Begun(m, k)).st);
      hide Message, FrameAtHome;
    }
  }

  lemma SubscriptionStands(r: Recording, m: Ticker, n: nat)
    requires Recorded(r, m, n)
    ensures r.st.subs == Subscription(m, true)
  {
  }

  lemma RunIsLegal(m: Ticker, n: nat)
    requires n <= 4
    ensures LegalRun(SESSION, Events(m, n))
  {
    hide Legal, Run, Begun, EventAt;
    forall k | 0 <= k < n + 2 ensures LegalAt(SESSION, Events(m, n), k) {
      BegunAre(m, n + 2, k);
      EventIsLegal(m, k);
    }
  }

  // ---------------------------------------------------------------------------
  // The recording
  // ---------------------------------------------------------------------------

  /** The recording is orderly, and its rows tell the book after each message. */
  lemma RecordingIsOrderly(m: Ticker, n: nat)
    requires n <= 4
    ensures Orderly(Run(SESSION, Events(m, n)).rows, m, map[])
  {
    RunRecords(m, n);
    hide Run, StandsAt, LaddersIn;
  }

  lemma {:induction false} RowsTellTheBook(rows: seq<Row>, m: Ticker, n: nat)
    requires n <= |rows| <= 4 && forall i | 0 <= i < |rows| :: IsRowOf(rows[i], m, i + 1)
    ensures BookAfter(rows[..n], m) == BookNow(n)
  {
    hide BookNow, BookAfter, WithRow, IsRowOf;
    if n == 0 {
      NoRowsNoBook(rows, m);
    } else {
      RowsTellTheBook(rows, m, n - 1);
      assert IsRowOf(rows[n - 1], m, n);
      RowMovesTheBook(rows[n - 1], m, n);
      BookAfterSnoc(rows[..n - 1], rows[n - 1], m);
      assert rows[..n] == rows[..n - 1] + [rows[n - 1]];
    }
  }

  lemma NoRowsNoBook(rows: seq<Row>, m: Ticker)
    ensures BookAfter(rows[..0], m) == BookNow(0)
  {
  }

  lemma RowMovesTheBook(r: Row, m: Ticker, n: nat)
    requires 1 <= n <= 4 && IsRowOf(r, m, n)
    ensures WithRow(BookNow(n - 1), r, m) == BookNow(n)
  {
    hide BookNow, Folded, LaddersIn;
    if n == 2 || n == 4 {
      BuyFolds(n - 1);
    }
  }

  /** What the queries of a replay over [10, 40] return from the rows of three or four messages. */
  function AnswersFrom(rows: seq<Row>): Answers
    requires 3 <= |rows| <= 4
  {
    Answers(Some(rows[0]), false, [rows[2]], if |rows| == 3 then [rows[1]] else [rows[1], rows[3]])
  }

  function Asking(m: Ticker, toSeq: Option<int>): Options {
    Options(m, 10, 40, toSeq, Some(STREAM), false)
  }

  lemma Selections(rows: seq<Row>, m: Ticker)
    requires 3 <= |rows| <= 4 && forall i | 0 <= i < |rows| :: IsRowOf(rows[i], m, i + 1)
    ensures Select(rows, DeltasOf(m, 10, 40)) == AnswersFrom(rows).deltas
    ensures Select(rows, SnapshotsOf(m, 10, 40)) == AnswersFrom(rows).snapshots
  {
    hide LaddersIn, BookNow, Select;
    assert rows[..|rows|] == rows;
    SelectNothing(rows, DeltasOf(m, 10, 40));
    SelectNothing(rows, SnapshotsOf(m, 10, 40));
    SelectBoth(rows, m, 0);
    SelectBoth(rows, m, 1);
    SelectBoth(rows, m, 2);
    if |rows| == 4 {
      SelectBoth(rows, m, 3);
    }
    assert forall i | 0 <= i < |rows| :: IsRowOf(rows[i], m, i + 1);
  }

  lemma SelectNothing(rows: seq<Row>, q: Query)
    ensures Select(rows[..0], q) == []
  {
  }

  lemma SelectBoth(rows: seq<Row>, m: Ticker, i: nat)
    requires i < |rows|
    ensures forall q | q == DeltasOf(m, 10, 40) || q == SnapshotsOf(m, 10, 40) ::
      Select(rows[..i + 1], q) == Select(rows[..i], q) + (if Selects(q, rows[i]) then [rows[i]] else [])
  {
    SelectSnoc(rows, DeltasOf(m, 10, 40), i);
    SelectSnoc(rows, SnapshotsOf(m, 10, 40), i);
  }

  /** The first snapshot is the seed, and the rest comes in the order it was written. */
  lemma RecordingAnswers(rows: seq<Row>, m: Ticker, toSeq: Option<int>)
    requires 3 <= |rows| <= 4 && forall i | 0 <= i < |rows| :: IsRowOf(rows[i], m, i + 1)
    requires Orderly(rows, m, map[])
    ensures Answered(rows, map[], Asking(m, toSeq), AnswersFrom(rows), Some(0))
  {
    Selections(rows, m);
    DeltasAreOrdered(rows, m, map[], 10, 40);
    SnapshotsAreOrdered(rows, m, map[], 10, 40);
    FirstIsSeed(rows, m);
    var deltas := Select(rows, DeltasOf(m, 10, 40));
    hide Orderly, Select, IsSeed, IsRowOf, AnswersFrom;
    StrictIsSorted(deltas, (x, y) => ComesFirst(map[], deltas, x, y));
    StrictIsSorted(Select(rows, SnapshotsOf(m, 10, 40)), EarlierMs);
    hide ComesFirst, EarlierMs, StrictlySorted, Sorted;
  }

  lemma StrictIsSorted<T(!new)>(s: seq<T>, lt: (T, T) -> bool)
    requires StrictlySorted(s, lt) && |s| <= 2 && forall x, y :: lt(x, y) ==> !lt(y, x)
    ensures Sorted(s, lt)
  {
  }

  lemma FirstIsSeed(rows: seq<Row>, m: Ticker)
    requires 3 <= |rows| <= 4 && forall i | 0 <= i < |rows| :: IsRowOf(rows[i], m, i + 1)
    ensures IsSeed(rows, m, 10, 0) && rows[0].atMs == 10 && AnswersFrom(rows).seed == Some(rows[0])
  {
    hide LaddersIn, BookNow;
    assert IsRowOf(rows[0], m, 1);
  }
}
