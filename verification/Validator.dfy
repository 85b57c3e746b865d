/** Cross-checking live books against REST books (src/integrity/validator.ts). */
module Validating {
  import opened Values
  import opened CanonicalForm
  import opened MarketBooks
  import opened BookManagement

  datatype Kind = MatchCurrent | MatchRecent | MismatchTransient | MismatchConfirmed

  datatype MarketValidation = MarketValidation(
    ticker: Ticker, kind: Kind, localHash: Hash, restHash: Hash, matchedAtMs: Option<int>, matchedSeq: Option<int>,
    statesConsidered: nat)

  datatype RestBook = RestBook(yes: seq<Level>, no: seq<Level>)

  const DEFAULT_TOLERANCE_MS := 2_000
  const DEFAULT_ESCALATION := 2
  const MAX_STATES := 64
  const MAX_ORDERBOOK_BATCH := 100

  function RestLadders(r: RestBook): Ladders {
    Ladders(Load(r.yes), Load(r.no))
  }

  // ---------------------------------------------------------------------------
  // Which states count
  // ---------------------------------------------------------------------------

  /** The book after all but the last k changes. */
  function StateBack(base: Ladders, applied: seq<JournalEntry>, k: nat): Ladders
    requires k <= |applied|
  {
    Play(base, applied[..|applied| - k])
  }

  /** The state k changes back was still held at `fromMs`: it is the present one, or was left no earlier. */
  predicate HeldAt(applied: seq<JournalEntry>, k: nat, fromMs: int) {
    k == 0 || (k <= |applied| && applied[|applied| - k].atMs >= fromMs)
  }

  ghost predicate WasHeld(base: Ladders, applied: seq<JournalEntry>, k: nat, fromMs: int, rest: Ladders) {
    k <= |applied| && HeldAt(applied, k, fromMs) && rest == StateBack(base, applied, k)
  }

  /** The book held this state at or after `fromMs`. */
  ghost predicate HeldSinceThen(base: Ladders, applied: seq<JournalEntry>, fromMs: int, rest: Ladders) {
    exists k: nat :: WasHeld(base, applied, k, fromMs, rest)
  }

  /** The book held this state at some time since its last snapshot. */
  ghost predicate ReallyHeld(base: Ladders, applied: seq<JournalEntry>, rest: Ladders) {
    exists k: nat :: k <= |applied| && rest == StateBack(base, applied, k)
  }

  /** The journal reaches back to `fromMs` and no update is later than the end of the window. */
  ghost predicate WindowCovered(b: BookData, applied: seq<JournalEntry>, keep: Retention, fromMs: int, untilMs: int) {
    && TimesInOrder(applied)
    && (applied != [] ==> applied[|applied| - 1].atMs - keep.windowMs <= fromMs)
    && CountSince(applied, fromMs) < MAX_STATES <= keep.maxEntries + 1
    && b.lastUpdateAtMs <= untilMs
    && (forall i | 0 <= i < |applied| :: applied[i].atMs <= untilMs)
  }

  lemma LaddersHashIdentifies(t: Ticker, a: Ladders, b: Ladders)
    ensures LaddersHash(t, a) == LaddersHash(t, b) <==> a == b
  {
    StateHashIdentifiesBook(t, a.yes, a.no, b.yes, b.no);
  }

  /** A past state with the REST book's hash, reached no later than the end of the window. */
  ghost predicate Hit(states: seq<PastState>, i: nat, restHash: Hash, untilMs: int) {
    i < |states| && states[i].hash == restHash && states[i].atMs <= untilMs
  }

  /** Any hit is a state the book really held. */
  lemma HitsAreReal(states: seq<PastState>, i: nat, untilMs: int, b: BookData, base: Ladders,
      applied: seq<JournalEntry>, rest: Ladders)
    requires |states| <= |b.journal| + 1 && |b.journal| <= |applied| && PastStates(states, b, base, applied)
    requires Hit(states, i, LaddersHash(b.ticker, rest), untilMs)
    ensures i <= |applied| && rest == StateBack(base, applied, i) && ReallyHeld(base, applied, rest)
  {
    assert IsPastState(states[i], i, b, base, applied);
    LaddersHashIdentifies(b.ticker, rest, StateBack(base, applied, i));
  }

  /** In a covered window the rewound states are exactly the states held in it. */
  lemma WindowDecides(states: seq<PastState>, b: BookData, base: Ladders, applied: seq<JournalEntry>, keep: Retention,
                      fromMs: int, untilMs: int, rest: Ladders)
    requires Records(b.journal, applied, keep) && WindowCovered(b, applied, keep, fromMs, untilMs)
    requires |states| == 1 + RewindCount(b.journal, fromMs, MAX_STATES) && PastStates(states, b, base, applied)
    ensures (exists i: nat :: Hit(states, i, LaddersHash(b.ticker, rest), untilMs)) <==>
        HeldSinceThen(base, applied, fromMs, rest)
  {
    var n := CountSince(applied, fromMs);
    RewoundAll(b, applied, keep, fromMs, untilMs);
    hide RewindCount, CountSince, Covers, LaddersHash, Play, PastStates, WindowCovered;
    if i: nat :| Hit(states, i, LaddersHash(b.ticker, rest), untilMs) {
      HitWasHeld(states, i, b, base, applied, keep, fromMs, untilMs, rest);
    }
    if HeldSinceThen(base, applied, fromMs, rest) {
      var k: nat :| WasHeld(base, applied, k, fromMs, rest);
      HeldIsHit(states, k, b, base, applied, keep, fromMs, untilMs, rest);
    }
  }

  lemma RewoundAll(b: BookData, applied: seq<JournalEntry>, keep: Retention, fromMs: int, untilMs: int)
    requires Records(b.journal, applied, keep) && WindowCovered(b, applied, keep, fromMs, untilMs)
    ensures RewindCount(b.journal, fromMs, MAX_STATES) == CountSince(applied, fromMs)
  {
    if applied != [] {
      RewindIsComplete(b.journal, applied, fromMs, MAX_STATES, applied[|applied| - 1].atMs - keep.windowMs,
          keep.maxEntries);
    }
    hide RewindCount, CountSince;
  }

  lemma HeldExactly(b: BookData, applied: seq<JournalEntry>, keep: Retention, fromMs: int, untilMs: int, k: nat)
    requires WindowCovered(b, applied, keep, fromMs, untilMs) && k <= |applied|
    ensures HeldAt(applied, k, fromMs) <==> k <= CountSince(applied, fromMs)
  {
    if k > 0 {
      HeldSince(applied, fromMs, |applied| - k);
    }
    hide CountSince;
  }

  lemma HitWasHeld(states: seq<PastState>, i: nat, b: BookData, base: Ladders, applied: seq<JournalEntry>,
                   keep: Retention, fromMs: int, untilMs: int, rest: Ladders)
    requires IsSuffix(b.journal, applied) && WindowCovered(b, applied, keep, fromMs, untilMs)
    requires |states| == 1 + CountSince(applied, fromMs) <= |b.journal| + 1 && PastStates(states, b, base, applied)
    requires Hit(states, i, LaddersHash(b.ticker, rest), untilMs)
    ensures HeldSinceThen(base, applied, fromMs, rest)
  {
    hide WindowCovered, CountSince, LaddersHash, Play, PastStates, ReallyHeld;
    HitsAreReal(states, i, untilMs, b, base, applied, rest);
    HeldExactly(b, applied, keep, fromMs, untilMs, i);
    assert WasHeld(base, applied, i, fromMs, rest);
  }

  lemma HeldIsHit(states: seq<PastState>, k: nat, b: BookData, base: Ladders, applied: seq<JournalEntry>,
                  keep: Retention, fromMs: int, untilMs: int, rest: Ladders)
    requires IsSuffix(b.journal, applied) && WindowCovered(b, applied, keep, fromMs, untilMs)
    requires |states| == 1 + CountSince(applied, fromMs) <= |b.journal| + 1 && PastStates(states, b, base, applied)
    requires WasHeld(base, applied, k, fromMs, rest)
    ensures Hit(states, k, LaddersHash(b.ticker, rest), untilMs)
  {
    hide CountSince, LaddersHash, Play;
    HeldExactly(b, applied, keep, fromMs, untilMs, k);
    assert IsPastState(states[k], k, b, base, applied);
  }

  // ---------------------------------------------------------------------------
  // Transient, confirmed, escalated
  // ---------------------------------------------------------------------------

  /** Markets awaiting a re-check, and how often each was confirmed wrong in a row. */
  datatype Tracking = Tracking(pending: set<Ticker>, confirmed: map<Ticker, nat>)

  const NO_TRACKING := Tracking({}, map[])

  function Streak(t: Tracking, m: Ticker): nat {
    if m in t.confirmed then t.confirmed[m] else 0
  }

  /** What a comparison makes of a market: a second failure in a row is confirmed. */
  function Pended(pending: set<Ticker>, m: Ticker, matched: bool): set<Ticker> {
    if matched || m in pending then pending - {m} else pending + {m}
  }

  function FailureKind(pending: set<Ticker>, m: Ticker): Kind {
    if m in pending then MismatchConfirmed else MismatchTransient
  }

  /** Bookkeeping after a market was judged. */
  function Judged(t: Tracking, m: Ticker, matched: bool): Tracking {
    Tracking(Pended(t.pending, m, matched),
             if matched then t.confirmed - {m}
             else if FailureKind(t.pending, m) == MismatchConfirmed then t.confirmed[m := Streak(t, m) + 1]
             else t.confirmed)
  }

  predicate Escalates(t: Tracking, m: Ticker, matched: bool, threshold: int) {
    !matched && FailureKind(t.pending, m) == MismatchConfirmed && Streak(t, m) + 1 >= threshold
  }

  datatype Check = Check(ticker: Ticker, matched: bool)

  function Tracked(history: seq<Check>): Tracking {
    if history == [] then NO_TRACKING
    else Judged(Tracked(history[..|history| - 1]), history[|history| - 1].ticker, history[|history| - 1].matched)
  }

  /** How many checks of a market have failed since the last that matched. */
  function FailuresInARow(history: seq<Check>, m: Ticker): nat {
    if history == [] then 0
    else
      var last := history[|history| - 1];
      if last.ticker != m then FailuresInARow(history[..|history| - 1], m)
      else if last.matched then 0
      else FailuresInARow(history[..|history| - 1], m) + 1
  }

  lemma {:induction false} TrackingCountsFailures(history: seq<Check>, m: Ticker)
    ensures m in Tracked(history).pending <==> FailuresInARow(history, m) % 2 == 1
    ensures Streak(Tracked(history), m) == FailuresInARow(history, m) / 2
  {
    if history != [] {
      TrackingCountsFailures(history[..|history| - 1], m);
    }
  }

  /**
   * Over any run of checks the k-th failure in a row is transient for odd k and confirmed for even
   * k, and it asks for a reconnect exactly when k is even and half of it reaches the threshold.
   */
  lemma VerdictsAlternate(history: seq<Check>, m: Ticker, threshold: int)
    ensures var k, t := FailuresInARow(history, m) + 1, Tracked(history);
      && (FailureKind(t.pending, m) == MismatchTransient <==> k % 2 == 1)
      && (FailureKind(t.pending, m) == MismatchConfirmed <==> k % 2 == 0)
      && (Escalates(t, m, false, threshold) <==> k % 2 == 0 && k / 2 >= threshold)
      && !Escalates(t, m, true, threshold)
  {
    TrackingCountsFailures(history, m);
  }

  // ---------------------------------------------------------------------------
  // The validator object
  // ---------------------------------------------------------------------------

  datatype Outcome = Outcome(
    checked: nat, matchedCurrent: nat, matchedRecent: nat, transient: nat, confirmed: nat,
    results: seq<MarketValidation>, recoveryNeeded: seq<Ticker>, escalate: bool)

  const NO_OUTCOME := Outcome(0, 0, 0, 0, 0, [], [], false)

  predicate IsMatch(k: Kind) {
    k == MatchCurrent || k == MatchRecent
  }

  function Tallied(o: Outcome, r: MarketValidation): Outcome {
    var p := o.(checked := o.checked + 1, results := o.results + [r]);
    match r.kind
    case MatchCurrent => p.(matchedCurrent := o.matchedCurrent + 1)
    case MatchRecent => p.(matchedRecent := o.matchedRecent + 1)
    case MismatchTransient => p.(transient := o.transient + 1)
    case MismatchConfirmed => p.(confirmed := o.confirmed + 1, recoveryNeeded := o.recoveryNeeded + [r.ticker])
  }

  /** One REST answer, or none, with the clock before and after the request. */
  datatype Response = Response(t0: int, t1: int, books: Option<map<Ticker, RestBook>>)

  function AfterAll(t: Tracking, rs: seq<MarketValidation>): Tracking {
    if rs == [] then t
    else Judged(AfterAll(t, rs[..|rs| - 1]), rs[|rs| - 1].ticker, IsMatch(rs[|rs| - 1].kind))
  }

  predicate AnyEscalates(t: Tracking, rs: seq<MarketValidation>, threshold: int) {
    if rs == [] then false
    else
      var init, r := rs[..|rs| - 1], rs[|rs| - 1];
      AnyEscalates(t, init, threshold) || Escalates(AfterAll(t, init), r.ticker, IsMatch(r.kind), threshold)
  }

  function ConfirmedOf(rs: seq<MarketValidation>): seq<Ticker> {
    if rs == [] then []
    else
      ConfirmedOf(rs[..|rs| - 1]) + (if rs[|rs| - 1].kind == MismatchConfirmed then [rs[|rs| - 1].ticker] else [])
  }

  function TickersOf(rs: seq<MarketValidation>): seq<Ticker> {
    if rs == [] then [] else TickersOf(rs[..|rs| - 1]) + [rs[|rs| - 1].ticker]
  }

  /** Only trusted books are compared. */
  function ValidAmong(tickers: seq<Ticker>, books: map<Ticker, BookData>): (candidates: seq<Ticker>)
    ensures |candidates| <= |tickers|
  {
    if tickers == [] then []
    else
      var t := tickers[|tickers| - 1];
      ValidAmong(tickers[..|tickers| - 1], books) + (if t in books && books[t].valid then [t] else [])
  }

  /** The tickers of a batch that a response answers. */
  function Answered(batch: seq<Ticker>, response: Response): seq<Ticker> {
    if batch == [] || response.books.None? then []
    else
      var t := batch[|batch| - 1];
      Answered(batch[..|batch| - 1], response) + (if t in response.books.value then [t] else [])
  }

  /** What all the requests together answer, batch by batch. */
  function AllAnswered(candidates: seq<Ticker>, responses: seq<Response>, maxBatch: nat): seq<Ticker>
    requires 0 < maxBatch && |candidates| <= |responses|
    decreases |candidates|
  {
    if candidates == [] then []
    else
      var n := Min(maxBatch, |candidates|);
      Answered(candidates[..n], responses[0]) + AllAnswered(candidates[n..], responses[1..], maxBatch)
  }

  /** The outcome tells what its results did to the bookkeeping. */
  ghost predicate Reported(o: Outcome, start: Tracking, now: Tracking, threshold: int) {
    && now == AfterAll(start, o.results)
    && (o.escalate <==> AnyEscalates(start, o.results, threshold))
    && o.recoveryNeeded == ConfirmedOf(o.results) && o.checked == |o.results|
  }

  lemma NothingReported(start: Tracking, threshold: int)
    ensures Reported(NO_OUTCOME, start, start, threshold) && TickersOf(NO_OUTCOME.results) == []
  {
  }

  lemma ReportedSays(o: Outcome, start: Tracking, now: Tracking, threshold: int)
    requires Reported(o, start, now, threshold)
    ensures now == AfterAll(start, o.results) && (o.escalate <==> AnyEscalates(start, o.results, threshold))
    ensures o.recoveryNeeded == ConfirmedOf(o.results) && o.checked == |o.results|
  {
  }

  lemma NoneLeft(responses: seq<Response>, maxBatch: nat)
    requires 0 < maxBatch
    ensures AllAnswered([], responses, maxBatch) == []
  {
  }

  lemma NextBatch(candidates: seq<Ticker>, responses: seq<Response>, maxBatch: nat, i: nat, batch: nat)
    requires 0 < maxBatch && i < |candidates| && batch < |responses| && |candidates| - i <= |responses| - batch
    ensures var n := Min(maxBatch, |candidates| - i);
      AllAnswered(candidates[i..], responses[batch..], maxBatch)
      == Answered(candidates[i..i + n], responses[batch]) +
          AllAnswered(candidates[i + n..], responses[batch + 1..], maxBatch)
  {
    var n := Min(maxBatch, |candidates| - i);
    assert candidates[i..][..n] == candidates[i..i + n];
    assert candidates[i..][n..] == candidates[i + n..];
    assert responses[batch..][1..] == responses[batch + 1..];
  }

  lemma OneMoreReported(o: Outcome, start: Tracking, now: Tracking, r: MarketValidation, threshold: int)
    requires Reported(o, start, now, threshold)
    ensures Reported(Tallied(o, r).(escalate := o.escalate || Escalates(now, r.ticker, IsMatch(r.kind), threshold)),
                     start, Judged(now, r.ticker, IsMatch(r.kind)), threshold)
  {
    assert (o.results + [r])[..|o.results|] == o.results;
  }

  lemma Regrouped<T>(a: seq<T>, b: seq<T>, c: seq<T>)
    ensures a + (b + c) == (a + b) + c
  {
  }

  class BookValidator {
    const toleranceMs: int
    const escalationThreshold: int
    var pendingRecheck: set<Ticker>
    var consecutiveConfirmed: map<Ticker, nat>

    function View(): Tracking
      reads this
    {
      Tracking(pendingRecheck, consecutiveConfirmed)
    }

    constructor (toleranceMs: int := DEFAULT_TOLERANCE_MS, escalationThreshold: int := DEFAULT_ESCALATION)
      ensures View() == NO_TRACKING && this.toleranceMs == toleranceMs &&
          this.escalationThreshold == escalationThreshold
    {
      this.toleranceMs, this.escalationThreshold := toleranceMs, escalationThreshold;
      pendingRecheck, consecutiveConfirmed := {}, map[];
    }

    /**
     * Classifies one market. A match is always with a state the book really held; and in a covered
     * window it is a match exactly when the REST book is a state held since the window began.
     */
    method Compare(local: MarketBook, remote: RestBook, t0: int, t1: int) returns (r: MarketValidation)
      requires local.Valid()
      modifies `pendingRecheck, local`hashCache
      ensures local.Valid() && local.View() == old(local.View())
      ensures pendingRecheck == Pended(old(pendingRecheck), local.ticker, IsMatch(r.kind))
      ensures !IsMatch(r.kind) ==> r.kind == FailureKind(old(pendingRecheck), local.ticker)
      ensures r.ticker == local.ticker
      ensures r.localHash == LaddersHash(local.ticker, local.Contents())
      ensures r.restHash == LaddersHash(local.ticker, RestLadders(remote))
      ensures r.kind == MatchCurrent <==> RestLadders(remote) == local.Contents()
      ensures r.kind == MatchRecent ==>
        ReallyHeld(local.base, local.applied, RestLadders(remote))
      ensures (Positive(local.base)
               && WindowCovered(local.View(), local.applied, local.keep, t0 - toleranceMs, t1 + toleranceMs) ==>
                 (IsMatch(r.kind) <==> HeldSinceThen(local.base, local.applied, t0 - toleranceMs, RestLadders(remote))))
    {
      hide LaddersHash, Play, Playable, Covers, TimesInOrder, Load, RewindCount, CountSince, HeldSinceThen,
          WindowCovered;
      hide NoZeros, Positive, PastStates, ReallyHeld, StateBack;
      ghost var rest := RestLadders(remote);
      var restHash := HashRestBook(local.ticker, remote);
      var localHash := local.GetStateHash();
      LaddersHashIdentifies(local.ticker, local.Contents(), rest);
      if localHash == restHash {
        pendingRecheck := pendingRecheck - {local.ticker};
        PresentIsHeld(local.base, local.applied, t0 - toleranceMs, rest);
        return MarketValidation(local.ticker, MatchCurrent, localHash, restHash, None, None, 1);
      }
      var states := local.HistoricalStates(t0 - toleranceMs, MAX_STATES);
      var hit := FindHit(states, restHash, t1 + toleranceMs);
      if Positive(local.base) && WindowCovered(local.View(), local.applied, local.keep, t0 - toleranceMs,
          t1 + toleranceMs) {
        WindowDecides(states, local.View(), local.base, local.applied, local.keep, t0 - toleranceMs,
            t1 + toleranceMs, rest);
      }
      if hit.Some? {
        var s := states[hit.value];
        HitsAreReal(states, hit.value, t1 + toleranceMs, local.View(), local.base, local.applied, rest);
        pendingRecheck := pendingRecheck - {local.ticker};
        return MarketValidation(local.ticker, MatchRecent, localHash, restHash, Some(s.atMs), s.seqNo, |states|);
      }
      var wasPending := local.ticker in pendingRecheck;
      if wasPending {
        pendingRecheck := pendingRecheck - {local.ticker};
      } else {
        pendingRecheck := pendingRecheck + {local.ticker};
      }
      r := MarketValidation(local.ticker, if wasPending then MismatchConfirmed else MismatchTransient,
                            localHash, restHash, None, None, |states|);
    }

    /** Hashes the REST book through the same canonical form as a live one. */
    method HashRestBook(ticker: Ticker, remote: RestBook) returns (h: Hash)
      ensures h == LaddersHash(ticker, RestLadders(remote))
    {
      hide LaddersHash, MarketBook.Valid, Load;
      var restBook := new MarketBook(ticker);
      restBook.ReplaceWithSnapshot(remote.yes, remote.no, None, 0, None, None);
      assert restBook.View().ladders == RestLadders(remote);
      h := restBook.GetStateHash();
    }

    method FindHit(states: seq<PastState>, restHash: Hash, untilMs: int) returns (hit: Option<nat>)
      ensures hit.Some? ==> Hit(states, hit.value, restHash, untilMs)
      ensures hit.None? ==> forall i: nat :: !Hit(states, i, restHash, untilMs)
    {
      for i := 0 to |states|
        invariant forall k: nat | k < i :: !Hit(states, k, restHash, untilMs)
      {
        if states[i].hash == restHash && states[i].atMs <= untilMs {
          return Some(i);
        }
      }
      hit := None;
    }

    /** Judges one market and keeps the streaks. */
    method CheckMarket(local: MarketBook, remote: RestBook, t0: int, t1: int, outcome: Outcome)
      returns (r: MarketValidation, outcome': Outcome)
      requires local.Valid()
      modifies this, local`hashCache
      ensures local.Valid() && local.View() == old(local.View())
      ensures View() == Judged(old(View()), local.ticker, IsMatch(r.kind)) && r.ticker == local.ticker
      ensures var escalate := Escalates(old(View()), local.ticker, IsMatch(r.kind), escalationThreshold);
        outcome' == Tallied(outcome, r).(escalate := outcome.escalate || escalate)
    {
      r := Compare(local, remote, t0, t1);
      outcome' := Tallied(outcome, r);
      if r.kind == MismatchConfirmed {
        var streak := (if r.ticker in consecutiveConfirmed then consecutiveConfirmed[r.ticker] else 0) + 1;
        consecutiveConfirmed := consecutiveConfirmed[r.ticker := streak];
        if streak >= escalationThreshold {
          outcome' := outcome'.(escalate := true);
        }
      } else if r.kind != MismatchTransient {
        consecutiveConfirmed := consecutiveConfirmed - {r.ticker};
      }
    }

    /** Checks every valid book among the tickers, one REST request per batch; a failed request is passed over. */
    method Validate(books: BookManager, tickers: seq<Ticker>, maxBatch: nat, responses: seq<Response>)
        returns (o: Outcome)
      requires books.Valid() && 0 < maxBatch <= MAX_ORDERBOOK_BATCH && |tickers| <= |responses|
      modifies this, books.books.Values
      ensures books.Valid() && books.Books() == old(books.Books())
      ensures TickersOf(o.results) == AllAnswered(ValidAmong(tickers, old(books.Books())), responses, maxBatch)
      ensures View() == AfterAll(old(View()), o.results)
      ensures o.escalate <==> AnyEscalates(old(View()), o.results, escalationThreshold)
      ensures o.recoveryNeeded == ConfirmedOf(o.results) && o.checked == |o.results|
    {
      hide BookManager.Valid, MarketBook.Valid, MarketBook.View, BookManager.Books, Escalates, AnyEscalates, Tallied,
          Reported, AllAnswered, Answered,
        AfterAll, TickersOf, ConfirmedOf, ValidAmong;
      o := NO_OUTCOME;
      ghost var start, all := View(), books.Books();
      var candidates := ValidOnly(books, tickers);
      var i, batch := 0, 0;
      NothingReported(start, escalationThreshold);
      assert candidates[0..] == candidates && responses[0..] == responses;
      while i < |candidates|
        invariant 0 <= i <= |candidates| && 0 <= batch <= i && books.Valid() && books.Books() == all
        invariant books.books == old(books.books) && |candidates| <= |tickers|
        invariant Reported(o, start, View(), escalationThreshold)
        invariant TickersOf(o.results) + AllAnswered(candidates[i..], responses[batch..], maxBatch)
               == AllAnswered(candidates, responses, maxBatch)
        decreases |candidates| - i
      {
        var n := Min(maxBatch, |candidates| - i);
        var part := candidates[i..i + n];
        NextBatch(candidates, responses, maxBatch, i, batch);
        ghost var before := TickersOf(o.results);
        o := CheckBatch(books, part, responses[batch], o, start);
        Regrouped(before, Answered(part, responses[batch]),
            AllAnswered(candidates[i + n..], responses[batch + 1..], maxBatch));
        i, batch := i + n, batch + 1;
      }
      assert candidates[i..] == [];
      NoneLeft(responses[batch..], maxBatch);
      assert TickersOf(o.results) + [] == TickersOf(o.results);
      ReportedSays(o, start, View(), escalationThreshold);
    }

    /** Checks the books one response answers. */
    method CheckBatch(books: BookManager, batch: seq<Ticker>, response: Response, o: Outcome, ghost start: Tracking)
      returns (o': Outcome)
      requires books.Valid() && (forall k | 0 <= k < |batch| :: batch[k] in books.books)
      requires Reported(o, start, View(), escalationThreshold)
      modifies this, books.books.Values
      ensures books.Valid() && books.Books() == old(books.Books())
      ensures Reported(o', start, View(), escalationThreshold)
      ensures TickersOf(o'.results) == TickersOf(o.results) + Answered(batch, response)
    {
      hide BookManager.Valid, MarketBook.Valid, MarketBook.View, BookManager.Books, Escalates, Reported;
      o' := o;
      ghost var all := books.Books();
      assert TickersOf(o.results) + [] == TickersOf(o.results);
      if response.books.None? {
        return;
      }
      for k := 0 to |batch|
        invariant books.Valid() && books.Books() == all && books.books == old(books.books)
        invariant Reported(o', start, View(), escalationThreshold)
        invariant TickersOf(o'.results) == TickersOf(o.results) + Answered(batch[..k], response)
      {
        assert batch[..k + 1][..k] == batch[..k];
        if batch[k] in response.books.value {
          o' := CheckShelved(books, batch[k], response.books.value[batch[k]], response.t0, response.t1, o', start);
        }
      }
      assert batch[..|batch|] == batch;
    }

    method ValidOnly(books: BookManager, tickers: seq<Ticker>) returns (candidates: seq<Ticker>)
      requires books.Valid()
      ensures candidates == ValidAmong(tickers, books.Books()) && |candidates| <= |tickers|
      ensures forall k | 0 <= k < |candidates| :: candidates[k] in books.books
    {
      hide MarketBook.Valid;
      candidates := [];
      for i := 0 to |tickers|
        invariant candidates == ValidAmong(tickers[..i], books.Books()) && |candidates| <= i
        invariant forall k | 0 <= k < |candidates| :: candidates[k] in books.books
      {
        assert tickers[..i + 1][..i] == tickers[..i];
        if tickers[i] in books.books && books.books[tickers[i]].valid {
          candidates := candidates + [tickers[i]];
        }
      }
      assert tickers[..|tickers|] == tickers;
    }

    method CheckShelved(books: BookManager, t: Ticker, remote: RestBook, t0: int, t1: int, o: Outcome,
        ghost start: Tracking)
      returns (o': Outcome)
      requires books.Valid() && t in books.books && Reported(o, start, View(), escalationThreshold)
      modifies this, books.books.Values
      ensures books.Valid() && books.Books() == old(books.Books())
      ensures Reported(o', start, View(), escalationThreshold) && TickersOf(o'.results) == TickersOf(o.results) + [t]
    {
      hide MarketBook.Valid, MarketBook.View, Escalates, Judged, Reported;
      ghost var before := View();
      var r: MarketValidation;
      r, o' := CheckMarket(books.books[t], remote, t0, t1, o);
      OneMoreReported(o, start, before, r, escalationThreshold);
      assert (o.results + [r])[..|o.results|] == o.results;
    }

    method Reset(m: Ticker)
      modifies this
      ensures View() == Tracking(old(View()).pending - {m}, old(View()).confirmed - {m})
    {
      pendingRecheck, consecutiveConfirmed := pendingRecheck - {m}, consecutiveConfirmed - {m};
    }
  }

  lemma PresentIsHeld(base: Ladders, applied: seq<JournalEntry>, fromMs: int, rest: Ladders)
    ensures rest == Play(base, applied) ==> HeldSinceThen(base, applied, fromMs, rest)
  {
    assert applied[..|applied| - 0] == applied;
    assert rest == Play(base, applied) ==> WasHeld(base, applied, 0, fromMs, rest);
  }
}
