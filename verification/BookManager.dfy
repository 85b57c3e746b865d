/** Books of all tracked markets and the rows they produce (src/book/bookManager.ts). */
module BookManagement {
  import opened Values
  import opened CanonicalForm
  import opened MarketBooks

  // ---------------------------------------------------------------------------
  // Recorded rows
  // ---------------------------------------------------------------------------

  datatype Source = WsInitial | WsRecovery | LocalMaterialized | RestValidation | SessionHandoff

  datatype IntegrityKind = SequenceGapEvent | NegativeLevelEvent

  datatype Row =
    | SnapshotRow(
        ticker: Ticker, source: Source, session: SessionId, stream: Option<StreamId>, seqNo: Option<int>, atMs: int,
        yes: seq<Level>, no: seq<Level>, hash: Hash)
    | DeltaRow(
        ticker: Ticker, session: SessionId, stream: Option<StreamId>, seqNo: Option<int>, atMs: int,
        change: Change, applied: bool, pre: Option<int>, post: Option<int>, action: LevelAction, error: Option<Reason>)
    | IntegrityRow(kind: IntegrityKind, about: Option<Ticker>)

  datatype SnapshotInput = SnapshotInput(
    ticker: Ticker, yes: seq<Level>, no: seq<Level>, seqNo: Option<int>, session: SessionId, stream: StreamId,
    source: Source, atMs: int)

  datatype DeltaInput = DeltaInput(
    ticker: Ticker, change: Change, seqNo: int, session: SessionId, stream: StreamId, atMs: int)

  // ---------------------------------------------------------------------------
  // Specification
  // ---------------------------------------------------------------------------

  datatype Shelf = Shelf(books: map<Ticker, BookData>, carried: map<StreamId, seq<Ticker>>)

  const EMPTY_SHELF := Shelf(map[], map[])

  function BookOf(s: Shelf, t: Ticker): BookData {
    if t in s.books then s.books[t] else NewBook(t)
  }

  function MarketsOf(s: Shelf, id: StreamId): seq<Ticker> {
    if id in s.carried then s.carried[id] else []
  }

  function Associated(s: Shelf, id: StreamId, t: Ticker): Shelf {
    s.(carried := s.carried[id := if t in MarketsOf(s, id) then MarketsOf(s, id) else MarketsOf(s, id) + [t]])
  }

  /** The row for a book as it now stands. */
  ghost function RowOf(b: BookData, source: Source, session: SessionId, stream: Option<StreamId>,
                       seqNo: Option<int>, atMs: int): Row {
    SnapshotRow(b.ticker, source, session, stream, seqNo, atMs,
                Canonical(b.ladders.yes), Canonical(b.ladders.no), LaddersHash(b.ticker, b.ladders))
  }

  function SnapshotBook(s: Shelf, i: SnapshotInput): BookData {
    Snapshotted(BookOf(s, i.ticker), i.yes, i.no, i.seqNo, i.atMs, Some(i.session), Some(i.stream))
  }

  function AfterSnapshot(s: Shelf, i: SnapshotInput): Shelf {
    Associated(s.(books := s.books[i.ticker := SnapshotBook(s, i)]), i.stream, i.ticker)
  }

  ghost function SnapshotRowFor(s: Shelf, i: SnapshotInput): Row {
    RowOf(SnapshotBook(s, i), i.source, i.session, Some(i.stream), i.seqNo, i.atMs)
  }

  /** A sample of one book, if it is trusted (src/sampling/bookSampler.ts). */
  ghost function SampleOf(s: Shelf, session: SessionId, t: Ticker, nowMs: int): seq<Row> {
    if t in s.books && s.books[t].valid then
      var b := s.books[t];
      [RowOf(b, LocalMaterialized, session, b.stream, b.lastSeq, nowMs)]
    else []
  }

  /** Whether the delta reaches the book at all. */
  predicate Admitted(s: Shelf, i: DeltaInput, canApply: bool) {
    canApply && BookOf(s, i.ticker).valid
  }

  function DeltaBook(s: Shelf, i: DeltaInput, canApply: bool): BookData {
    if Admitted(s, i, canApply)
    then Changed(BookOf(s, i.ticker), i.change, Some(i.seqNo), i.atMs, DEFAULT_RETENTION)
    else BookOf(s, i.ticker)
  }

  function AfterDelta(s: Shelf, i: DeltaInput, canApply: bool): Shelf {
    Associated(s.(books := s.books[i.ticker := DeltaBook(s, i, canApply)]), i.stream, i.ticker)
  }

  function SkipReason(b: BookData, given: Option<Reason>): Reason {
    if given.Some? then given.value
    else if b.invalidReason.Some? then b.invalidReason.value
    else AwaitingSnapshot
  }

  function DeltaRowFor(s: Shelf, i: DeltaInput, canApply: bool, reason: Option<Reason>): Row {
    var b := BookOf(s, i.ticker);
    if Admitted(s, i, canApply) then
      var r := ResultOf(b, i.change);
      DeltaRow(i.ticker, i.session, Some(i.stream), Some(i.seqNo), i.atMs, i.change,
               r.applied, Some(r.preCount), r.postCount, r.action, r.error)
    else
      DeltaRow(i.ticker, i.session, Some(i.stream), Some(i.seqNo), i.atMs, i.change,
               false, None, None, Unknown, Some(SkipReason(b, reason)))
  }

  function InvalidatedAt(books: map<Ticker, BookData>, ts: set<Ticker>, reason: Reason): map<Ticker, BookData> {
    map t | t in books :: if t in ts then Invalidated(books[t], reason) else books[t]
  }

  function TickerSet(ts: seq<Ticker>): set<Ticker> {
    set t | t in ts
  }

  function StreamInvalidated(s: Shelf, id: StreamId, reason: Reason): Shelf {
    s.(books := InvalidatedAt(s.books, TickerSet(MarketsOf(s, id)), reason))
  }

  function AllInvalidated(s: Shelf, reason: Reason): Shelf {
    s.(books := InvalidatedAt(s.books, s.books.Keys, reason))
  }

  /** A list that has lost one market, the others in place. */
  function WithoutTicker(ts: seq<Ticker>, t: Ticker): seq<Ticker> {
    if ts == [] then []
    else WithoutTicker(ts[..|ts| - 1], t) + (if ts[|ts| - 1] == t then [] else [ts[|ts| - 1]])
  }

  /** A market is dropped entirely: its book, and its place on every stream. */
  function Forgotten(s: Shelf, t: Ticker): Shelf {
    Shelf(s.books - {t}, CarriedWithout(s.carried, t))
  }

  function CarriedWithout(carried: map<StreamId, seq<Ticker>>, t: Ticker): map<StreamId, seq<Ticker>> {
    map id | id in carried :: WithoutTicker(carried[id], t)
  }

  function ForgottenAll(s: Shelf, ts: seq<Ticker>): Shelf {
    if ts == [] then s else Forgotten(ForgottenAll(s, ts[..|ts| - 1]), ts[|ts| - 1])
  }

  lemma {:induction false} WithoutTickerIs(ts: seq<Ticker>, t: Ticker)
    ensures forall u :: u in WithoutTicker(ts, t) <==> u in ts && u != t
  {
    if ts != [] {
      WithoutTickerIs(ts[..|ts| - 1], t);
      assert ts == ts[..|ts| - 1] + [ts[|ts| - 1]];
    }
  }

  /** Every other book, and every other place on a stream, is as it was. */
  ghost predicate ForgetsOnly(s: Shelf, s': Shelf, gone: set<Ticker>) {
    && (forall t :: BookOf(s', t) == if t in gone then NewBook(t) else BookOf(s, t))
    && s'.carried.Keys == s.carried.Keys
    && (forall id, t {:trigger t in MarketsOf(s', id)} {:trigger t in MarketsOf(s, id)} ::
          t in MarketsOf(s', id) <==> t in MarketsOf(s, id) && t !in gone)
  }

  lemma {:induction false} ForgettingIs(s: Shelf, ts: seq<Ticker>)
    ensures ForgetsOnly(s, ForgottenAll(s, ts), TickerSet(ts))
  {
    if ts != [] {
      var init, last := ts[..|ts| - 1], ts[|ts| - 1];
      ForgettingIs(s, init);
      ForgettingOne(ForgottenAll(s, init), last);
      assert ts == init + [last];
      TickerSetSnoc(init, last);
      ForgettingMore(s, ForgottenAll(s, init), ForgottenAll(s, ts), TickerSet(init), last);
    }
  }

  lemma ForgettingOne(s: Shelf, last: Ticker)
    ensures ForgetsOnly(s, Forgotten(s, last), {last})
  {
    hide WithoutTicker;
    forall id | id in s.carried
      ensures forall t :: t in WithoutTicker(s.carried[id], last) <==> t in s.carried[id] && t != last
    {
      WithoutTickerIs(s.carried[id], last);
    }
  }

  lemma ForgettingMore(a: Shelf, b: Shelf, c: Shelf, gone: set<Ticker>, last: Ticker)
    requires ForgetsOnly(a, b, gone) && ForgetsOnly(b, c, {last})
    ensures ForgetsOnly(a, c, gone + {last})
  {
    hide MarketsOf, BookOf;
  }

  lemma InvalidatedNone(books: map<Ticker, BookData>, ts: seq<Ticker>, reason: Reason)
    ensures InvalidatedAt(books, TickerSet(ts[..0]), reason) == books
  {
    assert ts[..0] == [];
  }

  lemma InvalidatedMore(books: map<Ticker, BookData>, ts: seq<Ticker>, i: nat, reason: Reason)
    requires i < |ts|
    ensures var done, more := InvalidatedAt(books, TickerSet(ts[..i]), reason),
        InvalidatedAt(books, TickerSet(ts[..i + 1]), reason);
      more == if ts[i] in done then done[ts[i] := Invalidated(done[ts[i]], reason)] else done
  {
    assert ts[..i + 1] == ts[..i] + [ts[i]];
    TickerSetSnoc(ts[..i], ts[i]);
  }

  lemma TickerSetSnoc(ts: seq<Ticker>, t: Ticker)
    ensures TickerSet(ts + [t]) == TickerSet(ts) + {t}
  {
  }

  // ---------------------------------------------------------------------------
  // The manager object
  // ---------------------------------------------------------------------------

  class BookManager {
    var books: map<Ticker, MarketBook>
    var streamMarkets: map<StreamId, seq<Ticker>>

    ghost predicate Valid()
      reads this, books.Values
    {
      && (forall t | t in books ::
            books[t].Valid() && books[t].ticker == t && books[t].keep == DEFAULT_RETENTION)
      && (forall t, u | t in books && u in books && t != u :: books[t] != books[u])
    }

    function Books(): map<Ticker, BookData>
      reads this, books.Values
    {
      map t | t in books :: books[t].View()
    }

    function View(): Shelf
      reads this, books.Values
    {
      Shelf(Books(), streamMarkets)
    }

    constructor ()
      ensures Valid() && View() == EMPTY_SHELF && books == map[]
    {
      books, streamMarkets := map[], map[];
    }

    method GetOrCreate(t: Ticker) returns (book: MarketBook)
      requires Valid()
      modifies `books
      ensures Valid() && t in books && book == books[t]
      ensures books.Keys == old(books).Keys + {t} && streamMarkets == old(streamMarkets)
      ensures fresh(books.Values - old(books.Values))
      ensures Books() == old(Books())[t := BookOf(old(View()), t)]
    {
      hide MarketBook.Valid, MarketBook.View;
      if t in books {
        book := books[t];
      } else {
        book := new MarketBook(t);
        books := books[t := book];
      }
    }

    method Associate(id: StreamId, t: Ticker)
      modifies `streamMarkets
      ensures View() == Associated(old(View()), id, t) && books == old(books)
      ensures old(Valid()) ==> Valid()
    {
      var list := if id in streamMarkets then streamMarkets[id] else [];
      if t !in list {
        list := list + [t];
      }
      streamMarkets := streamMarkets[id := list];
    }

    /** Drops a market entirely. */
    method Remove(t: Ticker)
      requires Valid()
      modifies this
      ensures Valid() && View() == Forgotten(old(View()), t) && books == old(books) - {t}
    {
      hide MarketBook.Valid, MarketBook.View, WithoutTicker;
      RemoveBook(t);
      Disassociate(t);
    }

    method RemoveBook(t: Ticker)
      requires Valid()
      modifies `books
      ensures Valid() && Books() == old(Books()) - {t} && books == old(books) - {t}
    {
      hide MarketBook.Valid, MarketBook.View;
      books := books - {t};
    }

    method Disassociate(t: Ticker)
      modifies `streamMarkets
      ensures streamMarkets == CarriedWithout(old(streamMarkets), t)
    {
      hide WithoutTicker;
      var rest := streamMarkets.Keys;
      while rest != {}
        invariant rest <= old(streamMarkets).Keys == streamMarkets.Keys
        invariant forall id | id in streamMarkets ::
          streamMarkets[id] == if id in rest then old(streamMarkets)[id] else WithoutTicker(old(streamMarkets)[id], t)
        decreases |rest|
      {
        var id := NextElement(rest);
        streamMarkets := streamMarkets[id := WithoutTicker(streamMarkets[id], t)];
        rest := rest - {id};
      }
      ghost var all := CarriedWithout(old(streamMarkets), t);
      assert streamMarkets.Keys == all.Keys;
      assert forall id | id in all :: streamMarkets[id] == all[id];
      assert streamMarkets == all;
    }

    /** The row for a book as it stands (src/persistence/repositories/snapshots.ts). */
    method SnapshotRowOf(book: MarketBook, source: Source, session: SessionId, stream: Option<StreamId>,
                         seqNo: Option<int>, atMs: int) returns (row: Row)
      requires book.Valid()
      modifies book`hashCache
      ensures book.Valid() && book.View() == old(book.View())
      ensures row == RowOf(old(book.View()), source, session, stream, seqNo, atMs)
    {
      var yesEntries := Entries(book.yesBids);
      var noEntries := Entries(book.noBids);
      var yes := CanonicalLevels(yesEntries);
      var no := CanonicalLevels(noEntries);
      var hash := book.GetStateHash();
      row := SnapshotRow(book.ticker, source, session, stream, seqNo, atMs, yes, no, hash);
    }

    /** Samples one book; the hash it may compute on the way is all that changes. */
    method SampleBook(t: Ticker, session: SessionId, nowMs: int) returns (rows: seq<Row>)
      requires Valid()
      modifies books.Values
      ensures Valid() && View() == old(View())
      ensures rows == SampleOf(old(View()), session, t, nowMs)
    {
      hide MarketBook.Valid, LaddersHash, Canonical;
      rows := [];
      if t in books {
        var book := books[t];
        assert Books()[t] == book.View() && book.View().valid == book.valid;
        assert book.View().stream == book.stream && book.View().lastSeq == book.lastSeq;
        hide MarketBook.View;
        if book.valid {
          var row := SnapshotRowOf(book, LocalMaterialized, session, book.stream, book.lastSeq, nowMs);
          rows := [row];
        }
      }
    }

    /** Replaces a book from an exchange snapshot and records it. */
    method ApplySnapshot(i: SnapshotInput) returns (row: Row)
      requires Valid()
      modifies this, books.Values
      ensures Valid() && fresh(books.Values - old(books.Values))
      ensures View() == AfterSnapshot(old(View()), i)
      ensures row == SnapshotRowFor(old(View()), i)
    {
      hide MarketBook.Valid, MarketBook.View, LaddersHash, Canonical, SnapshotBook;
      var book := Rebuild(i);
      Associate(i.stream, i.ticker);
      ghost var before := Books();
      row := SnapshotRowOf(book, i.source, i.session, Some(i.stream), i.seqNo, i.atMs);
      assert forall t | t in books :: books[t].View() == before[t];
      assert Books() == before;
    }

    method Rebuild(i: SnapshotInput) returns (book: MarketBook)
      requires Valid()
      modifies this, books.Values
      ensures Valid() && fresh(books.Values - old(books.Values)) && i.ticker in books && book == books[i.ticker]
      ensures streamMarkets == old(streamMarkets)
      ensures book.View() == SnapshotBook(old(View()), i)
      ensures Books() == old(Books())[i.ticker := SnapshotBook(old(View()), i)]
    {
      hide MarketBook.Valid, MarketBook.View, Snapshotted;
      book := GetOrCreate(i.ticker);
      assert BookOf(View(), i.ticker) == BookOf(old(View()), i.ticker);
      Reload(i);
    }

    /** A known book is replaced, and it alone. */
    method Reload(i: SnapshotInput)
      requires Valid() && i.ticker in books
      modifies books[i.ticker]
      ensures Valid()
      ensures Books() == old(Books())[i.ticker := SnapshotBook(old(View()), i)]
    {
      hide MarketBook.Valid, MarketBook.View, Snapshotted;
      var book := books[i.ticker];
      ghost var before := Books();
      assert book.View() == before[i.ticker];
      book.ReplaceWithSnapshot(i.yes, i.no, i.seqNo, i.atMs, Some(i.session), Some(i.stream));
      assert forall t | t in books && t != i.ticker :: books[t].View() == before[t];
      assert Books() == before[i.ticker := book.View()];
    }

    /** Applies a delta where it may be applied, and records it either way. */
    method ApplyDelta(i: DeltaInput, canApply: bool, skipReason: Option<Reason>) returns (row: Row)
      requires Valid()
      modifies this, books.Values
      ensures Valid() && fresh(books.Values - old(books.Values))
      ensures View() == AfterDelta(old(View()), i, canApply)
      ensures row == DeltaRowFor(old(View()), i, canApply, skipReason)
    {
      hide MarketBook.Valid, MarketBook.View, DeltaBook, ResultOf;
      row := Fold(i, canApply, skipReason);
      Associate(i.stream, i.ticker);
    }

    method Fold(i: DeltaInput, canApply: bool, skipReason: Option<Reason>) returns (row: Row)
      requires Valid()
      modifies this, books.Values
      ensures Valid() && fresh(books.Values - old(books.Values))
      ensures streamMarkets == old(streamMarkets)
      ensures Books() == old(Books())[i.ticker := DeltaBook(old(View()), i, canApply)]
      ensures row == DeltaRowFor(old(View()), i, canApply, skipReason)
    {
      hide MarketBook.Valid, ResultOf, Changed, BookOf;
      var book := GetOrCreate(i.ticker);
      assert book.View() == Books()[i.ticker] == BookOf(old(View()), i.ticker);
      assert book.valid == BookOf(old(View()), i.ticker).valid;
      assert book.invalidReason == BookOf(old(View()), i.ticker).invalidReason;
      hide MarketBook.View;
      if !canApply || !book.valid {
        var reason := if skipReason.Some? then skipReason.value
                      else if book.invalidReason.Some? then book.invalidReason.value
                      else AwaitingSnapshot;
        return DeltaRow(i.ticker, i.session, Some(i.stream), Some(i.seqNo), i.atMs, i.change,
                        false, None, None, Unknown, Some(reason));
      }
      var r := ApplyTo(book, i);
      row := DeltaRow(i.ticker, i.session, Some(i.stream), Some(i.seqNo), i.atMs, i.change,
                      r.applied, Some(r.preCount), r.postCount, r.action, r.error);
    }

    method ApplyTo(book: MarketBook, i: DeltaInput) returns (r: ApplyResult)
      requires Valid() && i.ticker in books && books[i.ticker] == book
      modifies book
      ensures Valid()
      ensures Books() == old(Books())[i.ticker := Changed(old(Books())[i.ticker], i.change, Some(i.seqNo), i.atMs,
          DEFAULT_RETENTION)]
      ensures r == ResultOf(old(Books())[i.ticker], i.change)
    {
      hide MarketBook.Valid, MarketBook.View, ResultOf, Changed;
      r := book.ApplyDelta(i.change, Some(i.seqNo), i.atMs);
    }

    /** Invalidates every book carried by a stream. */
    method InvalidateStream(id: StreamId, reason: Reason) returns (affected: seq<Ticker>)
      requires Valid()
      modifies books.Values
      ensures Valid() && View() == StreamInvalidated(old(View()), id, reason)
      ensures affected == MarketsOf(old(View()), id)
    {
      affected := if id in streamMarkets then streamMarkets[id] else [];
      InvalidateThese(affected, reason);
    }

    method InvalidateThese(ts: seq<Ticker>, reason: Reason)
      requires Valid()
      modifies books.Values
      ensures Valid() && Books() == InvalidatedAt(old(Books()), TickerSet(ts), reason)
    {
      hide MarketBook.Valid, MarketBook.View, InvalidatedAt, TickerSet;
      ghost var was := Books();
      var i := 0;
      InvalidatedNone(was, ts, reason);
      while i < |ts|
        invariant 0 <= i <= |ts|
        invariant Valid() && Books() == InvalidatedAt(was, TickerSet(ts[..i]), reason)
      {
        InvalidatedMore(was, ts, i, reason);
        if ts[i] in books {
          InvalidateOne(ts[i], reason);
        }
        i := i + 1;
      }
      assert ts[..i] == ts;
    }

    /** Invalidates every book there is. */
    method InvalidateAll(reason: Reason)
      requires Valid()
      modifies books.Values
      ensures Valid() && View() == AllInvalidated(old(View()), reason)
    {
      hide BookManager.Valid, InvalidatedAt;
      var all := Tickers();
      assert TickerSet(all) == Books().Keys;
      InvalidateThese(all, reason);
    }

    method Tickers() returns (all: seq<Ticker>)
      ensures TickerSet(all) == books.Keys
    {
      var rest := books.Keys;
      all := [];
      while rest != {}
        invariant rest <= books.Keys && TickerSet(all) == books.Keys - rest
        decreases |rest|
      {
        var t := NextElement(rest);
        TickerSetSnoc(all, t);
        all, rest := all + [t], rest - {t};
      }
    }

    method InvalidateOne(t: Ticker, reason: Reason)
      requires Valid() && t in books
      modifies books.Values
      ensures Valid() && Books() == old(Books())[t := Invalidated(old(Books())[t], reason)]
    {
      hide MarketBook.Valid, MarketBook.View, Invalidated;
      books[t].Invalidate(reason);
    }
  }
}
