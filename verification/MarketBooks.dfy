/** The in-memory order book of one market (src/book/book.ts). */
module MarketBooks {
  import opened Values
  import opened CanonicalForm

  // ---------------------------------------------------------------------------
  // Book contents
  // ---------------------------------------------------------------------------

  datatype Ladders = Ladders(yes: Levels, no: Levels)

  const EMPTY_LADDERS := Ladders(map[], map[])

  /** A signed change of the resting size at one price. */
  datatype Change = Change(side: Side, price: int, amount: int)

  function SideLevels(l: Ladders, side: Side): Levels {
    if side == Yes then l.yes else l.no
  }

  function WithSide(l: Ladders, side: Side, levels: Levels): Ladders {
    if side == Yes then l.(yes := levels) else l.(no := levels)
  }

  function Resting(l: Ladders, c: Change): int {
    LevelAt(SideLevels(l, c.side), c.price)
  }

  function PostCount(l: Ladders, c: Change): int {
    Resting(l, c) + c.amount
  }

  /** A change is acceptable when it does not drive the level below zero. */
  predicate Applies(l: Ladders, c: Change) {
    PostCount(l, c) >= 0
  }

  function Folded(l: Ladders, c: Change): Ladders {
    WithSide(l, c.side, WithLevel(SideLevels(l, c.side), c.price, PostCount(l, c)))
  }

  function Inverse(c: Change): Change {
    c.(amount := -c.amount)
  }

  ghost predicate Positive(l: Ladders) {
    AllPositive(l.yes) && AllPositive(l.no)
  }

  ghost predicate NoZeros(l: Ladders) {
    NoZero(l.yes) && NoZero(l.no)
  }

  ghost function LaddersHash(ticker: Ticker, l: Ladders): Hash {
    StateHash(ticker, l.yes, l.no)
  }

  /** Un-applying a change gives back the very book it was applied to. */
  lemma UnapplyRestores(l: Ladders, c: Change)
    requires NoZeros(l)
    ensures Folded(Folded(l, c), Inverse(c)) == l
    ensures NoZeros(Folded(l, c))
    ensures PostCount(Folded(l, c), Inverse(c)) == Resting(l, c)
  {
    var m := SideLevels(l, c.side);
    var m' := SideLevels(Folded(l, c), c.side);
    assert LevelAt(m', c.price) == PostCount(l, c);
    assert WithLevel(m', c.price, LevelAt(m, c.price)) == m;
  }

  /** Levels of a snapshot message; zero sizes are skipped, a later entry for a price wins. */
  function Load(levels: seq<Level>): (m: Levels)
    ensures NoZero(m)
  {
    if levels == [] then map[]
    else
      var m := Load(levels[..|levels| - 1]);
      var (price, size) := levels[|levels| - 1];
      if size == 0 then m else m[price := size]
  }

  lemma EntryIsListed(es: seq<Level>, m: Levels, p: int)
    requires Enumerates(es, m)
    ensures p in m ==> Lists(es, p)
  {
  }

  lemma NothingListed(es: seq<Level>, m: Levels)
    requires Enumerates(es, m) && es == []
    ensures m == map[]
  {
    if m.Keys != {} {
      var p := PickElement(m.Keys);
      EntryIsListed(es, m, p);
    }
  }

  lemma {:induction false} LoadEnumeration(es: seq<Level>, m: Levels)
    requires Enumerates(es, m) && NoZero(m)
    ensures Load(es) == m
    decreases |es|
  {
    if es == [] {
      NothingListed(es, m);
    } else {
      var last := es[|es| - 1];
      var (price, size) := last;
      var init := es[..|es| - 1];
      var m' := m - {price};
      assert price in m && m[price] == size;
      assert Enumerates(init, m') by {
        forall p | p in m' ensures Lists(init, p) {
          assert Lists(es, p);
          var i :| 0 <= i < |es| && es[i].0 == p;
          assert init[i].0 == p;
        }
        forall i | 0 <= i < |init| ensures init[i].0 in m' && m'[init[i].0] == init[i].1 {
          assert es[i].0 != es[|es| - 1].0;
        }
      }
      LoadEnumeration(init, m');
      assert m'[price := size] == m;
    }
  }

  lemma {:induction false} LoadPositive(levels: seq<Level>)
    requires forall i | 0 <= i < |levels| :: levels[i].1 >= 0
    ensures AllPositive(Load(levels))
  {
    if levels != [] {
      var init := levels[..|levels| - 1];
      assert forall i | 0 <= i < |init| :: init[i] == levels[i];
      LoadPositive(init);
    }
  }

  // ---------------------------------------------------------------------------
  // Serialized form
  // ---------------------------------------------------------------------------

  /** A stored level: canonical price and size text. */
  type LevelText = (string, string)

  function LevelTexts(es: seq<Level>): seq<LevelText> {
    if es == [] then []
    else LevelTexts(es[..|es| - 1]) + [(ToFixed(es[|es| - 1].0), ToFixed(es[|es| - 1].1))]
  }

  function ReadLevels(texts: seq<LevelText>): seq<Level> {
    if texts == [] then []
    else
      var (price, size) := texts[|texts| - 1];
      ReadLevels(texts[..|texts| - 1]) + [(ParseFixed(price), ParseFixed(size))]
  }

  lemma {:induction false} TextsReadBack(es: seq<Level>)
    ensures ReadLevels(LevelTexts(es)) == es
  {
    hide ToFixed, ParseFixed, LevelTexts, ReadLevels;
    if es == [] {
      NoTexts();
    } else {
      var init, last := es[..|es| - 1], es[|es| - 1];
      TextsReadBack(init);
      FixedTextRoundTrip(last.0);
      FixedTextRoundTrip(last.1);
      assert es == init + [last];
      LevelTextsSnoc(init, last);
      ReadLevelsSnoc(LevelTexts(init), (ToFixed(last.0), ToFixed(last.1)));
    }
  }

  lemma NoTexts()
    ensures ReadLevels(LevelTexts([])) == []
  {
  }

  lemma LevelTextsSnoc(es: seq<Level>, e: Level)
    ensures LevelTexts(es + [e]) == LevelTexts(es) + [(ToFixed(e.0), ToFixed(e.1))]
  {
    hide ToFixed;
    assert (es + [e])[..|es|] == es;
  }

  lemma ReadLevelsSnoc(texts: seq<LevelText>, t: LevelText)
    ensures ReadLevels(texts + [t]) == ReadLevels(texts) + [(ParseFixed(t.0), ParseFixed(t.1))]
  {
    hide ParseFixed;
    assert (texts + [t])[..|texts|] == texts;
  }

  /** A book rebuilt from its serialized canonical form is the same book, with the same hash. */
  lemma RebuildingGivesTheSameBook(ticker: Ticker, l: Ladders)
    requires NoZeros(l)
    ensures var back := Ladders(Load(ReadLevels(LevelTexts(Canonical(l.yes)))),
        Load(ReadLevels(LevelTexts(Canonical(l.no)))));
      back == l && LaddersHash(ticker, back) == LaddersHash(ticker, l)
  {
    hide ToFixed, ParseFixed, Load, StateHash;
    TextsReadBack(Canonical(l.yes));
    TextsReadBack(Canonical(l.no));
    LoadEnumeration(Canonical(l.yes), l.yes);
    LoadEnumeration(Canonical(l.no), l.no);
  }

  // ---------------------------------------------------------------------------
  // Whole book state
  // ---------------------------------------------------------------------------

  /** Why a book is not trusted, or why a delta was recorded without being applied. */
  datatype Reason =
    | NegativeLevel(change: Change, pre: int, post: int)
    | GapOnStream(expected: Option<int>, received: Option<int>)
    | Disconnected
    | SkippedGap(expected: Option<int>, received: Option<int>)
    | SkippedRepeat(expected: Option<int>, received: Option<int>)
    | StreamDegraded
    | StreamUnhealthy
    | AwaitingSnapshot

  datatype LevelAction = Insert | Increase | Decrease | Delete | Unknown

  datatype JournalEntry = JournalEntry(seqNo: Option<int>, atMs: int, change: Change)

  datatype ApplyResult = ApplyResult(
    applied: bool, preCount: int, postCount: Option<int>, action: LevelAction, error: Option<Reason>)

  datatype BookData = BookData(
    ticker: Ticker,
    ladders: Ladders,
    lastSeq: Option<int>,
    valid: bool,
    invalidReason: Option<Reason>,
    lastSnapshotAtMs: int,
    lastUpdateAtMs: int,
    session: Option<SessionId>,
    stream: Option<StreamId>,
    journal: seq<JournalEntry>)

  function NewBook(ticker: Ticker): BookData {
    BookData(ticker, EMPTY_LADDERS, None, false, None, 0, 0, None, None, [])
  }

  function Snapshotted(b: BookData, yes: seq<Level>, no: seq<Level>, seqNo: Option<int>, atMs: int,
                       session: Option<SessionId>, stream: Option<StreamId>): BookData {
    BookData(b.ticker, Ladders(Load(yes), Load(no)), seqNo, true, None, atMs, atMs,
             if session.Some? then session else b.session,
             if stream.Some? then stream else b.stream,
             [])
  }

  function Invalidated(b: BookData, reason: Reason): BookData {
    b.(valid := false, invalidReason := Some(reason))
  }

  /** A zero change on a non-empty level is labelled an increase, as decimal.js has it. */
  function ActionOf(pre: int, amount: int): LevelAction {
    if pre + amount == 0 then Delete
    else if pre == 0 then Insert
    else if amount >= 0 then Increase
    else Decrease
  }

  function ResultOf(b: BookData, c: Change): ApplyResult {
    var pre, post := Resting(b.ladders, c), PostCount(b.ladders, c);
    if post < 0 then ApplyResult(false, pre, Some(post), Unknown, Some(NegativeLevel(c, pre, post)))
    else ApplyResult(true, pre, Some(post), ActionOf(pre, c.amount), None)
  }

  /** What a label says happened to the size displayed at one price. */
  predicate Describes(action: LevelAction, before: Levels, after: Levels, price: int) {
    match action
    case Insert => price !in before && price in after
    case Increase => price in before && price in after && before[price] < after[price]
    case Decrease => price in before && price in after && before[price] > after[price]
    case Delete => price in before && price !in after
    case Unknown => before == after
  }

  /**
   * The label of an applied change says what happened to its level if and only if the change is not
   * zero. A zero change leaves the book as it was and is labelled an increase exactly where something
   * rests, a deletion where nothing does.
   */
  lemma LabelsTellTheChange(b: BookData, c: Change)
    requires NoZeros(b.ladders) && Applies(b.ladders, c)
    ensures var before, after := SideLevels(b.ladders, c.side), SideLevels(Folded(b.ladders, c), c.side);
      var action := ResultOf(b, c).action;
      && (Describes(action, before, after, c.price) <==> c.amount != 0)
      && (c.amount == 0 ==> before == after && action == if c.price in before then Increase else Delete)
  {
    var before := SideLevels(b.ladders, c.side);
    assert c.price in before ==> before[c.price] != 0;
    assert c.price in before ==> before[c.price := before[c.price]] == before;
    assert c.price !in before ==> before - {c.price} == before;
  }

  datatype Retention = Retention(windowMs: int, maxEntries: nat)

  const DEFAULT_RETENTION := Retention(10_000, 2048)

  /** Drops the leading entries older than the cutoff. */
  function DropOld(journal: seq<JournalEntry>, cutoff: int): seq<JournalEntry> {
    if journal != [] && journal[0].atMs < cutoff then DropOld(journal[1..], cutoff) else journal
  }

  lemma DropOldNext(journal: seq<JournalEntry>, drop: nat, cutoff: int)
    requires drop <= |journal|
    ensures DropOld(journal[drop..], cutoff) ==
      if drop < |journal| && journal[drop].atMs < cutoff then DropOld(journal[drop + 1..], cutoff) else journal[drop..]
  {
    if drop < |journal| {
      assert journal[drop..][1..] == journal[drop + 1..];
    }
  }

  function Trimmed(journal: seq<JournalEntry>, nowMs: int, keep: Retention): seq<JournalEntry> {
    var recent := DropOld(journal, nowMs - keep.windowMs);
    if |recent| > keep.maxEntries then recent[|recent| - keep.maxEntries..] else recent
  }

  function Changed(b: BookData, c: Change, seqNo: Option<int>, atMs: int, keep: Retention): BookData {
    if !Applies(b.ladders, c) then
      Invalidated(b, NegativeLevel(c, Resting(b.ladders, c), PostCount(b.ladders, c)))
    else
      b.(ladders := Folded(b.ladders, c),
         lastSeq := if seqNo.Some? then seqNo else b.lastSeq,
         lastUpdateAtMs := atMs,
         journal := Trimmed(b.journal + [JournalEntry(seqNo, atMs, c)], atMs, keep))
  }

  // ---------------------------------------------------------------------------
  // History since the last snapshot
  // ---------------------------------------------------------------------------

  /** The book reached from `base` by the given changes. */
  function Play(base: Ladders, applied: seq<JournalEntry>): Ladders {
    if applied == [] then base
    else Folded(Play(base, applied[..|applied| - 1]), applied[|applied| - 1].change)
  }

  ghost predicate StepApplies(base: Ladders, applied: seq<JournalEntry>, k: nat)
    requires k < |applied|
  {
    Applies(Play(base, applied[..k]), applied[k].change)
  }

  ghost predicate Playable(base: Ladders, applied: seq<JournalEntry>) {
    forall k | 0 <= k < |applied| :: StepApplies(base, applied, k)
  }

  ghost predicate TimesInOrder(applied: seq<JournalEntry>) {
    forall i, j | 0 <= i < j < |applied| :: applied[i].atMs <= applied[j].atMs
  }

  ghost predicate IsSuffix(journal: seq<JournalEntry>, applied: seq<JournalEntry>) {
    |journal| <= |applied| && journal == applied[|applied| - |journal|..]
  }

  /** Every applied change missing from the journal is too old or too far back. */
  ghost predicate Covers(journal: seq<JournalEntry>, applied: seq<JournalEntry>, keep: Retention)
    requires |journal| <= |applied|
  {
    forall i | 0 <= i < |applied| - |journal| ::
      applied[i].atMs < applied[|applied| - 1].atMs - keep.windowMs || i < |applied| - keep.maxEntries
  }

  lemma {:induction false} PlayKeepsNoZeros(base: Ladders, applied: seq<JournalEntry>)
    requires NoZeros(base)
    ensures NoZeros(Play(base, applied))
  {
    if applied != [] {
      var init := applied[..|applied| - 1];
      PlayKeepsNoZeros(base, init);
      UnapplyRestores(Play(base, init), applied[|applied| - 1].change);
    }
  }

  lemma {:induction false} PlayKeepsPositive(base: Ladders, applied: seq<JournalEntry>)
    requires Positive(base) && Playable(base, applied)
    ensures Positive(Play(base, applied))
  {
    if applied != [] {
      var init := applied[..|applied| - 1];
      PlayablePrefix(base, applied, |applied| - 1);
      PlayKeepsPositive(base, init);
      FoldKeepsPositive(Play(base, init), applied[|applied| - 1].change);
    }
  }

  lemma FoldKeepsPositive(l: Ladders, c: Change)
    requires Positive(l) && Applies(l, c)
    ensures Positive(Folded(l, c))
  {
  }

  lemma PlayablePrefix(base: Ladders, applied: seq<JournalEntry>, n: nat)
    requires Playable(base, applied) && n <= |applied|
    ensures Playable(base, applied[..n])
    ensures n < |applied| ==> Applies(Play(base, applied[..n]), applied[n].change)
  {
    forall k | 0 <= k < n ensures StepApplies(base, applied[..n], k) {
      assert StepApplies(base, applied, k);
      assert applied[..n][..k] == applied[..k];
    }
    assert n < |applied| ==> StepApplies(base, applied, n);
  }

  lemma PlayableSnoc(base: Ladders, applied: seq<JournalEntry>, e: JournalEntry)
    requires Playable(base, applied) && Applies(Play(base, applied), e.change)
    ensures Playable(base, applied + [e])
    ensures Play(base, applied + [e]) == Folded(Play(base, applied), e.change)
  {
    var all := applied + [e];
    assert all[..|applied|] == applied;
    forall k | 0 <= k < |all| ensures StepApplies(base, all, k) {
      if k < |applied| {
        assert StepApplies(base, applied, k);
        assert all[..k] == applied[..k];
      }
    }
  }

  lemma {:induction false} DropOldIsSuffix(journal: seq<JournalEntry>, cutoff: int)
    ensures var r := DropOld(journal, cutoff);
      && |r| <= |journal| && r == journal[|journal| - |r|..]
      && forall i | 0 <= i < |journal| - |r| :: journal[i].atMs < cutoff
  {
    if journal != [] && journal[0].atMs < cutoff {
      DropOldIsSuffix(journal[1..], cutoff);
      var r := DropOld(journal[1..], cutoff);
      forall i | 0 <= i < |journal| - |r| ensures journal[i].atMs < cutoff {
        assert i > 0 ==> journal[i] == journal[1..][i - 1];
      }
    }
  }

  /** Recording one more change keeps the journal a covering suffix of the history. */
  lemma TrimKeepsCover(journal: seq<JournalEntry>, applied: seq<JournalEntry>, e: JournalEntry, keep: Retention)
    requires IsSuffix(journal, applied)
    ensures var j, a := Trimmed(journal + [e], e.atMs, keep), applied + [e];
      && IsSuffix(j, a)
      && (TimesInOrder(a) && Covers(journal, applied, keep) ==> Covers(j, a, keep))
  {
    var longer, a := journal + [e], applied + [e];
    DropOldIsSuffix(longer, e.atMs - keep.windowMs);
    var j, recent := Trimmed(longer, e.atMs, keep), DropOld(longer, e.atMs - keep.windowMs);
    hide DropOld;
    LongerIsSuffix(journal, applied, e);
    SuffixOfSuffix(j, longer, a);
    if TimesInOrder(a) && Covers(journal, applied, keep) {
      TrimCovers(journal, applied, e, keep, |longer| - |recent|, j);
    }
  }

  /** Only entries too old or beyond the cap were dropped. */
  lemma TrimCovers(journal: seq<JournalEntry>, applied: seq<JournalEntry>, e: JournalEntry, keep: Retention,
                   dropped: nat, j: seq<JournalEntry>)
    requires IsSuffix(journal, applied) && TimesInOrder(applied + [e]) && Covers(journal, applied, keep)
    requires dropped <= |journal| + 1 && |j| <= |journal| + 1
    requires forall i | 0 <= i < dropped :: (journal + [e])[i].atMs < e.atMs - keep.windowMs
    requires |j| == |journal| + 1 - dropped || |j| == keep.maxEntries
    ensures Covers(j, applied + [e], keep)
  {
    var longer, a := journal + [e], applied + [e];
    var hidden := |a| - |longer|;
    forall i | 0 <= i < |a| - |j|
      ensures a[i].atMs < a[|a| - 1].atMs - keep.windowMs || i < |a| - keep.maxEntries
    {
      if i < hidden {
        StillCovered(journal, applied, e, keep, i);
      } else if i - hidden < dropped {
        assert a[i] == longer[i - hidden];
      }
    }
  }

  lemma LongerIsSuffix(journal: seq<JournalEntry>, applied: seq<JournalEntry>, e: JournalEntry)
    requires IsSuffix(journal, applied)
    ensures IsSuffix(journal + [e], applied + [e])
  {
    var longer, a := journal + [e], applied + [e];
    assert longer == a[|a| - |longer|..];
  }

  lemma SuffixOfSuffix(j: seq<JournalEntry>, longer: seq<JournalEntry>, a: seq<JournalEntry>)
    requires IsSuffix(longer, a) && |j| <= |longer| && j == longer[|longer| - |j|..]
    ensures IsSuffix(j, a)
  {
    assert j == a[|a| - |j|..];
  }

  /** What was dropped before may stay dropped: time only moves on. */
  lemma StillCovered(journal: seq<JournalEntry>, applied: seq<JournalEntry>, e: JournalEntry, keep: Retention, i: nat)
    requires IsSuffix(journal, applied) && TimesInOrder(applied + [e]) && Covers(journal, applied, keep)
    requires i < |applied| - |journal|
    ensures applied[i].atMs < e.atMs - keep.windowMs || i < |applied| + 1 - keep.maxEntries
  {
    var a := applied + [e];
    assert applied[|applied| - 1] == a[|applied| - 1] && a[|applied|] == e;
  }

  /** The contents are exactly what the changes since the last snapshot make of it. */
  ghost predicate Explains(contents: Ladders, base: Ladders, applied: seq<JournalEntry>) {
    NoZeros(base) && NoZeros(contents) && Playable(base, applied) && contents == Play(base, applied)
  }

  /** The journal is a suffix of the history, and with times in order it misses nothing it should hold. */
  ghost predicate Records(journal: seq<JournalEntry>, applied: seq<JournalEntry>, keep: Retention) {
    IsSuffix(journal, applied) && (TimesInOrder(applied) ==> Covers(journal, applied, keep))
  }

  lemma FreshHistory(l: Ladders, keep: Retention)
    requires NoZeros(l)
    ensures Explains(l, l, []) && Records([], [], keep)
  {
  }

  lemma HistoryGrows(contents: Ladders, base: Ladders, journal: seq<JournalEntry>, applied: seq<JournalEntry>,
                     e: JournalEntry, keep: Retention)
    requires Explains(contents, base, applied) && Records(journal, applied, keep)
    requires Applies(contents, e.change)
    ensures Explains(Folded(contents, e.change), base, applied + [e])
    ensures Records(Trimmed(journal + [e], e.atMs, keep), applied + [e], keep)
  {
    UnapplyRestores(contents, e.change);
    PlayableSnoc(base, applied, e);
    TrimKeepsCover(journal, applied, e, keep);
    assert TimesInOrder(applied + [e]) ==> TimesInOrder(applied) by {
      assert forall i | 0 <= i < |applied| :: (applied + [e])[i] == applied[i];
    }
  }

  // ---------------------------------------------------------------------------
  // Rewinding
  // ---------------------------------------------------------------------------

  datatype PastState = PastState(atMs: int, seqNo: Option<int>, hash: Hash)

  /** How many journalled changes lie at or after `fromMs`, counting back from the newest. */
  function RewindCount(journal: seq<JournalEntry>, fromMs: int, maxStates: int): (k: nat)
    ensures k <= |journal|
  {
    if journal == [] || maxStates <= 1 || journal[|journal| - 1].atMs < fromMs then 0
    else 1 + RewindCount(journal[..|journal| - 1], fromMs, maxStates - 1)
  }

  /** The state just before the n-th change, as un-applying that change computes it. */
  lemma PriorState(base: Ladders, applied: seq<JournalEntry>, n: nat) returns (prior: Ladders)
    requires NoZeros(base) && Playable(base, applied) && 0 < n <= |applied|
    ensures prior == Play(base, applied[..n - 1]) && NoZeros(prior)
    ensures Folded(Play(base, applied[..n]), Inverse(applied[n - 1].change)) == prior
    ensures PostCount(Play(base, applied[..n]), Inverse(applied[n - 1].change)) == Resting(prior, applied[n - 1].change)
    ensures Positive(base) ==> Resting(prior, applied[n - 1].change) >= 0
  {
    prior := Play(base, applied[..n - 1]);
    assert applied[..n][..n - 1] == applied[..n - 1];
    PlayKeepsNoZeros(base, applied[..n - 1]);
    UnapplyRestores(prior, applied[n - 1].change);
    PlayablePrefix(base, applied, n - 1);
    if Positive(base) {
      PlayKeepsPositive(base, applied[..n - 1]);
    }
  }

  lemma RewindEnds(journal: seq<JournalEntry>, fromMs: int, maxStates: int)
    ensures journal == [] || maxStates <= 1 ==> RewindCount(journal, fromMs, maxStates) == 0
  {
  }

  lemma RewindStep(journal: seq<JournalEntry>, i: nat, fromMs: int, maxStates: int)
    requires 0 < i <= |journal| && maxStates > 1
    ensures RewindCount(journal[..i], fromMs, maxStates)
         == if journal[i - 1].atMs < fromMs then 0 else 1 + RewindCount(journal[..i - 1], fromMs, maxStates - 1)
  {
    assert journal[..i][..i - 1] == journal[..i - 1];
  }

  /** When state k was reached; for the oldest one, when it was left. */
  function ReachedAt(b: BookData, k: nat): int
    requires k <= |b.journal|
  {
    if k == 0 then b.lastUpdateAtMs
    else if k < |b.journal| then b.journal[|b.journal| - k - 1].atMs
    else b.journal[0].atMs
  }

  function ReachedSeq(b: BookData, k: nat): Option<int>
    requires k <= |b.journal|
  {
    if k == 0 then b.lastSeq
    else if k < |b.journal| then b.journal[|b.journal| - k - 1].seqNo
    else None
  }

  /** Entry k of the history: the book after all but the last k applied changes. */
  ghost predicate IsPastState(s: PastState, k: nat, b: BookData, base: Ladders, applied: seq<JournalEntry>)
    requires k <= |b.journal| <= |applied|
  {
    s == PastState(ReachedAt(b, k), ReachedSeq(b, k), LaddersHash(b.ticker, Play(base, applied[..|applied| - k])))
  }

  ghost predicate PastStates(out: seq<PastState>, b: BookData, base: Ladders, applied: seq<JournalEntry>)
    requires |out| <= |b.journal| + 1 && |b.journal| <= |applied|
  {
    forall k | 0 <= k < |out| :: IsPastState(out[k], k, b, base, applied)
  }

  lemma NewestState(out: seq<PastState>, b: BookData, base: Ladders, applied: seq<JournalEntry>)
    requires |b.journal| <= |applied| && b.ladders == Play(base, applied)
    requires out == [PastState(b.lastUpdateAtMs, b.lastSeq, LaddersHash(b.ticker, b.ladders))]
    ensures PastStates(out, b, base, applied)
    ensures Play(base, applied[..|applied| - 0]) == b.ladders
  {
    assert applied[..|applied|] == applied;
  }

  lemma OlderState(out: seq<PastState>, s: PastState, n: nat, b: BookData, base: Ladders, applied: seq<JournalEntry>)
    requires 0 < |out| <= |b.journal| <= |applied| && PastStates(out, b, base, applied)
    requires n == |applied| - |out|
    requires s.atMs == ReachedAt(b, |out|) && s.seqNo == ReachedSeq(b, |out|)
    requires s.hash == LaddersHash(b.ticker, Play(base, applied[..n]))
    ensures PastStates(out + [s], b, base, applied)
  {
  }

  /** Changes received at or after an instant. */
  function CountSince(applied: seq<JournalEntry>, fromMs: int): (k: nat)
    ensures k <= |applied|
  {
    if applied == [] then 0
    else CountSince(applied[1..], fromMs) + (if applied[0].atMs >= fromMs then 1 else 0)
  }

  lemma {:induction false} CountSinceSnoc(applied: seq<JournalEntry>, e: JournalEntry, fromMs: int)
    ensures CountSince(applied + [e], fromMs) == CountSince(applied, fromMs) + (if e.atMs >= fromMs then 1 else 0)
  {
    if applied != [] {
      assert (applied + [e])[1..] == applied[1..] + [e];
      CountSinceSnoc(applied[1..], e, fromMs);
    }
  }

  lemma {:induction false} NoneSinceWhenOlder(applied: seq<JournalEntry>, fromMs: int)
    requires forall i | 0 <= i < |applied| :: applied[i].atMs < fromMs
    ensures CountSince(applied, fromMs) == 0
  {
    if applied != [] {
      NoneSinceWhenOlder(applied[1..], fromMs);
    }
  }

  /**
   * The rewind reaches every state held from `fromMs` on: with receive times in order, the
   * window reaching back to `fromMs` and fewer changes since then than states allowed, the
   * number of rewound changes is exactly the number received since `fromMs`.
   */
  lemma {:induction false} RewindIsComplete(
      journal: seq<JournalEntry>, applied: seq<JournalEntry>, fromMs: int, maxStates: nat, floorMs: int, cap: nat)
    requires IsSuffix(journal, applied) && TimesInOrder(applied)
    requires forall i | 0 <= i < |applied| - |journal| :: applied[i].atMs < floorMs || i < |applied| - cap
    requires floorMs <= fromMs
    requires CountSince(applied, fromMs) < maxStates <= cap + 1
    ensures RewindCount(journal, fromMs, maxStates) == CountSince(applied, fromMs)
    decreases |applied|
  {
    if applied != [] {
      hide TimesInOrder, IsSuffix, CountSince, RewindCount;
      var n := |applied|;
      var init, last := applied[..n - 1], applied[n - 1];
      assert applied == init + [last];
      CountSinceSnoc(init, last, fromMs);
      SuffixFits(journal, applied);
      if last.atMs < fromMs {
        NoneSince(applied, fromMs);
        RewindNothing(journal, fromMs, maxStates);
      } else if journal == [] {
        RewindNothing(journal, fromMs, maxStates);
      } else {
        var journal' := journal[..|journal| - 1];
        SuffixInit(journal, applied);
        InitInOrder(applied);
        RewindNewest(journal, fromMs, maxStates);
        assert forall i | 0 <= i < |init| - |journal'| :: init[i] == applied[i];
        RewindIsComplete(journal', init, fromMs, maxStates - 1, floorMs, cap - 1);
      }
    } else {
      SuffixFits(journal, applied);
    }
  }

  lemma SuffixFits(journal: seq<JournalEntry>, applied: seq<JournalEntry>)
    requires IsSuffix(journal, applied)
    ensures |journal| <= |applied| && (journal != [] ==> journal[|journal| - 1] == applied[|applied| - 1])
  {
  }

  lemma NoneSince(applied: seq<JournalEntry>, fromMs: int)
    requires TimesInOrder(applied) && applied != [] && applied[|applied| - 1].atMs < fromMs
    ensures CountSince(applied, fromMs) == 0
  {
    hide CountSince;
    NoneSinceWhenOlder(applied, fromMs);
  }

  lemma RewindNothing(journal: seq<JournalEntry>, fromMs: int, maxStates: int)
    requires journal != [] ==> journal[|journal| - 1].atMs < fromMs
    ensures RewindCount(journal, fromMs, maxStates) == 0
  {
  }

  lemma RewindNewest(journal: seq<JournalEntry>, fromMs: int, maxStates: int)
    requires journal != []
    ensures RewindCount(journal, fromMs, maxStates) ==
      if maxStates <= 1 || journal[|journal| - 1].atMs < fromMs then 0
      else 1 + RewindCount(journal[..|journal| - 1], fromMs, maxStates - 1)
  {
  }

  lemma InitInOrder(applied: seq<JournalEntry>)
    requires TimesInOrder(applied) && applied != []
    ensures TimesInOrder(applied[..|applied| - 1])
  {
    var init := applied[..|applied| - 1];
    assert forall i | 0 <= i < |init| :: init[i] == applied[i];
  }

  lemma SuffixInit(journal: seq<JournalEntry>, applied: seq<JournalEntry>)
    requires IsSuffix(journal, applied) && journal != []
    ensures IsSuffix(journal[..|journal| - 1], applied[..|applied| - 1])
  {
  }

  /** With times in order, a state was still held at `fromMs` exactly when it is that recent. */
  lemma {:induction false} HeldSince(applied: seq<JournalEntry>, fromMs: int, n: nat)
    requires TimesInOrder(applied) && n < |applied|
    ensures applied[n].atMs >= fromMs <==> |applied| - n <= CountSince(applied, fromMs)
  {
    var last := applied[|applied| - 1];
    var init := applied[..|applied| - 1];
    assert applied == init + [last];
    CountSinceSnoc(init, last, fromMs);
    if n < |applied| - 1 {
      HeldSince(init, fromMs, n);
      if last.atMs < fromMs {
        NoneSinceWhenOlder(applied, fromMs);
      }
    } else if last.atMs < fromMs {
      NoneSinceWhenOlder(applied, fromMs);
    }
  }

  // ---------------------------------------------------------------------------
  // The book object
  // ---------------------------------------------------------------------------

  class MarketBook {
    const ticker: Ticker
    const keep: Retention

    var yesBids: Levels
    var noBids: Levels
    var lastSeq: Option<int>
    var valid: bool
    var invalidReason: Option<Reason>
    var lastSnapshotAtMs: int
    var lastUpdateAtMs: int
    var session: Option<SessionId>
    var stream: Option<StreamId>
    var hashCache: Option<Hash>
    var journal: seq<JournalEntry>

    /** The book as of the last snapshot, and every change applied since. */
    ghost var base: Ladders
    ghost var applied: seq<JournalEntry>

    ghost predicate Valid()
      reads this
    {
      && Explains(Contents(), base, applied)
      && Records(journal, applied, keep)
      && (hashCache.Some? ==> hashCache.value == LaddersHash(ticker, Contents()))
    }

    function Contents(): Ladders
      reads this
    {
      Ladders(yesBids, noBids)
    }

    function View(): BookData
      reads this
    {
      BookData(ticker, Contents(), lastSeq, valid, invalidReason, lastSnapshotAtMs, lastUpdateAtMs, session, stream,
          journal)
    }

    constructor (ticker: Ticker, keep: Retention := DEFAULT_RETENTION)
      ensures Valid() && View() == NewBook(ticker) && this.keep == keep && this.ticker == ticker
      ensures base == EMPTY_LADDERS && applied == [] && hashCache == None
    {
      this.ticker, this.keep := ticker, keep;
      yesBids, noBids := map[], map[];
      lastSeq, valid, invalidReason := None, false, None;
      lastSnapshotAtMs, lastUpdateAtMs := 0, 0;
      session, stream, hashCache, journal := None, None, None, [];
      base, applied := EMPTY_LADDERS, [];
    }

    constructor CopyOf(other: MarketBook)
      requires other.Valid()
      ensures Valid()
      ensures View() == other.View().(journal := []) && keep == other.keep && ticker == other.ticker
    {
      ticker, keep := other.ticker, other.keep;
      yesBids, noBids := other.yesBids, other.noBids;
      lastSeq, valid, invalidReason := other.lastSeq, other.valid, other.invalidReason;
      lastSnapshotAtMs, lastUpdateAtMs := other.lastSnapshotAtMs, other.lastUpdateAtMs;
      session, stream := other.session, other.stream;
      hashCache, journal := None, [];
      base, applied := other.Contents(), [];
    }

    /** Replaces the whole book; the only way a book becomes valid. */
    method ReplaceWithSnapshot(yes: seq<Level>, no: seq<Level>, seqNo: Option<int>, atMs: int,
                               session: Option<SessionId>, stream: Option<StreamId>)
      modifies this
      ensures Valid() && View() == Snapshotted(old(View()), yes, no, seqNo, atMs, session, stream)
      ensures base == Contents() && applied == []
    {
      hide LaddersHash, Play, Playable, Covers, TimesInOrder, IsSuffix, Load;
      LoadSides(yes, no);
      Stamp(seqNo, atMs, session, stream);
      hashCache, base, applied := None, Contents(), [];
      FreshHistory(base, keep);
    }

    /** Records where and when the new contents came from. */
    method Stamp(seqNo: Option<int>, atMs: int, session: Option<SessionId>, stream: Option<StreamId>)
      modifies `lastSeq, `valid, `invalidReason, `lastSnapshotAtMs, `lastUpdateAtMs, `journal, `session, `stream
      ensures View() == BookData(ticker, Contents(), seqNo, true, None, atMs, atMs,
                                 if session.Some? then session else old(this.session),
                                 if stream.Some? then stream else old(this.stream), [])
    {
      lastSeq, valid, invalidReason := seqNo, true, None;
      lastSnapshotAtMs, lastUpdateAtMs, journal := atMs, atMs, [];
      if session.Some? {
        this.session := session;
      }
      if stream.Some? {
        this.stream := stream;
      }
    }

    method LoadSides(yes: seq<Level>, no: seq<Level>)
      modifies `yesBids, `noBids
      ensures Contents() == Ladders(Load(yes), Load(no))
    {
      yesBids, noBids := map[], map[];
      for i := 0 to |yes|
        invariant Contents() == Ladders(Load(yes[..i]), map[])
      {
        assert yes[..i + 1][..i] == yes[..i];
        SetLevel(Yes, yes[i].0, yes[i].1);
      }
      assert yes[..|yes|] == yes;
      for i := 0 to |no|
        invariant Contents() == Ladders(Load(yes), Load(no[..i]))
      {
        assert no[..i + 1][..i] == no[..i];
        SetLevel(No, no[i].0, no[i].1);
      }
      assert no[..|no|] == no;
    }

    method SetLevel(side: Side, price: int, size: int)
      modifies `yesBids, `noBids
      ensures Contents() == if size == 0 then old(Contents())
                            else WithSide(old(Contents()), side, SideLevels(old(Contents()), side)[price := size])
    {
      if size != 0 {
        if side == Yes {
          yesBids := yesBids[price := size];
        } else {
          noBids := noBids[price := size];
        }
      }
    }

    /** Applies one change, or marks the book invalid when it would go negative. */
    method ApplyDelta(c: Change, seqNo: Option<int>, atMs: int) returns (r: ApplyResult)
      requires Valid()
      modifies this
      ensures Valid() && View() == Changed(old(View()), c, seqNo, atMs, keep)
      ensures r == ResultOf(old(View()), c)
      ensures base == old(base)
      ensures applied == if r.applied then old(applied) + [JournalEntry(seqNo, atMs, c)] else old(applied)
    {
      hide LaddersHash, Play, NoZeros, Playable, Covers, TimesInOrder, IsSuffix, Trimmed, ActionOf;
      var pre := LevelAt(if c.side == Yes then yesBids else noBids, c.price);
      var post := pre + c.amount;
      if post < 0 {
        var reason := NegativeLevel(c, pre, post);
        Invalidate(reason);
        return ApplyResult(false, pre, Some(post), Unknown, Some(reason));
      }
      var entry := JournalEntry(seqNo, atMs, c);
      HistoryGrows(Contents(), base, journal, applied, entry, keep);
      StoreLevel(c.side, c.price, post);
      assert Contents() == Folded(old(Contents()), c);
      Advance(entry);
      r := ApplyResult(true, pre, Some(post), ActionOf(pre, c.amount), None);
    }

    /** Journals an applied change and moves the position on. */
    method Advance(entry: JournalEntry)
      modifies `lastSeq, `lastUpdateAtMs, `hashCache, `journal, `applied
      ensures lastSeq == if entry.seqNo.Some? then entry.seqNo else old(lastSeq)
      ensures lastUpdateAtMs == entry.atMs && hashCache == None && applied == old(applied) + [entry]
      ensures journal == Trimmed(old(journal) + [entry], entry.atMs, keep)
    {
      if entry.seqNo.Some? {
        lastSeq := entry.seqNo;
      }
      lastUpdateAtMs, hashCache := entry.atMs, None;
      journal, applied := journal + [entry], applied + [entry];
      TrimJournal(entry.atMs);
    }

    method StoreLevel(side: Side, price: int, size: int)
      modifies `yesBids, `noBids
      ensures Contents() == WithSide(old(Contents()), side, WithLevel(SideLevels(old(Contents()), side), price, size))
    {
      if side == Yes {
        yesBids := WithLevel(yesBids, price, size);
      } else {
        noBids := WithLevel(noBids, price, size);
      }
    }

    method TrimJournal(nowMs: int)
      modifies `journal
      ensures journal == Trimmed(old(journal), nowMs, keep)
    {
      hide DropOld;
      var cutoff := nowMs - keep.windowMs;
      var drop := 0;
      assert journal[drop..] == journal;
      while drop < |journal| && journal[drop].atMs < cutoff
        invariant 0 <= drop <= |journal| && journal == old(journal)
        invariant DropOld(journal[drop..], cutoff) == DropOld(journal, cutoff)
      {
        DropOldNext(journal, drop, cutoff);
        drop := drop + 1;
      }
      DropOldNext(journal, drop, cutoff);
      assert drop == 0 ==> journal[drop..] == journal;
      if drop > 0 {
        journal := journal[drop..];
      }
      if |journal| > keep.maxEntries {
        journal := journal[|journal| - keep.maxEntries..];
      }
    }

    /** Marks the book untrustworthy; its contents are kept. */
    method Invalidate(reason: Reason)
      modifies `valid, `invalidReason
      ensures View() == Invalidated(old(View()), reason)
      ensures old(Valid()) ==> Valid()
    {
      valid := false;
      invalidReason := Some(reason);
    }

    /** The cached hash is always the hash of the current contents. */
    method GetStateHash() returns (h: Hash)
      requires Valid()
      modifies `hashCache
      ensures Valid() && h == LaddersHash(ticker, Contents()) && View() == old(View())
    {
      if hashCache.None? {
        var yesEntries := Entries(yesBids);
        var noEntries := Entries(noBids);
        var yesLevels := CanonicalLevels(yesEntries);
        var noLevels := CanonicalLevels(noEntries);
        hashCache := Some(HashBookState(ticker, yesLevels, noLevels));
      }
      h := hashCache.value;
    }

    /** A deep copy; the journal is not copied. */
    method Clone() returns (copy: MarketBook)
      requires Valid()
      ensures fresh(copy) && copy.Valid()
      ensures copy.View() == View().(journal := []) && copy.keep == keep
    {
      copy := new MarketBook.CopyOf(this);
    }

    /** Rebuilds a book from its serialized canonical form. */
    static method FromCanonical(ticker: Ticker, yes: seq<LevelText>, no: seq<LevelText>, nowMs: int)
        returns (book: MarketBook)
      ensures fresh(book) && book.Valid()
      ensures book.View() == Snapshotted(NewBook(ticker), ReadLevels(yes), ReadLevels(no), None, nowMs, None, None)
    {
      hide MarketBook.Valid, Snapshotted, ReadLevels;
      book := new MarketBook(ticker);
      book.ReplaceWithSnapshot(ReadLevels(yes), ReadLevels(no), None, nowMs, None, None);
    }

    /** Takes one change back out of this book, unless that would leave a negative level. */
    method Unapply(c: Change) returns (hash: Option<Hash>)
      requires Valid()
      modifies this
      ensures Valid()
      ensures hash.Some? <==> Applies(old(Contents()), Inverse(c))
      ensures hash.Some? ==>
        Contents() == Folded(old(Contents()), Inverse(c)) && hash.value == LaddersHash(ticker, Contents())
    {
      hide LaddersHash, Play, Playable, Covers, TimesInOrder, IsSuffix;
      var before := LevelAt(if c.side == Yes then yesBids else noBids, c.price) - c.amount;
      if before < 0 {
        return None;
      }
      UnapplyRestores(Contents(), Inverse(c));
      StoreLevel(c.side, c.price, before);
      hashCache := None;
      base, applied, journal := Contents(), [], [];
      FreshHistory(base, keep);
      var h := GetStateHash();
      hash := Some(h);
    }

    /**
     * The states this book passed through, newest first, by un-applying journalled changes.
     * Every entry is a state the book really held, and with non-negative snapshot sizes the
     * rewind never stops early.
     */
    method HistoricalStates(fromMs: int, maxStates: int) returns (out: seq<PastState>)
      requires Valid()
      ensures 1 <= |out| <= 1 + RewindCount(journal, fromMs, maxStates)
      ensures Positive(base) ==> |out| == 1 + RewindCount(journal, fromMs, maxStates)
      ensures PastStates(out, View(), base, applied)
    {
      hide LaddersHash, Play, RewindCount, NoZeros, Playable, Folded, Covers, TimesInOrder, Positive;
      ghost var view, start, changes := View(), base, applied;
      var entries := journal;
      var rewound := Clone();
      var hash := rewound.GetStateHash();
      out := [PastState(lastUpdateAtMs, lastSeq, hash)];
      NewestState(out, view, start, changes);
      var i := |entries|;
      ghost var n, left, budget := |changes|, RewindCount(entries, fromMs, maxStates), maxStates;
      RewindEnds(entries, fromMs, budget);
      assert entries[..i] == entries && changes[..n] == changes;
      while i > 0 && |out| < maxStates
        invariant 0 <= i <= |entries| && |out| == |entries| - i + 1 && n == |changes| - |entries| + i
        invariant budget == maxStates - |out| + 1
        invariant fresh(rewound) && rewound.Valid() && rewound.ticker == view.ticker
        invariant rewound.Contents() == Play(start, changes[..n])
        invariant left == RewindCount(entries[..i], fromMs, budget)
        invariant i == 0 || budget <= 1 ==> left == 0
        invariant |out| - 1 + left == RewindCount(entries, fromMs, maxStates)
        invariant PastStates(out, view, start, changes)
      {
        var entry := entries[i - 1];
        assert entry == changes[n - 1];
        RewindStep(entries, i, fromMs, budget);
        if entry.atMs < fromMs {
          break;
        }
        ghost var prior := PriorState(start, changes, n);
        var earlier := rewound.Unapply(entry.change);
        if earlier.None? {
          break;
        }
        i, n, left, budget := i - 1, n - 1, left - 1, budget - 1;
        var priorSeq := if i > 0 then entries[i - 1].seqNo else None;
        var priorMs := if i > 0 then entries[i - 1].atMs else entry.atMs;
        var state := PastState(priorMs, priorSeq, earlier.value);
        OlderState(out, state, n, view, start, changes);
        out := out + [state];
        RewindEnds(entries[..i], fromMs, budget);
      }
    }
  }
}
