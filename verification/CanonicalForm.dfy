/**
 * The canonical text of a book (src/book/decimal.ts, src/book/hashing.ts).
 *
 * Numbers are counts of millionths, so canonical text is the fixed six-decimal rendering.
 */
module CanonicalForm {
  import opened Values
  import opened Ordering

  // ---------------------------------------------------------------------------
  // Fixed-point text
  // ---------------------------------------------------------------------------

  const SCALE := 1_000_000

  function DigitChar(d: int): (c: char)
    requires 0 <= d < 10
    ensures '0' <= c <= '9'
  {
    d as char + '0'
  }

  /** Decimal digits without leading zeros. */
  function Digits(n: nat): (s: string)
    ensures |s| > 0 && AllDigits(s)
    decreases n
  {
    if n < 10 then [DigitChar(n)] else Digits(n / 10) + [DigitChar(n % 10)]
  }

  /** Exactly `width` decimal digits. */
  function Padded(n: nat, width: nat): (s: string)
    ensures |s| == width && AllDigits(s)
  {
    if width == 0 then [] else Padded(n / 10, width - 1) + [DigitChar(n % 10)]
  }

  predicate AllDigits(s: string) {
    forall i | 0 <= i < |s| :: '0' <= s[i] <= '9'
  }

  /** Canonical price or size text, such as "0.420000". */
  function ToFixed(n: int): (s: string)
    ensures forall i | 0 <= i < |s| :: NumeralChar(s[i])
    decreases n < 0
  {
    if n < 0 then "-" + ToFixed(-n)
    else Digits(n / SCALE) + "." + Padded(n % SCALE, 6)
  }

  predicate NumeralChar(c: char) {
    '0' <= c <= '9' || c == '.' || c == '-'
  }

  /** Reads digits left to right, ignoring the decimal point. */
  function DigitValue(s: string): (n: int)
    ensures n >= 0
  {
    if s == [] then 0
    else
      var c := s[|s| - 1];
      if '0' <= c <= '9' then 10 * DigitValue(s[..|s| - 1]) + (c - '0') as int
      else DigitValue(s[..|s| - 1])
  }

  /** Parses six-decimal canonical text back to millionths. */
  function ParseFixed(s: string): int {
    if s != [] && s[0] == '-' then -DigitValue(s[1..]) else DigitValue(s)
  }

  function Pow10(k: nat): (p: nat)
    ensures p > 0
  {
    if k == 0 then 1 else 10 * Pow10(k - 1)
  }

  lemma DigitValueOfSnoc(s: string, c: char)
    ensures DigitValue(s + [c]) == if '0' <= c <= '9' then 10 * DigitValue(s) + (c - '0') as int else DigitValue(s)
  {
    assert (s + [c])[..|s|] == s;
  }

  lemma {:induction false} DigitsRoundTrip(n: nat)
    ensures DigitValue(Digits(n)) == n
    decreases n
  {
    if n < 10 {
      DigitValueOfSnoc([], DigitChar(n));
      assert [] + [DigitChar(n)] == Digits(n);
    } else {
      DigitsRoundTrip(n / 10);
      DigitValueOfSnoc(Digits(n / 10), DigitChar(n % 10));
    }
  }

  lemma ShiftByTen(x: int, p: int, n: nat)
    ensures 10 * (x * p + n / 10) + n % 10 == x * (10 * p) + n
  {
    assert 10 * (n / 10) + n % 10 == n;
    assert 10 * (x * p) == x * (10 * p);
  }

  lemma {:induction false} PaddedValue(prefix: string, n: nat, width: nat)
    requires n < Pow10(width)
    ensures DigitValue(prefix + Padded(n, width)) == DigitValue(prefix) * Pow10(width) + n
  {
    if width == 0 {
      assert prefix + Padded(n, width) == prefix;
    } else {
      PaddedValue(prefix, n / 10, width - 1);
      var head := prefix + Padded(n / 10, width - 1);
      assert prefix + Padded(n, width) == head + [DigitChar(n % 10)];
      DigitValueOfSnoc(head, DigitChar(n % 10));
      ShiftByTen(DigitValue(prefix), Pow10(width - 1), n);
    }
  }

  lemma ScaleIsSixDigits()
    ensures Pow10(6) == SCALE
  {
    assert Pow10(1) == 10;
    assert Pow10(2) == 100;
    assert Pow10(3) == 1000;
    assert Pow10(4) == 10000;
    assert Pow10(5) == 100000;
  }

  /** Reading canonical text back gives the number it was written from, for every number. */
  lemma FixedTextRoundTrip(n: int)
    ensures ParseFixed(ToFixed(n)) == n
  {
    hide Pow10, DigitValue;
    var a: nat := if n < 0 then -n else n;
    ScaleIsSixDigits();
    DigitsRoundTrip(a / SCALE);
    DigitValueOfSnoc(Digits(a / SCALE), '.');
    assert DigitValue(Digits(a / SCALE) + ".") == a / SCALE;
    PaddedValue(Digits(a / SCALE) + ".", a % SCALE, 6);
    assert ToFixed(a)[0] == Digits(a / SCALE)[0];
    if n < 0 {
      assert ToFixed(n)[1..] == ToFixed(a);
    }
  }

  // ---------------------------------------------------------------------------
  // Canonical level lists
  // ---------------------------------------------------------------------------

  type Level = (int, int)

  /** `es` lists exactly the entries of `m`, each once, in some order: a map iteration. */
  ghost predicate Enumerates(es: seq<Level>, m: Levels) {
    && (forall i | 0 <= i < |es| :: es[i].0 in m && m[es[i].0] == es[i].1)
    && (forall i, j | 0 <= i < j < |es| :: es[i].0 != es[j].0)
    && (forall p {:trigger Lists(es, p)} | p in m :: Lists(es, p))
  }

  ghost predicate Lists(es: seq<Level>, p: int) {
    exists i :: 0 <= i < |es| && es[i].0 == p
  }

  /** Best price first: the comparator of the level sort. */
  predicate HigherPrice(a: Level, b: Level) {
    a.0 > b.0
  }

  ghost predicate Descending(es: seq<Level>) {
    forall i, j | 0 <= i < j < |es| :: es[i].0 > es[j].0
  }

  /** The canonical list of a side: its entries, best price first. */
  ghost predicate IsCanonical(es: seq<Level>, m: Levels) {
    Enumerates(es, m) && Descending(es)
  }

  lemma HigherPriceIsOrder()
    ensures StrictWeakOrder(HigherPrice)
  {
  }

  lemma {:induction false} CanonicalListExists(m: Levels)
    ensures exists es: seq<Level> :: IsCanonical(es, m)
    decreases |m.Keys|
  {
    if m.Keys == {} {
      assert IsCanonical([], m);
    } else {
      var top := HighestPrice(m.Keys);
      assert |(m - {top}).Keys| < |m.Keys| by {
        assert (m - {top}).Keys == m.Keys - {top};
      }
      CanonicalListExists(m - {top});
      var es: seq<Level> :| IsCanonical(es, m - {top});
      PrependBest(top, es, m);
    }
  }

  lemma PrependBest(top: int, es: seq<Level>, m: Levels)
    requires top in m && (forall p | p in m :: p <= top) && IsCanonical(es, m - {top})
    ensures IsCanonical([(top, m[top])] + es, m)
  {
    var all: seq<Level> := [(top, m[top])] + es;
    forall p | p in m ensures Lists(all, p) {
      if p == top {
        assert all[0].0 == p;
      } else {
        assert p in m - {top};
        assert Lists(es, p);
      var i :| 0 <= i < |es| && es[i].0 == p;
        assert all[i + 1].0 == p;
      }
    }
    forall i | 1 <= i < |all| ensures all[i].0 in m && m[all[i].0] == all[i].1 && all[i].0 < top {
      assert all[i] == es[i - 1];
      assert es[i - 1].0 in m - {top};
    }
  }

  lemma {:induction false} HighestPrice(s: set<int>) returns (top: int)
    requires s != {}
    ensures top in s && forall p | p in s :: p <= top
  {
    var x := PickElement(s);
    if s == {x} {
      top := x;
    } else {
      var y := HighestPrice(s - {x});
      top := if x < y then y else x;
      forall p | p in s ensures p <= top {
        assert p == x || p in s - {x};
      }
    }
  }

  /** Two canonical lists of one side are the same list. */
  lemma {:induction false} CanonicalListIsUnique(a: seq<Level>, b: seq<Level>, m: Levels)
    requires IsCanonical(a, m) && IsCanonical(b, m)
    ensures a == b
  {
    assert b != [] ==> Lists(a, b[0].0);
    if a != [] {
      assert Lists(b, a[0].0) && Lists(a, b[0].0);
      var i :| 0 <= i < |b| && b[i].0 == a[0].0;
      var j :| 0 <= j < |a| && a[j].0 == b[0].0;
      assert a[0] == b[0];
      DropBest(a, m);
      DropBest(b, m);
      CanonicalListIsUnique(a[1..], b[1..], m - {a[0].0});
      assert a == [a[0]] + a[1..] && b == [b[0]] + b[1..];
    }
  }

  lemma DropBest(a: seq<Level>, m: Levels)
    requires IsCanonical(a, m) && a != []
    ensures IsCanonical(a[1..], m - {a[0].0})
  {
    var rest := m - {a[0].0};
    forall p | p in rest ensures Lists(a[1..], p) {
      assert Lists(a, p);
      var i :| 0 <= i < |a| && a[i].0 == p;
      assert a[1..][i - 1].0 == p;
    }
  }

  /** The canonical list of a side. */
  ghost function Canonical(m: Levels): (es: seq<Level>)
    ensures IsCanonical(es, m)
  {
    CanonicalListExists(m);
    var es: seq<Level> :| IsCanonical(es, m);
    es
  }

  /** Iterates a map in some order: no caller may depend on which. */
  method Entries(m: Levels) returns (es: seq<Level>)
    ensures Enumerates(es, m)
  {
    es := [];
    var rest := m;
    while rest.Keys != {}
      invariant rest.Keys <= m.Keys && forall p | p in rest :: rest[p] == m[p]
      invariant Enumerates(es, m - rest.Keys)
      decreases |rest.Keys|
    {
      var p := NextElement(rest.Keys);
      var es' := es + [(p, rest[p])];
      var rest' := rest - {p};
      assert |rest'.Keys| < |rest.Keys| by {
        assert rest'.Keys == rest.Keys - {p};
      }
      forall q | q in m - rest'.Keys ensures Lists(es', q) {
        if q == p {
          assert es'[|es|].0 == q;
        } else {
          assert q in m - rest.Keys;
          assert Lists(es, q);
          var i :| 0 <= i < |es| && es[i].0 == q;
          assert es'[i].0 == q;
        }
      }
      es, rest := es', rest';
    }
    assert m - rest.Keys == m;
  }

  /** Drops zero sizes and sorts best price first. */
  method CanonicalLevels(levels: seq<Level>) returns (out: seq<Level>)
    ensures forall m | NoZero(m) && Enumerates(levels, m) :: out == Canonical(m)
  {
    var kept: seq<Level> := [];
    for i := 0 to |levels|
      invariant kept == NonZero(levels[..i])
    {
      assert levels[..i + 1] == levels[..i] + [levels[i]];
      if levels[i].1 != 0 {
        kept := kept + [levels[i]];
      }
    }
    assert levels[..|levels|] == levels;
    out := SortBy(kept, HigherPrice);
    HigherPriceIsOrder();
    SortBySorts(kept, HigherPrice);
    forall m | NoZero(m) && Enumerates(levels, m) ensures out == Canonical(m) {
      NothingToDrop(levels, m);
      SortedEntriesAreCanonical(levels, out, m);
      CanonicalListIsUnique(out, Canonical(m), m);
    }
  }

  function NonZero(levels: seq<Level>): seq<Level> {
    if levels == [] then []
    else
      NonZero(levels[..|levels| - 1]) + (if levels[|levels| - 1].1 != 0 then [levels[|levels| - 1]] else [])
  }

  lemma {:induction false} NothingToDrop(levels: seq<Level>, m: Levels)
    requires NoZero(m) && forall i | 0 <= i < |levels| :: levels[i].0 in m && m[levels[i].0] == levels[i].1
    ensures NonZero(levels) == levels
  {
    if levels != [] {
      var init := levels[..|levels| - 1];
      forall i | 0 <= i < |init| ensures init[i].0 in m && m[init[i].0] == init[i].1 {
        assert init[i] == levels[i];
      }
      NothingToDrop(init, m);
      var last := levels[|levels| - 1];
      var price, size := last.0, last.1;
      assert price in m && m[price] == size;
      assert levels == init + [last];
    }
  }

  /** Whatever order the entries came in, sorting them gives the canonical list. */
  lemma SortedEntriesAreCanonical(es: seq<Level>, out: seq<Level>, m: Levels)
    requires Enumerates(es, m) && multiset(out) == multiset(es) && Sorted(out, HigherPrice)
    ensures IsCanonical(out, m)
  {
    forall i | 0 <= i < |out| ensures out[i].0 in m && m[out[i].0] == out[i].1 {
      assert out[i] in multiset(out);
      assert out[i] in es;
    }
    forall p | p in m ensures Lists(out, p) {
      assert Lists(es, p);
      var i :| 0 <= i < |es| && es[i].0 == p;
      assert es[i] in multiset(out);
    }
    forall i, j | 0 <= i < j < |out| ensures out[i].0 > out[j].0 {
      assert !HigherPrice(out[j], out[i]);
      if out[i].0 == out[j].0 {
        OnceIn(es, out[i]);
        TwiceIn(out, i, j);
      }
    }
  }

  lemma OnceIn(es: seq<Level>, e: Level)
    requires forall i, j | 0 <= i < j < |es| :: es[i].0 != es[j].0
    ensures multiset(es)[e] <= 1
  {
    if es != [] {
      OnceIn(es[1..], e);
      assert es == [es[0]] + es[1..];
      assert es[0] == e ==> e !in es[1..];
    }
  }

  lemma TwiceIn(es: seq<Level>, i: nat, j: nat)
    requires i < j < |es| && es[i] == es[j]
    ensures multiset(es)[es[i]] >= 2
  {
    assert es == es[..j] + [es[j]] + es[j + 1..];
    assert es[i] in es[..j];
  }

  // ---------------------------------------------------------------------------
  // Hash preimage
  // ---------------------------------------------------------------------------

  /** SHA-256, taken to be collision free: the digest is known by what was hashed. */
  datatype Hash = Sha256(preimage: string)

  function SerializeLevel(e: Level): string {
    ToFixed(e.0) + "@" + ToFixed(e.1)
  }

  function SerializeLevels(es: seq<Level>): string {
    if es == [] then ""
    else if |es| == 1 then SerializeLevel(es[0])
    else SerializeLevel(es[0]) + "," + SerializeLevels(es[1..])
  }

  function HashBookState(ticker: Ticker, yes: seq<Level>, no: seq<Level>): Hash {
    Sha256(ticker + "\n" + "yes:" + SerializeLevels(yes) + "\n" + "no:" + SerializeLevels(no))
  }

  /** The state hash of a book with these two sides. */
  ghost function StateHash(ticker: Ticker, yes: Levels, no: Levels): Hash {
    HashBookState(ticker, Canonical(yes), Canonical(no))
  }

  lemma CutAtFirst(a: string, x: string, b: string, y: string, c: char)
    requires c !in a && c !in b
    requires a + [c] + x == b + [c] + y
    ensures a == b && x == y
  {
    var s := a + [c] + x;
    assert s[|a|] == c && s[|b|] == c;
    assert forall i | 0 <= i < |a| :: s[i] == a[i];
    assert forall i | 0 <= i < |b| :: s[i] == b[i];
    assert s[..|a|] == a && s[..|b|] == b;
    assert s[|a| + 1..] == x && s[|b| + 1..] == y;
  }

  lemma NumeralsAvoidSeparators(n: int)
    ensures '@' !in ToFixed(n) && ',' !in ToFixed(n) && '\n' !in ToFixed(n)
  {
  }

  lemma LevelTextIsInjective(a: Level, b: Level)
    requires SerializeLevel(a) == SerializeLevel(b)
    ensures a == b
  {
    NumeralsAvoidSeparators(a.0);
    NumeralsAvoidSeparators(b.0);
    CutAtFirst(ToFixed(a.0), ToFixed(a.1), ToFixed(b.0), ToFixed(b.1), '@');
    FixedTextRoundTrip(a.0);
    FixedTextRoundTrip(a.1);
    FixedTextRoundTrip(b.0);
    FixedTextRoundTrip(b.1);
  }

  lemma LevelTextAvoidsComma(e: Level)
    ensures ',' !in SerializeLevel(e) && '\n' !in SerializeLevel(e) && |SerializeLevel(e)| > 0
  {
    NumeralsAvoidSeparators(e.0);
    NumeralsAvoidSeparators(e.1);
  }

  lemma {:induction false} LevelsTextAvoidsNewline(es: seq<Level>)
    ensures '\n' !in SerializeLevels(es)
    ensures es != [] ==> |SerializeLevels(es)| > 0
  {
    if es != [] {
      LevelTextAvoidsComma(es[0]);
      LevelsTextAvoidsNewline(es[1..]);
    }
  }

  lemma SeveralLevelsHaveComma(es: seq<Level>)
    ensures |es| > 1 ==> ',' in SerializeLevels(es)
  {
    if |es| > 1 {
      assert SerializeLevels(es)[|SerializeLevel(es[0])|] == ',';
    }
  }

  lemma {:induction false} LevelsTextIsInjective(a: seq<Level>, b: seq<Level>)
    requires SerializeLevels(a) == SerializeLevels(b)
    ensures a == b
  {
    LevelsTextAvoidsNewline(a);
    LevelsTextAvoidsNewline(b);
    if a == [] || b == [] {
    } else {
      LevelTextAvoidsComma(a[0]);
      LevelTextAvoidsComma(b[0]);
      SeveralLevelsHaveComma(a);
      SeveralLevelsHaveComma(b);
      if |a| == 1 && |b| == 1 {
        LevelTextIsInjective(a[0], b[0]);
      } else if |a| > 1 && |b| > 1 {
        CutAtFirst(SerializeLevel(a[0]), SerializeLevels(a[1..]), SerializeLevel(b[0]), SerializeLevels(b[1..]), ',');
        LevelTextIsInjective(a[0], b[0]);
        LevelsTextIsInjective(a[1..], b[1..]);
        assert a == [a[0]] + a[1..] && b == [b[0]] + b[1..];
      }
    }
  }

  lemma PreimageIsInjective(ticker: Ticker, y1: seq<Level>, n1: seq<Level>, y2: seq<Level>, n2: seq<Level>)
    requires HashBookState(ticker, y1, n1) == HashBookState(ticker, y2, n2)
    ensures y1 == y2 && n1 == n2
  {
    var s1, s2 := SerializeLevels(y1), SerializeLevels(y2);
    var t1, t2 := SerializeLevels(n1), SerializeLevels(n2);
    LevelsTextAvoidsNewline(y1);
    LevelsTextAvoidsNewline(y2);
    FramedTextIsInjective(ticker + "\n" + "yes:", s1, t1, s2, t2);
    LevelsTextIsInjective(y1, y2);
    LevelsTextIsInjective(n1, n2);
  }

  lemma FramedTextIsInjective(head: string, s1: string, t1: string, s2: string, t2: string)
    requires '\n' !in s1 && '\n' !in s2
    requires head + s1 + "\n" + "no:" + t1 == head + s2 + "\n" + "no:" + t2
    ensures s1 == s2 && t1 == t2
  {
    var u1, u2 := "no:" + t1, "no:" + t2;
    assert head + s1 + "\n" + "no:" + t1 == head + (s1 + "\n" + u1);
    assert head + s2 + "\n" + "no:" + t2 == head + (s2 + "\n" + u2);
    assert (head + (s1 + "\n" + u1))[|head|..] == s1 + "\n" + u1;
    assert (head + (s2 + "\n" + u2))[|head|..] == s2 + "\n" + u2;
    CutAtFirst(s1, u1, s2, u2, '\n');
    assert u1[3..] == t1 && u2[3..] == t2;
  }

  /** Two books of one ticker hash alike exactly when their level maps are equal. */
  lemma StateHashIdentifiesBook(ticker: Ticker, y1: Levels, n1: Levels, y2: Levels, n2: Levels)
    ensures StateHash(ticker, y1, n1) == StateHash(ticker, y2, n2) <==> y1 == y2 && n1 == n2
  {
    if StateHash(ticker, y1, n1) == StateHash(ticker, y2, n2) {
      PreimageIsInjective(ticker, Canonical(y1), Canonical(n1), Canonical(y2), Canonical(n2));
      CanonicalListDeterminesMap(y1, y2);
      CanonicalListDeterminesMap(n1, n2);
    }
  }

  lemma CanonicalListDeterminesMap(a: Levels, b: Levels)
    requires Canonical(a) == Canonical(b)
    ensures a == b
  {
    var es := Canonical(a);
    forall p | p in a ensures p in b && a[p] == b[p] {
      assert Lists(es, p);
      var i :| 0 <= i < |es| && es[i].0 == p;
    }
    forall p | p in b ensures p in a {
      assert Lists(es, p);
      var i :| 0 <= i < |es| && es[i].0 == p;
    }
  }
}
