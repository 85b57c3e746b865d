/** Small shared vocabulary: identifiers, sides and optional values. */
module Values {
  datatype Option<+T> = None | Some(value: T)

  /** A market ticker. */
  type Ticker = string

  /** Stream and session ids are UUIDs; only equality and some total order on them matter. */
  type StreamId = int
  type SessionId = int

  /** Stands for the empty stream id recorded when a frame's subscription is unknown. */
  const UNBOUND_STREAM: StreamId := 0

  datatype Side = Yes | No

  /**
   * One side of a book. Prices and sizes are exact multiples of one millionth, so both are
   * kept as integer counts of millionths; a price without resting size has no entry.
   */
  type Levels = map<int, int>

  function LevelAt(levels: Levels, price: int): int {
    if price in levels then levels[price] else 0
  }

  /** Sets the resting size at a price; size zero removes the level. */
  function WithLevel(levels: Levels, price: int, size: int): Levels {
    if size == 0 then levels - {price} else levels[price := size]
  }

  ghost predicate AllPositive(levels: Levels) {
    forall p | p in levels :: levels[p] > 0
  }

  ghost predicate NoZero(levels: Levels) {
    forall p | p in levels :: levels[p] != 0
  }

  function Min(a: int, b: int): int {
    if a < b then a else b
  }

  function Max(a: int, b: int): int {
    if a < b then b else a
  }

  lemma PickElement<T>(s: set<T>) returns (x: T)
    requires s != {}
    ensures x in s
  {
    x :| x in s;
  }

  /** The next element of a hash-map or hash-set iteration: any one of those left. */
  method NextElement<T>(s: set<T>) returns (x: T)
    requires s != {}
    ensures x in s
  {
    x :| x in s;
  }

  lemma SmallerWithout<K, V>(m: map<K, V>, k: K)
    requires k in m
    ensures |(m - {k}).Keys| < |m.Keys|
  {
    assert (m - {k}).Keys == m.Keys - {k};
  }
}
