/** Checking a replay against the samples the recorder took of its own book (src/replay/replay.ts). */
module VerifyingReplay {
  import opened Values
  import opened Ordering
  import opened CanonicalForm
  import opened MarketBooks
  import opened BookManagement
  import opened Collecting
  import opened Capture
  import opened LiveHistory
  import opened FaithfulRows
  import opened Replaying
  import opened Queries
  import opened ReplayEquality

  /** The position a sample was taken at. */
  datatype Key = Key(stream: Option<StreamId>, seqNo: int)

  /** `actual` is missing where the replay never reached the position. */
  datatype Mismatch = Mismatch(atMs: int, expected: Hash, actual: Option<Hash>)

  datatype VerifyResult = VerifyResult(checked: nat, matched: nat, mismatches: seq<Mismatch>)

  predicate IsTarget(t: Row) {
    t.SnapshotRow? && t.seqNo.Some?
  }

  function KeyOf(t: Row): Key
    requires IsTarget(t)
  {
    Key(t.stream, t.seqNo.value)
  }

  // ---------------------------------------------------------------------------
  // Specification
  // ---------------------------------------------------------------------------

  predicate ReachedAt(h: Hook, key: Key) {
    h.Reached? && h.seqNo == Some(key.seqNo) && h.stream == key.stream
  }

  /** The book's hash when the replay first reached a position. */
  ghost function HashAt(hooks: seq<Hook>, key: Key): Option<Hash> {
    if hooks == [] then None
    else
      var earlier, last := HashAt(hooks[..|hooks| - 1], key), hooks[|hooks| - 1];
      if earlier.Some? then earlier
      else if ReachedAt(last, key) then Some(LaddersHash(last.book.ticker, last.book.ladders))
      else None
  }

  ghost predicate Matches(t: Row, hooks: seq<Hook>)
    requires IsTarget(t)
  {
    HashAt(hooks, KeyOf(t)) == Some(t.hash)
  }

  function Plus(a: VerifyResult, b: VerifyResult): VerifyResult {
    VerifyResult(a.checked + b.checked, a.matched + b.matched, a.mismatches + b.mismatches)
  }

  ghost function Verdict(t: Row, hooks: seq<Hook>): VerifyResult
    requires IsTarget(t)
  {
    if Matches(t, hooks) then VerifyResult(1, 1, [])
    else VerifyResult(1, 0, [Mismatch(t.atMs, t.hash, HashAt(hooks, KeyOf(t)))])
  }

  /** Verdicts on the targets whose position is in `keys`. */
  ghost function Tally(targets: seq<Row>, keys: set<Key>, hooks: seq<Hook>): VerifyResult
    requires forall i | 0 <= i < |targets| :: IsTarget(targets[i])
  {
    if targets == [] then VerifyResult(0, 0, [])
    else
      var r, t := Tally(targets[..|targets| - 1], keys, hooks), targets[|targets| - 1];
      assert IsTarget(t);
      if KeyOf(t) in keys then Plus(r, Verdict(t, hooks)) else r
  }

  /** The same verdicts, mismatches in any order. */
  ghost predicate SameVerdicts(a: VerifyResult, b: VerifyResult) {
    a.checked == b.checked && a.matched == b.matched && multiset(a.mismatches) == multiset(b.mismatches)
  }

  function KeysOf(targets: seq<Row>): set<Key>
    requires forall i | 0 <= i < |targets| :: IsTarget(targets[i])
  {
    set i | 0 <= i < |targets| :: KeyOf(targets[i])
  }

  function AtKey(targets: seq<Row>, key: Key): seq<Row>
    requires forall i | 0 <= i < |targets| :: IsTarget(targets[i])
  {
    if targets == [] then []
    else
      var t := targets[|targets| - 1];
      assert IsTarget(t);
      AtKey(targets[..|targets| - 1], key) + (if KeyOf(t) == key then [t] else [])
  }

  // ---------------------------------------------------------------------------
  // Tallies of disjoint positions add up
  // ---------------------------------------------------------------------------

  lemma {:induction false} TallyAdds(targets: seq<Row>, keys: set<Key>, key: Key, hooks: seq<Hook>)
    requires (forall i | 0 <= i < |targets| :: IsTarget(targets[i])) && key !in keys
    ensures SameVerdicts(Tally(targets, keys + {key}, hooks),
        Plus(Tally(targets, keys, hooks), Tally(targets, {key}, hooks)))
  {
    hide Matches, HashAt;
    if targets != [] {
      var init, t := targets[..|targets| - 1], targets[|targets| - 1];
      TallyAdds(init, keys, key, hooks);
      assert IsTarget(t);
      var a, b, c := Tally(init, keys, hooks), Tally(init, {key}, hooks), Tally(init, keys + {key}, hooks);
      hide Tally;
      TallyNext(targets, keys, hooks);
      TallyNext(targets, {key}, hooks);
      TallyNext(targets, keys + {key}, hooks);
      assert KeyOf(t) in keys + {key} <==> KeyOf(t) in keys || KeyOf(t) in {key};
      assert !(KeyOf(t) in keys && KeyOf(t) in {key});
    }
  }

  lemma TallyNext(targets: seq<Row>, keys: set<Key>, hooks: seq<Hook>)
    requires targets != [] && forall i | 0 <= i < |targets| :: IsTarget(targets[i])
    ensures var t, r := targets[|targets| - 1], Tally(targets[..|targets| - 1], keys, hooks);
      && IsTarget(t)
      && Tally(targets, keys, hooks) == if KeyOf(t) in keys then Plus(r, Verdict(t, hooks)) else r
  {
    assert IsTarget(targets[|targets| - 1]);
  }

  lemma {:induction false} TallyOfOneKey(targets: seq<Row>, key: Key, hooks: seq<Hook>)
    requires forall i | 0 <= i < |targets| :: IsTarget(targets[i])
    ensures forall i | 0 <= i < |AtKey(targets, key)| ::
      IsTarget(AtKey(targets, key)[i]) && KeyOf(AtKey(targets, key)[i]) == key
    ensures Tally(AtKey(targets, key), {key}, hooks) == Tally(targets, {key}, hooks)
  {
    if targets != [] {
      var t := targets[|targets| - 1];
      assert IsTarget(t);
      TallyOfOneKey(targets[..|targets| - 1], key, hooks);
      var init := AtKey(targets[..|targets| - 1], key);
      if KeyOf(t) == key {
        assert (init + [t])[..|init|] == init;
      } else {
        assert AtKey(targets, key) == init;
      }
    }
  }

  lemma {:induction false} TallyOfNone(targets: seq<Row>, hooks: seq<Hook>)
    requires forall i | 0 <= i < |targets| :: IsTarget(targets[i])
    ensures Tally(targets, {}, hooks) == VerifyResult(0, 0, [])
  {
    if targets != [] {
      assert IsTarget(targets[|targets| - 1]);
      TallyOfNone(targets[..|targets| - 1], hooks);
    }
  }

  /** Every target is checked exactly once, whatever the replay did. */
  lemma {:induction false} EveryTargetCheckedOnce(targets: seq<Row>, keys: set<Key>, hooks: seq<Hook>)
    requires forall i | 0 <= i < |targets| :: IsTarget(targets[i]) && KeyOf(targets[i]) in keys
    ensures Tally(targets, keys, hooks).checked == |targets|
    ensures Tally(targets, keys, hooks).matched + |Tally(targets, keys, hooks).mismatches| == |targets|
  {
    if targets != [] {
      assert IsTarget(targets[|targets| - 1]);
      EveryTargetCheckedOnce(targets[..|targets| - 1], keys, hooks);
    }
  }

  // ---------------------------------------------------------------------------
  // Books along a replay are sound
  // ---------------------------------------------------------------------------

  ghost predicate HookBookOk(h: Hook, m: Ticker) {
    h.book.ticker == m && NoZeros(h.book.ladders)
  }

  ghost predicate BooksOk(p: Playback, m: Ticker) {
    && p.book.ticker == m && NoZeros(p.book.ladders)
    && forall i | 0 <= i < |p.report.hooks| :: HookBookOk(p.report.hooks[i], m)
  }

  lemma ReseedingBooksOk(p: Playback, snap: Row, m: Ticker, inLoop: bool)
    requires snap.SnapshotRow? && BooksOk(p, m)
    ensures BooksOk(Reseeded(p, snap, m, inLoop), m)
  {
    hide Counting, NewEpoch;
    assert NoZeros(BookFromSnapshot(m, snap).ladders) && BookFromSnapshot(m, snap).ticker == m;
  }

  lemma PlayingBooksOk(p: Playback, d: Row, o: Options, m: Ticker)
    requires IsDelta(d) && BooksOk(p, m)
    ensures BooksOk(Played(p, d, o), m)
  {
    UnapplyRestores(p.book.ladders, d.change);
    hide Counting, Trimmed, NoZeros, Folded;
  }

  lemma {:induction false} CatchingUpBooksOk(p: Playback, snaps: seq<Row>, d: Row, order: map<StreamId, nat>, m: Ticker)
    requires (forall i | 0 <= i < |snaps| :: snaps[i].SnapshotRow?) && IsDelta(d) && BooksOk(p, m)
    ensures BooksOk(CaughtUp(p, snaps, d, order, m), m)
    decreases |snaps| - p.next
  {
    hide Reseeded, BooksOk, SnapshotPrecedes;
    if p.next < |snaps| && SnapshotPrecedes(snaps[p.next], d, order) {
      ReseedingBooksOk(p, snaps[p.next], m, true);
      ReseedingKeeps(p, snaps[p.next], m, true);
      CatchingUpBooksOk(Reseeded(p, snaps[p.next], m, true), snaps, d, order, m);
    }
  }

  lemma {:induction false} LoopingBooksOk(o: Options, a: Answers, n: nat)
    requires WellTyped(a) && a.seed.Some? && n <= |a.deltas|
    ensures BooksOk(Looped(Seeded(o, a), o, a, n), o.ticker)
  {
    if n == 0 {
    } else {
      LoopingBooksOk(o, a, n - 1);
      var p, d, order := Looped(Seeded(o, a), o, a, n - 1), a.deltas[n - 1], StreamOrder(a.deltas);
      EveryStreamOrdered(a.deltas, n - 1);
      var q := p.(onTarget := p.onTarget || (o.toSeq.Some? && OnTargetStream(d, o)));
      assert BooksOk(q, o.ticker);
      CatchingUpBooksOk(q, a.snapshots, d, order, o.ticker);
      hide Looped, CaughtUp;
      PlayingBooksOk(CaughtUp(q, a.snapshots, d, order, o.ticker), d, o, o.ticker);
    }
  }

  lemma {:induction false} DrainingBooksOk(p: Playback, snaps: seq<Row>, o: Options)
    requires (forall i | 0 <= i < |snaps| :: snaps[i].SnapshotRow?) && BooksOk(p, o.ticker)
    ensures BooksOk(Drained(p, snaps, o), o.ticker)
    decreases |snaps| - p.next
  {
    hide Reseeded, BooksOk;
    if p.next < |snaps| && snaps[p.next].atMs <= o.toMs {
      ReseedingBooksOk(p, snaps[p.next], o.ticker, false);
      ReseedingKeeps(p, snaps[p.next], o.ticker, false);
      DrainingBooksOk(Reseeded(p, snaps[p.next], o.ticker, false), snaps, o);
    }
  }

  lemma ReplayBooksOk(o: Options, a: Answers)
    requires WellTyped(a)
    ensures forall i | 0 <= i < |ReplayOf(o, a).report.hooks| :: HookBookOk(ReplayOf(o, a).report.hooks[i], o.ticker)
  {
    if a.seed.Some? {
      hide Looped, Drained;
      LoopingBooksOk(o, a, |a.deltas|);
      DrainingBooksOk(AfterDeltas(o, a), a.snapshots, o);
    }
  }

  // ---------------------------------------------------------------------------
  // The check itself
  // ---------------------------------------------------------------------------

  method HashOf(b: BookData) returns (h: Hash)
    requires NoZeros(b.ladders)
    ensures h == LaddersHash(b.ticker, b.ladders)
  {
    var yesEntries := Entries(b.ladders.yes);
    var noEntries := Entries(b.ladders.no);
    var yes := CanonicalLevels(yesEntries);
    var no := CanonicalLevels(noEntries);
    h := HashBookState(b.ticker, yes, no);
  }

  /** Targets by position; `keys` is the order in which positions were first listed. */
  method IndexByPosition(targets: seq<Row>) returns (byPosition: map<Key, seq<Row>>, keys: seq<Key>)
    requires forall i | 0 <= i < |targets| :: IsTarget(targets[i])
    ensures byPosition.Keys == KeysOf(targets)
    ensures forall key | key in byPosition :: byPosition[key] == AtKey(targets, key)
    ensures (forall key :: key in keys <==> key in byPosition)
    ensures forall i, j | 0 <= i < j < |keys| :: keys[i] != keys[j]
  {
    hide KeysOf, AtKey;
    byPosition, keys := map[], [];
    NothingIndexed();
    assert targets[..0] == [];
    for i := 0 to |targets|
      invariant Indexed(byPosition, keys, targets[..i])
    {
      assert IsTarget(targets[i]);
      var key := KeyOf(targets[i]);
      OneMoreIndexed(byPosition, keys, targets, i);
      hide Indexed;
      if key !in byPosition {
        keys := keys + [key];
      }
      byPosition := byPosition[key := (if key in byPosition then byPosition[key] else []) + [targets[i]]];
    }
    assert targets[..|targets|] == targets;
  }

  ghost predicate Indexed(byPosition: map<Key, seq<Row>>, keys: seq<Key>, targets: seq<Row>)
    requires forall i | 0 <= i < |targets| :: IsTarget(targets[i])
  {
    && byPosition.Keys == KeysOf(targets)
    && (forall key :: key !in byPosition ==> AtKey(targets, key) == [])
    && (forall key | key in byPosition :: byPosition[key] == AtKey(targets, key))
    && (forall key :: key in keys <==> key in byPosition)
    && (forall x, y | 0 <= x < y < |keys| :: keys[x] != keys[y])
  }

  lemma NothingIndexed()
    ensures Indexed(map[], [], [])
  {
  }

  lemma OneMoreIndexed(byPosition: map<Key, seq<Row>>, keys: seq<Key>, targets: seq<Row>, i: nat)
    requires i < |targets| && (forall k | 0 <= k < |targets| :: IsTarget(targets[k]))
    requires Indexed(byPosition, keys, targets[..i])
    ensures IsTarget(targets[i])
    ensures var key := KeyOf(targets[i]);
      Indexed(byPosition[key := (if key in byPosition then byPosition[key] else []) + [targets[i]]],
              if key in byPosition then keys else keys + [key], targets[..i + 1])
  {
    OneMoreTarget(targets, i);
    hide KeysOf, AtKey;
  }

  lemma OneMoreTarget(targets: seq<Row>, i: nat)
    requires i < |targets| && forall k | 0 <= k < |targets| :: IsTarget(targets[k])
    ensures IsTarget(targets[i]) && KeysOf(targets[..i + 1]) == KeysOf(targets[..i]) + {KeyOf(targets[i])}
    ensures forall key :: AtKey(targets[..i + 1], key)
                       == AtKey(targets[..i], key) + (if KeyOf(targets[i]) == key then [targets[i]] else [])
  {
    assert targets[..i + 1][..i] == targets[..i];
    assert IsTarget(targets[i]);
    var more := targets[..i + 1];
    assert more[i] == targets[i];
    forall key | key in KeysOf(targets[..i]) + {KeyOf(targets[i])} ensures key in KeysOf(more) {
      if key in KeysOf(targets[..i]) {
        var k :| 0 <= k < i && KeyOf(targets[..i][k]) == key;
        assert more[k] == targets[k];
      }
    }
    forall key | key in KeysOf(more) ensures key in KeysOf(targets[..i]) + {KeyOf(targets[i])} {
      var k :| 0 <= k < i + 1 && KeyOf(more[k]) == key;
      assert k < i ==> targets[..i][k] == more[k];
    }
  }

  /** Judges the targets of one position. */
  method Judge(hits: seq<Row>, key: Key, actual: Option<Hash>, ghost hooks: seq<Hook>) returns (r: VerifyResult)
    requires forall i | 0 <= i < |hits| :: IsTarget(hits[i]) && KeyOf(hits[i]) == key
    requires actual == HashAt(hooks, key)
    ensures r == Tally(hits, {key}, hooks)
  {
    hide HashAt;
    r := VerifyResult(0, 0, []);
    for i := 0 to |hits|
      invariant r == Tally(hits[..i], {key}, hooks)
    {
      assert hits[..i + 1][..i] == hits[..i];
      var t := hits[i];
      r := r.(checked := r.checked + 1);
      if actual == Some(t.hash) {
        r := r.(matched := r.matched + 1);
      } else {
        r := r.(mismatches := r.mismatches + [Mismatch(t.atMs, t.hash, actual)]);
      }
    }
    assert hits[..|hits|] == hits;
  }

  lemma HashAtNext(hooks: seq<Hook>, i: nat)
    requires i < |hooks|
    ensures forall key ::
      (HashAt(hooks[..i + 1], key) ==
       if HashAt(hooks[..i], key).Some? then HashAt(hooks[..i], key)
       else if ReachedAt(hooks[i], key) then Some(LaddersHash(hooks[i].book.ticker, hooks[i].book.ladders))
       else None)
  {
    assert hooks[..i + 1][..i] == hooks[..i];
  }

  lemma {:induction false} HashAtIsFinal(hooks: seq<Hook>, key: Key, i: nat, n: nat)
    requires i <= n <= |hooks| && HashAt(hooks[..i], key).Some?
    ensures HashAt(hooks[..n], key) == HashAt(hooks[..i], key)
  {
    if i < n {
      HashAtIsFinal(hooks, key, i, n - 1);
      HashAtNext(hooks, n - 1);
    }
  }

  /** The positions seen are the target positions already reached. */
  ghost predicate SeenAre(seen: set<Key>, all: set<Key>, hooks: seq<Hook>) {
    && seen <= all
    && forall key | key in all :: key in seen <==> HashAt(hooks, key).Some?
  }

  function KeySet(keys: seq<Key>): set<Key> {
    set key | key in keys
  }

  lemma KeySetNext(keys: seq<Key>, i: nat)
    requires i < |keys|
    ensures KeySet(keys[..i + 1]) == KeySet(keys[..i]) + {keys[i]}
  {
    assert keys[..i + 1] == keys[..i] + [keys[i]];
  }

  lemma SameVerdictsPlus(a: VerifyResult, b: VerifyResult, more: VerifyResult, c: VerifyResult)
    requires SameVerdicts(a, b) && SameVerdicts(c, Plus(b, more))
    ensures SameVerdicts(Plus(a, more), c)
  {
  }

  /** Judges the targets of one position and adds the verdicts to those so far. */
  method CheckPosition(targets: seq<Row>, hits: seq<Row>, key: Key, actual: Option<Hash>, out: VerifyResult,
                       ghost checked: set<Key>, ghost hooks: seq<Hook>) returns (out': VerifyResult)
    requires (forall i | 0 <= i < |targets| :: IsTarget(targets[i])) && hits == AtKey(targets, key)
    requires actual == HashAt(hooks, key) && key !in checked
    requires SameVerdicts(out, Tally(targets, checked, hooks))
    ensures SameVerdicts(out', Tally(targets, checked + {key}, hooks))
  {
    hide Tally, AtKey, HashAt, SameVerdicts;
    TallyOfOneKey(targets, key, hooks);
    var r := Judge(hits, key, actual, hooks);
    TallyAdds(targets, checked, key, hooks);
    SameVerdictsPlus(out, Tally(targets, checked, hooks), r, Tally(targets, checked + {key}, hooks));
    out' := Plus(out, r);
  }

  /** One forward pass over the replay, then the positions it never reached. */
  method VerifyReplay(o: Options, a: Answers, targets: seq<Row>) returns (out: VerifyResult)
    requires WellTyped(a) && forall i | 0 <= i < |targets| :: IsTarget(targets[i])
    ensures SameVerdicts(out, Tally(targets, KeysOf(targets), ReplayOf(o, a).report.hooks))
  {
    hide Tally, AtKey, ReplayOf, LaddersHash, HashAt, SameVerdicts, KeysOf;
    ghost var hooks, all := ReplayOf(o, a).report.hooks, KeysOf(targets);
    out := VerifyResult(0, 0, []);
    NothingChecked(targets, hooks);
    if |targets| == 0 {
      return;
    }
    var byPosition, keys := IndexByPosition(targets);
    var replayed := Replay(o, a);
    ReplayBooksOk(o, a);
    var seen: set<Key> := {};
    for i := 0 to |replayed.report.hooks|
      invariant SeenAre(seen, all, hooks[..i])
      invariant SameVerdicts(out, Tally(targets, seen, hooks))
    {
      var h := replayed.report.hooks[i];
      HashAtNext(hooks, i);
      if h.Reached? && h.seqNo.Some? {
        var key := Key(h.stream, h.seqNo.value);
        if key in byPosition && key !in seen {
          assert HookBookOk(h, o.ticker);
          var actual := HashOf(h.book);
          assert hooks[..|hooks|] == hooks;
          HashAtIsFinal(hooks, key, i + 1, |hooks|);
          out := CheckPosition(targets, byPosition[key], key, Some(actual), out, seen, hooks);
          seen := seen + {key};
        }
      }
    }
    assert hooks[..|hooks|] == hooks;
    ghost var checked := seen;
    for i := 0 to |keys|
      invariant checked == seen + KeySet(keys[..i])
      invariant SameVerdicts(out, Tally(targets, checked, hooks))
    {
      var key := keys[i];
      KeySetNext(keys, i);
      if key !in seen {
        assert key !in KeySet(keys[..i]);
        out := CheckPosition(targets, byPosition[key], key, None, out, checked, hooks);
        checked := checked + {key};
      }
    }
    assert keys[..|keys|] == keys;
    assert checked == all;
  }

  lemma NothingChecked(targets: seq<Row>, hooks: seq<Hook>)
    requires forall i | 0 <= i < |targets| :: IsTarget(targets[i])
    ensures SameVerdicts(VerifyResult(0, 0, []), Tally(targets, {}, hooks))
    ensures forall key :: HashAt(hooks[..0], key).None?
    ensures |targets| == 0 ==> KeysOf(targets) == {}
  {
    TallyOfNone(targets, hooks);
  }

  // ---------------------------------------------------------------------------
  // Verification is complete
  // ---------------------------------------------------------------------------

  /** The samples of the window in time order, the first `limit` of them. */
  ghost predicate TargetsAnswered(rows: seq<Row>, o: Options, limit: nat, targets: seq<Row>) {
    exists all: seq<Row> :: TargetsFrom(all, rows, o, limit, targets)
  }

  ghost predicate TargetsFrom(all: seq<Row>, rows: seq<Row>, o: Options, limit: nat, targets: seq<Row>) {
    && multiset(all) == multiset(Select(rows, SamplesOf(o.ticker, o.fromMs, o.toMs)))
    && Sorted(all, EarlierMs)
    && targets == all[..Min(limit, |all|)]
  }

  /** The recorded change a reached position came from. */
  ghost predicate CameFrom(s: Setting, at: Position, c: nat) {
    && c < |s.rows| && Changes(s.rows[c], s.o.ticker)
    && at.stream == s.rows[c].stream && at.seqNo == s.rows[c].seqNo
    && at.ladders == BookAfter(s.rows[..c + 1], s.o.ticker)
  }

  lemma {:induction false} ExpectedCameFrom(s: Setting, i: nat, x: nat) returns (c: nat)
    requires i <= |s.rows| && x < |Expected(s, i)|
    ensures CameFrom(s, Expected(s, i)[x], c)
  {
    if x < |Expected(s, i - 1)| {
      c := ExpectedCameFrom(s, i - 1, x);
    } else {
      c := i - 1;
    }
  }

  lemma {:induction false} ExpectedHas(s: Setting, i: nat, c: nat) returns (x: nat)
    requires s.k < c < i <= |s.rows| && Changes(s.rows[c], s.o.ticker) && s.rows[c].atMs <= s.o.toMs
    ensures x < |Expected(s, i)| && Expected(s, i)[x] == PositionOf(s.rows[c], BookAfter(s.rows[..c + 1], s.o.ticker))
  {
    if c == i - 1 {
      x := |Expected(s, i - 1)|;
    } else {
      x := ExpectedHas(s, i - 1, c);
    }
  }

  lemma {:induction false} HashOfPosition(hooks: seq<Hook>, key: Key, m: Ticker, x: nat) returns (y: nat)
    requires forall i | 0 <= i < |hooks| :: HookBookOk(hooks[i], m)
    requires x < |Positions(hooks)| && Positions(hooks)[x].stream == key.stream &&
        Positions(hooks)[x].seqNo == Some(key.seqNo)
    ensures y < |Positions(hooks)| && Positions(hooks)[y].stream == key.stream &&
        Positions(hooks)[y].seqNo == Some(key.seqNo)
    ensures HashAt(hooks, key) == Some(LaddersHash(m, Positions(hooks)[y].ladders))
  {
    var n := |hooks| - 1;
    var init := hooks[..n];
    assert HookBookOk(hooks[n], m);
    if HashAt(init, key).Some? {
      var z := SomePosition(init, key);
      assert forall i | 0 <= i < n :: init[i] == hooks[i];
      y := HashOfPosition(init, key, m, z);
    } else if x < |Positions(init)| {
      assert forall i | 0 <= i < n :: init[i] == hooks[i];
      y := HashOfPosition(init, key, m, x);
    } else {
      y := x;
    }
  }

  lemma {:induction false} SomePosition(hooks: seq<Hook>, key: Key) returns (x: nat)
    requires HashAt(hooks, key).Some?
    ensures x < |Positions(hooks)| && Positions(hooks)[x].stream == key.stream &&
        Positions(hooks)[x].seqNo == Some(key.seqNo)
  {
    var init := hooks[..|hooks| - 1];
    if HashAt(init, key).Some? {
      x := SomePosition(init, key);
    } else {
      x := |Positions(init)|;
    }
  }

  /** A stream and a sequence number name one recorded change. */
  lemma PositionIsUnique(s: Setting, c: nat, d: nat)
    requires Sound(s) && c < |s.rows| && d < |s.rows|
    requires Changes(s.rows[c], s.o.ticker) && Changes(s.rows[d], s.o.ticker)
    requires s.rows[c].stream == s.rows[d].stream && s.rows[c].seqNo == s.rows[d].seqNo
    ensures c == d
  {
    if c < d {
      WrittenInOrder(s, c, d);
    } else if d < c {
      WrittenInOrder(s, d, c);
    }
  }

  /** The change a sample of the window repeats is reached: it is the seed's own, or it comes after. */
  lemma SampleIsReached(s: Setting, t: nat, c: nat) returns (x: nat)
    requires Sound(s) && Ready(s) && t < |s.rows| && Selects(SamplesOf(s.o.ticker, s.o.fromMs, s.o.toMs), s.rows[t])
    requires c < t && Changes(s.rows[c], s.o.ticker) && forall i | c < i < t :: !Changes(s.rows[i], s.o.ticker)
    requires s.rows[c].stream == s.rows[t].stream && s.rows[c].seqNo == s.rows[t].seqNo
    ensures var reached := [SeedPosition(s)] + Expected(s, |s.rows|);
      x < |reached| && reached[x].stream == s.rows[t].stream && reached[x].seqNo == s.rows[t].seqNo
  {
    hide AllFaithful, Select, BookAfter;
    WrittenInOrder(s, c, t);
    if c > s.k {
      var y := ExpectedHas(s, |s.rows|, c);
      x := y + 1;
    } else {
      x := 0;
      var c0 := SeedOrigin(s);
      if c < c0 {
        assert t < s.k;
        WrittenInOrder(s, t, s.k);
        assert s.rows[t].atMs == s.rows[s.k].atMs;
        PositionIsUnique(s, c, c0);
      } else {
        assert c == c0;
      }
    }
  }

  /** The change a sample repeats, and the book it must show. */
  lemma SampleSource(s: Setting, t: nat) returns (c: nat)
    requires Sound(s) && t < |s.rows| && Selects(SamplesOf(s.o.ticker, s.o.fromMs, s.o.toMs), s.rows[t])
    ensures c < t && Changes(s.rows[c], s.o.ticker) && forall i | c < i < t :: !Changes(s.rows[i], s.o.ticker)
    ensures s.rows[c].stream == s.rows[t].stream && s.rows[c].seqNo == s.rows[t].seqNo
    ensures s.rows[t].hash == LaddersHash(s.o.ticker, BookAfter(s.rows[..c + 1], s.o.ticker))
  {
    hide Orderly, Answered, LaddersHash, Load;
    var m, rows := s.o.ticker, s.rows;
    assert FaithfulAt(rows, t, m);
    c := LastChangeIndex(rows[..t], m);
    assert forall i | c < i < t :: rows[i] == rows[..t][i];
    QuietKeepsBook(rows, m, c + 1, t);
  }

  /** Every sample of the window matches the book the replay had when it first reached its position. */
  lemma SampleMatches(s: Setting, t: nat)
    requires Sound(s) && Ready(s) && t < |s.rows| && Selects(SamplesOf(s.o.ticker, s.o.fromMs, s.o.toMs), s.rows[t])
    ensures Matches(s.rows[t], ReplayOf(s.o, s.a).report.hooks)
  {
    hide Sound, ReplayOf, LaddersHash, BookAfter, Expected, InTime, SeedPosition, HookBookOk, Positions, HashAt, Select;
    var m, sample := s.o.ticker, s.rows[t];
    var hooks := ReplayOf(s.o, s.a).report.hooks;
    var c := SampleSource(s, t);
    ReplayShowsTheRows(s);
    ReplayBooksOk(s.o, s.a);
    var x := SampleIsReached(s, t, c);
    var y := HashOfPosition(hooks, KeyOf(sample), m, x);
    var d := ReachedCameFrom(s, y);
    PositionIsUnique(s, c, d);
  }

  lemma ReachedCameFrom(s: Setting, y: nat) returns (d: nat)
    requires Sound(s) && Ready(s) && y < |[SeedPosition(s)] + Expected(s, |s.rows|)|
    ensures CameFrom(s, ([SeedPosition(s)] + Expected(s, |s.rows|))[y], d)
  {
    hide Sound, Select, BookAfter, Expected;
    if y == 0 {
      d := SeedOrigin(s);
    } else {
      d := ExpectedCameFrom(s, |s.rows|, y - 1);
    }
  }

  lemma {:induction false} AllMatched(targets: seq<Row>, keys: set<Key>, hooks: seq<Hook>)
    requires forall i | 0 <= i < |targets| ::
      IsTarget(targets[i]) && KeyOf(targets[i]) in keys && Matches(targets[i], hooks)
    ensures Tally(targets, keys, hooks) == VerifyResult(|targets|, |targets|, [])
  {
    hide Matches;
    if targets != [] {
      assert IsTarget(targets[|targets| - 1]);
      AllMatched(targets[..|targets| - 1], keys, hooks);
    }
  }

  lemma TargetsAreSelected(rows: seq<Row>, o: Options, limit: nat, targets: seq<Row>, i: nat) returns (t: nat)
    requires TargetsAnswered(rows, o, limit, targets) && i < |targets|
    ensures t < |rows| && rows[t] == targets[i] && Selects(SamplesOf(o.ticker, o.fromMs, o.toMs), rows[t])
  {
    var q := SamplesOf(o.ticker, o.fromMs, o.toMs);
    var all: seq<Row> :| TargetsFrom(all, rows, o, limit, targets);
    assert all[i] in multiset(all);
    var j := IndexIn(Select(rows, q), all[i]);
    assert rows[..|rows|] == rows;
    t := SelectIndex(rows, q, |rows|, j);
  }

  /**
   * Over an orderly run every sample in the window is checked exactly once and matches: no
   * mismatch, and no position the replay never reached. A limit that covers the samples covers
   * them all.
   */
  lemma VerifyReplayIsComplete(start: SessionId, events: seq<Event>, started: map<StreamId, int>,
                               o: Options, a: Answers, k: Option<nat>, limit: nat, targets: seq<Row>)
    requires LegalRun(start, events) && o.toSeq.None?
    requires Orderly(Run(start, events).rows, o.ticker, started)
    requires Answered(Run(start, events).rows, started, o, a, k)
    requires k.None? ==> WellTyped(a)
    requires TargetsAnswered(Run(start, events).rows, o, limit, targets)
    ensures WellTyped(a) && forall i | 0 <= i < |targets| :: IsTarget(targets[i])
    ensures Tally(targets, KeysOf(targets), ReplayOf(o, a).report.hooks) == VerifyResult(|targets|, |targets|, [])
    ensures var samples := Select(Run(start, events).rows, SamplesOf(o.ticker, o.fromMs, o.toMs));
      limit >= |samples| ==> |targets| == |samples|
  {
    hide AllFaithful, Orderly, Answered, TargetsAnswered, ReplayOf, Run, LegalRun, Select, Sound, Tally;
    var rows := Run(start, events).rows;
    EveryTargetIsGiven(rows, o, limit, targets);
    if k.Some? {
      RunIsSound(start, events, started, o, a, k.value);
      SoundIsReady(Setting(rows, started, o, a, k.value));
    }
    forall i | 0 <= i < |targets|
      ensures IsTarget(targets[i]) && Matches(targets[i], ReplayOf(o, a).report.hooks)
    {
      var t := TargetsAreSelected(rows, o, limit, targets, i);
      SampleHasSeed(rows, started, o, a, k, t);
      SampleMatches(Setting(rows, started, o, a, k.value), t);
    }
    assert forall i | 0 <= i < |targets| :: KeyOf(targets[i]) in KeysOf(targets);
    AllMatched(targets, KeysOf(targets), ReplayOf(o, a).report.hooks);
  }

  /** No target is left out unless the limit says so. */
  lemma EveryTargetIsGiven(rows: seq<Row>, o: Options, limit: nat, targets: seq<Row>)
    requires TargetsAnswered(rows, o, limit, targets)
    ensures limit >= |Select(rows, SamplesOf(o.ticker, o.fromMs, o.toMs))| ==>
      |targets| == |Select(rows, SamplesOf(o.ticker, o.fromMs, o.toMs))|
  {
    hide Select;
    var q := SamplesOf(o.ticker, o.fromMs, o.toMs);
    var all: seq<Row> :| TargetsFrom(all, rows, o, limit, targets);
    assert |all| == |multiset(all)| == |multiset(Select(rows, q))| == |Select(rows, q)|;
  }

  /** A sample in the window is a candidate seed itself. */
  lemma SampleHasSeed(rows: seq<Row>, started: map<StreamId, int>, o: Options, a: Answers, k: Option<nat>, t: nat)
    requires t < |rows| && Selects(SamplesOf(o.ticker, o.fromMs, o.toMs), rows[t])
    requires Answered(rows, started, o, a, k)
    ensures k.Some?
  {
    assert CanSeed(rows[t], o.ticker);
  }
}
