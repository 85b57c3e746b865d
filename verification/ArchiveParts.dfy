/** How a partition of raw events is cut into archive parts (src/persistence/archive.ts). */
module ArchiveParts {
  import opened Values
  import opened Ordering
  import opened Statements

  const ROWS_PER_PART := 50_000
  const FETCH_CHUNK := 10_000
  const HOUR_MS := 3_600_000

  datatype RawRow = RawRow(
    id: int, session: SessionId, stream: Option<StreamId>, ordinal: Option<int>, receivedAtMs: int,
    channel: Option<string>, payload: string)

  /** One part holds rows of one channel and one hour. */
  datatype Group = Group(channel: Option<string>, hour: int)

  function GroupOf(r: RawRow): Group {
    Group(r.channel, r.receivedAtMs / HOUR_MS)
  }

  /** A partition: ids are unique and positive, and rows are listed by id. */
  ghost predicate ById(rows: seq<RawRow>) {
    && (forall i | 0 <= i < |rows| :: rows[i].id > 0)
    && (forall i, j | 0 <= i < j < |rows| :: rows[i].id < rows[j].id)
  }

  function GroupRows(rows: seq<RawRow>, g: Group): seq<RawRow> {
    if rows == [] then []
    else GroupRows(rows[..|rows| - 1], g) + (if GroupOf(rows[|rows| - 1]) == g then [rows[|rows| - 1]] else [])
  }

  /** Rows after a cursor. */
  function After(rows: seq<RawRow>, cursor: int): seq<RawRow> {
    if rows == [] then []
    else After(rows[..|rows| - 1], cursor) + (if rows[|rows| - 1].id > cursor then [rows[|rows| - 1]] else [])
  }

  /** WHERE group AND id > cursor ORDER BY id LIMIT n. */
  function Page(rows: seq<RawRow>, g: Group, cursor: int, n: nat): seq<RawRow> {
    var rest := After(GroupRows(rows, g), cursor);
    rest[..if n < |rest| then n else |rest|]
  }

  // ---------------------------------------------------------------------------
  // Cursors walk a group without gaps or repeats
  // ---------------------------------------------------------------------------

  lemma {:induction false} GroupRowsAre(rows: seq<RawRow>, g: Group)
    requires ById(rows)
    ensures ById(GroupRows(rows, g))
    ensures forall r :: r in GroupRows(rows, g) <==> r in rows && GroupOf(r) == g
  {
    if rows != [] {
      var init, last := rows[..|rows| - 1], rows[|rows| - 1];
      GroupRowsAre(init, g);
      assert rows == init + [last];
      forall i | 0 <= i < |GroupRows(init, g)| ensures GroupRows(init, g)[i].id < last.id {
        assert GroupRows(init, g)[i] in init;
      }
    }
  }

  /** Past the last row of a prefix lies exactly the rest. */
  lemma {:induction false} AfterPrefix(rows: seq<RawRow>, n: nat)
    requires ById(rows) && n <= |rows|
    ensures After(rows, if n == 0 then 0 else rows[n - 1].id) == rows[n..]
  {
    var cursor := if n == 0 then 0 else rows[n - 1].id;
    if n == |rows| {
      NoneAfter(rows, cursor);
    } else {
      var init := rows[..|rows| - 1];
      AfterPrefix(init, n);
      assert rows[n..] == init[n..] + [rows[|rows| - 1]];
    }
  }

  lemma {:induction false} NoneAfter(rows: seq<RawRow>, cursor: int)
    requires forall i | 0 <= i < |rows| :: rows[i].id <= cursor
    ensures After(rows, cursor) == []
  {
    if rows != [] {
      NoneAfter(rows[..|rows| - 1], cursor);
    }
  }

  lemma TakeOfDrop<T>(s: seq<T>, n: nat, limit: nat)
    requires n <= |s|
    ensures s[n..][..if limit < |s[n..]| then limit else |s[n..]|] == s[n..Min(n + limit, |s|)]
  {
  }

  /** The page after the first n rows of a group. */
  lemma PageAfterPrefix(rows: seq<RawRow>, g: Group, n: nat, limit: nat)
    requires ById(rows) && n <= |GroupRows(rows, g)|
    ensures var all := GroupRows(rows, g);
      Page(rows, g, if n == 0 then 0 else all[n - 1].id, limit) == all[n..Min(n + limit, |all|)]
  {
    hide GroupRows, After, ById;
    var all := GroupRows(rows, g);
    GroupRowsAre(rows, g);
    AfterPrefix(all, n);
    TakeOfDrop(all, n, limit);
  }

  /** A chunk continues the part where it stands. */
  lemma ChunkJoins<T>(all: seq<T>, n: nat, part: seq<T>, chunk: seq<T>, limit: nat)
    requires n + |part| <= |all| && part == all[n..n + |part|] && chunk != []
    requires chunk == all[n + |part|..Min(n + |part| + limit, |all|)]
    ensures |chunk| <= limit && n + |part| + |chunk| <= |all|
    ensures part + chunk == all[n..n + |part + chunk|] && chunk[|chunk| - 1] == all[n + |part + chunk| - 1]
  {
  }

  /** Streams one part's rows in fetch-sized queries: the same rows one big query would give. */
  method FetchPart(rows: seq<RawRow>, g: Group, afterId: int, ghost n: nat) returns (part: seq<RawRow>)
    requires ById(rows) && n <= |GroupRows(rows, g)|
    requires afterId == if n == 0 then 0 else GroupRows(rows, g)[n - 1].id
    ensures part == GroupRows(rows, g)[n..Min(n + ROWS_PER_PART, |GroupRows(rows, g)|)]
  {
    hide GroupRows, Page, ById;
    ghost var all := GroupRows(rows, g);
    part := [];
    var cursor := afterId;
    while |part| < ROWS_PER_PART
      invariant |part| <= ROWS_PER_PART && n + |part| <= |all| && part == all[n..n + |part|]
      invariant cursor == if n + |part| == 0 then 0 else all[n + |part| - 1].id
      decreases ROWS_PER_PART - |part|
    {
      ghost var at := n + |part|;
      PageAfterPrefix(rows, g, at, Min(FETCH_CHUNK, ROWS_PER_PART - |part|));
      var chunk := Page(rows, g, cursor, Min(FETCH_CHUNK, ROWS_PER_PART - |part|));
      if |chunk| == 0 {
        break;
      }
      ChunkJoins(all, n, part, chunk, Min(FETCH_CHUNK, ROWS_PER_PART - |part|));
      part := part + chunk;
      cursor := chunk[|chunk| - 1].id;
    }
  }

  // ---------------------------------------------------------------------------
  // All parts of a partition
  // ---------------------------------------------------------------------------

  /** A group's rows in part-sized pieces. */
  function Pages(all: seq<RawRow>): (ps: seq<seq<RawRow>>)
    ensures forall i | 0 <= i < |ps| :: 0 < |ps[i]| <= ROWS_PER_PART
    decreases |all|
  {
    if all == [] then []
    else if |all| <= ROWS_PER_PART then [all]
    else [all[..ROWS_PER_PART]] + Pages(all[ROWS_PER_PART..])
  }

  function PartsOf(rows: seq<RawRow>, g: Group): seq<seq<RawRow>> {
    Pages(GroupRows(rows, g))
  }

  lemma {:induction false} JoinedCons<T>(first: seq<T>, rest: seq<seq<T>>)
    ensures Joined([first] + rest) == first + Joined(rest)
  {
    if rest == [] {
      assert [first] + rest == [first];
      assert Joined([first][..0]) == [];
    } else {
      JoinedCons(first, rest[..|rest| - 1]);
      assert ([first] + rest)[..|rest|] == [first] + rest[..|rest| - 1];
    }
  }

  /** The parts of a group are the group, in order. */
  lemma {:induction false} PagesJoin(all: seq<RawRow>)
    ensures Joined(Pages(all)) == all
    decreases |all|
  {
    if all == [] {
    } else if |all| <= ROWS_PER_PART {
      assert Joined([all][..0]) == [];
    } else {
      PagesJoin(all[ROWS_PER_PART..]);
      JoinedCons(all[..ROWS_PER_PART], Pages(all[ROWS_PER_PART..]));
      assert all == all[..ROWS_PER_PART] + all[ROWS_PER_PART..];
    }
  }

  /** The i-th part of a group is where the cursor gets to after i full parts. */
  lemma {:induction false} PageAt(all: seq<RawRow>, n: nat, i: nat)
    requires n == i * ROWS_PER_PART && n <= |all|
    ensures n < |all| ==> i < |Pages(all)| && Pages(all)[i] == all[n..Min(n + ROWS_PER_PART, |all|)]
    ensures |all| <= n + ROWS_PER_PART && n < |all| ==> i == |Pages(all)| - 1
    ensures n == |all| ==> i == |Pages(all)|
    decreases i
  {
    if i == 0 {
      assert all[0..|all|] == all;
    } else {
      PageAt(all[ROWS_PER_PART..], n - ROWS_PER_PART, i - 1);
      if n < |all| {
        assert all[ROWS_PER_PART..][n - ROWS_PER_PART..Min(n, |all| - ROWS_PER_PART)] ==
            all[n..Min(n + ROWS_PER_PART, |all|)];
      }
    }
  }

  /** Groups of the partition, each once. */
  ghost predicate AreGroups(groups: seq<Group>, rows: seq<RawRow>) {
    && (forall i, j | 0 <= i < j < |groups| :: groups[i] != groups[j])
    && (forall r | r in rows :: GroupOf(r) in groups)
  }

  function AllParts(rows: seq<RawRow>, groups: seq<Group>): seq<seq<RawRow>> {
    if groups == [] then []
    else AllParts(rows, groups[..|groups| - 1]) + PartsOf(rows, groups[|groups| - 1])
  }

  lemma {:induction false} JoinedAppend<T>(a: seq<seq<T>>, b: seq<seq<T>>)
    ensures Joined(a + b) == Joined(a) + Joined(b)
  {
    if b == [] {
      assert a + b == a;
    } else {
      JoinedAppend(a, b[..|b| - 1]);
      assert (a + b)[..|a + b| - 1] == a + b[..|b| - 1];
    }
  }

  /** Rows whose group is one of these. */
  function OfGroups(rows: seq<RawRow>, groups: seq<Group>): seq<RawRow> {
    if rows == [] then []
    else
      OfGroups(rows[..|rows| - 1], groups) + (if GroupOf(rows[|rows| - 1]) in groups then [rows[|rows| - 1]] else [])
  }

  lemma {:induction false} OneMoreGroup(rows: seq<RawRow>, groups: seq<Group>, g: Group)
    requires g !in groups
    ensures multiset(OfGroups(rows, groups + [g])) == multiset(OfGroups(rows, groups)) + multiset(GroupRows(rows, g))
  {
    if rows != [] {
      OneMoreGroup(rows[..|rows| - 1], groups, g);
    }
  }

  lemma {:induction false} NoGroups(rows: seq<RawRow>)
    ensures OfGroups(rows, []) == []
  {
    if rows != [] {
      NoGroups(rows[..|rows| - 1]);
    }
  }

  lemma {:induction false} EveryGroup(rows: seq<RawRow>, groups: seq<Group>)
    requires forall r | r in rows :: GroupOf(r) in groups
    ensures OfGroups(rows, groups) == rows
  {
    if rows != [] {
      EveryGroup(rows[..|rows| - 1], groups);
      assert rows == rows[..|rows| - 1] + [rows[|rows| - 1]];
    }
  }

  lemma {:induction false} PartsHoldTheirGroups(rows: seq<RawRow>, groups: seq<Group>)
    requires forall i, j | 0 <= i < j < |groups| :: groups[i] != groups[j]
    ensures multiset(Joined(AllParts(rows, groups))) == multiset(OfGroups(rows, groups))
  {
    if groups == [] {
      NoGroups(rows);
    } else {
      var n := |groups| - 1;
      var init, g := groups[..n], groups[n];
      PartsHoldTheirGroups(rows, init);
      JoinedAppend(AllParts(rows, init), PartsOf(rows, g));
      PagesJoin(GroupRows(rows, g));
      assert groups == init + [g];
      OneMoreGroup(rows, init, g);
    }
  }

  /** Over all groups, in whatever order, the parts hold every row of the partition exactly once. */
  lemma PartsHoldEveryRowOnce(rows: seq<RawRow>, groups: seq<Group>)
    requires AreGroups(groups, rows)
    ensures multiset(Joined(AllParts(rows, groups))) == multiset(rows)
  {
    PartsHoldTheirGroups(rows, groups);
    EveryGroup(rows, groups);
  }

  /** Each part lists rows of one group by ascending id. */
  lemma {:induction false} PartsAscend(rows: seq<RawRow>, groups: seq<Group>, i: nat)
    requires ById(rows) && i < |AllParts(rows, groups)|
    ensures ById(AllParts(rows, groups)[i]) && 0 < |AllParts(rows, groups)[i]| <= ROWS_PER_PART
    ensures exists g :: PartIsOf(AllParts(rows, groups)[i], g)
  {
    var n := |groups| - 1;
    var before := AllParts(rows, groups[..n]);
    if i < |before| {
      PartsAscend(rows, groups[..n], i);
    } else {
      GroupRowsAre(rows, groups[n]);
      PageIsOf(GroupRows(rows, groups[n]), groups[n], i - |before|);
    }
  }

  ghost predicate PartIsOf(part: seq<RawRow>, g: Group) {
    forall r | r in part :: GroupOf(r) == g
  }

  lemma {:induction false} PageIsOf(all: seq<RawRow>, g: Group, i: nat)
    requires ById(all) && PartIsOf(all, g) && i < |Pages(all)|
    ensures ById(Pages(all)[i]) && PartIsOf(Pages(all)[i], g) && forall r | r in Pages(all)[i] :: r in all
    decreases |all|
  {
    if |all| > ROWS_PER_PART && i > 0 {
      PageIsOf(all[ROWS_PER_PART..], g, i - 1);
    }
  }

  /** Every row of the partition lies in a part of its group. */
  lemma RowIsInAPart(rows: seq<RawRow>, r: RawRow) returns (i: nat)
    requires ById(rows) && r in rows
    ensures i < |PartsOf(rows, GroupOf(r))| && r in PartsOf(rows, GroupOf(r))[i]
  {
    GroupRowsAre(rows, GroupOf(r));
    i := RowIsInAPage(GroupRows(rows, GroupOf(r)), r);
  }

  lemma {:induction false} RowIsInAPage(all: seq<RawRow>, r: RawRow) returns (i: nat)
    requires r in all
    ensures i < |Pages(all)| && r in Pages(all)[i]
    decreases |all|
  {
    if |all| <= ROWS_PER_PART || r in all[..ROWS_PER_PART] {
      i := 0;
    } else {
      var j := RowIsInAPage(all[ROWS_PER_PART..], r);
      i := j + 1;
    }
  }

  lemma {:induction false} JoinedPermutation<T>(a: seq<seq<T>>, b: seq<seq<T>>)
    requires multiset(a) == multiset(b)
    ensures multiset(Joined(a)) == multiset(Joined(b))
    decreases |a|
  {
    assert |multiset(a)| == |a| && |multiset(b)| == |b|;
    if a != [] {
      var n := |a| - 1;
      var k := TakeMatch(a, b);
      var left, right := b[..k], b[k + 1..];
      JoinedPermutation(a[..n], left + right);
      hide Joined;
      JoinedAppend(left, right);
      JoinedAppend(left + [a[n]], right);
      JoinedAppend(left, [a[n]]);
      JoinedAppend(a[..n], [a[n]]);
      assert a == a[..n] + [a[n]];
    }
  }

  // ---------------------------------------------------------------------------
  // No part comes twice
  // ---------------------------------------------------------------------------

  ghost predicate NoRepeats<T(!new)>(s: seq<T>) {
    forall i, j | 0 <= i < j < |s| :: s[i] != s[j]
  }

  lemma {:induction false} CountedOnce<T(!new)>(s: seq<T>, x: T)
    requires NoRepeats(s)
    ensures multiset(s)[x] == if x in s then 1 else 0
  {
    if s != [] {
      var n := |s| - 1;
      CountedOnce(s[..n], x);
      assert s == s[..n] + [s[n]];
      assert s[n] !in s[..n];
    }
  }

  /** Lists without repeats that hold the same elements are rearrangements of each other. */
  lemma SameElementsSameBag<T(!new)>(a: seq<T>, b: seq<T>)
    requires NoRepeats(a) && NoRepeats(b) && forall x :: x in a <==> x in b
    ensures multiset(a) == multiset(b)
  {
    forall x ensures multiset(a)[x] == multiset(b)[x] {
      CountedOnce(a, x);
      CountedOnce(b, x);
    }
  }

  /** Where the i-th page starts. */
  lemma {:induction false} PageStarts(all: seq<RawRow>, i: nat)
    requires i < |Pages(all)|
    ensures i * ROWS_PER_PART < |all| && Pages(all)[i][0] == all[i * ROWS_PER_PART]
    decreases i
  {
    if i > 0 {
      PageStarts(all[ROWS_PER_PART..], i - 1);
    }
  }

  /** Two parts of one partition never start with the same row. */
  lemma FirstRowIdentifiesPart(rows: seq<RawRow>, g: Group, i: nat, h: Group, j: nat)
    requires ById(rows) && i < |PartsOf(rows, g)| && j < |PartsOf(rows, h)|
    requires PartsOf(rows, g)[i][0].id == PartsOf(rows, h)[j][0].id
    ensures g == h && i == j
  {
    var a, b := PartsOf(rows, g)[i][0], PartsOf(rows, h)[j][0];
    GroupRowsAre(rows, g);
    GroupRowsAre(rows, h);
    PageStarts(GroupRows(rows, g), i);
    PageStarts(GroupRows(rows, h), j);
    assert a in GroupRows(rows, g) && b in GroupRows(rows, h);
    var x :| 0 <= x < |rows| && rows[x] == a;
    var y :| 0 <= y < |rows| && rows[y] == b;
    assert x == y;
  }

  /** Every part of every group is among all parts, and nothing else is. */
  lemma {:induction false} AllPartsAre(rows: seq<RawRow>, groups: seq<Group>)
    ensures forall k, i | 0 <= k < |groups| && 0 <= i < |PartsOf(rows, groups[k])| ::
      PartsOf(rows, groups[k])[i] in AllParts(rows, groups)
  {
    if groups != [] {
      AllPartsAre(rows, groups[..|groups| - 1]);
    }
  }

  lemma {:induction false} PartComesFrom(rows: seq<RawRow>, groups: seq<Group>, j: nat) returns (k: nat, i: nat)
    requires j < |AllParts(rows, groups)|
    ensures k < |groups| && i < |PartsOf(rows, groups[k])| && AllParts(rows, groups)[j] == PartsOf(rows, groups[k])[i]
  {
    var n := |groups| - 1;
    var before := AllParts(rows, groups[..n]);
    if j < |before| {
      k, i := PartComesFrom(rows, groups[..n], j);
    } else {
      k, i := n, j - |before|;
    }
  }

  lemma {:induction false} AllPartsOnce(rows: seq<RawRow>, groups: seq<Group>)
    requires ById(rows) && NoRepeats(groups)
    ensures NoRepeats(AllParts(rows, groups))
  {
    if groups != [] {
      var n := |groups| - 1;
      AllPartsOnce(rows, groups[..n]);
      var before, last := AllParts(rows, groups[..n]), PartsOf(rows, groups[n]);
      hide AllParts, PartsOf, ById;
      forall x, y | 0 <= x < y < |before + last| ensures (before + last)[x] != (before + last)[y] {
        if y >= |before| {
          if x >= |before| {
            if last[x - |before|] == last[y - |before|] {
              FirstRowIdentifiesPart(rows, groups[n], x - |before|, groups[n], y - |before|);
            }
          } else {
            var k, i := PartComesFrom(rows, groups[..n], x);
            if before[x] == last[y - |before|] {
              FirstRowIdentifiesPart(rows, groups[k], i, groups[n], y - |before|);
            }
          }
        }
      }
    }
  }

  /** The groups of a partition, in order of first appearance. */
  function GroupsIn(rows: seq<RawRow>): (groups: seq<Group>)
    ensures NoRepeats(groups) && forall r | r in rows :: GroupOf(r) in groups
  {
    if rows == [] then []
    else
      var before, last := GroupsIn(rows[..|rows| - 1]), GroupOf(rows[|rows| - 1]);
      assert rows == rows[..|rows| - 1] + [rows[|rows| - 1]];
      if last in before then before else before + [last]
  }
}
