/** The archive worker: seal, archive, verify, drop, with failures at every step (src/persistence/archive.ts). */
module Archiving {
  import opened Values
  import opened Statements
  import opened ArchiveParts

  datatype Status = Pending | Sealing | Archiving | Archived | Verified | Detached | Dropped | Failed

  /** SHA-256 of a part's bytes, which its rows determine; taken to be collision free. */
  datatype Digest = Sha256(body: seq<RawRow>)

  datatype Path = Path(channel: string, hour: int, session: SessionId, firstId: int, lastId: int)

  /** The recorded description of one uploaded part. */
  datatype Manifest = Manifest(rowCount: nat, sha256: Digest)

  function ArchivePath(g: Group, part: seq<RawRow>): Path
    requires part != []
  {
    var channel := if g.channel.Some? then g.channel.value else "unknown";
    Path(channel, g.hour, part[0].session, part[0].id, part[|part| - 1].id)
  }

  /** How a database or store operation ends: done, thrown, or the process died around it. */
  datatype Outcome = Done | Threw | Crashed {
    predicate IsFailure() { !Done? }
    function PropagateFailure(): Outcome { this }
  }

  // ---------------------------------------------------------------------------
  // What is on record about one partition
  // ---------------------------------------------------------------------------

  /**
   * `rows` is the content of the partition's table, `attached` whether it is part of the raw log and
   * `present` whether the table exists at all. `dropped` collects every row a DROP ever destroyed.
   */
  datatype Record = Record(
    status: Status, sealedCount: Option<nat>, manifests: map<Path, Manifest>, store: map<Path, seq<RawRow>>,
    rows: seq<RawRow>, attached: bool, present: bool, dropped: seq<RawRow>)

  const NEW_PARTITION := Record(Pending, None, map[], map[], [], true, true, [])

  /** The part was uploaded and described; `kept` says the store has it, too. */
  predicate PartListed(d: Record, g: Group, part: seq<RawRow>, kept: bool) {
    part != [] &&
    var p := ArchivePath(g, part);
    && p in d.manifests && d.manifests[p] == Manifest(|part|, Sha256(part))
    && (kept ==> p in d.store && d.store[p] == part)
  }

  /** The first n parts of a group are listed. */
  ghost predicate GroupListed(d: Record, g: Group, n: nat, kept: bool) {
    n <= |PartsOf(d.rows, g)| && forall i | 0 <= i < n :: PartListed(d, g, PartsOf(d.rows, g)[i], kept)
  }

  ghost predicate AllListed(d: Record, kept: bool) {
    forall g :: GroupListed(d, g, |PartsOf(d.rows, g)|, kept)
  }

  /** The path is that of the i-th part of a group, and described as that part. */
  ghost predicate TellsPart(d: Record, p: Path, g: Group, i: nat) {
    && i < |PartsOf(d.rows, g)| && p == ArchivePath(g, PartsOf(d.rows, g)[i])
    && PartListed(d, g, PartsOf(d.rows, g)[i], false)
  }

  ghost predicate TellsSomePart(d: Record, p: Path) {
    exists g, i: nat :: TellsPart(d, p, g, i)
  }

  /**
   * Until a row of the partition is dropped the manifests tell its parts and nothing else; before it
   * is sealed there are none.
   */
  ghost predicate OnlyParts(d: Record) {
    && (forall p | p in d.manifests :: TellsSomePart(d, p))
    && (Unsealed(d) ==> d.manifests == map[])
  }

  /** Rows may still arrive. */
  predicate Unsealed(d: Record) {
    d.attached && d.status in {Pending, Dropped, Detached}
  }

  /** What re-reading the part would find. */
  predicate DigestMatches(d: Record, p: Path) {
    p in d.manifests && p in d.store && Sha256(d.store[p]) == d.manifests[p].sha256
  }

  ghost predicate AllMatch(d: Record) {
    forall p | p in d.manifests :: DigestMatches(d, p)
  }

  function CountOf(manifests: map<Path, Manifest>, paths: seq<Path>): nat {
    if paths == [] then 0
    else
      var p := paths[|paths| - 1];
      CountOf(manifests, paths[..|paths| - 1]) + (if p in manifests then manifests[p].rowCount else 0)
  }

  ghost predicate ListsAll(paths: seq<Path>, manifests: map<Path, Manifest>) {
    && (forall i, j | 0 <= i < j < |paths| :: paths[i] != paths[j])
    && (forall p :: p in paths <==> p in manifests)
  }

  ghost predicate PartsCount(manifests: map<Path, Manifest>, n: nat) {
    exists paths :: ListsAll(paths, manifests) && CountOf(manifests, paths) == n
  }

  /** Every part re-read with its recorded digest, every row in one of them, and the counts add up. */
  ghost predicate Proven(d: Record) {
    AllListed(d, false) && AllMatch(d) && PartsCount(d.manifests, |d.rows|) &&
        d.sealedCount == Some(|d.rows|)
  }

  ghost predicate IdDropped(d: Record, id: int) {
    exists i :: 0 <= i < |d.dropped| && d.dropped[i].id == id
  }

  /** A row lies in a stored part that has its recorded digest. */
  ghost predicate KeptAt(d: Record, r: RawRow, p: Path) {
    DigestMatches(d, p) && r in d.store[p]
  }

  ghost predicate Kept(d: Record, r: RawRow) {
    exists p :: KeptAt(d, r, p)
  }

  /** ... and that part starts with a dropped row, so no later upload touches it. */
  ghost predicate KeptForGood(d: Record, r: RawRow) {
    exists p :: KeptAt(d, r, p) && IdDropped(d, p.firstId)
  }

  /** Every manifest tells the size and the digest of one non-empty part. */
  ghost predicate AllDescribed(manifests: map<Path, Manifest>) {
    forall p | p in manifests :: 0 < manifests[p].rowCount == |manifests[p].sha256.body|
  }

  /** Everything the worker relies on, at every moment. */
  ghost predicate Sound(d: Record) {
    && ById(d.rows)
    && (d.attached ==> d.present)
    && (!d.present ==> d.rows == [])
    && (d.status in {Pending, Sealing, Archiving, Archived} ==> d.attached)
    && (d.status in {Sealing, Archiving, Archived, Verified} ==> d.sealedCount == Some(|d.rows|) && d.present)
    && (d.status == Archived ==> AllListed(d, false))
    && (d.status == Verified ==> Proven(d))
    && (d.status == Detached && d.present && !d.attached ==> Proven(d))
    && (forall x, r | x in d.rows && r in d.dropped :: x.id != r.id)
    && (forall r | r in d.dropped :: KeptForGood(d, r))
    && AllDescribed(d.manifests)
    && (d.dropped == [] ==> OnlyParts(d))
  }

  /** The lasting safety property: whatever a DROP destroyed lies in a stored, digest-checked part. */
  lemma DroppedRowsAreKept(d: Record, r: RawRow)
    requires Sound(d) && r in d.dropped
    ensures Kept(d, r)
  {
    var p :| KeptAt(d, r, p) && IdDropped(d, p.firstId);
  }

  // ---------------------------------------------------------------------------
  // Single changes keep the record sound
  // ---------------------------------------------------------------------------

  /** In a proven record every row is kept, in a part that starts with a row of the table. */
  lemma ProvenRowsAreKept(d: Record, r: RawRow) returns (p: Path)
    requires ById(d.rows) && Proven(d) && r in d.rows
    ensures KeptAt(d, r, p) && exists x :: x in d.rows && x.id == p.firstId
  {
    var g := GroupOf(r);
    var i := RowIsInAPart(d.rows, r);
    var part := PartsOf(d.rows, g)[i];
    assert GroupListed(d, g, |PartsOf(d.rows, g)|, false);
    assert PartListed(d, g, part, false);
    p := ArchivePath(g, part);
    assert DigestMatches(d, p);
    GroupRowsAre(d.rows, g);
    PageIsOf(GroupRows(d.rows, g), g, i);
    assert part[0] in part;
  }

  // ---------------------------------------------------------------------------
  // A partition is dropped once
  // ---------------------------------------------------------------------------

  function Described(manifests: map<Path, Manifest>, paths: seq<Path>): seq<seq<RawRow>>
    requires forall i | 0 <= i < |paths| :: paths[i] in manifests
  {
    if paths == [] then []
    else
      assert paths[|paths| - 1] in manifests;
      Described(manifests, paths[..|paths| - 1]) + [manifests[paths[|paths| - 1]].sha256.body]
  }

  /** The counts add up to the rows described. */
  lemma {:induction false} CountIsDescribed(manifests: map<Path, Manifest>, paths: seq<Path>)
    requires AllDescribed(manifests) && forall i | 0 <= i < |paths| :: paths[i] in manifests
    ensures CountOf(manifests, paths) == |Joined(Described(manifests, paths))|
  {
    if paths != [] {
      var init := paths[..|paths| - 1];
      assert paths[|paths| - 1] in manifests;
      CountIsDescribed(manifests, init);
      var bodies := Described(manifests, init);
      assert Described(manifests, paths)[..|bodies|] == bodies;
    }
  }

  lemma {:induction false} DescribedHas(manifests: map<Path, Manifest>, paths: seq<Path>, p: Path, r: RawRow)
    requires forall i | 0 <= i < |paths| :: paths[i] in manifests
    requires p in paths && r in manifests[p].sha256.body
    ensures r in Joined(Described(manifests, paths))
  {
    var n := |paths| - 1;
    assert paths[n] in manifests;
    var bodies := Described(manifests, paths[..n]);
    assert Described(manifests, paths)[..|bodies|] == bodies;
    if paths[n] != p {
      DescribedHas(manifests, paths[..n], p, r);
    }
  }

  lemma {:induction false} DistinctIds(rows: seq<RawRow>)
    requires ById(rows)
    ensures |SetOf(rows)| == |rows|
  {
    if rows != [] {
      var init, last := rows[..|rows| - 1], rows[|rows| - 1];
      DistinctIds(init);
      assert SetOf(rows) == SetOf(init) + {last} by {
        assert rows == init + [last];
      }
    }
  }

  function SetOf(rows: seq<RawRow>): set<RawRow> {
    set r | r in rows
  }

  lemma {:induction false} SetIsNoLarger(rows: seq<RawRow>)
    ensures |SetOf(rows)| <= |rows|
  {
    if rows != [] {
      var init, last := rows[..|rows| - 1], rows[|rows| - 1];
      SetIsNoLarger(init);
      assert SetOf(rows) == SetOf(init) + {last} by {
        assert rows == init + [last];
      }
    }
  }

  /**
   * The manifests of a dropped partition stay, and verification counts them: whatever arrives under
   * the same name later can be archived but never verified, so a partition is dropped at most once.
   */
  lemma DroppedIsNeverProvenAgain(d: Record)
    requires Sound(d) && d.dropped != []
    ensures !Proven(d)
  {
    if Proven(d) {
      hide Described, CountOf, Joined;
      var paths :| ListsAll(paths, d.manifests) && CountOf(d.manifests, paths) == |d.rows|;
      CountIsDescribed(d.manifests, paths);
      var all := Joined(Described(d.manifests, paths));
      var gone := d.dropped[0];
      assert gone in d.dropped;
      var p :| KeptAt(d, gone, p);
      DescribedHas(d.manifests, paths, p, gone);
      forall r | r in d.rows ensures r in all {
        var q := ProvenRowsAreKept(d, r);
        DescribedHas(d.manifests, paths, q, r);
      }
      assert gone !in SetOf(d.rows);
      assert SetOf(d.rows) + {gone} <= SetOf(all);
      SubsetSize(SetOf(d.rows) + {gone}, SetOf(all));
      DistinctIds(d.rows);
      SetIsNoLarger(all);
    }
  }

  // ---------------------------------------------------------------------------
  // Until then everything adds up
  // ---------------------------------------------------------------------------

  lemma {:induction false} DescribedAt(manifests: map<Path, Manifest>, paths: seq<Path>, k: nat)
    requires (forall i | 0 <= i < |paths| :: paths[i] in manifests) && k < |paths|
    ensures |Described(manifests, paths)| == |paths|
    ensures Described(manifests, paths)[k] == manifests[paths[k]].sha256.body
  {
    var n := |paths| - 1;
    assert paths[n] in manifests;
    if k < n {
      DescribedAt(manifests, paths[..n], k);
    } else if n > 0 {
      DescribedAt(manifests, paths[..n], 0);
    }
  }

  lemma DescribedLength(manifests: map<Path, Manifest>, paths: seq<Path>)
    requires forall i | 0 <= i < |paths| :: paths[i] in manifests
    ensures |Described(manifests, paths)| == |paths|
  {
    if paths != [] {
      DescribedAt(manifests, paths, 0);
    }
  }

  /** Different paths describe different parts. */
  lemma DescribedOnce(d: Record, paths: seq<Path>)
    requires ById(d.rows) && OnlyParts(d) && ListsAll(paths, d.manifests)
    ensures (forall i | 0 <= i < |paths| :: paths[i] in d.manifests) && NoRepeats(Described(d.manifests, paths))
  {
    hide Described, Pages, GroupRows, ById;
    assert forall i | 0 <= i < |paths| :: paths[i] in paths;
    var bodies := Described(d.manifests, paths);
    DescribedLength(d.manifests, paths);
    forall x, y | 0 <= x < y < |bodies| ensures bodies[x] != bodies[y] {
      DescribedAt(d.manifests, paths, x);
      DescribedAt(d.manifests, paths, y);
      assert TellsSomePart(d, paths[x]) && TellsSomePart(d, paths[y]);
      var g: Group, i: nat :| TellsPart(d, paths[x], g, i);
      var h: Group, j: nat :| TellsPart(d, paths[y], h, j);
      if bodies[x] == bodies[y] {
        FirstRowIdentifiesPart(d.rows, g, i, h, j);
      }
    }
  }

  /** What the manifests describe is every part of the partition, each once. */
  lemma DescribedAreTheParts(d: Record, paths: seq<Path>, groups: seq<Group>)
    requires ById(d.rows) && OnlyParts(d) && AllListed(d, false) && ListsAll(paths, d.manifests)
    requires AreGroups(groups, d.rows)
    ensures forall i | 0 <= i < |paths| :: paths[i] in d.manifests
    ensures multiset(Described(d.manifests, paths)) == multiset(AllParts(d.rows, groups))
  {
    hide Described, Pages, GroupRows, AllParts, OnlyParts;
    DescribedOnce(d, paths);
    AllPartsOnce(d.rows, groups);
    DescribedLength(d.manifests, paths);
    var bodies, parts := Described(d.manifests, paths), AllParts(d.rows, groups);
    forall b | b in bodies ensures b in parts {
      var k :| 0 <= k < |bodies| && bodies[k] == b;
      DescribedAt(d.manifests, paths, k);
      DescribedIsAPart(d, paths[k], groups);
    }
    forall b | b in parts ensures b in bodies {
      var j :| 0 <= j < |parts| && parts[j] == b;
      var k, i := PartComesFrom(d.rows, groups, j);
      assert GroupListed(d, groups[k], |PartsOf(d.rows, groups[k])|, false);
      assert PartListed(d, groups[k], b, false);
      var p := ArchivePath(groups[k], b);
      var x :| 0 <= x < |paths| && paths[x] == p;
      DescribedAt(d.manifests, paths, x);
    }
    SameElementsSameBag(bodies, parts);
  }

  lemma DescribedIsAPart(d: Record, p: Path, groups: seq<Group>)
    requires ById(d.rows) && OnlyParts(d) && p in d.manifests && AreGroups(groups, d.rows)
    ensures d.manifests[p].sha256.body in AllParts(d.rows, groups)
  {
    hide Pages, GroupRows, AllParts;
    assert TellsSomePart(d, p);
    var g: Group, i: nat :| TellsPart(d, p, g, i);
    var part := PartsOf(d.rows, g)[i];
    GroupRowsAre(d.rows, g);
    PageIsOf(GroupRows(d.rows, g), g, i);
    assert part[0] in part;
    var k :| 0 <= k < |groups| && groups[k] == g;
    AllPartsAre(d.rows, groups);
    assert PartsOf(d.rows, groups[k])[i] in AllParts(d.rows, groups);
  }

  /** While nothing was dropped, the parts listed for a partition hold as many rows as it has. */
  lemma CountsAddUp(d: Record, paths: seq<Path>)
    requires Sound(d) && d.dropped == [] && AllListed(d, false) && ListsAll(paths, d.manifests)
    ensures CountOf(d.manifests, paths) == |d.rows|
  {
    var groups := GroupsIn(d.rows);
    hide AllListed, OnlyParts, KeptForGood, Proven, Described, AllParts, ById, CountOf, GroupsIn, Joined;
    DescribedAreTheParts(d, paths, groups);
    CountIsDescribed(d.manifests, paths);
    JoinedPermutation(Described(d.manifests, paths), AllParts(d.rows, groups));
    PartsHoldEveryRowOnce(d.rows, groups);
    var all := Joined(Described(d.manifests, paths));
    assert |all| == |multiset(all)| == |multiset(d.rows)| == |d.rows|;
  }

  /** Once every part is kept as it was sent, re-reading them all finds nothing wrong. */
  lemma KeptPartsMatch(d: Record)
    requires OnlyParts(d) && AllListed(d, true)
    ensures AllMatch(d)
  {
    forall p | p in d.manifests ensures DigestMatches(d, p) {
      assert TellsSomePart(d, p);
      var g: Group, i: nat :| TellsPart(d, p, g, i);
      assert GroupListed(d, g, |PartsOf(d.rows, g)|, true);
      assert PartListed(d, g, PartsOf(d.rows, g)[i], true);
    }
  }

  lemma ProvenOnlyBeforeADrop(d: Record)
    requires Sound(d) && Proven(d)
    ensures d.dropped == []
  {
    hide Sound, Proven;
    if d.dropped != [] {
      DroppedIsNeverProvenAgain(d);
    }
  }

  lemma SubsetSize(a: set<RawRow>, b: set<RawRow>)
    requires a <= b
    ensures |a| <= |b|
  {
    assert b == a + (b - a);
  }

  function AfterDrop(d: Record): Record {
    d.(present := false, rows := [], dropped := d.dropped + d.rows)
  }

  lemma LongDroppedStaysKept(d: Record, r: RawRow)
    requires KeptForGood(d, r)
    ensures KeptForGood(AfterDrop(d), r)
  {
    var d' := AfterDrop(d);
    var p :| KeptAt(d, r, p) && IdDropped(d, p.firstId);
    var i :| 0 <= i < |d.dropped| && d.dropped[i].id == p.firstId;
    assert d'.dropped[i] == d.dropped[i];
    assert KeptAt(d', r, p);
  }

  lemma JustDroppedIsKept(d: Record, r: RawRow)
    requires ById(d.rows) && Proven(d) && r in d.rows
    ensures KeptForGood(AfterDrop(d), r)
  {
    var d' := AfterDrop(d);
    var p := ProvenRowsAreKept(d, r);
    var x :| x in d.rows && x.id == p.firstId;
    var i :| 0 <= i < |d.rows| && d.rows[i] == x;
    assert d'.dropped[|d.dropped| + i].id == p.firstId;
    assert KeptAt(d', r, p);
  }

  lemma EmptyIsById()
    ensures ById([])
  {
  }

  /** What the manifests tell depends on them and on the rows alone. */
  lemma StaysOnlyParts(d: Record, d': Record)
    requires OnlyParts(d) && d'.manifests == d.manifests && d'.rows == d.rows
    requires Unsealed(d') ==> d.manifests == map[]
    ensures OnlyParts(d')
  {
    forall p | p in d'.manifests ensures TellsSomePart(d', p) {
      assert TellsSomePart(d, p);
      var g: Group, i: nat :| TellsPart(d, p, g, i);
      assert TellsPart(d', p, g, i);
    }
  }

  /** Nothing to tell of a partition without rows. */
  lemma NoRowsNoManifests(d: Record)
    requires OnlyParts(d) && d.rows == []
    ensures d.manifests == map[]
  {
    forall p ensures p !in d.manifests {
      NoPartToTell(d, p);
    }
  }

  lemma NoPartToTell(d: Record, p: Path)
    requires d.rows == []
    ensures !TellsSomePart(d, p)
  {
  }

  /** Dropping a proven, detached table loses nothing. */
  lemma DroppingIsSafe(d: Record)
    requires Sound(d) && d.status == Detached && !d.attached
    ensures Sound(AfterDrop(d))
  {
    hide Proven, AllListed, KeptForGood, ById, OnlyParts;
    var d' := AfterDrop(d);
    EmptyIsById();
    if d'.dropped == [] {
      StaysOnlyParts(d, d');
    }
    forall r | r in d'.dropped ensures KeptForGood(d', r) {
      if r in d.dropped {
        LongDroppedStaysKept(d, r);
      } else {
        JustDroppedIsKept(d, r);
      }
    }
  }

  function Stored(d: Record, p: Path, kept: seq<RawRow>): Record {
    d.(store := d.store[p := kept])
  }

  /** Storing a part that starts with a live row cannot touch what keeps the dropped ones. */
  lemma UploadingIsSafe(d: Record, p: Path, body: seq<RawRow>)
    requires Sound(d) && d.status == Archiving && exists x :: x in d.rows && x.id == p.firstId
    ensures Sound(Stored(d, p, body))
  {
    var d' := Stored(d, p, body);
    if d.dropped == [] {
      StaysOnlyParts(d, d');
    }
    hide ById, OnlyParts;
    forall r | r in d'.dropped ensures KeptForGood(d', r) {
      var q :| KeptAt(d, r, q) && IdDropped(d, q.firstId);
      assert q != p;
      assert KeptAt(d', r, q) && IdDropped(d', q.firstId);
    }
  }

  function Listed(d: Record, g: Group, part: seq<RawRow>): Record
    requires part != []
  {
    d.(manifests := d.manifests[ArchivePath(g, part) := Manifest(|part|, Sha256(part))])
  }

  lemma ListingTellsParts(d: Record, g: Group, i: nat)
    requires OnlyParts(d) && d.status == Archiving && i < |PartsOf(d.rows, g)|
    ensures OnlyParts(Listed(d, g, PartsOf(d.rows, g)[i]))
  {
    hide Pages, GroupRows;
    var part := PartsOf(d.rows, g)[i];
    var p, d' := ArchivePath(g, part), Listed(d, g, part);
    forall q | q in d'.manifests ensures TellsSomePart(d', q) {
      if q == p {
        assert TellsPart(d', q, g, i);
      } else {
        assert TellsSomePart(d, q);
        var h: Group, j: nat :| TellsPart(d, q, h, j);
        assert TellsPart(d', q, h, j);
      }
    }
  }

  lemma ListingIsSafe(d: Record, g: Group, i: nat)
    requires Sound(d) && d.status == Archiving && i < |PartsOf(d.rows, g)|
    ensures Sound(Listed(d, g, PartsOf(d.rows, g)[i]))
  {
    var part := PartsOf(d.rows, g)[i];
    var p, d' := ArchivePath(g, part), Listed(d, g, part);
    PathStartsWithARow(d.rows, g, i);
    if d.dropped == [] {
      ListingTellsParts(d, g, i);
    }
    hide ById, AllListed, OnlyParts, Pages, GroupRows;
    forall r | r in d'.dropped ensures KeptForGood(d', r) {
      var q :| KeptAt(d, r, q) && IdDropped(d, q.firstId);
      assert q != p;
      assert KeptAt(d', r, q) && IdDropped(d', q.firstId);
    }
  }

  lemma StaysKept(d: Record, d': Record)
    requires Sound(d) && d'.manifests == d.manifests && d'.store == d.store && d'.dropped == d.dropped
    ensures forall r | r in d'.dropped :: KeptForGood(d', r)
  {
    forall r | r in d'.dropped ensures KeptForGood(d', r) {
      var q :| KeptAt(d, r, q) && IdDropped(d, q.firstId);
      assert KeptAt(d', r, q) && IdDropped(d', q.firstId);
    }
  }

  /** Bookkeeping changes that touch neither rows, parts nor store. */
  lemma BookkeepingKeeps(d: Record, d': Record)
    requires Sound(d) && d'.manifests == d.manifests && d'.store == d.store && d'.dropped == d.dropped
    requires d'.rows == d.rows && (Unsealed(d') ==> Unsealed(d))
    ensures forall r | r in d'.dropped :: KeptForGood(d', r)
    ensures d'.dropped == [] ==> OnlyParts(d')
  {
    StaysKept(d, d');
    if d.dropped == [] {
      StaysOnlyParts(d, d');
    }
  }

  /** Two parts of one partition never share a path, even where a channel is named like the missing one. */
  lemma PathIdentifiesPart(rows: seq<RawRow>, g: Group, i: nat, h: Group, j: nat)
    requires ById(rows) && i < |PartsOf(rows, g)| && j < |PartsOf(rows, h)|
    requires ArchivePath(g, PartsOf(rows, g)[i]) == ArchivePath(h, PartsOf(rows, h)[j])
    ensures g == h && i == j
  {
    FirstRowIdentifiesPart(rows, g, i, h, j);
  }

  /** Uploading and listing a part of a group, kept as it was sent or not, keeps the parts listed so far. */
  lemma ListingKeepsListed(d: Record, g: Group, i: nat, stored: seq<RawRow>, h: Group, n: nat, kept: bool)
    requires ById(d.rows) && i < |PartsOf(d.rows, g)| && GroupListed(d, h, n, kept)
    requires kept ==> stored == PartsOf(d.rows, g)[i]
    ensures var part := PartsOf(d.rows, g)[i];
      var d' := Listed(Stored(d, ArchivePath(g, part), stored), g, part);
      GroupListed(d', h, n, kept) && PartListed(d', g, part, kept)
  {
    var part := PartsOf(d.rows, g)[i];
    var d' := Listed(Stored(d, ArchivePath(g, part), stored), g, part);
    forall j | 0 <= j < n ensures PartListed(d', h, PartsOf(d'.rows, h)[j], kept) {
      assert PartListed(d, h, PartsOf(d.rows, h)[j], kept);
      if ArchivePath(h, PartsOf(d.rows, h)[j]) == ArchivePath(g, part) {
        PathIdentifiesPart(d.rows, h, j, g, i);
      }
    }
  }

  /** A part's path starts with the id of one of the partition's rows. */
  lemma PathStartsWithARow(rows: seq<RawRow>, g: Group, i: nat)
    requires ById(rows) && i < |PartsOf(rows, g)|
    ensures exists x :: x in rows && x.id == ArchivePath(g, PartsOf(rows, g)[i]).firstId
  {
    GroupRowsAre(rows, g);
    PageIsOf(GroupRows(rows, g), g, i);
    assert PartsOf(rows, g)[i][0] in rows;
  }

  // ---------------------------------------------------------------------------
  // The database and the object store, where every operation may fail
  // ---------------------------------------------------------------------------

  /**
   * Each operation either is done, or ends in a failure with its effect in place or not: a lost
   * connection leaves the caller unable to tell.
   */
  class ArchiveDatabase {
    /** Every operation succeeds, and the store returns what was stored. */
    const reliable: bool
    var record: Record

    constructor (reliable: bool)
      ensures record == NEW_PARTITION && Sound(record) && this.reliable == reliable
    {
      this.reliable := reliable;
      record := NEW_PARTITION;
    }

    /** Decides how an operation ends and whether it took effect. */
    method Fate() returns (o: Outcome, performed: bool)
      ensures o.Done? ==> performed
      ensures reliable ==> o.Done?
    {
      o, performed := *, *;
      if reliable {
        o := Done;
      }
      if o.Done? {
        performed := true;
      }
    }

    method Write(next: Record) returns (o: Outcome)
      modifies this
      ensures record == next || (record == old(record) && !o.Done?)
      ensures reliable ==> o.Done?
    {
      var performed: bool;
      o, performed := Fate();
      if performed {
        record := next;
      }
    }

    /** Queries see only attached rows. */
    method CountRows() returns (o: Outcome, n: nat)
      ensures o.Done? ==> n == if record.attached then |record.rows| else 0
      ensures reliable ==> o.Done?
    {
      var performed: bool;
      o, performed := Fate();
      n := if record.attached then |record.rows| else 0;
    }

    method ReadStatus() returns (o: Outcome, s: Status)
      ensures o.Done? ==> s == record.status
      ensures reliable ==> o.Done?
    {
      var performed: bool;
      o, performed := Fate();
      s := record.status;
    }

    /** The store keeps what it keeps; unless it is reliable nothing says it is what was sent. */
    method Put(p: Path, body: seq<RawRow>) returns (o: Outcome, ghost kept: seq<RawRow>)
      modifies this
      ensures record == Stored(old(record), p, kept) || (record == old(record) && !o.Done?)
      ensures reliable ==> o.Done? && kept == body
    {
      var stored := body;
      var corrupted: bool := *;
      if corrupted && !reliable {
        stored := *;
      }
      kept := stored;
      o := Write(Stored(record, p, stored));
    }

    method Get(p: Path) returns (o: Outcome, body: seq<RawRow>)
      ensures o.Done? ==> p in record.store && body == record.store[p]
      ensures reliable ==> o == if p in record.store then Done else Threw
    {
      var performed: bool;
      o, performed := Fate();
      body := [];
      if p in record.store {
        body := record.store[p];
      } else if o.Done? {
        o := Threw;
      }
    }

    /** Detaching works only on an attached partition. */
    method Detach() returns (o: Outcome)
      modifies this
      ensures record == old(record).(attached := false) || (record == old(record) && !o.Done?)
      ensures !old(record).attached ==> !o.Done?
      ensures reliable && old(record).attached ==> o.Done?
    {
      if !record.attached {
        return Threw;
      }
      o := Write(record.(attached := false));
    }

    method GroupsOf() returns (o: Outcome, groups: seq<Group>)
      ensures o.Done? ==> AreGroups(groups, record.rows)
      ensures reliable ==> o.Done?
    {
      var performed: bool;
      o, performed := Fate();
      groups := [];
      for i := 0 to |record.rows|
        invariant forall x, y | 0 <= x < y < |groups| :: groups[x] != groups[y]
        invariant forall x | 0 <= x < i :: GroupOf(record.rows[x]) in groups
      {
        if GroupOf(record.rows[i]) !in groups {
          groups := groups + [GroupOf(record.rows[i])];
        }
      }
    }

    method ManifestPaths() returns (o: Outcome, paths: seq<Path>)
      ensures o.Done? ==> ListsAll(paths, record.manifests)
      ensures reliable ==> o.Done?
    {
      var performed: bool;
      o, performed := Fate();
      paths := [];
      var rest := record.manifests.Keys;
      while rest != {}
        invariant rest <= record.manifests.Keys
        invariant forall i, j | 0 <= i < j < |paths| :: paths[i] != paths[j]
        invariant forall p :: p in paths <==> p in record.manifests.Keys - rest
        decreases |rest|
      {
        var p := NextElement(rest);
        assert p !in paths;
        paths, rest := paths + [p], rest - {p};
      }
    }
  }

  // ---------------------------------------------------------------------------
  // The worker
  // ---------------------------------------------------------------------------

  /** What was listed stays listed. */
  ghost predicate KeepsListed(a: Record, b: Record, kept: bool) {
    forall h, n | GroupListed(a, h, n, kept) :: GroupListed(b, h, n, kept)
  }

  lemma KeepsItself(d: Record, kept: bool)
    ensures KeepsListed(d, d, kept)
  {
  }

  lemma KeepsOn(a: Record, b: Record, c: Record, kept: bool)
    requires KeepsListed(a, b, kept) && KeepsListed(b, c, kept)
    ensures KeepsListed(a, c, kept)
  {
    hide GroupListed;
  }

  lemma KeptListed(a: Record, b: Record, g: Group, n: nat, kept: bool)
    requires KeepsListed(a, b, kept) && GroupListed(a, g, n, kept)
    ensures GroupListed(b, g, n, kept)
  {
    hide GroupListed;
  }

  /** However an upload ends, what was listed stays listed. */
  lemma UploadingKeepsListed(d: Record, g: Group, i: nat)
    requires ById(d.rows) && i < |PartsOf(d.rows, g)|
    ensures KeepsListed(d, d, true) && KeepsListed(d, d, false)
    ensures var part := PartsOf(d.rows, g)[i];
      var p := ArchivePath(g, part);
      && KeepsListed(d, Listed(Stored(d, p, part), g, part), true)
      && PartListed(Listed(Stored(d, p, part), g, part), g, part, true)
      && forall body ::
           && KeepsListed(d, Stored(d, p, body), false)
           && KeepsListed(d, Listed(Stored(d, p, body), g, part), false)
           && PartListed(Listed(Stored(d, p, body), g, part), g, part, false)
  {
    var part := PartsOf(d.rows, g)[i];
    var p := ArchivePath(g, part);
    hide ById, Pages, GroupRows;
    forall h, n | GroupListed(d, h, n, true) ensures GroupListed(Listed(Stored(d, p, part), g, part), h, n, true) {
      ListingKeepsListed(d, g, i, part, h, n, true);
    }
    assert PartListed(Listed(Stored(d, p, part), g, part), g, part, true);
    forall body
      ensures KeepsListed(d, Stored(d, p, body), false) && KeepsListed(d, Listed(Stored(d, p, body), g, part), false)
      ensures PartListed(Listed(Stored(d, p, body), g, part), g, part, false)
    {
      forall h, n | GroupListed(d, h, n, false)
        ensures GroupListed(Stored(d, p, body), h, n, false)
        ensures GroupListed(Listed(Stored(d, p, body), g, part), h, n, false)
      {
        ListingKeepsListed(d, g, i, body, h, n, false);
      }
    }
  }

  /** Nothing but status and bookkeeping changed. */
  ghost predicate SamePartition(a: Record, b: Record) {
    a.rows == b.rows && a.attached == b.attached && a.present == b.present && a.dropped == b.dropped
  }

  class ArchiveWorker {
    const db: ArchiveDatabase
    const retentionMs: int
    const retentionEnabled: bool

    constructor (db: ArchiveDatabase, retentionMs: int, retentionEnabled: bool)
      ensures this.db == db && this.retentionMs == retentionMs && this.retentionEnabled == retentionEnabled
    {
      this.db, this.retentionMs, this.retentionEnabled := db, retentionMs, retentionEnabled;
    }

    /** Moves the status; sound when the new status promises nothing new. */
    method SetStatus(s: Status) returns (o: Outcome)
      requires Sound(db.record) && Sound(db.record.(status := s))
      modifies db
      ensures Sound(db.record)
      ensures db.record == old(db.record).(status := s) || (db.record == old(db.record) && !o.Done?)
      ensures db.reliable ==> o.Done?
    {
      o := db.Write(db.record.(status := s));
    }

    /** Fixes the row count. */
    method Seal() returns (o: Outcome)
      requires Sound(db.record) && db.record.status in {Pending, Sealing}
      modifies db
      ensures Sound(db.record) && SamePartition(db.record, old(db.record))
      ensures o.Done? ==> db.record.status == Sealing
      ensures db.record.status in {Pending, Sealing}
      ensures db.reliable ==> o.Done?
    {
      hide Proven, AllListed, KeptForGood, ById;
      var count :- db.CountRows();
      BookkeepingKeeps(db.record, db.record.(sealedCount := Some(count), status := Sealing));
      o := db.Write(db.record.(sealedCount := Some(count), status := Sealing));
    }

    /** Uploads one part and records its manifest. */
    method UploadPart(g: Group, part: seq<RawRow>, ghost i: nat) returns (o: Outcome)
      requires Sound(db.record) && db.record.status == Archiving
      requires i < |PartsOf(db.record.rows, g)| && part == PartsOf(db.record.rows, g)[i]
      modifies db
      ensures Sound(db.record) && db.record.status == Archiving && SamePartition(db.record, old(db.record))
      ensures db.record.sealedCount == old(db.record).sealedCount
      ensures o.Done? ==> PartListed(db.record, g, part, db.reliable)
      ensures KeepsListed(old(db.record), db.record, db.reliable)
      ensures db.reliable ==> o.Done?
    {
      hide Sound, GroupListed, Pages, GroupRows;
      ghost var before, kept := db.record, part;
      SoundIsById(before);
      PathStartsWithARow(before.rows, g, i);
      var path := ArchivePath(g, part);
      forall body: seq<RawRow> ensures Sound(Stored(before, path, body)) {
        UploadingIsSafe(before, path, body);
      }
      UploadingKeepsListed(before, g, i);
      o, kept := db.Put(path, part);
      if !o.Done? {
        return;
      }
      ListingIsSafe(db.record, g, i);
      o := db.Write(Listed(db.record, g, part));
    }

    /** Uploads every part of one group. */
    method ArchiveGroup(g: Group) returns (o: Outcome)
      requires Sound(db.record) && db.record.status == Archiving
      modifies db
      ensures Sound(db.record) && db.record.status == Archiving && SamePartition(db.record, old(db.record))
      ensures o.Done? ==> GroupListed(db.record, g, |PartsOf(db.record.rows, g)|, db.reliable)
      ensures KeepsListed(old(db.record), db.record, db.reliable)
      ensures db.reliable ==> o.Done?
    {
      hide Sound, Pages, GroupRows, GroupListed, PartListed, KeepsListed;
      ghost var rows, before := db.record.rows, db.record;
      ghost var all := GroupRows(rows, g);
      SoundIsById(db.record);
      var afterId := 0;
      ghost var i: nat, at: nat := 0, 0;
      NoneListed(db.record, g, db.reliable);
      KeepsItself(db.record, db.reliable);
      while true
        invariant Sound(db.record) && db.record.status == Archiving && SamePartition(db.record, old(db.record))
        invariant at <= |all| && afterId == if at == 0 then 0 else all[at - 1].id
        invariant at == i * ROWS_PER_PART || at == |all|
        invariant at == i * ROWS_PER_PART || i == |PartsOf(rows, g)|
        invariant GroupListed(db.record, g, i, db.reliable) && KeepsListed(before, db.record, db.reliable)
        decreases |all| - at, 0
      {
        var batch := FetchPart(db.record.rows, g, afterId, at);
        if at == i * ROWS_PER_PART {
          PageAt(all, at, i);
        }
        if |batch| == 0 {
          break;
        }
        var last := batch[|batch| - 1];
        ghost var mid := db.record;
        o := UploadPart(g, batch, i);
        KeepsOn(before, mid, db.record, db.reliable);
        if !o.Done? {
          return;
        }
        KeptListed(mid, db.record, g, i, db.reliable);
        OneMoreListed(db.record, g, i, db.reliable);
        afterId := last.id;
        at := at + |batch|;
        i := i + 1;
        if |batch| < ROWS_PER_PART {
          break;
        }
      }
      if at == i * ROWS_PER_PART {
        PageAt(all, at, i);
      }
      o := Done;
    }

    /** Uploads the whole partition, group by group. */
    method Archive() returns (o: Outcome)
      requires Sound(db.record) && db.record.status in {Sealing, Archiving}
      modifies db
      ensures Sound(db.record) && SamePartition(db.record, old(db.record))
      ensures o.Done? ==> db.record.status == Archived && AllListed(db.record, db.reliable)
      ensures db.record.status in {Sealing, Archiving, Archived}
      ensures db.reliable ==> o.Done?
    {
      hide Sound, GroupListed, KeepsListed;
      StartsArchiving(db.record);
      :- SetStatus(Archiving);
      ghost var rows := db.record.rows;
      var groups :- db.GroupsOf();
      for i := 0 to |groups|
        invariant Sound(db.record) && db.record.status == Archiving && SamePartition(db.record, old(db.record))
        invariant forall k | 0 <= k < i :: GroupListed(db.record, groups[k], |PartsOf(rows, groups[k])|, db.reliable)
      {
        ghost var mid := db.record;
        :- ArchiveGroup(groups[i]);
        forall k | 0 <= k < i ensures GroupListed(db.record, groups[k], |PartsOf(rows, groups[k])|, db.reliable) {
          KeptListed(mid, db.record, groups[k], |PartsOf(rows, groups[k])|, db.reliable);
        }
      }
      ListedByGroup(db.record, groups, db.reliable);
      EndsArchiving(db.record, db.reliable);
      o := SetStatus(Archived);
    }

    /** Re-reads every part and compares digests and counts. */
    method Verify() returns (o: Outcome)
      requires Sound(db.record) && db.record.status == Archived
      modifies db
      ensures Sound(db.record) && SamePartition(db.record, old(db.record))
      ensures o.Done? ==> db.record.status == Verified && old(db.record).dropped == []
      ensures db.record.status in {Archived, Verified}
      ensures db.reliable && AllMatch(old(db.record)) && old(db.record).dropped == [] ==> o.Done?
      ensures db.reliable && !o.Done? ==> o.Threw? && db.record == old(db.record)
    {
      hide Sound, AllMatch;
      var paths :- db.ManifestPaths();
      var verifiedRows := 0;
      for i := 0 to |paths|
        invariant verifiedRows == CountOf(db.record.manifests, paths[..i]) && db.record == old(db.record)
        invariant forall k | 0 <= k < i :: DigestMatches(db.record, paths[k])
      {
        assert paths[..i + 1][..i] == paths[..i];
        assert paths[i] in db.record.manifests;
        MatchesAt(db.record, paths[i]);
        var body :- db.Get(paths[i]);
        if Sha256(body) != db.record.manifests[paths[i]].sha256 {
          return Threw;
        }
        verifiedRows := verifiedRows + db.record.manifests[paths[i]].rowCount;
      }
      assert paths[..|paths|] == paths;
      SealedCountDecides(db.record, paths);
      if db.record.sealedCount != Some(verifiedRows) {
        return Threw;
      }
      MayBeVerified(db.record, paths);
      o := SetStatus(Verified);
    }

    predicate PastFloor(partitionEnd: int, nowMs: int) {
      retentionEnabled && nowMs >= partitionEnd + retentionMs
    }

    /**
     * Detaches and drops a verified partition past its retention floor. A drop only ever happens to
     * a partition that was verified, with every row in a part re-read with its recorded digest, and
     * only if no row of it was dropped before.
     */
    method TryDrop(partitionEnd: int, nowMs: int) returns (o: Outcome)
      requires Sound(db.record)
      modifies db
      ensures Sound(db.record)
      ensures DropsAllOrNothing(old(db.record), db.record)
      ensures (db.record.dropped != old(db.record).dropped ==>
        && old(db.record).status == Verified && Proven(old(db.record))
        && PastFloor(partitionEnd, nowMs)
        && old(db.record).dropped == [] && db.record.dropped == old(db.record).rows)
      ensures old(db.record).status == Failed ==> db.record == old(db.record)
      ensures db.reliable && old(db.record).status == Verified && old(db.record).attached ==>
        && o.Done?
        && if PastFloor(partitionEnd, nowMs)
           then db.record.status == Dropped && !db.record.present && db.record.dropped == old(db.record).rows
           else db.record == old(db.record)
    {
      hide KeptForGood, ById, Proven;
      if !retentionEnabled {
        return Done;
      }
      var status :- db.ReadStatus();
      if status != Verified || nowMs < partitionEnd + retentionMs {
        return Done;
      }
      assert Proven(db.record);
      ProvenOnlyBeforeADrop(db.record);
      StaysProven(db.record, Verified);
      BookkeepingKeeps(db.record, db.record.(attached := false));
      DetachedStaysProven(db.record);
      :- db.Detach();
      StaysProven(db.record, Detached);
      BookkeepingKeeps(db.record, db.record.(status := Detached));
      :- SetStatus(Detached);
      DroppingIsSafe(db.record);
      :- db.Write(AfterDrop(db.record));
      BookkeepingKeeps(db.record, db.record.(status := Dropped));
      o := SetStatus(Dropped);
    }

    /** Records a failure; an error while doing so is swallowed. */
    method Fail()
      requires Sound(db.record)
      modifies db
      ensures Sound(db.record)
      ensures db.record == old(db.record) || db.record == old(db.record).(status := Failed)
      ensures db.reliable ==> db.record == old(db.record).(status := Failed)
    {
      hide Proven, AllListed, KeptForGood, ById;
      BookkeepingKeeps(db.record, db.record.(status := Failed));
      var _ := SetStatus(Failed);
    }

    /** A dropped partition that is back with rows goes through the pipeline again. */
    method Resurrect() returns (o: Outcome, again: bool)
      requires Sound(db.record) && db.record.status in {Dropped, Detached}
      modifies db
      ensures Sound(db.record) && SamePartition(db.record, old(db.record))
      ensures o.Done? && again ==> db.record.status == Pending
      ensures o.Done? && !again ==> db.record == old(db.record)
      ensures db.reliable ==> o.Done? && (again <==> old(db.record).attached && old(db.record).rows != [])
    {
      hide Proven, AllListed, KeptForGood, ById;
      again := false;
      var n :- db.CountRows();
      if n == 0 {
        return Done, false;
      }
      BookkeepingKeeps(db.record, db.record.(status := Pending, sealedCount := None));
      o := db.Write(db.record.(status := Pending, sealedCount := None));
      again := true;
    }

    method Pipeline(partitionEnd: int, nowMs: int) returns (o: Outcome)
      requires Sound(db.record)
      modifies db
      ensures Sound(db.record) && DropsAllOrNothing(old(db.record), db.record)
      ensures old(db.record).dropped != [] ==> db.record.dropped == old(db.record).dropped
      ensures old(db.record).status == Failed ==> db.record == old(db.record)
      ensures db.reliable && Unfinished(old(db.record)) ==>
        if old(db.record).dropped == []
        then o.Done? && Completed(old(db.record), db.record, PastFloor(partitionEnd, nowMs))
        else o.Threw? && SamePartition(db.record, old(db.record))
    {
      hide Sound, Proven, AllListed, AllMatch;
      PassFacts(db.record);
      var state :- db.ReadStatus();
      if state == Dropped || state == Detached {
        var again :- Resurrect();
        if !again {
          return Done;
        }
        state := Pending;
      }
      if state == Pending || state == Sealing {
        :- Seal();
      }
      var afterSeal :- db.ReadStatus();
      if afterSeal == Sealing || afterSeal == Archiving {
        :- Archive();
        PassFacts(db.record);
      }
      var afterArchive :- db.ReadStatus();
      if afterArchive == Archived {
        :- Verify();
        PassFacts(db.record);
      }
      o := TryDrop(partitionEnd, nowMs);
    }

    /**
     * One pass of the worker over one partition, with any failures along the way. Where nothing fails
     * and the store keeps what it is sent, the pass carries a partition to its end if and only if no
     * row of it was dropped before.
     */
    method Run(partitionEnd: int, nowMs: int)
      requires Sound(db.record)
      modifies db
      ensures Sound(db.record) && DropsAllOrNothing(old(db.record), db.record)
      ensures old(db.record).dropped != [] ==> db.record.dropped == old(db.record).dropped
      ensures old(db.record).status == Failed ==> db.record == old(db.record)
      ensures db.reliable && Unfinished(old(db.record)) && partitionEnd <= nowMs ==>
        if old(db.record).dropped == [] then Completed(old(db.record), db.record, PastFloor(partitionEnd, nowMs))
        else db.record.status == Failed && SamePartition(db.record, old(db.record))
    {
      hide Sound;
      if partitionEnd > nowMs {
        return;
      }
      var o := Pipeline(partitionEnd, nowMs);
      if o.Threw? {
        Fail();
      }
    }
  }

  lemma MatchesAt(d: Record, p: Path)
    requires p in d.manifests
    ensures AllMatch(d) ==> DigestMatches(d, p)
  {
  }

  /** While nothing was dropped the sealed count is what the parts add up to. */
  lemma SealedCountDecides(d: Record, paths: seq<Path>)
    requires Sound(d) && d.status == Archived && ListsAll(paths, d.manifests)
    ensures d.dropped == [] ==> d.sealedCount == Some(CountOf(d.manifests, paths))
  {
    hide AllListed, KeptForGood, OnlyParts, ById;
    if d.dropped == [] {
      CountsAddUp(d, paths);
    }
  }

  /** Every part re-read with its digest and the counts adding up is what verification promises. */
  lemma MayBeVerified(d: Record, paths: seq<Path>)
    requires Sound(d) && d.status == Archived && ListsAll(paths, d.manifests)
    requires forall k | 0 <= k < |paths| :: DigestMatches(d, paths[k])
    requires d.sealedCount == Some(CountOf(d.manifests, paths))
    ensures Sound(d.(status := Verified)) && d.dropped == []
  {
    hide AllListed, KeptForGood, ById, OnlyParts;
    forall p | p in d.manifests ensures DigestMatches(d, p) {
      var k :| 0 <= k < |paths| && paths[k] == p;
    }
    assert Proven(d);
    ProvenOnlyBeforeADrop(d);
    BookkeepingKeeps(d, d.(status := Verified));
    StaysProven(d, Verified);
  }

  /** What one pass over the partition needs to know of its state. */
  lemma PassFacts(d: Record)
    requires Sound(d)
    ensures Unfinished(d) ==> d.attached
    ensures d.status == Verified ==> Proven(d)
    ensures d.dropped == [] && AllListed(d, true) ==> AllMatch(d)
  {
    hide KeptForGood, ById, OnlyParts, AllListed, AllMatch, Proven;
    if d.dropped == [] && AllListed(d, true) {
      KeptPartsMatch(d);
    }
  }

  /** There is work left to do on the partition: it was never finished, or came back with rows. */
  ghost predicate Unfinished(d: Record) {
    d.status in {Pending, Sealing, Archiving} || (d.status in {Dropped, Detached} && d.attached && d.rows != [])
  }

  /** Verified with every row proven; past its retention floor dropped, every row with it. */
  ghost predicate Completed(a: Record, b: Record, pastFloor: bool) {
    if pastFloor then b.status == Dropped && !b.present && b.dropped == a.rows && b.rows == []
    else b.status == Verified && Proven(b) && SamePartition(b, a)
  }

  /** Rows leave the table only by being dropped, all together. */
  ghost predicate DropsAllOrNothing(a: Record, b: Record) {
    || (b.dropped == a.dropped && b.rows == a.rows)
    || (b.dropped == a.dropped + a.rows && b.rows == [])
  }

  // ---------------------------------------------------------------------------
  // Every run of the worker
  // ---------------------------------------------------------------------------

  datatype DayEvent =
    | WorkerRuns(partitionEnd: int, nowMs: int)
    | RowArrives(row: RawRow)
    | PartitionRecreated // maintenance makes the table of a day again

  /** Rows arrive before a partition is sealed, with new ids, and never after. */
  ghost predicate MayArrive(d: Record, row: RawRow) {
    && d.attached && d.status in {Pending, Dropped, Detached} && row.id > 0
    && (forall x | x in d.rows :: x.id < row.id)
    && (forall x | x in d.dropped :: x.id < row.id)
  }

  lemma ArrivingIsSafe(d: Record, row: RawRow)
    requires Sound(d) && MayArrive(d, row)
    ensures Sound(d.(rows := d.rows + [row]))
  {
    hide Proven, KeptForGood, AllListed;
    StaysKept(d, d.(rows := d.rows + [row]));
  }

  lemma RecreatingIsSafe(d: Record)
    requires Sound(d) && !d.present
    ensures Sound(d.(present := true, attached := true))
  {
    var d' := d.(present := true, attached := true);
    StaysKept(d, d');
    if d.dropped == [] {
      NoRowsNoManifests(d);
      StaysOnlyParts(d, d');
    }
    hide KeptForGood, OnlyParts, ById;
  }

  /**
   * Any number of worker passes, with crashes and failures at any operation, between rows arriving
   * and partitions being made again: what was dropped is always kept in a stored part whose digest
   * is the recorded one.
   */
  method Operate(worker: ArchiveWorker, db: ArchiveDatabase, events: seq<DayEvent>)
    requires worker.db == db && Sound(db.record)
    modifies db
    ensures Sound(db.record) && forall r | r in db.record.dropped :: Kept(db.record, r)
  {
    hide Sound, MayArrive;
    for i := 0 to |events|
      invariant Sound(db.record)
    {
      match events[i] {
        case WorkerRuns(partitionEnd, nowMs) =>
          worker.Run(partitionEnd, nowMs);
        case RowArrives(row) =>
          var _ := Arrive(db, row);
        case PartitionRecreated =>
          if !db.record.present {
            RecreatingIsSafe(db.record);
            db.record := db.record.(present := true, attached := true);
          }
      }
    }
    forall r | r in db.record.dropped ensures Kept(db.record, r) {
      DroppedRowsAreKept(db.record, r);
    }
  }

  /**
   * A day that was archived, verified and dropped, and comes back with one more row: nothing fails
   * and the store keeps what it is sent, yet the row can be archived but never verified.
   */
  method DroppedDayComesBack(a: RawRow, b: RawRow) returns (db: ArchiveDatabase)
    requires 0 < a.id < b.id
    ensures db.record.status == Failed && db.record.dropped == [a] && db.record.rows == [b]
  {
    hide Sound;
    db := new ArchiveDatabase(true);
    var worker := new ArchiveWorker(db, 0, true);
    var _ := Arrive(db, a);
    worker.Run(0, 0);
    assert db.record.status == Dropped && db.record.dropped == [a];
    RecreatingIsSafe(db.record);
    db.record := db.record.(present := true, attached := true);
    var _ := Arrive(db, b);
    worker.Run(0, 0);
  }

  method Arrive(db: ArchiveDatabase, row: RawRow) returns (accepted: bool)
    requires Sound(db.record)
    modifies db
    ensures Sound(db.record)
    ensures accepted <==> MayArrive(old(db.record), row)
    ensures db.record == if accepted then old(db.record).(rows := old(db.record).rows + [row]) else old(db.record)
  {
    accepted := db.record.attached && db.record.status in {Pending, Dropped, Detached} && row.id > 0;
    for i := 0 to |db.record.rows|
      invariant accepted ==> db.record.attached && db.record.status in {Pending, Dropped, Detached} && row.id > 0
      invariant MayArrive(db.record, row) ==> accepted
      invariant accepted ==> forall k | 0 <= k < i :: db.record.rows[k].id < row.id
    {
      accepted := accepted && db.record.rows[i].id < row.id;
    }
    for i := 0 to |db.record.dropped|
      invariant accepted ==> db.record.attached && db.record.status in {Pending, Dropped, Detached} && row.id > 0
      invariant MayArrive(db.record, row) ==> accepted
      invariant accepted ==> forall k | 0 <= k < |db.record.rows| :: db.record.rows[k].id < row.id
      invariant accepted ==> forall k | 0 <= k < i :: db.record.dropped[k].id < row.id
    {
      accepted := accepted && db.record.dropped[i].id < row.id;
    }
    if accepted {
      ArrivingIsSafe(db.record, row);
      db.record := db.record.(rows := db.record.rows + [row]);
    }
  }

  /** The groups cover the partition, so listing every group lists everything. */
  lemma ListedByGroup(d: Record, groups: seq<Group>, kept: bool)
    requires AreGroups(groups, d.rows)
    requires forall k | 0 <= k < |groups| :: GroupListed(d, groups[k], |PartsOf(d.rows, groups[k])|, kept)
    ensures AllListed(d, kept)
  {
    hide PartListed;
    forall g ensures GroupListed(d, g, |PartsOf(d.rows, g)|, kept) {
      if g !in groups {
        EmptyGroup(d.rows, g);
      } else {
        var k :| 0 <= k < |groups| && groups[k] == g;
      }
    }
  }

  lemma StartsArchiving(d: Record)
    requires Sound(d) && d.status in {Sealing, Archiving}
    ensures Sound(d.(status := Archiving))
  {
    hide Proven, KeptForGood, ById, OnlyParts;
    BookkeepingKeeps(d, d.(status := Archiving));
  }

  lemma EndsArchiving(d: Record, kept: bool)
    requires Sound(d) && d.status == Archiving && AllListed(d, kept)
    ensures Sound(d.(status := Archived)) && AllListed(d.(status := Archived), kept)
  {
    var d' := d.(status := Archived);
    forall g
      ensures GroupListed(d', g, |PartsOf(d'.rows, g)|, kept) && GroupListed(d', g, |PartsOf(d'.rows, g)|, false)
    {
      assert GroupListed(d, g, |PartsOf(d.rows, g)|, kept);
      forall i | 0 <= i < |PartsOf(d.rows, g)|
        ensures PartListed(d', g, PartsOf(d.rows, g)[i], kept) && PartListed(d', g, PartsOf(d.rows, g)[i], false)
      {
        assert PartListed(d, g, PartsOf(d.rows, g)[i], kept);
      }
    }
    hide Proven, KeptForGood, ById, OnlyParts, GroupListed;
    BookkeepingKeeps(d, d');
  }

  lemma {:induction false} EmptyGroup(rows: seq<RawRow>, g: Group)
    requires forall r | r in rows :: GroupOf(r) != g
    ensures GroupRows(rows, g) == []
  {
    if rows != [] {
      EmptyGroup(rows[..|rows| - 1], g);
    }
  }

  lemma StaysProven(d: Record, s: Status)
    requires Proven(d)
    ensures Proven(d.(status := s))
  {
    assert AllMatch(d.(status := s)) by {
      forall p | p in d.manifests ensures DigestMatches(d.(status := s), p) {
        assert DigestMatches(d, p);
      }
    }
  }

  lemma DetachedStaysProven(d: Record)
    requires Proven(d)
    ensures Proven(d.(attached := false))
  {
    assert AllMatch(d.(attached := false)) by {
      forall p | p in d.manifests ensures DigestMatches(d.(attached := false), p) {
        assert DigestMatches(d, p);
      }
    }
  }

  lemma NoneListed(d: Record, g: Group, kept: bool)
    ensures GroupListed(d, g, 0, kept)
  {
  }

  lemma OneMoreListed(d: Record, g: Group, i: nat, kept: bool)
    requires i < |PartsOf(d.rows, g)| && GroupListed(d, g, i, kept)
    requires PartListed(d, g, PartsOf(d.rows, g)[i], kept)
    ensures GroupListed(d, g, i + 1, kept)
  {
  }

  lemma SoundIsById(d: Record)
    requires Sound(d)
    ensures ById(d.rows)
  {
  }
}
