/** Reading an archived partition back in capture order (src/replay/restore.ts). */
module Restoring {
  import opened Values
  import opened Ordering
  import opened Statements
  import opened ArchiveParts
  import opened Archiving

  datatype RestoreError =
    | NoManifests
    | MissingObject(at: Path)
    | ChecksumMismatch(at: Path)
    | RowCountMismatch(at: Path)

  datatype Result<T> = Ok(value: T) | Err(error: RestoreError)

  /** Sessions in order of first appearance, each with its frames. */
  datatype Restored = Restored(rows: seq<RawRow>, sessions: seq<SessionId>, bySession: map<SessionId, seq<RawRow>>)

  /** The observation order where it was recorded, the id where it was not. */
  function CaptureKey(r: RawRow): int {
    if r.ordinal.Some? then r.ordinal.value else r.id
  }

  predicate RestoresBefore(a: RawRow, b: RawRow) {
    if a.session != b.session then a.session < b.session else CaptureKey(a) < CaptureKey(b)
  }

  function FramesOf(rows: seq<RawRow>, s: SessionId): seq<RawRow> {
    if rows == [] then []
    else FramesOf(rows[..|rows| - 1], s) + (if rows[|rows| - 1].session == s then [rows[|rows| - 1]] else [])
  }

  // ---------------------------------------------------------------------------
  // Reading
  // ---------------------------------------------------------------------------

  predicate PartReadable(manifests: map<Path, Manifest>, store: map<Path, seq<RawRow>>, p: Path) {
    && p in manifests && p in store
    && Sha256(store[p]) == manifests[p].sha256
    && |store[p]| == manifests[p].rowCount
  }

  function BodiesOf(store: map<Path, seq<RawRow>>, paths: seq<Path>): seq<seq<RawRow>>
    requires forall i | 0 <= i < |paths| :: paths[i] in store
  {
    if paths == [] then []
    else
      assert paths[|paths| - 1] in store;
      BodiesOf(store, paths[..|paths| - 1]) + [store[paths[|paths| - 1]]]
  }

  function WhyUnreadable(manifests: map<Path, Manifest>, store: map<Path, seq<RawRow>>, p: Path): RestoreError
    requires p in manifests && !PartReadable(manifests, store, p)
  {
    if p !in store then MissingObject(p)
    else if Sha256(store[p]) != manifests[p].sha256 then ChecksumMismatch(p)
    else RowCountMismatch(p)
  }

  /** Reads every part, checking digest and count; stops at the first that does not check. */
  method ReadParts(paths: seq<Path>, manifests: map<Path, Manifest>, store: map<Path, seq<RawRow>>)
    returns (r: Result<seq<RawRow>>)
    requires forall i | 0 <= i < |paths| :: paths[i] in manifests
    ensures r.Ok? <==> paths != [] && forall i | 0 <= i < |paths| :: PartReadable(manifests, store, paths[i])
    ensures r.Ok? ==> (forall i | 0 <= i < |paths| :: paths[i] in store) && r.value == Joined(BodiesOf(store, paths))
    ensures r.Err? && paths == [] ==> r.error == NoManifests
    ensures r.Err? && paths != [] ==> FailsFirst(paths, manifests, store, r.error)
  {
    if |paths| == 0 {
      return Err(NoManifests);
    }
    var rows: seq<RawRow> := [];
    for i := 0 to |paths|
      invariant forall k | 0 <= k < i :: PartReadable(manifests, store, paths[k])
      invariant forall k | 0 <= k < i :: paths[..i][k] in store
      invariant rows == Joined(BodiesOf(store, paths[..i]))
    {
      var p := paths[i];
      assert paths[..i + 1][..i] == paths[..i];
      if !PartReadable(manifests, store, p) {
        assert FailsAt(paths, manifests, store, WhyUnreadable(manifests, store, p), i);
        return Err(WhyUnreadable(manifests, store, p));
      }
      var bodies := BodiesOf(store, paths[..i]);
      assert (bodies + [store[p]])[..|bodies|] == bodies;
      rows := rows + store[p];
    }
    assert paths[..|paths|] == paths;
    r := Ok(rows);
  }

  ghost predicate FailsAt(paths: seq<Path>, manifests: map<Path, Manifest>, store: map<Path, seq<RawRow>>,
      e: RestoreError, i: nat) {
    && i < |paths| && paths[i] in manifests && !PartReadable(manifests, store, paths[i])
    && (forall k | 0 <= k < i :: PartReadable(manifests, store, paths[k]))
    && e == WhyUnreadable(manifests, store, paths[i])
  }

  ghost predicate FailsFirst(paths: seq<Path>, manifests: map<Path, Manifest>, store: map<Path, seq<RawRow>>,
      e: RestoreError) {
    exists i :: FailsAt(paths, manifests, store, e, i)
  }

  /** Every session with frames is listed once, with its frames in order. */
  ghost predicate SessionsAre(r: Restored) {
    && (forall s :: s in r.bySession <==> FramesOf(r.rows, s) != [])
    && (forall s | s in r.bySession :: r.bySession[s] == FramesOf(r.rows, s))
    && (forall s :: s in r.sessions <==> s in r.bySession)
    && (forall i, j | 0 <= i < j < |r.sessions| :: r.sessions[i] != r.sessions[j])
  }

  function WithFrame(r: Restored, row: RawRow): Restored {
    Restored(r.rows + [row],
             if row.session in r.bySession then r.sessions else r.sessions + [row.session],
             r.bySession[row.session := (if row.session in r.bySession then r.bySession[row.session] else []) + [row]])
  }

  lemma FramesSnoc(rows: seq<RawRow>, row: RawRow, s: SessionId)
    ensures FramesOf(rows + [row], s) == FramesOf(rows, s) + (if row.session == s then [row] else [])
  {
    assert (rows + [row])[..|rows|] == rows;
  }

  lemma OneMoreFrame(r: Restored, row: RawRow)
    requires SessionsAre(r)
    ensures SessionsAre(WithFrame(r, row))
  {
    hide FramesOf;
    var r' := WithFrame(r, row);
    forall s ensures FramesOf(r'.rows, s) == FramesOf(r.rows, s) + (if row.session == s then [row] else []) {
      FramesSnoc(r.rows, row, s);
    }
  }

  /** Sorts into capture order and groups by session. */
  method GroupSessions(rows: seq<RawRow>) returns (out: Restored)
    ensures out.rows == SortBy(rows, RestoresBefore) && SessionsAre(out)
  {
    hide SessionsAre, SortBy;
    var sorted := SortBy(rows, RestoresBefore);
    var bySession: map<SessionId, seq<RawRow>>, sessions: seq<SessionId> := map[], [];
    NoFrames();
    for i := 0 to |sorted|
      invariant SessionsAre(Restored(sorted[..i], sessions, bySession))
    {
      assert sorted[..i + 1] == sorted[..i] + [sorted[i]];
      OneMoreFrame(Restored(sorted[..i], sessions, bySession), sorted[i]);
      var r := sorted[i];
      if r.session !in bySession {
        sessions := sessions + [r.session];
      }
      bySession := bySession[r.session := (if r.session in bySession then bySession[r.session] else []) + [r]];
    }
    assert sorted[..|sorted|] == sorted;
    out := Restored(sorted, sessions, bySession);
  }

  lemma NoFrames()
    ensures SessionsAre(Restored([], [], map[]))
  {
  }

  /** Reads a partition back, session by session. */
  method Restore(paths: seq<Path>, manifests: map<Path, Manifest>, store: map<Path, seq<RawRow>>)
    returns (r: Result<Restored>)
    requires forall i | 0 <= i < |paths| :: paths[i] in manifests
    ensures r.Ok? <==> paths != [] && forall i | 0 <= i < |paths| :: PartReadable(manifests, store, paths[i])
    ensures r.Ok? ==> forall i | 0 <= i < |paths| :: paths[i] in store
    ensures r.Ok? ==> r.value.rows == SortBy(Joined(BodiesOf(store, paths)), RestoresBefore) && SessionsAre(r.value)
  {
    var read := ReadParts(paths, manifests, store);
    if read.Err? {
      return Err(read.error);
    }
    var out := GroupSessions(read.value);
    r := Ok(out);
  }

  // ---------------------------------------------------------------------------
  // Capture order comes back
  // ---------------------------------------------------------------------------

  /** Each session observed its frames in the order of their keys. */
  ghost predicate CapturedInOrder(captured: seq<RawRow>) {
    forall i, j | 0 <= i < j < |captured| && captured[i].session == captured[j].session ::
      CaptureKey(captured[i]) < CaptureKey(captured[j])
  }

  lemma RestoresBeforeIsOrder()
    ensures StrictWeakOrder(RestoresBefore)
  {
  }

  lemma {:induction false} FramesAre(rows: seq<RawRow>, s: SessionId, r: RawRow)
    ensures multiset(FramesOf(rows, s))[r] == if r.session == s then multiset(rows)[r] else 0
  {
    if rows != [] {
      FramesAre(rows[..|rows| - 1], s, r);
      assert rows == rows[..|rows| - 1] + [rows[|rows| - 1]];
    }
  }

  lemma SameFrames(a: seq<RawRow>, b: seq<RawRow>, s: SessionId)
    requires multiset(a) == multiset(b)
    ensures multiset(FramesOf(a, s)) == multiset(FramesOf(b, s))
  {
    forall r ensures multiset(FramesOf(a, s))[r] == multiset(FramesOf(b, s))[r] {
      FramesAre(a, s, r);
      FramesAre(b, s, r);
    }
  }

  lemma {:induction false} FrameIndex(rows: seq<RawRow>, s: SessionId, n: nat, x: nat) returns (i: nat)
    requires n <= |rows| && x < |FramesOf(rows[..n], s)|
    ensures i < n && rows[i] == FramesOf(rows[..n], s)[x] && rows[i].session == s && |FramesOf(rows[..i], s)| == x
  {
    assert rows[..n][..n - 1] == rows[..n - 1];
    if x < |FramesOf(rows[..n - 1], s)| {
      i := FrameIndex(rows, s, n - 1, x);
    } else {
      i := n - 1;
    }
  }

  lemma {:induction false} FramesGrow(rows: seq<RawRow>, s: SessionId, i: nat, j: nat)
    requires i <= j <= |rows|
    ensures |FramesOf(rows[..i], s)| <= |FramesOf(rows[..j], s)|
  {
    if i < j {
      assert rows[..j][..j - 1] == rows[..j - 1];
      FramesGrow(rows, s, i, j - 1);
    }
  }

  lemma FramesInOrder(rows: seq<RawRow>, s: SessionId, x: nat, y: nat) returns (i: nat, j: nat)
    requires x < y < |FramesOf(rows, s)|
    ensures i < j < |rows| && rows[i] == FramesOf(rows, s)[x] && rows[j] == FramesOf(rows, s)[y]
    ensures rows[i].session == s && rows[j].session == s
  {
    assert rows[..|rows|] == rows;
    i := FrameIndex(rows, s, |rows|, x);
    j := FrameIndex(rows, s, |rows|, y);
    if j <= i {
      FramesGrow(rows, s, j, i);
    }
  }

  /** Whatever order the rows were stored and read in, the restore sort gives each session its frames as captured. */
  lemma RestoreSortIsCaptureOrder(captured: seq<RawRow>, read: seq<RawRow>, s: SessionId)
    requires CapturedInOrder(captured) && multiset(read) == multiset(captured)
    ensures FramesOf(SortBy(read, RestoresBefore), s) == FramesOf(captured, s)
  {
    hide FramesOf, SortBy;
    var sorted := SortBy(read, RestoresBefore);
    RestoresBeforeIsOrder();
    SortBySorts(read, RestoresBefore);
    var a, b := FramesOf(captured, s), FramesOf(sorted, s);
    SameFrames(captured, sorted, s);
    forall x, y | 0 <= x < y < |a| ensures RestoresBefore(a[x], a[y]) {
      var i, j := FramesInOrder(captured, s, x, y);
    }
    forall x, y | 0 <= x < y < |b| ensures !RestoresBefore(b[y], b[x]) {
      var i, j := FramesInOrder(sorted, s, x, y);
    }
    SortedPermutationIsUnique(a, b, RestoresBefore);
  }

  /**
   * A partition archived in parts, over whatever groups, and read back in whatever order gives each
   * session its frames exactly as captured.
   */
  lemma ArchiveThenRestoreKeepsCapture(captured: seq<RawRow>, rows: seq<RawRow>, groups: seq<Group>,
                                       read: seq<seq<RawRow>>, s: SessionId)
    requires CapturedInOrder(captured) && multiset(rows) == multiset(captured) && AreGroups(groups, rows)
    requires multiset(read) == multiset(AllParts(rows, groups))
    ensures FramesOf(SortBy(Joined(read), RestoresBefore), s) == FramesOf(captured, s)
  {
    hide Joined, AllParts, FramesOf, SortBy, CapturedInOrder, AreGroups;
    PartsHoldEveryRowOnce(rows, groups);
    JoinedPermutation(read, AllParts(rows, groups));
    RestoreSortIsCaptureOrder(captured, Joined(read), s);
  }

  /** Stored parts with matching digests are the parts the manifests describe. */
  lemma {:induction false} BodiesAreDescribed(d: Archiving.Record, paths: seq<Path>)
    requires forall i | 0 <= i < |paths| :: DigestMatches(d, paths[i])
    ensures forall i | 0 <= i < |paths| :: paths[i] in d.store && paths[i] in d.manifests
    ensures BodiesOf(d.store, paths) == Described(d.manifests, paths)
  {
    assert forall i | 0 <= i < |paths| :: DigestMatches(d, paths[i]) && paths[i] in d.store;
    if paths != [] {
      var n := |paths| - 1;
      assert DigestMatches(d, paths[n]);
      BodiesAreDescribed(d, paths[..n]);
    }
  }

  /**
   * What verification promises: of a verified partition every part can be read, and reading them, in
   * whatever order their manifests are listed, gives each session its frames as captured.
   */
  lemma VerifiedPartitionRestores(d: Archiving.Record, paths: seq<Path>, captured: seq<RawRow>, s: SessionId)
    requires Sound(d) && Proven(d) && ListsAll(paths, d.manifests)
    requires CapturedInOrder(captured) && multiset(d.rows) == multiset(captured)
    ensures forall i | 0 <= i < |paths| :: PartReadable(d.manifests, d.store, paths[i]) && paths[i] in d.store
    ensures FramesOf(SortBy(Joined(BodiesOf(d.store, paths)), RestoresBefore), s) == FramesOf(captured, s)
    ensures paths == [] <==> captured == []
  {
    var groups := GroupsIn(d.rows);
    forall i | 0 <= i < |paths| ensures PartReadable(d.manifests, d.store, paths[i]) && DigestMatches(d, paths[i]) {
      assert paths[i] in paths;
      assert DigestMatches(d, paths[i]);
    }
    CountsAddUpToRows(d, paths);
    hide AllListed, AllMatch, KeptForGood, Described, AllParts, ById, GroupsIn, Joined, PartReadable, FramesOf, SortBy;
    ProvenOnlyBeforeADrop(d);
    hide OnlyParts, CapturedInOrder, BodiesOf;
    DescribedAreTheParts(d, paths, groups);
    BodiesAreDescribed(d, paths);
    ArchiveThenRestoreKeepsCapture(captured, d.rows, groups, BodiesOf(d.store, paths), s);
    assert |captured| == |multiset(captured)| == |multiset(d.rows)| == |d.rows|;
  }

  lemma CountsAddUpToRows(d: Archiving.Record, paths: seq<Path>)
    requires Sound(d) && Proven(d) && ListsAll(paths, d.manifests)
    ensures paths == [] <==> d.rows == []
  {
    hide KeptForGood, OnlyParts;
    ProvenOnlyBeforeADrop(d);
    CountsAddUp(d, paths);
    if paths != [] {
      hide AllListed, ById;
      assert paths[|paths| - 1] in paths;
      assert CountOf(d.manifests, paths) >= d.manifests[paths[|paths| - 1]].rowCount;
    }
  }

  /** The same after the partition was dropped: its manifests and parts are what they were. */
  lemma DroppedPartitionRestores(d: Archiving.Record, paths: seq<Path>, captured: seq<RawRow>, s: SessionId)
    requires Sound(d) && Proven(d) && ListsAll(paths, d.manifests)
    requires CapturedInOrder(captured) && multiset(d.rows) == multiset(captured)
    ensures var d' := AfterDrop(d);
      && d'.dropped == d.rows
      && (forall i | 0 <= i < |paths| :: PartReadable(d'.manifests, d'.store, paths[i]) && paths[i] in d'.store)
      && FramesOf(SortBy(Joined(BodiesOf(d'.store, paths)), RestoresBefore), s) == FramesOf(captured, s)
  {
    hide Sound, Proven, FramesOf, SortBy, Joined, BodiesOf, PartReadable, ListsAll, CapturedInOrder;
    ProvenOnlyBeforeADrop(d);
    VerifiedPartitionRestores(d, paths, captured, s);
    assert [] + d.rows == d.rows;
  }
}
