/**
 * `remove_deleted_files`: the sweep that drops catalog rows whose files or
 * folders have disappeared from disk, followed by the orphan cleanup.
 *
 * The filesystem is the predicate `present` (does a path exist?). The folder
 * query's result is the parameter `order`: every folder that has a parent,
 * each once. The query sorts it by path; the outcome does not depend on that
 * order, and `SweepFoldersCharacterized` proves as much.
 *
 * Two decodes panic: a folder row whose `path` is NULL (when the folder list
 * is fetched, before anything is deleted), and a child row whose `song_id`
 * is NULL (when that folder's children are fetched, after the earlier
 * folders were swept). Database errors are not modelled.
 */
module Reconciler {

  import opened Base
  import opened Catalog

  /** The filesystem: whether something exists at a path. */
  type PathExists = string -> bool

  // ---------------------------------------------------------------------
  // The queries.
  // ---------------------------------------------------------------------

  /** `WHERE parent_id IS NOT NULL`: every folder except the library root. */
  predicate Examined(t: Tables, folderId: Uuid)
  {
    folderId in t.folders && t.folders[folderId].parentId.Some?
  }

  /** `order` is what the folder query returns: every examined folder, once. */
  predicate IsFolderQuery(t: Tables, order: seq<Uuid>)
  {
    (forall i :: 0 <= i < |order| ==> Examined(t, order[i]))
    && (forall id :: Examined(t, id) ==> id in order)
    && (forall i, j :: 0 <= i < j < |order| ==> order[i] != order[j])
  }

  /** `row.get("path")` decodes for every returned folder. */
  predicate PathsDecode(t: Tables, order: seq<Uuid>)
    requires forall i :: 0 <= i < |order| ==> order[i] in t.folders
  {
    forall i :: 0 <= i < |order| ==> t.folders[order[i]].path.Some?
  }

  /** The decoded folder list: each folder id with its path. */
  function FolderRows(t: Tables, order: seq<Uuid>): (rows: seq<(Uuid, string)>)
    requires forall i :: 0 <= i < |order| ==> order[i] in t.folders
    requires PathsDecode(t, order)
    ensures |rows| == |order|
    ensures forall i :: 0 <= i < |order| ==> rows[i] == (order[i], t.folders[order[i]].path.value)
  {
    seq(|order|, i requires 0 <= i < |order| => (order[i], t.folders[order[i]].path.value))
  }

  /** `row.get("song_id")` decodes for every child of the folder. */
  predicate ChildrenDecode(t: Tables, folderId: Uuid)
  {
    forall k :: k in t.folderChildren && t.folderChildren[k].folderId == folderId ==> t.folderChildren[k].songId.Some?
  }

  // ---------------------------------------------------------------------
  // The sweep, one folder at a time.
  // ---------------------------------------------------------------------

  /** The children of the folder whose files no longer exist. */
  function GoneChildren(t: Tables, present: PathExists, folderId: Uuid): set<Uuid>
  {
    set k | k in t.folderChildren && t.folderChildren[k].folderId == folderId && !present(t.folderChildren[k].path)
  }

  /** The song ids of those children. */
  function SongsOf(t: Tables, children: set<Uuid>): set<Uuid>
  {
    set k | k in children && k in t.folderChildren && t.folderChildren[k].songId.Some? :: t.folderChildren[k].songId.value
  }

  /** Deleting folder children by id and, by song id, songs and failed children. */
  function RemoveChildren(t: Tables, children: set<Uuid>, songIds: set<Uuid>): Tables
  {
    t.(folderChildren := t.folderChildren - children,
       failedChildren := t.failedChildren - songIds,
       songs := t.songs - songIds)
  }

  /**
   * One turn of the outer loop: fetch the folder's children (a NULL song id
   * panics), delete each child whose file is gone, then the folder itself
   * when its path is gone. The flag says whether it panicked.
   */
  function SweepFolder(t: Tables, present: PathExists, folderId: Uuid, path: string): (Tables, bool)
  {
    if !ChildrenDecode(t, folderId) then (t, true)
    else
      var gone := GoneChildren(t, present, folderId);
      var t1 := RemoveChildren(t, gone, SongsOf(t, gone));
      (if present(path) then t1 else DeleteFolder(t1, folderId), false)
  }

  /** The outer loop: folders in list order, stopping at the first panic. */
  function SweepFolders(t: Tables, present: PathExists, rows: seq<(Uuid, string)>): (Tables, bool)
    decreases |rows|
  {
    if rows == [] then (t, false)
    else
      var r := SweepFolders(t, present, rows[..|rows| - 1]);
      if r.1 then r else SweepFolder(r.0, present, rows[|rows| - 1].0, rows[|rows| - 1].1)
  }

  /** The whole task: the sweep, then the orphan deletes, then the cover-art and starred deletes. */
  function RemoveDeletedFilesSpec(t: Tables, present: PathExists, order: seq<Uuid>): (Tables, Outcome)
    requires IsFolderQuery(t, order)
  {
    if !PathsDecode(t, order) then (t, Panicked)
    else
      var r := SweepFolders(t, present, FolderRows(t, order));
      if r.1 then (r.0, Panicked)
      else (DeleteUnreferenced(DeleteOrphans(r.0)), Done)
  }

  // ---------------------------------------------------------------------
  // What the sweep amounts to, independently of the folder order.
  // ---------------------------------------------------------------------

  function Ids(rows: seq<(Uuid, string)>): set<Uuid>
  {
    set i | 0 <= i < |rows| :: rows[i].0
  }

  /** The listed folders whose own path is gone. */
  function MissingFolders(present: PathExists, rows: seq<(Uuid, string)>): set<Uuid>
  {
    set i | 0 <= i < |rows| && !present(rows[i].1) :: rows[i].0
  }

  /** The children of any of the folders `ids` whose files are gone. */
  function GoneUnder(t: Tables, present: PathExists, ids: set<Uuid>): set<Uuid>
  {
    set k | k in t.folderChildren && t.folderChildren[k].folderId in ids && !present(t.folderChildren[k].path)
  }

  /** The tables after sweeping the listed folders, as one set of deletions. */
  function Swept(t: Tables, present: PathExists, rows: seq<(Uuid, string)>): Tables
  {
    var gone := GoneUnder(t, present, Ids(rows));
    RemoveChildren(t, gone, SongsOf(t, gone)).(folders := t.folders - MissingFolders(present, rows))
  }

  lemma IdsSnoc(rows: seq<(Uuid, string)>, present: PathExists)
    requires rows != []
    ensures Ids(rows) == Ids(rows[..|rows| - 1]) + {rows[|rows| - 1].0}
    ensures MissingFolders(present, rows) ==
      MissingFolders(present, rows[..|rows| - 1]) + (if present(rows[|rows| - 1].1) then {} else {rows[|rows| - 1].0})
  {
    var p := rows[..|rows| - 1];
    assert forall i :: 0 <= i < |p| ==> p[i] == rows[i];
    forall x | x in Ids(rows) ensures x in Ids(p) + {rows[|rows| - 1].0} {
      var i :| 0 <= i < |rows| && rows[i].0 == x;
      if i < |p| { assert p[i].0 == x; }
    }
    forall x | x in MissingFolders(present, rows)
      ensures x in MissingFolders(present, p) + (if present(rows[|rows| - 1].1) then {} else {rows[|rows| - 1].0})
    {
      var i :| 0 <= i < |rows| && !present(rows[i].1) && rows[i].0 == x;
      if i < |p| { assert p[i].0 == x; }
    }
  }

  lemma GoneUnderSnoc(t: Tables, present: PathExists, ids: set<Uuid>, id: Uuid)
    ensures GoneUnder(t, present, ids + {id}) == GoneUnder(t, present, ids) + GoneChildren(t, present, id)
  {
  }

  lemma SongsOfUnion(t: Tables, a: set<Uuid>, b: set<Uuid>)
    ensures SongsOf(t, a + b) == SongsOf(t, a) + SongsOf(t, b)
  {
    forall s | s in SongsOf(t, a + b) ensures s in SongsOf(t, a) + SongsOf(t, b) {
      var k :| k in a + b && k in t.folderChildren && t.folderChildren[k].songId.Some? && t.folderChildren[k].songId.value == s;
      if k in a { assert s in SongsOf(t, a); } else { assert s in SongsOf(t, b); }
    }
  }

  /** Sweeping other folders neither decodes differently nor removes this folder's children. */
  lemma SweepLeavesOthers(t: Tables, present: PathExists, ids: set<Uuid>, id: Uuid, s: set<Uuid>)
    requires id !in ids
    ensures var u := RemoveChildren(t, GoneUnder(t, present, ids), s);
      (ChildrenDecode(t, id) ==> ChildrenDecode(u, id))
      && GoneChildren(u, present, id) == GoneChildren(t, present, id)
      && SongsOf(u, GoneChildren(t, present, id)) == SongsOf(t, GoneChildren(t, present, id))
  {
  }

  lemma RemoveChildrenTwice(t: Tables, a: set<Uuid>, sa: set<Uuid>, b: set<Uuid>, sb: set<Uuid>)
    ensures RemoveChildren(RemoveChildren(t, a, sa), b, sb) == RemoveChildren(t, a + b, sa + sb)
  {
    assert t.folderChildren - a - b == t.folderChildren - (a + b);
    assert t.failedChildren - sa - sb == t.failedChildren - (sa + sb);
    assert t.songs - sa - sb == t.songs - (sa + sb);
  }

  /** Sweeping one more folder is sweeping the larger list at once. */
  lemma SweepStep(t: Tables, present: PathExists, rows: seq<(Uuid, string)>)
    requires rows != []
    requires rows[|rows| - 1].0 !in Ids(rows[..|rows| - 1])
    requires ChildrenDecode(t, rows[|rows| - 1].0)
    ensures SweepFolder(Swept(t, present, rows[..|rows| - 1]), present, rows[|rows| - 1].0, rows[|rows| - 1].1)
      == (Swept(t, present, rows), false)
  {
    var p := rows[..|rows| - 1];
    var (id, path) := rows[|rows| - 1];
    var before := GoneUnder(t, present, Ids(p));
    var mine := GoneChildren(t, present, id);
    var r := RemoveChildren(t, before, SongsOf(t, before));
    var u := Swept(t, present, p);
    assert u == r.(folders := t.folders - MissingFolders(present, p));
    SweepLeavesOthers(t, present, Ids(p), id, SongsOf(t, before));
    assert ChildrenDecode(u, id) && GoneChildren(u, present, id) == mine && SongsOf(u, mine) == SongsOf(t, mine);
    var t1 := RemoveChildren(u, mine, SongsOf(t, mine));
    assert SweepFolder(u, present, id, path) == (if present(path) then t1 else DeleteFolder(t1, id), false);
    RemoveChildrenTwice(t, before, SongsOf(t, before), mine, SongsOf(t, mine));
    IdsSnoc(rows, present);
    GoneUnderSnoc(t, present, Ids(p), id);
    SongsOfUnion(t, before, mine);
    var all := GoneUnder(t, present, Ids(rows));
    assert all == before + mine;
    assert t1 == RemoveChildren(t, all, SongsOf(t, all)).(folders := t.folders - MissingFolders(present, p));
    var swept := Swept(t, present, rows);
    assert swept == RemoveChildren(t, all, SongsOf(t, all)).(folders := t.folders - MissingFolders(present, rows));
    if present(path) {
      assert MissingFolders(present, rows) == MissingFolders(present, p);
      assert t1 == swept;
    } else {
      assert t.folders - MissingFolders(present, p) - {id} == t.folders - MissingFolders(present, rows);
      assert DeleteFolder(t1, id) == swept;
    }
  }

  /**
   * When every listed folder's children decode, the outer loop never panics
   * and deletes exactly the gone children of the listed folders (with their
   * songs and song-keyed failed rows) and the listed folders whose paths are
   * gone, whatever the order of the list.
   */
  lemma {:induction false} SweepFoldersCharacterized(t: Tables, present: PathExists, rows: seq<(Uuid, string)>)
    requires forall i, j :: 0 <= i < j < |rows| ==> rows[i].0 != rows[j].0
    requires forall i :: 0 <= i < |rows| ==> ChildrenDecode(t, rows[i].0)
    ensures SweepFolders(t, present, rows) == (Swept(t, present, rows), false)
    decreases |rows|
  {
    if rows == [] {
      assert Ids(rows) == {} && MissingFolders(present, rows) == {};
      assert GoneUnder(t, present, {}) == {};
      assert SongsOf(t, {}) == {};
      assert t.folders - {} == t.folders;
      assert RemoveChildren(t, {}, {}) == t;
    } else {
      var p := rows[..|rows| - 1];
      assert forall i :: 0 <= i < |p| ==> p[i] == rows[i];
      SweepFoldersCharacterized(t, present, p);
      assert rows[|rows| - 1].0 !in Ids(p);
      SweepStep(t, present, rows);
    }
  }

  /** Once the outer loop has panicked, the later folders are not visited. */
  lemma {:induction false} PanicStops(t: Tables, present: PathExists, rows: seq<(Uuid, string)>, n: nat)
    requires n <= |rows| && SweepFolders(t, present, rows[..n]).1
    ensures SweepFolders(t, present, rows) == SweepFolders(t, present, rows[..n])
    decreases |rows| - n
  {
    if n < |rows| {
      assert rows[..n + 1][..n] == rows[..n];
      PanicStops(t, present, rows, n + 1);
    } else {
      assert rows[..n] == rows;
    }
  }

  // ---------------------------------------------------------------------
  // Properties of the reconciler.
  // ---------------------------------------------------------------------

  /** A folder without a decodable path panics the reconciler before anything is deleted. */
  lemma NullFolderPathPanics(t: Tables, present: PathExists, order: seq<Uuid>, i: nat)
    requires IsFolderQuery(t, order)
    requires i < |order| && t.folders[order[i]].path.None?
    ensures RemoveDeletedFilesSpec(t, present, order) == (t, Panicked)
  {
  }

  /**
   * The folder insert never binds `path`: over a catalog whose folders were
   * all stored that way, the reconciler panics as soon as there is any folder
   * besides the root.
   */
  lemma StoredFoldersPanic(t: Tables, present: PathExists, order: seq<Uuid>, folderId: Uuid)
    requires IsFolderQuery(t, order)
    requires forall k :: k in t.folders ==> t.folders[k].path.None?
    requires Examined(t, folderId)
    ensures RemoveDeletedFilesSpec(t, present, order) == (t, Panicked)
  {
    var i :| 0 <= i < |order| && order[i] == folderId;
    NullFolderPathPanics(t, present, order, i);
  }

  /** The conditions under which the reconciler completes. */
  predicate Decodes(t: Tables, order: seq<Uuid>)
    requires IsFolderQuery(t, order)
  {
    PathsDecode(t, order) && forall i :: 0 <= i < |order| ==> ChildrenDecode(t, order[i])
  }

  /** When everything decodes, the reconciler completes and its effect is the order-free `Swept` plus the cleanup. */
  lemma {:induction false} RemoveDeletedFilesDone(t: Tables, present: PathExists, order: seq<Uuid>)
    requires IsFolderQuery(t, order) && Decodes(t, order)
    ensures RemoveDeletedFilesSpec(t, present, order) ==
      (DeleteUnreferenced(DeleteOrphans(Swept(t, present, FolderRows(t, order)))), Done)
  {
    var rows := FolderRows(t, order);
    SweepFoldersCharacterized(t, present, rows);
  }

  lemma ExaminedIds(t: Tables, order: seq<Uuid>)
    requires IsFolderQuery(t, order) && PathsDecode(t, order)
    ensures forall id :: id in Ids(FolderRows(t, order)) <==> Examined(t, id)
  {
    var rows := FolderRows(t, order);
    forall id | Examined(t, id) ensures id in Ids(rows) {
      var i :| 0 <= i < |order| && order[i] == id;
      assert rows[i].0 == id;
    }
  }

  lemma MissingIds(t: Tables, present: PathExists, order: seq<Uuid>)
    requires IsFolderQuery(t, order) && PathsDecode(t, order)
    ensures forall id :: id in MissingFolders(present, FolderRows(t, order)) <==>
      Examined(t, id) && !present(t.folders[id].path.value)
  {
    var rows := FolderRows(t, order);
    forall id | Examined(t, id) && !present(t.folders[id].path.value)
      ensures id in MissingFolders(present, rows)
    {
      var i :| 0 <= i < |order| && order[i] == id;
      assert rows[i] == (id, t.folders[id].path.value);
    }
  }

  /**
   * A folder child survives exactly when its folder is not examined (the
   * root's children are never swept) or its file still exists, and a
   * surviving child row is unchanged.
   */
  lemma ChildKeptUnlessGone(t: Tables, present: PathExists, order: seq<Uuid>, k: Uuid)
    requires IsFolderQuery(t, order) && Decodes(t, order)
    ensures var u := RemoveDeletedFilesSpec(t, present, order).0;
      (k in u.folderChildren <==>
        k in t.folderChildren
        && (!Examined(t, t.folderChildren[k].folderId) || present(t.folderChildren[k].path)))
      && (k in u.folderChildren ==> u.folderChildren[k] == t.folderChildren[k])
  {
    RemoveDeletedFilesDone(t, present, order);
    ExaminedIds(t, order);
  }

  /**
   * A removed child takes with it the song row with its song id and the
   * failed-child row whose id equals that song id (the second statement is
   * bound to the song id, not the child id).
   */
  lemma GoneChildTakesSong(t: Tables, present: PathExists, order: seq<Uuid>, k: Uuid)
    requires IsFolderQuery(t, order) && Decodes(t, order)
    requires k in t.folderChildren && Examined(t, t.folderChildren[k].folderId) && !present(t.folderChildren[k].path)
    ensures t.folderChildren[k].songId.Some?
    ensures var u := RemoveDeletedFilesSpec(t, present, order).0;
      t.folderChildren[k].songId.value !in u.songs
      && t.folderChildren[k].songId.value !in u.failedChildren
  {
    RemoveDeletedFilesDone(t, present, order);
    ExaminedIds(t, order);
    var i :| 0 <= i < |order| && order[i] == t.folderChildren[k].folderId;
    assert ChildrenDecode(t, order[i]);
    var rows := FolderRows(t, order);
    assert k in GoneUnder(t, present, Ids(rows));
  }

  /** A song survives exactly when no removed child carries its id. */
  lemma SongKeptUnlessGone(t: Tables, present: PathExists, order: seq<Uuid>, s: Uuid)
    requires IsFolderQuery(t, order) && Decodes(t, order)
    ensures var u := RemoveDeletedFilesSpec(t, present, order).0;
      s in u.songs <==>
        s in t.songs
        && !exists k :: k in t.folderChildren && t.folderChildren[k].songId == Some(s)
             && Examined(t, t.folderChildren[k].folderId) && !present(t.folderChildren[k].path)
  {
    RemoveDeletedFilesDone(t, present, order);
    ExaminedIds(t, order);
  }

  /** A folder row survives exactly when it is the root or its own path still exists. */
  lemma FolderKeptUnlessGone(t: Tables, present: PathExists, order: seq<Uuid>, id: Uuid)
    requires IsFolderQuery(t, order) && Decodes(t, order)
    ensures var u := RemoveDeletedFilesSpec(t, present, order).0;
      id in u.folders <==> id in t.folders && (!Examined(t, id) || present(t.folders[id].path.value))
  {
    RemoveDeletedFilesDone(t, present, order);
    MissingIds(t, present, order);
  }

  /**
   * After the orphan deletes, an album, an artist or an album-artist link
   * remains exactly when a song carries its id (both ids, for a link).
   */
  lemma OrphansGone(t: Tables, id: Uuid, link: (Uuid, Uuid))
    ensures var u := DeleteUnreferenced(DeleteOrphans(t));
      u.songs == t.songs
      && (id in u.albums <==> id in t.albums && AlbumHasSong(u, id))
      && (id in u.artists <==> id in t.artists && ArtistHasSong(u, id))
      && (link in u.albumArtists <==> link in t.albumArtists && LinkHasSong(u, link))
  {
  }

  /** An artist that still has a song after the sweep is kept, with its row unchanged. */
  lemma ArtistWithSongKept(t: Tables, present: PathExists, order: seq<Uuid>, artistId: Uuid, songId: Uuid)
    requires IsFolderQuery(t, order) && Decodes(t, order)
    requires artistId in t.artists && songId in t.songs
    requires songId in RemoveDeletedFilesSpec(t, present, order).0.songs
    requires t.songs[songId].artistId == Some(artistId)
    ensures var u := RemoveDeletedFilesSpec(t, present, order).0;
      artistId in u.artists && u.artists[artistId] == t.artists[artistId]
  {
    RemoveDeletedFilesDone(t, present, order);
    var s := Swept(t, present, FolderRows(t, order));
    assert songId in s.songs && s.songs[songId] == t.songs[songId];
    assert ArtistHasSong(s, artistId);
  }

  /**
   * Cover art and stars: if some song lacks an artist or an album, `NOT IN`
   * never holds and nothing is deleted; otherwise a row stays exactly when
   * some song's own, artist or album id equals its id.
   */
  lemma UnreferencedGone(t: Tables, id: Uuid)
    ensures var u := DeleteUnreferenced(t);
      u.songs == t.songs
      && (SongRefsHaveNull(t) ==> u.coverArt == t.coverArt && u.starred == t.starred)
      && (!SongRefsHaveNull(t) ==>
            (id in u.coverArt <==> id in t.coverArt && SongRefersTo(t, id))
            && (id in u.starred <==> id in t.starred && SongRefersTo(t, id)))
  {
    if SongRefsHaveNull(t) {
      assert DeleteUnreferenced(t).coverArt == t.coverArt;
      assert DeleteUnreferenced(t).starred == t.starred;
    }
  }

  // ---------------------------------------------------------------------
  // The reconciler as it runs against the database.
  // ---------------------------------------------------------------------

  /** The folder query's decoding: `None` when some row's path is NULL. */
  method FetchFolders(db: Db, order: seq<Uuid>) returns (rows: Option<seq<(Uuid, string)>>)
    requires forall i :: 0 <= i < |order| ==> order[i] in db.folders
    ensures rows.None? <==> !PathsDecode(db.Snapshot(), order)
    ensures rows.Some? ==> rows.value == FolderRows(db.Snapshot(), order)
  {
    var acc: seq<(Uuid, string)> := [];
    var i := 0;
    while i < |order|
      invariant 0 <= i <= |order| && |acc| == i
      invariant forall j :: 0 <= j < i ==>
        db.folders[order[j]].path.Some? && acc[j] == (order[j], db.folders[order[j]].path.value)
    {
      var path := db.folders[order[i]].path;
      if path.None? {
        return None;
      }
      acc := acc + [(order[i], path.value)];
      i := i + 1;
    }
    rows := Some(acc);
  }

  function GoneIn(present: PathExists, rows: seq<DbFolderChild>, n: nat): set<Uuid>
    requires n <= |rows|
  {
    set i | 0 <= i < n && !present(rows[i].path) :: rows[i].folderChildId
  }

  function GoneSongsIn(present: PathExists, rows: seq<DbFolderChild>, n: nat): set<Uuid>
    requires n <= |rows|
  {
    set i | 0 <= i < n && !present(rows[i].path) && rows[i].songId.Some? :: rows[i].songId.value
  }

  lemma GoneInStep(present: PathExists, rows: seq<DbFolderChild>, n: nat)
    requires 0 < n <= |rows|
    ensures GoneIn(present, rows, n) ==
      GoneIn(present, rows, n - 1) + (if present(rows[n - 1].path) then {} else {rows[n - 1].folderChildId})
    ensures GoneSongsIn(present, rows, n) ==
      GoneSongsIn(present, rows, n - 1)
      + (if present(rows[n - 1].path) || rows[n - 1].songId.None? then {} else {rows[n - 1].songId.value})
  {
    forall x | x in GoneIn(present, rows, n)
      ensures x in GoneIn(present, rows, n - 1) + (if present(rows[n - 1].path) then {} else {rows[n - 1].folderChildId})
    {
      var i :| 0 <= i < n && !present(rows[i].path) && rows[i].folderChildId == x;
      if i < n - 1 { assert x in GoneIn(present, rows, n - 1); }
    }
    forall x | x in GoneSongsIn(present, rows, n)
      ensures x in GoneSongsIn(present, rows, n - 1)
        + (if present(rows[n - 1].path) || rows[n - 1].songId.None? then {} else {rows[n - 1].songId.value})
    {
      var i :| 0 <= i < n && !present(rows[i].path) && rows[i].songId.Some? && rows[i].songId.value == x;
      if i < n - 1 { assert x in GoneSongsIn(present, rows, n - 1); }
    }
  }

  lemma NoneGoneYet(t: Tables, present: PathExists, rows: seq<DbFolderChild>)
    ensures RemoveChildren(t, GoneIn(present, rows, 0), GoneSongsIn(present, rows, 0)) == t
  {
    assert GoneIn(present, rows, 0) == {} && GoneSongsIn(present, rows, 0) == {};
    assert t.folderChildren - {} == t.folderChildren;
    assert t.failedChildren - {} == t.failedChildren;
    assert t.songs - {} == t.songs;
  }

  /** The first `n` turns of the children loop, statement by statement. */
  function DeletedChildren(t: Tables, present: PathExists, rows: seq<DbFolderChild>, n: nat): Tables
    requires n <= |rows| && forall i :: 0 <= i < |rows| ==> rows[i].songId.Some?
  {
    if n == 0 then t
    else
      var before := DeletedChildren(t, present, rows, n - 1);
      if present(rows[n - 1].path) then before
      else DeleteRemovedChild(before, rows[n - 1].folderChildId, rows[n - 1].songId.value)
  }

  /** Deleting the gone children one at a time removes them, their songs and their song-keyed failed rows. */
  lemma {:induction false} DeletedChildrenAtOnce(t: Tables, present: PathExists, rows: seq<DbFolderChild>, n: nat)
    requires n <= |rows| && forall i :: 0 <= i < |rows| ==> rows[i].songId.Some?
    ensures DeletedChildren(t, present, rows, n) ==
      RemoveChildren(t, GoneIn(present, rows, n), GoneSongsIn(present, rows, n))
  {
    if n == 0 {
      NoneGoneYet(t, present, rows);
    } else {
      DeletedChildrenAtOnce(t, present, rows, n - 1);
      GoneInStep(present, rows, n);
      var row := rows[n - 1];
      RemoveOneMore(t, GoneIn(present, rows, n - 1), GoneSongsIn(present, rows, n - 1),
        present(row.path), row.folderChildId, row.songId.value,
        DeletedChildren(t, present, rows, n - 1), DeletedChildren(t, present, rows, n),
        GoneIn(present, rows, n), GoneSongsIn(present, rows, n));
    }
  }

  /** Deleting one more child (or none, when its file is present) extends the removal by that child. */
  lemma RemoveOneMore(t: Tables, gone: set<Uuid>, goneSongs: set<Uuid>, present: bool, childId: Uuid, songId: Uuid,
                      before: Tables, after: Tables, gone': set<Uuid>, goneSongs': set<Uuid>)
    requires before == RemoveChildren(t, gone, goneSongs)
    requires after == if present then before else DeleteRemovedChild(before, childId, songId)
    requires gone' == gone + (if present then {} else {childId})
    requires goneSongs' == goneSongs + (if present then {} else {songId})
    ensures after == RemoveChildren(t, gone', goneSongs')
  {
    if present {
      assert gone' == gone && goneSongs' == goneSongs;
    } else {
      RemoveChildrenTwice(t, gone, goneSongs, {childId}, {songId});
    }
  }

  /** The fetched rows list the folder's children, so their gone ones are the folder's gone children. */
  lemma ListedGone(t: Tables, present: PathExists, folderId: Uuid, rows: seq<DbFolderChild>)
    requires WellKeyed(t)
    requires forall i :: 0 <= i < |rows| ==>
      rows[i].folderChildId in t.folderChildren && t.folderChildren[rows[i].folderChildId] == rows[i]
      && rows[i].folderId == folderId
    requires forall k :: k in t.folderChildren && t.folderChildren[k].folderId == folderId ==>
      exists i :: 0 <= i < |rows| && rows[i].folderChildId == k
    ensures GoneIn(present, rows, |rows|) == GoneChildren(t, present, folderId)
    ensures GoneSongsIn(present, rows, |rows|) == SongsOf(t, GoneChildren(t, present, folderId))
  {
    var gone := GoneChildren(t, present, folderId);
    forall k | k in gone ensures k in GoneIn(present, rows, |rows|) {
      var i :| 0 <= i < |rows| && rows[i].folderChildId == k;
    }
    forall s | s in SongsOf(t, gone) ensures s in GoneSongsIn(present, rows, |rows|) {
      var k :| k in gone && k in t.folderChildren && t.folderChildren[k].songId.Some? && t.folderChildren[k].songId.value == s;
      var i :| 0 <= i < |rows| && rows[i].folderChildId == k;
    }
    forall s | s in GoneSongsIn(present, rows, |rows|) ensures s in SongsOf(t, gone) {
      var i :| 0 <= i < |rows| && !present(rows[i].path) && rows[i].songId.Some? && rows[i].songId.value == s;
      assert rows[i].folderChildId in gone;
    }
  }

  /** The fetched rows have song ids exactly when the folder's children decode. */
  lemma ListedDecode(t: Tables, folderId: Uuid, rows: seq<DbFolderChild>)
    requires forall i :: 0 <= i < |rows| ==>
      rows[i].folderChildId in t.folderChildren && t.folderChildren[rows[i].folderChildId] == rows[i]
      && rows[i].folderId == folderId
    requires forall k :: k in t.folderChildren && t.folderChildren[k].folderId == folderId ==>
      exists i :: 0 <= i < |rows| && rows[i].folderChildId == k
    ensures ChildrenDecode(t, folderId) <==> forall i :: 0 <= i < |rows| ==> rows[i].songId.Some?
  {
    if forall i :: 0 <= i < |rows| ==> rows[i].songId.Some? {
      forall k | k in t.folderChildren && t.folderChildren[k].folderId == folderId
        ensures t.folderChildren[k].songId.Some?
      {
        var i :| 0 <= i < |rows| && rows[i].folderChildId == k;
      }
    }
  }

  /** The children loop: deletes the gone children one statement at a time. */
  method DeleteGoneChildren(db: Db, present: PathExists, rows: seq<DbFolderChild>)
    requires db.Valid()
    requires forall i :: 0 <= i < |rows| ==> rows[i].songId.Some?
    modifies db
    ensures db.Valid()
    ensures db.Snapshot() ==
      RemoveChildren(old(db.Snapshot()), GoneIn(present, rows, |rows|), GoneSongsIn(present, rows, |rows|))
  {
    ghost var t0 := db.Snapshot();
    var j := 0;
    while j < |rows|
      invariant 0 <= j <= |rows| && db.Valid()
      invariant db.Snapshot() == DeletedChildren(t0, present, rows, j)
    {
      if !present(rows[j].path) {
        db.DeleteRemovedChildRows(rows[j].folderChildId, rows[j].songId.value);
      }
      j := j + 1;
    }
    DeletedChildrenAtOnce(t0, present, rows, |rows|);
  }

  /** One turn of the folder loop; `panicked` when a child's song id is NULL. */
  method SweepFolderRows(db: Db, present: PathExists, folderId: Uuid, path: string) returns (panicked: bool)
    requires db.Valid()
    modifies db
    ensures db.Valid()
    ensures (db.Snapshot(), panicked) == SweepFolder(old(db.Snapshot()), present, folderId, path)
  {
    ghost var t0 := db.Snapshot();
    var folderDeleted := !present(path);
    var rows := db.FindChildrenOfFolder(folderId);
    ListedDecode(t0, folderId, rows);
    var i := 0;
    while i < |rows|
      invariant 0 <= i <= |rows|
      invariant forall j :: 0 <= j < i ==> rows[j].songId.Some?
    {
      if rows[i].songId.None? {
        return true;
      }
      i := i + 1;
    }
    ListedGone(t0, present, folderId, rows);
    DeleteGoneChildren(db, present, rows);
    if folderDeleted {
      db.DeleteFolderRow(folderId);
    }
    panicked := false;
  }

  /** `remove_deleted_files`, given the folder query's result. */
  method RemoveDeletedFiles(db: Db, present: PathExists, order: seq<Uuid>) returns (r: Outcome)
    requires db.Valid() && IsFolderQuery(db.Snapshot(), order)
    modifies db
    ensures db.Valid()
    ensures (db.Snapshot(), r) == RemoveDeletedFilesSpec(old(db.Snapshot()), present, order)
  {
    ghost var t0 := db.Snapshot();
    var folders := FetchFolders(db, order);
    if folders.None? {
      return Panicked;
    }
    var rows := folders.value;
    assert rows[..0] == [];
    var i := 0;
    while i < |rows|
      invariant 0 <= i <= |rows| && db.Valid()
      invariant SweepFolders(t0, present, rows[..i]) == (db.Snapshot(), false)
    {
      assert rows[..i + 1][..i] == rows[..i];
      var panicked := SweepFolderRows(db, present, rows[i].0, rows[i].1);
      if panicked {
        PanicStops(t0, present, rows, i + 1);
        return Panicked;
      }
      i := i + 1;
    }
    assert rows[..i] == rows;
    db.DeleteOrphanRows();
    db.DeleteUnreferencedRows();
    r := Done;
  }
}
