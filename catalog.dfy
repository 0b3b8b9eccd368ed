/**
 * The catalog store: the SQLite tables the engine reads and writes, and the
 * `Db` handle whose operations insert rows if absent, link albums to
 * artists, touch folder children and look rows up.
 *
 * Rows carry the union of the columns used by the revisions the engine was
 * written against: `DbFolder.path` (read by the deletion sweep, never bound
 * by the folder insert) and `DbArtist.musicbrainzId` (set by enrichment,
 * never bound by the artist insert).
 */
module Catalog {

  import opened Base

  datatype DbFolder = DbFolder(
    folderId: Uuid,
    parentId: Option<Uuid>,
    name: string,
    coverArtId: Option<Uuid>,
    created: Timestamp,
    path: Option<string>)

  datatype DbFolderChild = DbFolderChild(
    folderChildId: Uuid,
    folderId: Uuid,
    path: string,
    name: string,
    songId: Option<Uuid>,
    lastUpdated: Option<Timestamp>)

  datatype DbFailedFolderChild = DbFailedFolderChild(
    folderChildId: Uuid,
    folderId: Uuid,
    path: string)

  datatype DbAlbum = DbAlbum(
    albumId: Uuid,
    title: string,
    coverArtId: Option<Uuid>)

  datatype DbArtist = DbArtist(
    artistId: Uuid,
    name: string,
    coverArtId: Option<Uuid>,
    musicbrainzId: Option<string>)

  datatype DbSong = DbSong(
    songId: Uuid,
    title: string,
    created: Timestamp,
    date: Option<Timestamp>,
    coverArtId: Option<Uuid>,
    artistId: Option<Uuid>,
    albumId: Option<Uuid>,
    contentType: Option<string>,
    suffix: Option<string>,
    size: Option<U32>,
    trackNumber: Option<U32>,
    discNumber: Option<U32>,
    duration: Option<Duration>,
    bitRate: Option<U32>,
    genre: Option<string>)

  datatype DbCoverArt = DbCoverArt(coverArtId: Uuid, data: seq<Byte>)

  /** The whole database as a value. */
  datatype Tables = Tables(
    folders: map<Uuid, DbFolder>,
    folderChildren: map<Uuid, DbFolderChild>,
    failedChildren: map<Uuid, DbFailedFolderChild>,
    albums: map<Uuid, DbAlbum>,
    artists: map<Uuid, DbArtist>,
    songs: map<Uuid, DbSong>,
    coverArt: map<Uuid, DbCoverArt>,
    albumArtists: set<(Uuid, Uuid)>,
    starred: map<Uuid, Timestamp>)

  const EMPTY: Tables := Tables(map[], map[], map[], map[], map[], map[], map[], {}, map[])

  /** Every row is stored under its own primary key. */
  ghost predicate WellKeyed(t: Tables)
  {
    (forall k :: k in t.folders ==> t.folders[k].folderId == k)
    && (forall k :: k in t.folderChildren ==> t.folderChildren[k].folderChildId == k)
    && (forall k :: k in t.failedChildren ==> t.failedChildren[k].folderChildId == k)
    && (forall k :: k in t.albums ==> t.albums[k].albumId == k)
    && (forall k :: k in t.artists ==> t.artists[k].artistId == k)
    && (forall k :: k in t.songs ==> t.songs[k].songId == k)
    && (forall k :: k in t.coverArt ==> t.coverArt[k].coverArtId == k)
  }

  // ---------------------------------------------------------------------
  // What each statement does to the tables. `INSERT ... ON CONFLICT (key)
  // DO UPDATE SET key = key` keeps an existing row untouched; only the
  // listed columns are bound, so unlisted ones start out NULL.
  // ---------------------------------------------------------------------

  /** An insert that keeps an existing entry. */
  function PutIfAbsent<V>(m: map<Uuid, V>, k: Uuid, v: V): (r: map<Uuid, V>)
    ensures k in r && SubMap(m, r)
    ensures k in m ==> r == m
    ensures k !in m ==> r == m[k := v]
  {
    if k in m then m else m[k := v]
  }

  /** The row `insert_folder_if_not_exists` stores: `path` is not bound. */
  function StoredFolder(f: DbFolder): (r: DbFolder)
    ensures r.path.None?
    ensures r.(path := f.path) == f
  {
    f.(path := None)
  }

  function InsertFolder(t: Tables, f: DbFolder): Tables
  {
    t.(folders := PutIfAbsent(t.folders, f.folderId, StoredFolder(f)))
  }

  /** The row `insert_folder_child_if_not_exists` stores: `last_updated` is not bound. */
  function StoredFolderChild(c: DbFolderChild): (r: DbFolderChild)
    ensures r.lastUpdated.None?
    ensures r.(lastUpdated := c.lastUpdated) == c
  {
    c.(lastUpdated := None)
  }

  function InsertFolderChild(t: Tables, c: DbFolderChild): Tables
  {
    t.(folderChildren := PutIfAbsent(t.folderChildren, c.folderChildId, StoredFolderChild(c)))
  }

  function InsertFailedChild(t: Tables, c: DbFailedFolderChild): Tables
  {
    t.(failedChildren := PutIfAbsent(t.failedChildren, c.folderChildId, c))
  }

  function InsertAlbum(t: Tables, a: DbAlbum): Tables
  {
    t.(albums := PutIfAbsent(t.albums, a.albumId, a))
  }

  /** The row `insert_artist_if_not_exists` stores: `musicbrainz_id` is not bound. */
  function StoredArtist(a: DbArtist): (r: DbArtist)
    ensures r.musicbrainzId.None?
    ensures r.(musicbrainzId := a.musicbrainzId) == a
  {
    a.(musicbrainzId := None)
  }

  function InsertArtist(t: Tables, a: DbArtist): Tables
  {
    t.(artists := PutIfAbsent(t.artists, a.artistId, StoredArtist(a)))
  }

  /**
   * The row `insert_song_if_not_exists` stores: `genre` is not bound, and the
   * duration column holds `num_seconds()`, read back as that many seconds.
   */
  function StoredSong(s: DbSong): (r: DbSong)
    ensures r.genre.None?
    ensures r.duration.None? <==> s.duration.None?
    ensures s.duration.Some? ==> r.duration == Some(Seconds(NumSeconds(s.duration.value)))
    ensures r.(genre := s.genre, duration := s.duration) == s
  {
    s.(genre := None, duration := if s.duration.Some? then Some(Seconds(NumSeconds(s.duration.value))) else None)
  }

  function InsertSong(t: Tables, s: DbSong): Tables
  {
    t.(songs := PutIfAbsent(t.songs, s.songId, StoredSong(s)))
  }

  function InsertCoverArt(t: Tables, c: DbCoverArt): Tables
  {
    t.(coverArt := PutIfAbsent(t.coverArt, c.coverArtId, c))
  }

  /** `INSERT OR IGNORE INTO album_artists`. */
  function LinkAlbumArtist(t: Tables, albumId: Uuid, artistId: Uuid): Tables
  {
    t.(albumArtists := t.albumArtists + {(albumId, artistId)})
  }

  /** `UPDATE folder_children SET last_updated = ? WHERE folder_child_id = ?`. */
  function TouchFolderChild(t: Tables, id: Uuid, now: Timestamp): Tables
  {
    if id in t.folderChildren
    then t.(folderChildren := t.folderChildren[id := t.folderChildren[id].(lastUpdated := Some(now))])
    else t
  }

  /** Some folder child is stored with exactly this path. */
  predicate HasChildPath(t: Tables, path: string)
  {
    exists k :: k in t.folderChildren && t.folderChildren[k].path == path
  }

  /** Some failed folder child is stored with exactly this path. */
  predicate HasFailedPath(t: Tables, path: string)
  {
    exists k :: k in t.failedChildren && t.failedChildren[k].path == path
  }

  // ---------------------------------------------------------------------
  // Properties of the statements.
  // ---------------------------------------------------------------------

  /** Inserting a song never stores a genre, and keeps an existing song. */
  lemma InsertSongResult(t: Tables, s: DbSong)
    ensures var u := InsertSong(t, s);
      s.songId in u.songs
      && (s.songId in t.songs ==> u.songs[s.songId] == t.songs[s.songId])
      && (s.songId !in t.songs ==> u.songs[s.songId].genre.None? && u.songs[s.songId].title == s.title)
      && u.(songs := t.songs) == t
  {
  }

  /** A new artist has no MusicBrainz id; an existing artist is kept. */
  lemma InsertArtistResult(t: Tables, a: DbArtist)
    ensures var u := InsertArtist(t, a);
      a.artistId in u.artists
      && (a.artistId in t.artists ==> u == t)
      && (a.artistId !in t.artists ==> u.artists[a.artistId] == a.(musicbrainzId := None))
  {
  }

  /** A new folder child has no `last_updated`; an existing one is kept. */
  lemma InsertFolderChildResult(t: Tables, c: DbFolderChild)
    ensures var u := InsertFolderChild(t, c);
      c.folderChildId in u.folderChildren
      && (c.folderChildId in t.folderChildren ==> u == t)
      && (c.folderChildId !in t.folderChildren ==> u.folderChildren[c.folderChildId] == c.(lastUpdated := None))
  {
  }

  /** Touching changes `last_updated` of the named child and nothing else. */
  lemma TouchOnlyNamedChild(t: Tables, id: Uuid, now: Timestamp)
    ensures var u := TouchFolderChild(t, id, now);
      u.folderChildren.Keys == t.folderChildren.Keys
      && (forall k :: k in t.folderChildren && k != id ==> u.folderChildren[k] == t.folderChildren[k])
      && (id in t.folderChildren ==>
            u.folderChildren[id] == t.folderChildren[id].(lastUpdated := Some(now)))
      && u.(folderChildren := t.folderChildren) == t
  {
  }

  /** One write statement of the importers. */
  datatype Write =
    | PutFolder(folder: DbFolder)
    | PutFolderChild(child: DbFolderChild)
    | PutFailedChild(failed: DbFailedFolderChild)
    | PutAlbum(album: DbAlbum)
    | PutArtist(artist: DbArtist)
    | PutSong(song: DbSong)
    | PutCoverArt(cover: DbCoverArt)
    | PutAlbumArtist(albumId: Uuid, artistId: Uuid)

  function Apply(t: Tables, w: Write): Tables
  {
    match w
    case PutFolder(f) => InsertFolder(t, f)
    case PutFolderChild(c) => InsertFolderChild(t, c)
    case PutFailedChild(c) => InsertFailedChild(t, c)
    case PutAlbum(a) => InsertAlbum(t, a)
    case PutArtist(a) => InsertArtist(t, a)
    case PutSong(s) => InsertSong(t, s)
    case PutCoverArt(c) => InsertCoverArt(t, c)
    case PutAlbumArtist(al, ar) => LinkAlbumArtist(t, al, ar)
  }

  /** Runs the writes in order. */
  function ApplyAll(t: Tables, ws: seq<Write>): Tables
    decreases |ws|
  {
    if ws == [] then t else ApplyAll(Apply(t, ws[0]), ws[1..])
  }

  /**
   * `u` holds every row of `t` unchanged, and every album link of `t`: the
   * catalog only grows under the importers' writes.
   */
  ghost predicate Extends(t: Tables, u: Tables)
  {
    SubMap(t.folders, u.folders) && SubMap(t.folderChildren, u.folderChildren)
    && SubMap(t.failedChildren, u.failedChildren) && SubMap(t.albums, u.albums)
    && SubMap(t.artists, u.artists) && SubMap(t.songs, u.songs) && SubMap(t.coverArt, u.coverArt)
    && t.albumArtists <= u.albumArtists
    && t.starred == u.starred
  }

  /** Every entry of `m` is in `n` with the same value. */
  ghost predicate SubMap<K, V>(m: map<K, V>, n: map<K, V>)
  {
    forall k :: k in m ==> k in n && n[k] == m[k]
  }

  lemma ExtendsTransitive(t: Tables, u: Tables, v: Tables)
    requires Extends(t, u) && Extends(u, v)
    ensures Extends(t, v)
  {
  }

  /** A write only adds rows. */
  lemma ApplyExtends(t: Tables, w: Write)
    ensures Extends(t, Apply(t, w))
  {
  }

  /**
   * Once the effect of a write is present, the write is a no-op: it only
   * ever inserts under a key (or a link) that is then already there.
   */
  lemma ApplyAbsorbed(t: Tables, w: Write, u: Tables)
    requires Extends(Apply(t, w), u)
    ensures Apply(u, w) == u
  {
    if w.PutAlbumArtist? {
      assert (w.albumId, w.artistId) in u.albumArtists;
    }
  }

  /** Running the same write twice is running it once. */
  lemma ApplyIdempotent(t: Tables, w: Write)
    ensures Apply(Apply(t, w), w) == Apply(t, w)
  {
    ApplyAbsorbed(t, w, Apply(t, w));
  }

  lemma {:induction false} ApplyAllExtends(t: Tables, ws: seq<Write>)
    ensures Extends(t, ApplyAll(t, ws))
    decreases |ws|
  {
    if ws != [] {
      ApplyExtends(t, ws[0]);
      ApplyAllExtends(Apply(t, ws[0]), ws[1..]);
      ExtendsTransitive(t, Apply(t, ws[0]), ApplyAll(t, ws));
    }
  }

  /** Running writes one after another is running their concatenation. */
  lemma {:induction false} ApplyAllSnoc(t: Tables, ws: seq<Write>, w: Write)
    ensures ApplyAll(t, ws + [w]) == Apply(ApplyAll(t, ws), w)
    decreases |ws|
  {
    if ws != [] {
      assert (ws + [w])[1..] == ws[1..] + [w];
      ApplyAllSnoc(Apply(t, ws[0]), ws[1..], w);
    }
  }

  /** Running two runs of writes one after the other is running their concatenation. */
  lemma {:induction false} ApplyAllConcat(t: Tables, a: seq<Write>, b: seq<Write>)
    ensures ApplyAll(t, a + b) == ApplyAll(ApplyAll(t, a), b)
    decreases |a|
  {
    if a == [] {
      assert a + b == b;
    } else {
      assert (a + b)[1..] == a[1..] + b;
      ApplyAllConcat(Apply(t, a[0]), a[1..], b);
    }
  }

  /** A single write run on its own. */
  lemma ApplyAllSingle(t: Tables, w: Write)
    ensures ApplyAll(t, [w]) == Apply(t, w)
  {
    assert [w][1..] == [];
  }

  /** Two writes run on their own. */
  lemma ApplyAllPair(t: Tables, w1: Write, w2: Write)
    ensures ApplyAll(t, [w1, w2]) == Apply(Apply(t, w1), w2)
  {
    assert [w1, w2][1..] == [w2];
    ApplyAllSingle(Apply(t, w1), w2);
  }

  /** A sequence of writes whose effect is present changes nothing. */
  lemma {:induction false} ApplyAllAbsorbed(t: Tables, ws: seq<Write>, u: Tables)
    requires Extends(ApplyAll(t, ws), u)
    ensures ApplyAll(u, ws) == u
    decreases |ws|
  {
    if ws != [] {
      var t1 := Apply(t, ws[0]);
      ApplyAllExtends(t1, ws[1..]);
      ExtendsTransitive(t1, ApplyAll(t1, ws[1..]), u);
      ApplyAbsorbed(t, ws[0], u);
      ApplyAllAbsorbed(t1, ws[1..], u);
    }
  }

  /** The key (or link) a write puts in place. */
  ghost predicate Holds(t: Tables, w: Write)
  {
    match w
    case PutFolder(f) => f.folderId in t.folders
    case PutFolderChild(c) => c.folderChildId in t.folderChildren
    case PutFailedChild(c) => c.folderChildId in t.failedChildren
    case PutAlbum(a) => a.albumId in t.albums
    case PutArtist(a) => a.artistId in t.artists
    case PutSong(s) => s.songId in t.songs
    case PutCoverArt(c) => c.coverArtId in t.coverArt
    case PutAlbumArtist(al, ar) => (al, ar) in t.albumArtists
  }

  lemma WriteHolds(t: Tables, w: Write)
    ensures Holds(Apply(t, w), w)
  {
  }

  lemma HoldsPersist(t: Tables, u: Tables, w: Write)
    requires Extends(t, u) && Holds(t, w)
    ensures Holds(u, w)
  {
  }

  /** After a run of writes, every key and link they name is present. */
  lemma {:induction false} ApplyAllHolds(t: Tables, ws: seq<Write>)
    ensures forall w | w in ws :: Holds(ApplyAll(t, ws), w)
    decreases |ws|
  {
    if ws != [] {
      var t1 := Apply(t, ws[0]);
      ApplyAllHolds(t1, ws[1..]);
      ApplyAllExtends(t1, ws[1..]);
      WriteHolds(t, ws[0]);
      HoldsPersist(t1, ApplyAll(t1, ws[1..]), ws[0]);
      assert forall w | w in ws :: w == ws[0] || w in ws[1..];
    }
  }

  /** Only albums and links touch the album tables. */
  lemma ApplyKeepsAlbums(t: Tables, w: Write)
    requires !w.PutAlbum? && !w.PutAlbumArtist?
    ensures Apply(t, w).albums == t.albums && Apply(t, w).albumArtists == t.albumArtists
  {
  }

  lemma {:induction false} ApplyAllKeepsAlbums(t: Tables, ws: seq<Write>)
    requires forall w | w in ws :: !w.PutAlbum? && !w.PutAlbumArtist?
    ensures ApplyAll(t, ws).albums == t.albums && ApplyAll(t, ws).albumArtists == t.albumArtists
    decreases |ws|
  {
    if ws != [] {
      ApplyKeepsAlbums(t, ws[0]);
      assert forall w | w in ws[1..] :: w in ws;
      ApplyAllKeepsAlbums(Apply(t, ws[0]), ws[1..]);
    }
  }

  /** Only a folder-child write touches the folder children. */
  lemma ApplyKeepsChildren(t: Tables, w: Write)
    requires !w.PutFolderChild?
    ensures Apply(t, w).folderChildren == t.folderChildren
  {
  }

  /** A folder-child write in a run stores that row when its key was new and no other write has it. */
  lemma {:induction false} NewChildStored(t: Tables, ws: seq<Write>, child: DbFolderChild)
    requires PutFolderChild(child) in ws && child.folderChildId !in t.folderChildren
    requires child.lastUpdated.None?
    requires forall w | w in ws && w.PutFolderChild? :: w.child == child
    ensures child.folderChildId in ApplyAll(t, ws).folderChildren
    ensures ApplyAll(t, ws).folderChildren[child.folderChildId] == child
    decreases |ws|
  {
    var w := ws[0];
    var t1 := Apply(t, w);
    if w == PutFolderChild(child) {
      assert t1.folderChildren[child.folderChildId] == child;
      ApplyAllExtends(t1, ws[1..]);
    } else {
      assert !w.PutFolderChild?;
      ApplyKeepsChildren(t, w);
      assert forall v | v in ws[1..] :: v in ws;
      NewChildStored(t1, ws[1..], child);
    }
  }

  /** Folder-child and failed-child paths stay recorded as the catalog grows. */
  lemma PathsPersist(t: Tables, u: Tables, path: string)
    requires Extends(t, u)
    ensures HasChildPath(t, path) ==> HasChildPath(u, path)
    ensures HasFailedPath(t, path) ==> HasFailedPath(u, path)
  {
    if HasChildPath(t, path) {
      var k :| k in t.folderChildren && t.folderChildren[k].path == path;
      assert k in u.folderChildren && u.folderChildren[k].path == path;
    }
    if HasFailedPath(t, path) {
      var k :| k in t.failedChildren && t.failedChildren[k].path == path;
      assert k in u.failedChildren && u.failedChildren[k].path == path;
    }
  }

  /** The write stores a folder child or a failed child under `path`. */
  predicate RecordsPath(w: Write, path: string)
  {
    (w.PutFolderChild? && w.child.path == path) || (w.PutFailedChild? && w.failed.path == path)
  }

  /** A write that does not record `path` does not make it known. */
  lemma ApplyRecordsOnly(t: Tables, w: Write, path: string)
    requires !RecordsPath(w, path)
    ensures HasChildPath(Apply(t, w), path) ==> HasChildPath(t, path)
    ensures HasFailedPath(Apply(t, w), path) ==> HasFailedPath(t, path)
  {
    var u := Apply(t, w);
    if HasChildPath(u, path) {
      var k :| k in u.folderChildren && u.folderChildren[k].path == path;
      assert k in t.folderChildren && t.folderChildren[k].path == path;
    }
    if HasFailedPath(u, path) {
      var k :| k in u.failedChildren && u.failedChildren[k].path == path;
      assert k in t.failedChildren && t.failedChildren[k].path == path;
    }
  }

  /** A run of writes none of which records `path` does not make it known. */
  lemma {:induction false} ApplyAllRecordsOnly(t: Tables, ws: seq<Write>, path: string)
    requires forall w :: w in ws ==> !RecordsPath(w, path)
    ensures HasChildPath(ApplyAll(t, ws), path) ==> HasChildPath(t, path)
    ensures HasFailedPath(ApplyAll(t, ws), path) ==> HasFailedPath(t, path)
    decreases |ws|
  {
    if ws != [] {
      ApplyRecordsOnly(t, ws[0], path);
      assert forall w :: w in ws[1..] ==> w in ws;
      ApplyAllRecordsOnly(Apply(t, ws[0]), ws[1..], path);
    }
  }

  // ---------------------------------------------------------------------
  // The UPDATE statements of the metadata enrichment. Each one changes one
  // column of the row with the given key, and nothing when there is none.
  // ---------------------------------------------------------------------

  function SetArtistMusicbrainzId(t: Tables, artistId: Uuid, mbid: string): Tables
  {
    if artistId in t.artists
    then t.(artists := t.artists[artistId := t.artists[artistId].(musicbrainzId := Some(mbid))])
    else t
  }

  function SetSongGenre(t: Tables, songId: Uuid, genre: string): Tables
  {
    if songId in t.songs
    then t.(songs := t.songs[songId := t.songs[songId].(genre := Some(genre))])
    else t
  }

  function SetSongCoverArt(t: Tables, songId: Uuid, coverArtId: Uuid): Tables
  {
    if songId in t.songs
    then t.(songs := t.songs[songId := t.songs[songId].(coverArtId := Some(coverArtId))])
    else t
  }

  function SetAlbumCoverArt(t: Tables, albumId: Uuid, coverArtId: Uuid): Tables
  {
    if albumId in t.albums
    then t.(albums := t.albums[albumId := t.albums[albumId].(coverArtId := Some(coverArtId))])
    else t
  }

  function SetArtistCoverArt(t: Tables, artistId: Uuid, coverArtId: Uuid): Tables
  {
    if artistId in t.artists
    then t.(artists := t.artists[artistId := t.artists[artistId].(coverArtId := Some(coverArtId))])
    else t
  }

  // ---------------------------------------------------------------------
  // The DELETE statements of the deletion sweep.
  // ---------------------------------------------------------------------

  /**
   * The three statements issued for a file that is gone: the folder child
   * by its id, then the failed child and the song, both by the song id.
   */
  function DeleteRemovedChild(t: Tables, childId: Uuid, songId: Uuid): Tables
  {
    t.(folderChildren := t.folderChildren - {childId},
       failedChildren := t.failedChildren - {songId},
       songs := t.songs - {songId})
  }

  function DeleteFolder(t: Tables, folderId: Uuid): Tables
  {
    t.(folders := t.folders - {folderId})
  }

  /** Some song row has both this album id and this artist id. */
  predicate LinkHasSong(t: Tables, link: (Uuid, Uuid))
  {
    exists k :: k in t.songs && t.songs[k].albumId == Some(link.0) && t.songs[k].artistId == Some(link.1)
  }

  predicate AlbumHasSong(t: Tables, albumId: Uuid)
  {
    exists k :: k in t.songs && t.songs[k].albumId == Some(albumId)
  }

  predicate ArtistHasSong(t: Tables, artistId: Uuid)
  {
    exists k :: k in t.songs && t.songs[k].artistId == Some(artistId)
  }

  /**
   * The three orphan deletes. Each `LEFT JOIN songs ... WHERE s.x IS NULL`
   * selects the rows that no song joins, so a row stays exactly when some
   * song carries its id (both ids, for an album-artist link).
   */
  function DeleteOrphans(t: Tables): Tables
  {
    t.(albumArtists := (set link | link in t.albumArtists && LinkHasSong(t, link)),
       albums := (map k | k in t.albums && AlbumHasSong(t, k) :: t.albums[k]),
       artists := (map k | k in t.artists && ArtistHasSong(t, k) :: t.artists[k]))
  }

  /** The value `id` occurs in `song_id UNION ALL artist_id UNION ALL album_id` over the songs. */
  predicate SongRefersTo(t: Tables, id: Uuid)
  {
    exists k :: k in t.songs && (t.songs[k].songId == id || t.songs[k].artistId == Some(id) || t.songs[k].albumId == Some(id))
  }

  /** That list holds a NULL: some song has no artist or no album. */
  predicate SongRefsHaveNull(t: Tables)
  {
    exists k :: k in t.songs && (t.songs[k].artistId.None? || t.songs[k].albumId.None?)
  }

  /**
   * `id NOT IN (list)` under SQL's three-valued logic: TRUE only when `id`
   * is not in the list and the list holds no NULL; otherwise FALSE or
   * NULL, and the row is kept.
   */
  predicate NotInSongRefs(t: Tables, id: Uuid)
  {
    !SongRefsHaveNull(t) && !SongRefersTo(t, id)
  }

  /** The cover-art and starred deletes. */
  function DeleteUnreferenced(t: Tables): Tables
  {
    t.(coverArt := (map k | k in t.coverArt && !NotInSongRefs(t, k) :: t.coverArt[k]),
       starred := (map k | k in t.starred && !NotInSongRefs(t, k) :: t.starred[k]))
  }

  lemma DeleteOrphansWellKeyed(t: Tables)
    requires WellKeyed(t)
    ensures WellKeyed(DeleteOrphans(t))
  {
  }

  lemma DeleteUnreferencedWellKeyed(t: Tables)
    requires WellKeyed(t)
    ensures WellKeyed(DeleteUnreferenced(t))
  {
  }

  lemma NonEmptyHasMember(s: set<Uuid>)
    requires s != {}
    ensures exists k :: k in s
  {
    var k :| k in s;
  }

  /** An opened database handle; its fields are the tables. */
  class Db {
    var folders: map<Uuid, DbFolder>
    var folderChildren: map<Uuid, DbFolderChild>
    var failedChildren: map<Uuid, DbFailedFolderChild>
    var albums: map<Uuid, DbAlbum>
    var artists: map<Uuid, DbArtist>
    var songs: map<Uuid, DbSong>
    var coverArt: map<Uuid, DbCoverArt>
    var albumArtists: set<(Uuid, Uuid)>
    var starred: map<Uuid, Timestamp>

    function Snapshot(): Tables
      reads this
    {
      Tables(folders, folderChildren, failedChildren, albums, artists, songs, coverArt, albumArtists, starred)
    }

    ghost predicate Valid()
      reads this
    {
      WellKeyed(Snapshot())
    }

    /** A freshly migrated, empty database. */
    constructor ()
      ensures Valid() && Snapshot() == EMPTY
    {
      folders, folderChildren, failedChildren := map[], map[], map[];
      albums, artists, songs, coverArt := map[], map[], map[], map[];
      albumArtists, starred := {}, map[];
    }

    /** Replaces every table; the other statements are written in terms of it. */
    method Store(t: Tables)
      modifies this
      ensures Snapshot() == t
    {
      folders, folderChildren, failedChildren := t.folders, t.folderChildren, t.failedChildren;
      albums, artists, songs, coverArt := t.albums, t.artists, t.songs, t.coverArt;
      albumArtists, starred := t.albumArtists, t.starred;
    }

    method UpdateLastUpdated(folderChildId: Uuid, now: Timestamp)
      requires Valid()
      modifies this
      ensures Valid()
      ensures Snapshot() == TouchFolderChild(old(Snapshot()), folderChildId, now)
    {
      if folderChildId in folderChildren {
        folderChildren := folderChildren[folderChildId := folderChildren[folderChildId].(lastUpdated := Some(now))];
      }
    }

    method InsertAlbumIfNotExists(album: DbAlbum) returns (id: Uuid)
      requires Valid()
      modifies this
      ensures Valid() && id == album.albumId && id in albums
      ensures Snapshot() == InsertAlbum(old(Snapshot()), album)
    {
      if album.albumId !in albums {
        albums := albums[album.albumId := album];
      }
      id := albums[album.albumId].albumId;
    }

    method InsertArtistIfNotExists(artist: DbArtist) returns (id: Uuid)
      requires Valid()
      modifies this
      ensures Valid() && id == artist.artistId && id in artists
      ensures Snapshot() == InsertArtist(old(Snapshot()), artist)
    {
      if artist.artistId !in artists {
        artists := artists[artist.artistId := artist.(musicbrainzId := None)];
      }
      id := artists[artist.artistId].artistId;
    }

    method UpsertAlbumArtist(albumId: Uuid, artistId: Uuid)
      requires Valid()
      modifies this
      ensures Valid()
      ensures Snapshot() == LinkAlbumArtist(old(Snapshot()), albumId, artistId)
    {
      albumArtists := albumArtists + {(albumId, artistId)};
    }

    method InsertFolderIfNotExists(folder: DbFolder) returns (id: Uuid)
      requires Valid()
      modifies this
      ensures Valid() && id == folder.folderId && id in folders
      ensures Snapshot() == InsertFolder(old(Snapshot()), folder)
    {
      if folder.folderId !in folders {
        folders := folders[folder.folderId := folder.(path := None)];
      }
      id := folders[folder.folderId].folderId;
    }

    method InsertFolderChildIfNotExists(child: DbFolderChild) returns (id: Uuid)
      requires Valid()
      modifies this
      ensures Valid() && id == child.folderChildId && id in folderChildren
      ensures Snapshot() == InsertFolderChild(old(Snapshot()), child)
    {
      if child.folderChildId !in folderChildren {
        folderChildren := folderChildren[child.folderChildId := child.(lastUpdated := None)];
      }
      id := folderChildren[child.folderChildId].folderChildId;
    }

    method InsertFailedFolderChildIfNotExists(child: DbFailedFolderChild) returns (id: Uuid)
      requires Valid()
      modifies this
      ensures Valid() && id == child.folderChildId && id in failedChildren
      ensures Snapshot() == InsertFailedChild(old(Snapshot()), child)
    {
      if child.folderChildId !in failedChildren {
        failedChildren := failedChildren[child.folderChildId := child];
      }
      id := failedChildren[child.folderChildId].folderChildId;
    }

    method InsertSongIfNotExists(song: DbSong) returns (id: Uuid)
      requires Valid()
      modifies this
      ensures Valid() && id == song.songId && id in songs
      ensures Snapshot() == InsertSong(old(Snapshot()), song)
    {
      if song.songId !in songs {
        var seconds := if song.duration.Some? then Some(Seconds(NumSeconds(song.duration.value))) else None;
        songs := songs[song.songId := song.(genre := None, duration := seconds)];
      }
      id := songs[song.songId].songId;
    }

    method InsertCoverArtIfNotExists(cover: DbCoverArt) returns (id: Uuid)
      requires Valid()
      modifies this
      ensures Valid() && id == cover.coverArtId && id in coverArt
      ensures Snapshot() == InsertCoverArt(old(Snapshot()), cover)
    {
      if cover.coverArtId !in coverArt {
        coverArt := coverArt[cover.coverArtId := cover];
      }
      id := coverArt[cover.coverArtId].coverArtId;
    }

    method FindSongById(id: Uuid) returns (r: Option<DbSong>)
      ensures r.Some? <==> id in songs
      ensures r.Some? ==> r.value == songs[id]
    {
      r := if id in songs then Some(songs[id]) else None;
    }

    method FindArtistById(id: Uuid) returns (r: Option<DbArtist>)
      ensures r.Some? <==> id in artists
      ensures r.Some? ==> r.value == artists[id]
    {
      r := if id in artists then Some(artists[id]) else None;
    }

    method FindAlbumById(id: Uuid) returns (r: Option<DbAlbum>)
      ensures r.Some? <==> id in albums
      ensures r.Some? ==> r.value == albums[id]
    {
      r := if id in albums then Some(albums[id]) else None;
    }

    /** `SELECT folder_child_id FROM folder_children WHERE path = ?`: some matching row. */
    method FindFolderChildByPath(path: string) returns (r: Option<Uuid>)
      ensures r.Some? <==> HasChildPath(Snapshot(), path)
      ensures r.Some? ==> r.value in folderChildren && folderChildren[r.value].path == path
    {
      if k :| k in folderChildren && folderChildren[k].path == path {
        r := Some(k);
      } else {
        r := None;
      }
    }

    /** The same lookup in the failed-children table. */
    method FindFailedFolderChildByPath(path: string) returns (r: Option<Uuid>)
      ensures r.Some? <==> HasFailedPath(Snapshot(), path)
      ensures r.Some? ==> r.value in failedChildren && failedChildren[r.value].path == path
    {
      if k :| k in failedChildren && failedChildren[k].path == path {
        r := Some(k);
      } else {
        r := None;
      }
    }

    method FindCoverArt(id: Uuid) returns (r: Option<Uuid>)
      ensures r.Some? <==> id in coverArt
      ensures r.Some? ==> r.value == id
    {
      r := if id in coverArt then Some(id) else None;
    }

    method UpdateArtistMusicbrainzId(artistId: Uuid, mbid: string)
      requires Valid()
      modifies this
      ensures Valid()
      ensures Snapshot() == SetArtistMusicbrainzId(old(Snapshot()), artistId, mbid)
    {
      if artistId in artists {
        artists := artists[artistId := artists[artistId].(musicbrainzId := Some(mbid))];
      }
    }

    method UpdateSongGenre(songId: Uuid, genre: string)
      requires Valid()
      modifies this
      ensures Valid()
      ensures Snapshot() == SetSongGenre(old(Snapshot()), songId, genre)
    {
      if songId in songs {
        songs := songs[songId := songs[songId].(genre := Some(genre))];
      }
    }

    method UpdateSongCoverArt(songId: Uuid, coverArtId: Uuid)
      requires Valid()
      modifies this
      ensures Valid()
      ensures Snapshot() == SetSongCoverArt(old(Snapshot()), songId, coverArtId)
    {
      if songId in songs {
        songs := songs[songId := songs[songId].(coverArtId := Some(coverArtId))];
      }
    }

    method UpdateAlbumCoverArt(albumId: Uuid, coverArtId: Uuid)
      requires Valid()
      modifies this
      ensures Valid()
      ensures Snapshot() == SetAlbumCoverArt(old(Snapshot()), albumId, coverArtId)
    {
      if albumId in albums {
        albums := albums[albumId := albums[albumId].(coverArtId := Some(coverArtId))];
      }
    }

    method UpdateArtistCoverArt(artistId: Uuid, coverArtId: Uuid)
      requires Valid()
      modifies this
      ensures Valid()
      ensures Snapshot() == SetArtistCoverArt(old(Snapshot()), artistId, coverArtId)
    {
      if artistId in artists {
        artists := artists[artistId := artists[artistId].(coverArtId := Some(coverArtId))];
      }
    }

    /** The folder children of one folder (`WHERE fc.folder_id = ?`), each once, in some order. */
    method FindChildrenOfFolder(folderId: Uuid) returns (rows: seq<DbFolderChild>)
      requires Valid()
      ensures forall i :: 0 <= i < |rows| ==>
        rows[i].folderChildId in folderChildren && folderChildren[rows[i].folderChildId] == rows[i]
        && rows[i].folderId == folderId
      ensures forall k :: k in folderChildren && folderChildren[k].folderId == folderId ==>
        exists i :: 0 <= i < |rows| && rows[i].folderChildId == k
    {
      var pending := set k | k in folderChildren && folderChildren[k].folderId == folderId;
      rows := [];
      while pending != {}
        invariant forall k :: k in pending ==> k in folderChildren && folderChildren[k].folderId == folderId
        invariant forall i :: 0 <= i < |rows| ==>
          rows[i].folderChildId in folderChildren && folderChildren[rows[i].folderChildId] == rows[i]
          && rows[i].folderId == folderId
        invariant forall k :: k in folderChildren && folderChildren[k].folderId == folderId ==>
          k in pending || exists i :: 0 <= i < |rows| && rows[i].folderChildId == k
        decreases |pending|
      {
        assert exists k :: k in pending by {
          NonEmptyHasMember(pending);
        }
        var k :| k in pending;
        ghost var before := rows;
        rows := rows + [folderChildren[k]];
        assert forall i :: 0 <= i < |before| ==> rows[i] == before[i];
        assert rows[|rows| - 1].folderChildId == k;
        pending := pending - {k};
      }
    }

    /** `INSERT OR IGNORE INTO starred (starred_id, created)`. */
    method InsertStarredIfNotExists(id: Uuid, created: Timestamp)
      requires Valid()
      modifies this
      ensures Valid()
      ensures Snapshot() == old(Snapshot()).(starred := PutIfAbsent(old(starred), id, created))
    {
      if id !in starred {
        starred := starred[id := created];
      }
    }

    /** `DELETE FROM starred WHERE starred_id = ?`. */
    method DeleteStarred(id: Uuid)
      requires Valid()
      modifies this
      ensures Valid()
      ensures Snapshot() == old(Snapshot()).(starred := old(starred) - {id})
    {
      starred := starred - {id};
    }

    method DeleteRemovedChildRows(childId: Uuid, songId: Uuid)
      requires Valid()
      modifies this
      ensures Valid()
      ensures Snapshot() == DeleteRemovedChild(old(Snapshot()), childId, songId)
    {
      folderChildren := folderChildren - {childId};
      failedChildren := failedChildren - {songId};
      songs := songs - {songId};
    }

    method DeleteFolderRow(folderId: Uuid)
      requires Valid()
      modifies this
      ensures Valid()
      ensures Snapshot() == DeleteFolder(old(Snapshot()), folderId)
    {
      folders := folders - {folderId};
    }

    method DeleteOrphanRows()
      requires Valid()
      modifies this
      ensures Valid()
      ensures Snapshot() == DeleteOrphans(old(Snapshot()))
    {
      DeleteOrphansWellKeyed(Snapshot());
      Store(DeleteOrphans(Snapshot()));
    }

    method DeleteUnreferencedRows()
      requires Valid()
      modifies this
      ensures Valid()
      ensures Snapshot() == DeleteUnreferenced(old(Snapshot()))
    {
      DeleteUnreferencedWellKeyed(Snapshot());
      Store(DeleteUnreferenced(Snapshot()));
    }
  }
}
