/**
 * The folder import (`import_folder` / `import_file` of the current
 * importer): a directory tree is walked chunk by chunk, every regular file
 * goes through a fixed skip ladder and is either quarantined as a failed
 * child or turned into album, artist, link, song and folder-child rows.
 *
 * The filesystem is an input tree (`Node`), the metadata extraction an input
 * outcome per file, the clock a constant `now`, the string hash and
 * `is_valid` parameters. The join sets are run sequentially: the units of a
 * chunk run in order, then the set is drained.
 *
 * `ImportFileSpec` and `ImportFolderSpec` say what the import does to the
 * tables; the methods `ImportFile` and `ImportFolder` do it through the `Db`
 * handle and are proved to match them. The idempotence theorem is
 * `ImportIdempotent`.
 */
module ImportTask {

  import opened Base
  import opened Paths
  import opened Uuids
  import opened Catalog

  /** What the current importer's metadata extraction yields for a file. */
  datatype TrackMetadata = TrackMetadata(
    title: Option<string>,
    artist: string,
    album: Option<string>,
    albumArtist: Option<string>,
    date: Option<Timestamp>,
    trackNumber: Option<U32>,
    discNumber: Option<U32>,
    bitRate: Option<U32>,
    duration: Option<Duration>,
    genre: Option<string>,
    contentType: Option<string>,
    suffix: Option<string>)

  datatype Extraction = Extracted(metadata: TrackMetadata) | NothingExtracted | ExtractionFailed

  /** Opening the file (and reading its length) either fails or gives its length and extraction. */
  datatype FileContent = CannotOpen | Opened(length: nat, extraction: Extraction)

  /** A filesystem node as `read_dir` and `file_type` see it. */
  datatype Node =
    | Dir(entries: seq<Entry>)
    | UnreadableDir
    | File(content: FileContent)
    | Special

  datatype Entry = Entry(name: string, node: Node)

  /** The `TaskState` the importer reads: library root, clock, hash and validity check. */
  datatype Options = Options(
    root: string,
    now: Timestamp,
    hash: Hasher,
    isValid: TrackMetadata -> bool)

  /** `chunks_timeout(64, …)`. */
  const CHUNK_SIZE: nat := 64

  // ---------------------------------------------------------------------
  // Keys and rows
  // ---------------------------------------------------------------------

  /** The album's logical key: its title, then the album artist or else the artist. */
  function AlbumKey(m: TrackMetadata): string
    requires m.album.Some?
  {
    m.album.value + m.albumArtist.UnwrapOr(m.artist)
  }

  /** The song's logical key: title, artist id and album id (nil when there is no album). */
  function SongKey(title: string, artistId: Uuid, albumId: Option<Uuid>): string
  {
    title + UuidText(artistId) + UuidText(albumId.UnwrapOr(NIL))
  }

  /** The song key determines title, artist id and album id (or its absence as nil). */
  lemma SongKeyInjective(t1: string, ar1: Uuid, al1: Option<Uuid>, t2: string, ar2: Uuid, al2: Option<Uuid>)
    requires SongKey(t1, ar1, al1) == SongKey(t2, ar2, al2)
    ensures t1 == t2 && ar1 == ar2 && al1.UnwrapOr(NIL) == al2.UnwrapOr(NIL)
  {
    var k := SongKey(t1, ar1, al1);
    assert |t1| == |t2|;
    assert t1 == k[..|t1|] && t2 == k[..|t2|];
    assert UuidText(ar1) == k[|t1|..|t1| + 36] == UuidText(ar2);
    assert UuidText(al1.UnwrapOr(NIL)) == k[|t1| + 36..] == UuidText(al2.UnwrapOr(NIL));
    UuidTextInjective(ar1, ar2);
    UuidTextInjective(al1.UnwrapOr(NIL), al2.UnwrapOr(NIL));
  }

  function AlbumId(o: Options, m: TrackMetadata): Option<Uuid>
  {
    if m.album.Some? then Some(o.hash(AlbumKey(m))) else None
  }

  function ArtistId(o: Options, m: TrackMetadata): Uuid
  {
    o.hash(m.artist)
  }

  /** `album_artist_id.or(artist_id)`: the album artist when there is one. */
  function LinkedArtistId(o: Options, m: TrackMetadata): Uuid
  {
    if m.albumArtist.Some? then o.hash(m.albumArtist.value) else ArtistId(o, m)
  }

  function SongId(o: Options, m: TrackMetadata, title: string): Uuid
  {
    o.hash(SongKey(title, ArtistId(o, m), AlbumId(o, m)))
  }

  function SongRow(o: Options, m: TrackMetadata, title: string, length: nat): DbSong
  {
    DbSong(
      songId := SongId(o, m, title),
      title := title,
      created := o.now,
      date := m.date,
      coverArtId := None,
      artistId := Some(ArtistId(o, m)),
      albumId := AlbumId(o, m),
      contentType := m.contentType,
      suffix := m.suffix,
      size := Some(AsU32(length)),
      trackNumber := m.trackNumber,
      discNumber := m.discNumber,
      duration := m.duration,
      bitRate := m.bitRate,
      genre := m.genre)
  }

  function ChildRow(o: Options, path: string, folderId: Uuid, title: string, songId: Uuid): DbFolderChild
  {
    DbFolderChild(o.hash(path), folderId, path, title, Some(songId), None)
  }

  function FailedRow(o: Options, path: string, folderId: Uuid): DbFailedFolderChild
  {
    DbFailedFolderChild(o.hash(path), folderId, path)
  }

  function AlbumRow(o: Options, m: TrackMetadata): DbAlbum
    requires m.album.Some?
  {
    DbAlbum(o.hash(AlbumKey(m)), m.album.value, None)
  }

  /** A new artist row: neither cover art nor MusicBrainz id yet. */
  function ArtistRow(o: Options, name: string): DbArtist
  {
    DbArtist(o.hash(name), name, None, None)
  }

  function AlbumWrites(o: Options, m: TrackMetadata): seq<Write>
  {
    if m.album.Some? then [PutAlbum(AlbumRow(o, m))] else []
  }

  function AlbumArtistWrites(o: Options, m: TrackMetadata): seq<Write>
  {
    if m.albumArtist.Some? then [PutArtist(ArtistRow(o, m.albumArtist.value))] else []
  }

  function LinkWrites(o: Options, m: TrackMetadata): seq<Write>
  {
    if m.album.Some? then [PutAlbumArtist(o.hash(AlbumKey(m)), LinkedArtistId(o, m))] else []
  }

  /** The album, artist, album-artist and link statements for a valid track, in order. */
  function CatalogWrites(o: Options, m: TrackMetadata): seq<Write>
  {
    AlbumWrites(o, m) + [PutArtist(ArtistRow(o, m.artist))] + AlbumArtistWrites(o, m) + LinkWrites(o, m)
  }

  /** The song and folder-child statements; absent when the title is missing (the importer panics there). */
  function SongWrites(o: Options, path: string, folderId: Uuid, m: TrackMetadata, length: nat): seq<Write>
  {
    if m.title.None? then []
    else
      var title := m.title.value;
      [PutSong(SongRow(o, m, title, length)), PutFolderChild(ChildRow(o, path, folderId, title, SongId(o, m, title)))]
  }

  /** Everything a usable track writes, in statement order. */
  function TrackWrites(o: Options, path: string, folderId: Uuid, m: TrackMetadata, length: nat): seq<Write>
  {
    CatalogWrites(o, m) + SongWrites(o, path, folderId, m, length)
  }

  // ---------------------------------------------------------------------
  // What `import_file` does
  // ---------------------------------------------------------------------

  /** The file is left alone: failed before, imported before, or without a file name. */
  predicate Skipped(t: Tables, path: string)
  {
    HasFailedPath(t, path) || HasChildPath(t, path) || FileName(path).None?
  }

  /** The extraction gave nothing usable: no metadata, an error, or metadata `is_valid` rejects. */
  predicate Unusable(o: Options, x: Extraction)
  {
    !x.Extracted? || !o.isValid(x.metadata)
  }

  /** The statements `import_file` issues and how it ends. */
  function FilePlan(t: Tables, o: Options, path: string, folderId: Uuid, content: FileContent): (seq<Write>, Outcome)
  {
    if Skipped(t, path) then ([], Done)
    else
      match content
      case CannotOpen => ([], Failed)
      case Opened(length, x) =>
        if Unusable(o, x) then ([PutFailedChild(FailedRow(o, path, folderId))], Done)
        else
          var m := x.metadata;
          (TrackWrites(o, path, folderId, m, length), if m.title.None? then Panicked else Done)
  }

  function ImportFileSpec(t: Tables, o: Options, path: string, folderId: Uuid, content: FileContent): (Tables, Outcome)
  {
    var plan := FilePlan(t, o, path, folderId, content);
    (ApplyAll(t, plan.0), plan.1)
  }

  // ---------------------------------------------------------------------
  // What `import_folder` does
  // ---------------------------------------------------------------------

  /** The root row written when no parent is given. */
  function RootRow(o: Options): DbFolder
  {
    DbFolder(NIL, None, "root", None, o.now, None)
  }

  function RootWrites(o: Options, parent: Option<Uuid>): seq<Write>
  {
    if parent.None? then [PutFolder(RootRow(o))] else []
  }

  /** The root path is the nil folder; any other folder is keyed by its path. */
  function FolderId(o: Options, folder: string): Uuid
  {
    if folder == o.root then NIL else o.hash(folder)
  }

  function FolderRow(o: Options, folder: string, name: string, parentId: Uuid): DbFolder
  {
    DbFolder(o.hash(folder), Some(parentId), name, None, o.now, None)
  }

  /** The root row (without a parent) and the folder's own row (unless it is the root). */
  function FolderWrites(o: Options, folder: string, parent: Option<Uuid>): seq<Write>
    requires folder == o.root || FileName(folder).Some?
  {
    RootWrites(o, parent)
    + (if folder == o.root then [] else [PutFolder(FolderRow(o, folder, FileName(folder).value, parent.UnwrapOr(NIL)))])
  }

  /** `import_folder(folder, parent)`: `Failed` when listing fails or a chunk had a panic. */
  function ImportFolderSpec(t: Tables, o: Options, folder: string, parent: Option<Uuid>, node: Node): (Tables, Outcome)
    decreases node, 3
  {
    if folder != o.root && FileName(folder).None? then (ApplyAll(t, RootWrites(o, parent)), Panicked)
    else
      var t1 := ApplyAll(t, FolderWrites(o, folder, parent));
      match node
      case Dir(es) =>
        var r := ImportChunks(t1, o, folder, FolderId(o, folder), es);
        (r.0, if r.1 then Failed else Done)
      case _ => (t1, Failed)
  }

  /** The chunks of a listing, in order, until one of them had a panic (then `true`). */
  function ImportChunks(t: Tables, o: Options, dir: string, folderId: Uuid, es: seq<Entry>): (Tables, bool)
    decreases es, 2
  {
    if |es| <= CHUNK_SIZE then ImportUnits(t, o, dir, folderId, es, 0, |es|)
    else
      var r := ImportUnits(t, o, dir, folderId, es, 0, CHUNK_SIZE);
      if r.1 then r else ImportChunks(r.0, o, dir, folderId, es[CHUNK_SIZE..])
  }

  /**
   * One chunk, the entries `es[i]` to `es[i + n - 1]`: every unit runs, one
   * after another; `true` when one of them panicked.
   */
  function ImportUnits(t: Tables, o: Options, dir: string, folderId: Uuid, es: seq<Entry>, i: nat, n: nat): (Tables, bool)
    requires i + n <= |es|
    decreases es, 1, n
  {
    if n == 0 then (t, false)
    else
      var r := ImportUnits(t, o, dir, folderId, es, i, n - 1);
      var u := ImportEntry(r.0, o, dir, folderId, es[i + n - 1]);
      (u.0, r.1 || u.1 == Panicked)
  }

  /**
   * The unit spawned for one entry: a directory recurses and its error is
   * dropped (only a panic reaches the join set), a regular file is imported
   * whatever its extension, anything else is ignored.
   */
  function ImportEntry(t: Tables, o: Options, dir: string, folderId: Uuid, e: Entry): (Tables, Outcome)
    decreases e, 0
  {
    var path := Join(dir, e.name);
    match e.node
    case File(c) => ImportFileSpec(t, o, path, folderId, c)
    case Special => (t, Done)
    case _ =>
      var r := ImportFolderSpec(t, o, path, Some(folderId), e.node);
      (r.0, if r.1 == Panicked then Panicked else Done)
  }

  // ---------------------------------------------------------------------
  // Properties of one file
  // ---------------------------------------------------------------------

  /** A path recorded as failed or as imported is skipped without any store change. */
  lemma KnownPathSkipped(t: Tables, o: Options, path: string, folderId: Uuid, content: FileContent)
    requires HasFailedPath(t, path) || HasChildPath(t, path)
    ensures ImportFileSpec(t, o, path, folderId, content) == (t, Done)
  {
  }

  /**
   * A file whose extraction is unusable gets exactly one failed-child row,
   * keyed by the hash of its path, and nothing else changes.
   */
  lemma UnusableQuarantined(t: Tables, o: Options, path: string, folderId: Uuid, length: nat, x: Extraction)
    requires !Skipped(t, path) && Unusable(o, x)
    ensures var u := ImportFileSpec(t, o, path, folderId, Opened(length, x));
      u.1 == Done
      && u.0 == InsertFailedChild(t, FailedRow(o, path, folderId))
      && o.hash(path) in u.0.failedChildren
      && u.0.(failedChildren := t.failedChildren) == t
  {
    var row := FailedRow(o, path, folderId);
    UnusablePlan(t, o, path, folderId, length, x);
    ApplyAllSingle(t, PutFailedChild(row));
    var u := InsertFailedChild(t, row);
    assert u.(failedChildren := t.failedChildren) == t;
  }

  lemma UnusablePlan(t: Tables, o: Options, path: string, folderId: Uuid, length: nat, x: Extraction)
    requires !Skipped(t, path) && Unusable(o, x)
    ensures FilePlan(t, o, path, folderId, Opened(length, x)) == ([PutFailedChild(FailedRow(o, path, folderId))], Done)
  {
  }

  /**
   * A usable track is cataloged under its derived keys: the album (when it
   * has a title), the artist, the album artist (when given), the link from
   * the album to the album artist or else the artist and, with a title, the
   * song and the folder child keyed by the path.
   */
  lemma TrackCataloged(t: Tables, o: Options, path: string, folderId: Uuid, m: TrackMetadata, length: nat)
    ensures var u := ApplyAll(t, TrackWrites(o, path, folderId, m, length));
      ArtistId(o, m) in u.artists
      && (m.albumArtist.Some? ==> o.hash(m.albumArtist.value) in u.artists)
      && (m.album.Some? ==>
            o.hash(AlbumKey(m)) in u.albums
            && (o.hash(AlbumKey(m)), LinkedArtistId(o, m)) in u.albumArtists)
      && (m.title.Some? ==>
            SongId(o, m, m.title.value) in u.songs && o.hash(path) in u.folderChildren)
  {
    var ws := TrackWrites(o, path, folderId, m, length);
    var u := ApplyAll(t, ws);
    ApplyAllHolds(t, ws);
    CatalogWritesNamed(o, m);
    var cw := CatalogWrites(o, m);
    assert forall w | w in cw :: w in ws;
    assert Holds(u, PutArtist(DbArtist(ArtistId(o, m), m.artist, None, None)));
    if m.albumArtist.Some? {
      assert Holds(u, PutArtist(DbArtist(o.hash(m.albumArtist.value), m.albumArtist.value, None, None)));
    }
    if m.album.Some? {
      assert Holds(u, PutAlbum(DbAlbum(o.hash(AlbumKey(m)), m.album.value, None)));
      assert Holds(u, PutAlbumArtist(o.hash(AlbumKey(m)), LinkedArtistId(o, m)));
    }
    if m.title.Some? {
      var title := m.title.value;
      SongWritesNamed(o, path, folderId, m, length);
      var sw := SongWrites(o, path, folderId, m, length);
      assert forall w | w in sw :: w in ws;
      assert Holds(u, PutSong(SongRow(o, m, title, length)));
      assert Holds(u, PutFolderChild(ChildRow(o, path, folderId, title, SongId(o, m, title))));
    }
  }

  /** The catalog writes name the artist, the album artist, the album and the link. */
  lemma CatalogWritesNamed(o: Options, m: TrackMetadata)
    ensures var ws := CatalogWrites(o, m);
      PutArtist(DbArtist(ArtistId(o, m), m.artist, None, None)) in ws
      && (m.albumArtist.Some? ==>
            PutArtist(DbArtist(o.hash(m.albumArtist.value), m.albumArtist.value, None, None)) in ws)
      && (m.album.Some? ==>
            PutAlbum(DbAlbum(o.hash(AlbumKey(m)), m.album.value, None)) in ws
            && PutAlbumArtist(o.hash(AlbumKey(m)), LinkedArtistId(o, m)) in ws)
  {
  }

  /** With a title, the song writes name the song and the folder child. */
  lemma SongWritesNamed(o: Options, path: string, folderId: Uuid, m: TrackMetadata, length: nat)
    requires m.title.Some?
    ensures var ws := SongWrites(o, path, folderId, m, length);
      PutSong(SongRow(o, m, m.title.value, length)) in ws
      && PutFolderChild(ChildRow(o, path, folderId, m.title.value, SongId(o, m, m.title.value))) in ws
  {
  }

  /** A track without an album leaves the album and link tables as they were. */
  lemma TrackWithoutAlbum(t: Tables, o: Options, path: string, folderId: Uuid, m: TrackMetadata, length: nat)
    requires m.album.None?
    ensures var u := ApplyAll(t, TrackWrites(o, path, folderId, m, length));
      u.albums == t.albums && u.albumArtists == t.albumArtists
  {
    ApplyAllKeepsAlbums(t, TrackWrites(o, path, folderId, m, length));
  }

  /** The folder child of a new path points at the song and has no `last_updated`. */
  lemma NewTrackChild(t: Tables, o: Options, path: string, folderId: Uuid, m: TrackMetadata, length: nat)
    requires m.title.Some? && o.hash(path) !in t.folderChildren
    ensures var u := ApplyAll(t, TrackWrites(o, path, folderId, m, length));
      var title := m.title.value;
      o.hash(path) in u.folderChildren
      && u.folderChildren[o.hash(path)] == ChildRow(o, path, folderId, title, SongId(o, m, title))
  {
    var title := m.title.value;
    var child := ChildRow(o, path, folderId, title, SongId(o, m, title));
    var ws := TrackWrites(o, path, folderId, m, length);
    assert forall w | w in CatalogWrites(o, m) :: !w.PutFolderChild?;
    assert forall w | w in ws && w.PutFolderChild? :: w.child == child;
    NewChildStored(t, ws, child);
  }

  /** A usable file is cataloged by its track writes and panics exactly when it has no title. */
  lemma UsableImported(t: Tables, o: Options, path: string, folderId: Uuid, length: nat, m: TrackMetadata)
    requires !Skipped(t, path) && o.isValid(m)
    ensures ImportFileSpec(t, o, path, folderId, Opened(length, Extracted(m)))
      == (ApplyAll(t, TrackWrites(o, path, folderId, m, length)), if m.title.None? then Panicked else Done)
  {
  }

  // ---------------------------------------------------------------------
  // Growth: the import only adds rows
  // ---------------------------------------------------------------------

  lemma FileGrows(t: Tables, o: Options, path: string, folderId: Uuid, content: FileContent)
    ensures Extends(t, ImportFileSpec(t, o, path, folderId, content).0)
  {
    ApplyAllExtends(t, FilePlan(t, o, path, folderId, content).0);
  }

  lemma {:induction false} FolderGrows(t: Tables, o: Options, folder: string, parent: Option<Uuid>, node: Node)
    ensures Extends(t, ImportFolderSpec(t, o, folder, parent, node).0)
    decreases node, 3
  {
    if folder != o.root && FileName(folder).None? {
      ApplyAllExtends(t, RootWrites(o, parent));
    } else {
      var t1 := ApplyAll(t, FolderWrites(o, folder, parent));
      ApplyAllExtends(t, FolderWrites(o, folder, parent));
      if node.Dir? {
        ChunksGrow(t1, o, folder, FolderId(o, folder), node.entries);
        ExtendsTransitive(t, t1, ImportFolderSpec(t, o, folder, parent, node).0);
      }
    }
  }

  lemma {:induction false} ChunksGrow(t: Tables, o: Options, dir: string, folderId: Uuid, es: seq<Entry>)
    ensures Extends(t, ImportChunks(t, o, dir, folderId, es).0)
    decreases es, 2
  {
    if |es| <= CHUNK_SIZE {
      UnitsGrow(t, o, dir, folderId, es, 0, |es|);
    } else {
      var r := ImportUnits(t, o, dir, folderId, es, 0, CHUNK_SIZE);
      UnitsGrow(t, o, dir, folderId, es, 0, CHUNK_SIZE);
      if !r.1 {
        ChunksGrow(r.0, o, dir, folderId, es[CHUNK_SIZE..]);
        ExtendsTransitive(t, r.0, ImportChunks(t, o, dir, folderId, es).0);
      }
    }
  }

  lemma {:induction false} UnitsGrow(t: Tables, o: Options, dir: string, folderId: Uuid, es: seq<Entry>, i: nat, n: nat)
    requires i + n <= |es|
    ensures Extends(t, ImportUnits(t, o, dir, folderId, es, i, n).0)
    decreases es, 1, n
  {
    if n > 0 {
      var r := ImportUnits(t, o, dir, folderId, es, i, n - 1);
      UnitsGrow(t, o, dir, folderId, es, i, n - 1);
      EntryGrows(r.0, o, dir, folderId, es[i + n - 1]);
      ExtendsTransitive(t, r.0, ImportUnits(t, o, dir, folderId, es, i, n).0);
    }
  }

  lemma {:induction false} EntryGrows(t: Tables, o: Options, dir: string, folderId: Uuid, e: Entry)
    ensures Extends(t, ImportEntry(t, o, dir, folderId, e).0)
    decreases e, 0
  {
    var path := Join(dir, e.name);
    match e.node
    case File(c) => FileGrows(t, o, path, folderId, c);
    case Special =>
    case _ => FolderGrows(t, o, path, Some(folderId), e.node);
  }

  // ---------------------------------------------------------------------
  // Idempotence
  // ---------------------------------------------------------------------

  /** No file can reach the `title.unwrap()` panic. */
  predicate FileCannotPanic(o: Options, c: FileContent)
  {
    c.Opened? && c.extraction.Extracted? && o.isValid(c.extraction.metadata) ==> c.extraction.metadata.title.Some?
  }

  /** No unit in the tree panics: entry names are proper names and usable tracks have titles. */
  predicate NoPanics(o: Options, node: Node)
    decreases node, 1
  {
    match node
    case Dir(es) => NoPanicsIn(o, es)
    case File(c) => FileCannotPanic(o, c)
    case _ => true
  }

  predicate NoPanicsIn(o: Options, es: seq<Entry>)
    decreases es, 0
  {
    forall i :: 0 <= i < |es| ==> IsEntryName(es[i].name) && NoPanics(o, es[i].node)
  }

  lemma FileAbsorbed(t: Tables, o: Options, path: string, folderId: Uuid, content: FileContent, u: Tables)
    requires Extends(ImportFileSpec(t, o, path, folderId, content).0, u)
    ensures ImportFileSpec(u, o, path, folderId, content).0 == u
    ensures FileCannotPanic(o, content) ==> ImportFileSpec(u, o, path, folderId, content).1 != Panicked
  {
    var plan := FilePlan(t, o, path, folderId, content);
    ApplyAllExtends(t, plan.0);
    ExtendsTransitive(t, ApplyAll(t, plan.0), u);
    PathsPersist(t, u, path);
    if !Skipped(u, path) {
      ApplyAllAbsorbed(t, plan.0, u);
    }
  }

  /**
   * Once the effect of importing a tree is in the store, importing it again
   * changes nothing.
   */
  lemma {:induction false} FolderAbsorbed(t: Tables, o: Options, folder: string, parent: Option<Uuid>, node: Node, u: Tables)
    requires NoPanics(o, node) && (folder == o.root || FileName(folder).Some?)
    requires Extends(ImportFolderSpec(t, o, folder, parent, node).0, u)
    ensures ImportFolderSpec(u, o, folder, parent, node) == (u, if node.Dir? then Done else Failed)
    decreases node, 3
  {
    var ws := FolderWrites(o, folder, parent);
    var t1 := ApplyAll(t, ws);
    if node.Dir? {
      ChunksGrow(t1, o, folder, FolderId(o, folder), node.entries);
      ExtendsTransitive(t1, ImportChunks(t1, o, folder, FolderId(o, folder), node.entries).0, u);
      ApplyAllAbsorbed(t, ws, u);
      ChunksAbsorbed(t1, o, folder, FolderId(o, folder), node.entries, u);
    } else {
      ApplyAllAbsorbed(t, ws, u);
    }
  }

  lemma {:induction false} ChunksAbsorbed(t: Tables, o: Options, dir: string, folderId: Uuid, es: seq<Entry>, u: Tables)
    requires NoPanicsIn(o, es)
    requires Extends(ImportChunks(t, o, dir, folderId, es).0, u)
    ensures ImportChunks(u, o, dir, folderId, es) == (u, false)
    decreases es, 2
  {
    if |es| <= CHUNK_SIZE {
      UnitsAbsorbed(t, o, dir, folderId, es, 0, |es|, u);
    } else {
      var r := ImportUnits(t, o, dir, folderId, es, 0, CHUNK_SIZE);
      NoPanicsInSuffix(o, es, CHUNK_SIZE);
      UnitsCannotPanic(t, o, dir, folderId, es, 0, CHUNK_SIZE);
      ChunksGrow(r.0, o, dir, folderId, es[CHUNK_SIZE..]);
      ExtendsTransitive(r.0, ImportChunks(r.0, o, dir, folderId, es[CHUNK_SIZE..]).0, u);
      UnitsAbsorbed(t, o, dir, folderId, es, 0, CHUNK_SIZE, u);
      ChunksAbsorbed(r.0, o, dir, folderId, es[CHUNK_SIZE..], u);
    }
  }

  /** The rest of a panic-free listing is panic-free. */
  lemma NoPanicsInSuffix(o: Options, es: seq<Entry>, i: nat)
    requires i <= |es| && NoPanicsIn(o, es)
    ensures NoPanicsIn(o, es[i..])
  {
    forall k | 0 <= k < |es| - i
      ensures IsEntryName(es[i..][k].name) && NoPanics(o, es[i..][k].node)
    {
      assert es[i..][k] == es[i + k];
    }
  }

  lemma {:induction false} UnitsAbsorbed(t: Tables, o: Options, dir: string, folderId: Uuid, es: seq<Entry>, i: nat, n: nat, u: Tables)
    requires i + n <= |es| && NoPanicsIn(o, es)
    requires Extends(ImportUnits(t, o, dir, folderId, es, i, n).0, u)
    ensures ImportUnits(u, o, dir, folderId, es, i, n) == (u, false)
    decreases es, 1, n
  {
    if n > 0 {
      var r := ImportUnits(t, o, dir, folderId, es, i, n - 1);
      var e := es[i + n - 1];
      EntryGrows(r.0, o, dir, folderId, e);
      ExtendsTransitive(r.0, ImportEntry(r.0, o, dir, folderId, e).0, u);
      UnitsAbsorbed(t, o, dir, folderId, es, i, n - 1, u);
      EntryAbsorbed(r.0, o, dir, folderId, e, u);
    }
  }

  lemma {:induction false} EntryAbsorbed(t: Tables, o: Options, dir: string, folderId: Uuid, e: Entry, u: Tables)
    requires IsEntryName(e.name) && NoPanics(o, e.node)
    requires Extends(ImportEntry(t, o, dir, folderId, e).0, u)
    ensures ImportEntry(u, o, dir, folderId, e).0 == u
    ensures ImportEntry(u, o, dir, folderId, e).1 != Panicked
    decreases e, 1
  {
    match e.node
    case File(c) => FileEntryAbsorbed(t, o, dir, folderId, e, u);
    case Special =>
    case _ => FolderEntryAbsorbed(t, o, dir, folderId, e, u);
  }

  lemma FileEntryAbsorbed(t: Tables, o: Options, dir: string, folderId: Uuid, e: Entry, u: Tables)
    requires e.node.File? && FileCannotPanic(o, e.node.content)
    requires Extends(ImportEntry(t, o, dir, folderId, e).0, u)
    ensures ImportEntry(u, o, dir, folderId, e).0 == u
    ensures ImportEntry(u, o, dir, folderId, e).1 != Panicked
  {
    FileAbsorbed(t, o, Join(dir, e.name), folderId, e.node.content, u);
  }

  lemma {:induction false} FolderEntryAbsorbed(t: Tables, o: Options, dir: string, folderId: Uuid, e: Entry, u: Tables)
    requires IsEntryName(e.name) && NoPanics(o, e.node) && !e.node.File? && !e.node.Special?
    requires Extends(ImportEntry(t, o, dir, folderId, e).0, u)
    ensures ImportEntry(u, o, dir, folderId, e).0 == u
    ensures ImportEntry(u, o, dir, folderId, e).1 != Panicked
    decreases e, 0
  {
    FileNameOfJoin(dir, e.name);
    FolderAbsorbed(t, o, Join(dir, e.name), Some(folderId), e.node, u);
  }

  lemma {:induction false} UnitsCannotPanic(t: Tables, o: Options, dir: string, folderId: Uuid, es: seq<Entry>, i: nat, n: nat)
    requires i + n <= |es| && NoPanicsIn(o, es)
    ensures !ImportUnits(t, o, dir, folderId, es, i, n).1
    decreases n
  {
    if n > 0 {
      var r := ImportUnits(t, o, dir, folderId, es, i, n - 1);
      var e := es[i + n - 1];
      UnitsCannotPanic(t, o, dir, folderId, es, i, n - 1);
      assert IsEntryName(e.name) && NoPanics(o, e.node);
      EntryCannotPanic(r.0, o, dir, folderId, e);
      assert ImportUnits(t, o, dir, folderId, es, i, n).1 == (r.1 || ImportEntry(r.0, o, dir, folderId, e).1 == Panicked);
    }
  }

  lemma {:induction false} EntryCannotPanic(t: Tables, o: Options, dir: string, folderId: Uuid, e: Entry)
    requires IsEntryName(e.name) && NoPanics(o, e.node)
    ensures ImportEntry(t, o, dir, folderId, e).1 != Panicked
    decreases e, 0
  {
    match e.node
    case File(c) => FileNoPanic(t, o, Join(dir, e.name), folderId, c);
    case Special =>
    case _ => FolderEntryCannotPanic(t, o, dir, folderId, e);
  }

  lemma FolderEntryCannotPanic(t: Tables, o: Options, dir: string, folderId: Uuid, e: Entry)
    requires IsEntryName(e.name) && !e.node.File? && !e.node.Special?
    ensures ImportEntry(t, o, dir, folderId, e).1 != Panicked
  {
    FileNameOfJoin(dir, e.name);
    FolderCannotPanic(t, o, Join(dir, e.name), Some(folderId), e.node);
  }

  /** A folder whose name is a real file name does not panic: every failure inside it is caught. */
  lemma FolderCannotPanic(t: Tables, o: Options, folder: string, parent: Option<Uuid>, node: Node)
    requires folder == o.root || FileName(folder).Some?
    ensures ImportFolderSpec(t, o, folder, parent, node).1 != Panicked
  {
  }

  /** Only a usable track without a title makes `import_file` panic. */
  lemma FileNoPanic(t: Tables, o: Options, path: string, folderId: Uuid, c: FileContent)
    requires FileCannotPanic(o, c)
    ensures ImportFileSpec(t, o, path, folderId, c).1 != Panicked
  {
    if !Skipped(t, path) && c.Opened? && !Unusable(o, c.extraction) {
      assert c.extraction.metadata.title.Some?;
    }
  }

  /**
   * Importing a tree a second time into the catalog the first import
   * produced leaves the catalog as it is and ends the same way: for a tree
   * as `read_dir` lists it, a panicking track included, and for any tree
   * without panics.
   */
  lemma ImportIdempotent(t: Tables, o: Options, node: Node)
    requires NoPanics(o, node) || Listed(node)
    ensures var first := ImportFolderSpec(t, o, o.root, None, node);
      ImportFolderSpec(first.0, o, o.root, None, node) == first
  {
    var first := ImportFolderSpec(t, o, o.root, None, node);
    if Listed(node) {
      FolderSettled(t, o, o.root, None, node, first.0);
    } else {
      FolderAbsorbed(t, o, o.root, None, node, first.0);
      if node.Dir? {
        var t1 := ApplyAll(t, FolderWrites(o, o.root, None));
        ChunksAbsorbedOutcome(t1, o, o.root, NIL, node.entries);
      }
    }
  }

  /** Without panics every chunk of a listing runs. */
  lemma {:induction false} ChunksAbsorbedOutcome(t: Tables, o: Options, dir: string, folderId: Uuid, es: seq<Entry>)
    requires NoPanicsIn(o, es)
    ensures !ImportChunks(t, o, dir, folderId, es).1
    decreases |es|
  {
    if |es| <= CHUNK_SIZE {
      UnitsCannotPanic(t, o, dir, folderId, es, 0, |es|);
    } else {
      NoPanicsInSuffix(o, es, CHUNK_SIZE);
      UnitsCannotPanic(t, o, dir, folderId, es, 0, CHUNK_SIZE);
      ChunksAbsorbedOutcome(ImportUnits(t, o, dir, folderId, es, 0, CHUNK_SIZE).0, o, dir, folderId, es[CHUNK_SIZE..]);
    }
  }

  // ---------------------------------------------------------------------
  // Idempotence of any tree `read_dir` lists
  // ---------------------------------------------------------------------

  /** The store records `path` as imported or as failed, so `import_file` skips it. */
  predicate Known(t: Tables, path: string)
  {
    HasFailedPath(t, path) || HasChildPath(t, path)
  }

  /** `p` is the path of a regular file in the tree of `e`, an entry of `dir`. */
  predicate InEntry(p: string, dir: string, e: Entry)
    decreases e
  {
    match e.node
    case File(_) => p == Join(dir, e.name)
    case Dir(es) => exists j :: 0 <= j < |es| && InEntry(p, Join(dir, e.name), es[j])
    case _ => false
  }

  /** A tree as `read_dir` lists it: proper entry names, none listed twice in a directory. */
  predicate Listed(node: Node)
    decreases node, 1
  {
    match node
    case Dir(es) => ListedIn(es)
    case _ => true
  }

  predicate ListedIn(es: seq<Entry>)
    decreases es, 0
  {
    (forall j, k :: 0 <= j < k < |es| ==> es[j].name != es[k].name)
    && forall j :: 0 <= j < |es| ==> IsEntryName(es[j].name) && Listed(es[j].node)
  }

  /** `p` is `q` itself or lies below it. */
  predicate PathUnder(p: string, q: string)
  {
    |q| <= |p| && p[..|q|] == q && (|p| == |q| || p[|q|] == '/')
  }

  /** Every file path in the tree of an entry lies under the entry's own path. */
  lemma {:induction false} InEntryUnder(p: string, dir: string, e: Entry)
    requires IsEntryName(e.name) && Listed(e.node) && InEntry(p, dir, e)
    ensures PathUnder(p, Join(dir, e.name))
    decreases e
  {
    if e.node.Dir? {
      var q := Join(dir, e.name);
      var es := e.node.entries;
      var j :| 0 <= j < |es| && InEntry(p, q, es[j]);
      InEntryUnder(p, q, es[j]);
      JoinShape(dir, e.name);
      assert q[|q| - 1] == e.name[|e.name| - 1];
      UnderSubPath(p, q, es[j].name);
    }
  }

  /** A path below `q/name` lies below `q`. */
  lemma UnderSubPath(p: string, q: string, name: string)
    requires NeedsSeparator(q) && PathUnder(p, Join(q, name))
    ensures PathUnder(p, q)
  {
    var q2 := Join(q, name);
    assert q2 == q + "/" + name;
    assert p[..|q|] == q2[..|q|];
  }

  /** Two names that both lead a path up to a `/` or its end are the same name. */
  lemma NamesApart(p: string, d: string, n1: string, n2: string)
    requires '/' !in n1 && '/' !in n2
    requires PathUnder(p, d + n1) && PathUnder(p, d + n2)
    ensures n1 == n2
  {
    if |n1| == |n2| {
      assert n1 == (d + n1)[|d|..] == p[|d|..|d| + |n1|] == (d + n2)[|d|..] == n2;
    } else {
      ShorterNameEnds(p, d, n1, n2);
      ShorterNameEnds(p, d, n2, n1);
    }
  }

  /** A path under `d + n1` and `d + n2` has a `/` in the longer name where the shorter one ends. */
  lemma ShorterNameEnds(p: string, d: string, n1: string, n2: string)
    requires PathUnder(p, d + n1) && PathUnder(p, d + n2) && |n1| < |n2|
    ensures n2[|n1|] == '/'
  {
    assert p[|d| + |n1|] == (d + n2)[|d| + |n1|];
  }

  /** In a listed directory no file path belongs to two entries. */
  lemma EntriesApart(p: string, dir: string, es: seq<Entry>, j: nat, k: nat)
    requires ListedIn(es) && j < |es| && k < |es| && j != k
    requires InEntry(p, dir, es[j])
    ensures !InEntry(p, dir, es[k])
  {
    if InEntry(p, dir, es[k]) {
      InEntryUnder(p, dir, es[j]);
      InEntryUnder(p, dir, es[k]);
      var d := if NeedsSeparator(dir) then dir + "/" else dir;
      assert Join(dir, es[j].name) == d + es[j].name;
      assert Join(dir, es[k].name) == d + es[k].name;
      NamesApart(p, d, es[j].name, es[k].name);
    }
  }

  /** The rest of a listed directory is listed. */
  lemma ListedInSuffix(es: seq<Entry>, i: nat)
    requires i <= |es| && ListedIn(es)
    ensures ListedIn(es[i..])
  {
    forall k | 0 <= k < |es| - i
      ensures IsEntryName(es[i..][k].name) && Listed(es[i..][k].node)
    {
      assert es[i..][k] == es[i + k];
    }
  }

  /** The album, artist and link statements record no path. */
  lemma CatalogWritesRecordNothing(o: Options, m: TrackMetadata, q: string)
    ensures forall w :: w in CatalogWrites(o, m) ==> !RecordsPath(w, q)
  {
    var ws := CatalogWrites(o, m);
    assert ws == AlbumWrites(o, m) + [PutArtist(ArtistRow(o, m.artist))] + AlbumArtistWrites(o, m) + LinkWrites(o, m);
    assert forall w :: w in AlbumWrites(o, m) ==> w.PutAlbum?;
    assert forall w :: w in AlbumArtistWrites(o, m) ==> w.PutArtist?;
    assert forall w :: w in LinkWrites(o, m) ==> w.PutAlbumArtist?;
  }

  /** A track records no path but its own, and none at all without a title. */
  lemma TrackWritesRecord(o: Options, path: string, folderId: Uuid, m: TrackMetadata, length: nat, q: string)
    requires q != path || m.title.None?
    ensures forall w :: w in TrackWrites(o, path, folderId, m, length) ==> !RecordsPath(w, q)
  {
    CatalogWritesRecordNothing(o, m, q);
  }

  /** Importing one file makes no other path known. */
  lemma FileFrame(t: Tables, o: Options, path: string, folderId: Uuid, c: FileContent, q: string)
    requires q != path
    ensures Known(ImportFileSpec(t, o, path, folderId, c).0, q) ==> Known(t, q)
  {
    FilePlanRecordsOwn(t, o, path, folderId, c, q);
    ApplyAllRecordsOnly(t, FilePlan(t, o, path, folderId, c).0, q);
  }

  /** The statements of `import_file` record no path but the file's own. */
  lemma FilePlanRecordsOwn(t: Tables, o: Options, path: string, folderId: Uuid, c: FileContent, q: string)
    requires q != path
    ensures forall w :: w in FilePlan(t, o, path, folderId, c).0 ==> !RecordsPath(w, q)
  {
    if !Skipped(t, path) && c.Opened? && !Unusable(o, c.extraction) {
      TrackWritesRecord(o, path, folderId, c.extraction.metadata, c.length, q);
    }
  }

  /** Importing a folder makes no path known that is not a file path below it. */
  lemma {:induction false} FolderFrame(t: Tables, o: Options, folder: string, parent: Option<Uuid>, node: Node, q: string)
    requires node.Dir? ==> forall j :: 0 <= j < |node.entries| ==> !InEntry(q, folder, node.entries[j])
    ensures Known(ImportFolderSpec(t, o, folder, parent, node).0, q) ==> Known(t, q)
    decreases node, 3
  {
    if folder != o.root && FileName(folder).None? {
      FolderWritesRecordNothing(o, folder, parent, q);
      ApplyAllRecordsOnly(t, RootWrites(o, parent), q);
    } else {
      var ws := FolderWrites(o, folder, parent);
      FolderWritesRecordNothing(o, folder, parent, q);
      ApplyAllRecordsOnly(t, ws, q);
      if node.Dir? {
        var r := ImportChunks(ApplyAll(t, ws), o, folder, FolderId(o, folder), node.entries);
        assert ImportFolderSpec(t, o, folder, parent, node).0 == r.0;
        ChunksFrame(ApplyAll(t, ws), o, folder, FolderId(o, folder), node.entries, q);
      }
    }
  }

  /** The folder rows record no path. */
  lemma FolderWritesRecordNothing(o: Options, folder: string, parent: Option<Uuid>, q: string)
    ensures forall w :: w in RootWrites(o, parent) ==> !RecordsPath(w, q)
    ensures folder == o.root || FileName(folder).Some? ==> forall w :: w in FolderWrites(o, folder, parent) ==> !RecordsPath(w, q)
  {
  }

  lemma {:induction false} ChunksFrame(t: Tables, o: Options, dir: string, folderId: Uuid, es: seq<Entry>, q: string)
    requires forall j :: 0 <= j < |es| ==> !InEntry(q, dir, es[j])
    ensures Known(ImportChunks(t, o, dir, folderId, es).0, q) ==> Known(t, q)
    decreases es, 2
  {
    if |es| <= CHUNK_SIZE {
      UnitsFrame(t, o, dir, folderId, es, 0, |es|, q);
    } else {
      var r := ImportUnits(t, o, dir, folderId, es, 0, CHUNK_SIZE);
      UnitsFrame(t, o, dir, folderId, es, 0, CHUNK_SIZE, q);
      if !r.1 {
        forall j | 0 <= j < |es[CHUNK_SIZE..]|
          ensures !InEntry(q, dir, es[CHUNK_SIZE..][j])
        {
          assert es[CHUNK_SIZE..][j] == es[CHUNK_SIZE + j];
        }
        ChunksFrame(r.0, o, dir, folderId, es[CHUNK_SIZE..], q);
      }
    }
  }

  lemma {:induction false} UnitsFrame(t: Tables, o: Options, dir: string, folderId: Uuid, es: seq<Entry>, i: nat, n: nat, q: string)
    requires i + n <= |es|
    requires forall j :: i <= j < i + n ==> !InEntry(q, dir, es[j])
    ensures Known(ImportUnits(t, o, dir, folderId, es, i, n).0, q) ==> Known(t, q)
    decreases es, 1, n
  {
    if n > 0 {
      var r := ImportUnits(t, o, dir, folderId, es, i, n - 1);
      UnitsFrame(t, o, dir, folderId, es, i, n - 1, q);
      EntryFrame(r.0, o, dir, folderId, es[i + n - 1], q);
    }
  }

  lemma {:induction false} EntryFrame(t: Tables, o: Options, dir: string, folderId: Uuid, e: Entry, q: string)
    requires !InEntry(q, dir, e)
    ensures Known(ImportEntry(t, o, dir, folderId, e).0, q) ==> Known(t, q)
    decreases e, 0
  {
    match e.node
    case File(c) => FileFrame(t, o, Join(dir, e.name), folderId, c, q);
    case Special =>
    case _ => FolderFrame(t, o, Join(dir, e.name), Some(folderId), e.node, q);
  }

  /**
   * The paths of the entries `es[i]` to `es[i + n - 1]` that `u` knows were
   * already known in `s`.
   */
  ghost predicate Settled(s: Tables, u: Tables, dir: string, es: seq<Entry>, i: nat, n: nat)
  {
    forall j, p :: i <= j < i + n && j < |es| && InEntry(p, dir, es[j]) && Known(u, p) ==> Known(s, p)
  }

  /** A file that ended without a record of its path stays unrecorded when it is rerun. */
  lemma FilePlanKnown(t: Tables, o: Options, path: string, folderId: Uuid, c: FileContent)
    requires !Skipped(t, path)
    ensures Known(ImportFileSpec(t, o, path, folderId, c).0, path) ==> ImportFileSpec(t, o, path, folderId, c).1 == Done
  {
    if c.Opened? && !Unusable(o, c.extraction) && c.extraction.metadata.title.None? {
      var ws := TrackWrites(o, path, folderId, c.extraction.metadata, c.length);
      TrackWritesRecord(o, path, folderId, c.extraction.metadata, c.length, path);
      ApplyAllRecordsOnly(t, ws, path);
    }
  }

  /**
   * Rerunning `import_file` on a store that holds the first run's effect and
   * knows its path only if the first run recorded it changes nothing and
   * ends the same way, a panic included.
   */
  lemma FileSettled(t: Tables, o: Options, path: string, folderId: Uuid, c: FileContent, u: Tables)
    requires Extends(ImportFileSpec(t, o, path, folderId, c).0, u)
    requires Known(u, path) ==> Known(ImportFileSpec(t, o, path, folderId, c).0, path)
    ensures ImportFileSpec(u, o, path, folderId, c) == (u, ImportFileSpec(t, o, path, folderId, c).1)
  {
    var plan := FilePlan(t, o, path, folderId, c);
    ApplyAllExtends(t, plan.0);
    ExtendsTransitive(t, ApplyAll(t, plan.0), u);
    PathsPersist(t, u, path);
    if !Skipped(t, path) {
      FilePlanKnown(t, o, path, folderId, c);
      if !Skipped(u, path) {
        ApplyAllAbsorbed(t, plan.0, u);
      }
    }
  }

  /**
   * Rerunning a folder on a store that holds the first run's effect, and knows
   * no file path below the folder the first run did not record, changes
   * nothing and ends the same way.
   */
  lemma {:induction false} FolderSettled(t: Tables, o: Options, folder: string, parent: Option<Uuid>, node: Node, u: Tables)
    requires (folder == o.root || FileName(folder).Some?) && Listed(node)
    requires Extends(ImportFolderSpec(t, o, folder, parent, node).0, u)
    requires node.Dir? ==> Settled(ImportFolderSpec(t, o, folder, parent, node).0, u, folder, node.entries, 0, |node.entries|)
    ensures ImportFolderSpec(u, o, folder, parent, node) == (u, ImportFolderSpec(t, o, folder, parent, node).1)
    decreases node, 3
  {
    var ws := FolderWrites(o, folder, parent);
    var t1 := ApplyAll(t, ws);
    if node.Dir? {
      ChunksGrow(t1, o, folder, FolderId(o, folder), node.entries);
      ExtendsTransitive(t1, ImportChunks(t1, o, folder, FolderId(o, folder), node.entries).0, u);
      ApplyAllAbsorbed(t, ws, u);
      ChunksSettled(t1, o, folder, FolderId(o, folder), node.entries, u);
    } else {
      ApplyAllAbsorbed(t, ws, u);
    }
  }

  lemma {:induction false} ChunksSettled(t: Tables, o: Options, dir: string, folderId: Uuid, es: seq<Entry>, u: Tables)
    requires ListedIn(es)
    requires Extends(ImportChunks(t, o, dir, folderId, es).0, u)
    requires Settled(ImportChunks(t, o, dir, folderId, es).0, u, dir, es, 0, |es|)
    ensures ImportChunks(u, o, dir, folderId, es) == (u, ImportChunks(t, o, dir, folderId, es).1)
    decreases es, 2
  {
    if |es| <= CHUNK_SIZE {
      UnitsSettled(t, o, dir, folderId, es, 0, |es|, u);
    } else {
      var r := ImportUnits(t, o, dir, folderId, es, 0, CHUNK_SIZE);
      if r.1 {
        UnitsSettled(t, o, dir, folderId, es, 0, CHUNK_SIZE, u);
      } else {
        var rest := es[CHUNK_SIZE..];
        ListedInSuffix(es, CHUNK_SIZE);
        ChunksGrow(r.0, o, dir, folderId, rest);
        ExtendsTransitive(r.0, ImportChunks(r.0, o, dir, folderId, rest).0, u);
        ChunkSettledBefore(r.0, o, dir, folderId, es, u);
        UnitsSettled(t, o, dir, folderId, es, 0, CHUNK_SIZE, u);
        SettledSuffix(ImportChunks(r.0, o, dir, folderId, rest).0, u, dir, es);
        ChunksSettled(r.0, o, dir, folderId, rest, u);
      }
    }
  }

  /** What the later chunks record lies outside the first chunk's entries. */
  lemma ChunkSettledBefore(s: Tables, o: Options, dir: string, folderId: Uuid, es: seq<Entry>, u: Tables)
    requires ListedIn(es) && |es| > CHUNK_SIZE
    requires Settled(ImportChunks(s, o, dir, folderId, es[CHUNK_SIZE..]).0, u, dir, es, 0, |es|)
    ensures Settled(s, u, dir, es, 0, CHUNK_SIZE)
  {
    forall j, p | 0 <= j < CHUNK_SIZE && InEntry(p, dir, es[j]) && Known(u, p)
      ensures Known(s, p)
    {
      forall k | 0 <= k < |es[CHUNK_SIZE..]|
        ensures !InEntry(p, dir, es[CHUNK_SIZE..][k])
      {
        assert es[CHUNK_SIZE..][k] == es[CHUNK_SIZE + k];
        EntriesApart(p, dir, es, j, CHUNK_SIZE + k);
      }
      ChunksFrame(s, o, dir, folderId, es[CHUNK_SIZE..], p);
    }
  }

  /** Settledness of a listing carries over to the entries after the first chunk. */
  lemma SettledSuffix(s: Tables, u: Tables, dir: string, es: seq<Entry>)
    requires |es| > CHUNK_SIZE && Settled(s, u, dir, es, 0, |es|)
    ensures Settled(s, u, dir, es[CHUNK_SIZE..], 0, |es| - CHUNK_SIZE)
  {
    forall j, p | 0 <= j < |es| - CHUNK_SIZE && InEntry(p, dir, es[CHUNK_SIZE..][j]) && Known(u, p)
      ensures Known(s, p)
    {
      assert es[CHUNK_SIZE..][j] == es[CHUNK_SIZE + j];
    }
  }

  lemma {:induction false} UnitsSettled(t: Tables, o: Options, dir: string, folderId: Uuid, es: seq<Entry>, i: nat, n: nat, u: Tables)
    requires i + n <= |es| && ListedIn(es)
    requires Extends(ImportUnits(t, o, dir, folderId, es, i, n).0, u)
    requires Settled(ImportUnits(t, o, dir, folderId, es, i, n).0, u, dir, es, i, n)
    ensures ImportUnits(u, o, dir, folderId, es, i, n) == (u, ImportUnits(t, o, dir, folderId, es, i, n).1)
    decreases es, 1, n
  {
    if n > 0 {
      var r := ImportUnits(t, o, dir, folderId, es, i, n - 1);
      var e := es[i + n - 1];
      EntryGrows(r.0, o, dir, folderId, e);
      ExtendsTransitive(r.0, ImportEntry(r.0, o, dir, folderId, e).0, u);
      EntryFrameAll(r.0, o, dir, folderId, e);
      UnitSettledBefore(r.0, ImportEntry(r.0, o, dir, folderId, e).0, u, dir, es, i, n);
      UnitSettledLast(ImportEntry(r.0, o, dir, folderId, e).0, u, dir, es, i, n);
      UnitsSettled(t, o, dir, folderId, es, i, n - 1, u);
      EntrySettled(r.0, o, dir, folderId, e, u);
    }
  }

  /**
   * When the last entry's unit took the store from `s` to `m` knowing only its
   * own paths anew, what the entries before it know was known in `s`.
   */
  lemma UnitSettledBefore(s: Tables, m: Tables, u: Tables, dir: string, es: seq<Entry>, i: nat, n: nat)
    requires 0 < n && i + n <= |es| && ListedIn(es)
    requires forall q :: !InEntry(q, dir, es[i + n - 1]) && Known(m, q) ==> Known(s, q)
    requires Settled(m, u, dir, es, i, n)
    ensures Settled(s, u, dir, es, i, n - 1)
  {
    forall j, p | i <= j < i + n - 1 && InEntry(p, dir, es[j]) && Known(u, p)
      ensures Known(s, p)
    {
      EntriesApart(p, dir, es, j, i + n - 1);
    }
  }

  lemma EntryFrameAll(t: Tables, o: Options, dir: string, folderId: Uuid, e: Entry)
    ensures forall q :: !InEntry(q, dir, e) && Known(ImportEntry(t, o, dir, folderId, e).0, q) ==> Known(t, q)
  {
    forall q | !InEntry(q, dir, e)
      ensures Known(ImportEntry(t, o, dir, folderId, e).0, q) ==> Known(t, q)
    {
      EntryFrame(t, o, dir, folderId, e, q);
    }
  }

  /** The last of the entries is settled on its own. */
  lemma UnitSettledLast(s: Tables, u: Tables, dir: string, es: seq<Entry>, i: nat, n: nat)
    requires 0 < n && i + n <= |es| && Settled(s, u, dir, es, i, n)
    ensures forall p :: InEntry(p, dir, es[i + n - 1]) && Known(u, p) ==> Known(s, p)
  {
  }

  lemma {:induction false} EntrySettled(t: Tables, o: Options, dir: string, folderId: Uuid, e: Entry, u: Tables)
    requires IsEntryName(e.name) && Listed(e.node)
    requires Extends(ImportEntry(t, o, dir, folderId, e).0, u)
    requires forall p :: InEntry(p, dir, e) && Known(u, p) ==> Known(ImportEntry(t, o, dir, folderId, e).0, p)
    ensures ImportEntry(u, o, dir, folderId, e) == (u, ImportEntry(t, o, dir, folderId, e).1)
    decreases e, 1
  {
    match e.node
    case File(c) =>
      assert InEntry(Join(dir, e.name), dir, e);
      FileSettled(t, o, Join(dir, e.name), folderId, c, u);
    case Special =>
    case _ => FolderEntrySettled(t, o, dir, folderId, e, u);
  }

  lemma {:induction false} FolderEntrySettled(t: Tables, o: Options, dir: string, folderId: Uuid, e: Entry, u: Tables)
    requires IsEntryName(e.name) && Listed(e.node) && !e.node.File? && !e.node.Special?
    requires Extends(ImportEntry(t, o, dir, folderId, e).0, u)
    requires forall p :: InEntry(p, dir, e) && Known(u, p) ==> Known(ImportEntry(t, o, dir, folderId, e).0, p)
    ensures ImportEntry(u, o, dir, folderId, e) == (u, ImportEntry(t, o, dir, folderId, e).1)
    decreases e, 0
  {
    var path := Join(dir, e.name);
    FileNameOfJoin(dir, e.name);
    if e.node.Dir? {
      var es := e.node.entries;
      forall j, p | 0 <= j < |es| && InEntry(p, path, es[j]) && Known(u, p)
        ensures Known(ImportEntry(t, o, dir, folderId, e).0, p)
      {
        assert InEntry(p, dir, e);
      }
    }
    FolderSettled(t, o, path, Some(folderId), e.node, u);
  }

  // ---------------------------------------------------------------------
  // Folder rows
  // ---------------------------------------------------------------------

  /** A folder whose own row cannot be named panics after the root row is written. */
  lemma NamelessFolderPanics(t: Tables, o: Options, folder: string, parent: Option<Uuid>, node: Node)
    requires folder != o.root && FileName(folder).None?
    ensures ImportFolderSpec(t, o, folder, parent, node) == (ApplyAll(t, RootWrites(o, parent)), Panicked)
  {
  }

  /**
   * After importing a folder the root row exists when no parent was given,
   * the folder's own row exists unless it is the root, and a row new to the
   * store is the one built from its path, name and parent.
   */
  lemma FolderCataloged(t: Tables, o: Options, folder: string, parent: Option<Uuid>, node: Node)
    requires folder == o.root || FileName(folder).Some?
    ensures var u := ImportFolderSpec(t, o, folder, parent, node).0;
      (parent.None? ==> NIL in u.folders)
      && (folder != o.root ==> o.hash(folder) in u.folders)
      && (folder != o.root && parent.Some? && o.hash(folder) !in t.folders ==>
            u.folders[o.hash(folder)] == FolderRow(o, folder, FileName(folder).value, parent.value))
  {
    var t1 := ApplyAll(t, FolderWrites(o, folder, parent));
    FolderRowsWritten(t, o, folder, parent);
    ListingGrows(t, o, folder, parent, node);
  }

  /** The folder rows are in place once the folder's own writes are applied. */
  lemma FolderRowsWritten(t: Tables, o: Options, folder: string, parent: Option<Uuid>)
    requires folder == o.root || FileName(folder).Some?
    ensures var t1 := ApplyAll(t, FolderWrites(o, folder, parent));
      (parent.None? ==> NIL in t1.folders)
      && (folder != o.root ==> o.hash(folder) in t1.folders)
      && (folder != o.root && parent.Some? && o.hash(folder) !in t.folders ==>
            t1.folders[o.hash(folder)] == FolderRow(o, folder, FileName(folder).value, parent.value))
  {
    var rw := RootWrites(o, parent);
    var t0 := ApplyAll(t, rw);
    if parent.None? {
      ApplyAllSingle(t, PutFolder(RootRow(o)));
    }
    if folder == o.root {
      assert rw + [] == FolderWrites(o, folder, parent);
    } else {
      var row := FolderRow(o, folder, FileName(folder).value, parent.UnwrapOr(NIL));
      ApplyAllConcat(t, rw, [PutFolder(row)]);
      ApplyAllSingle(t0, PutFolder(row));
      ApplyExtends(t0, PutFolder(row));
    }
  }

  /** The listing only adds to what the folder's own writes left. */
  lemma ListingGrows(t: Tables, o: Options, folder: string, parent: Option<Uuid>, node: Node)
    requires folder == o.root || FileName(folder).Some?
    ensures Extends(ApplyAll(t, FolderWrites(o, folder, parent)), ImportFolderSpec(t, o, folder, parent, node).0)
  {
    var t1 := ApplyAll(t, FolderWrites(o, folder, parent));
    if node.Dir? {
      assert ImportFolderSpec(t, o, folder, parent, node).0 == ImportChunks(t1, o, folder, FolderId(o, folder), node.entries).0;
      ChunksGrow(t1, o, folder, FolderId(o, folder), node.entries);
    }
  }

  // ---------------------------------------------------------------------
  // The import against the store
  // ---------------------------------------------------------------------

  /** `import_file`: the skip ladder, then quarantine or cataloging. */
  method ImportFile(db: Db, o: Options, path: string, folderId: Uuid, content: FileContent) returns (r: Outcome)
    requires db.Valid()
    modifies db
    ensures db.Valid()
    ensures (db.Snapshot(), r) == ImportFileSpec(old(db.Snapshot()), o, path, folderId, content)
  {
    ghost var t0 := db.Snapshot();
    var failedBefore := db.FindFailedFolderChildByPath(path);
    if failedBefore.Some? {
      KnownPathSkipped(t0, o, path, folderId, content);
      return Done;
    }
    var imported := db.FindFolderChildByPath(path);
    if imported.Some? {
      KnownPathSkipped(t0, o, path, folderId, content);
      return Done;
    }
    var filename := FileName(path);
    if filename.None? {
      return Done;
    }
    if content.CannotOpen? {
      return Failed;
    }
    r := ImportOpened(db, o, path, folderId, content.length, content.extraction);
  }

  /** `import_file` once the file is opened: quarantine, or catalog the track. */
  method ImportOpened(db: Db, o: Options, path: string, folderId: Uuid, length: nat, metadata: Extraction)
    returns (r: Outcome)
    requires db.Valid() && !Skipped(db.Snapshot(), path)
    modifies db
    ensures db.Valid()
    ensures (db.Snapshot(), r) == ImportFileSpec(old(db.Snapshot()), o, path, folderId, Opened(length, metadata))
  {
    ghost var t0 := db.Snapshot();
    var failed := match metadata
      case Extracted(m) => !o.isValid(m)
      case _ => true;
    if failed {
      var row := FailedRow(o, path, folderId);
      var _ := db.InsertFailedFolderChildIfNotExists(row);
      UnusableQuarantined(t0, o, path, folderId, length, metadata);
      return Done;
    }
    r := ImportTrack(db, o, path, folderId, metadata.metadata, length);
    UsableImported(t0, o, path, folderId, length, metadata.metadata);
  }

  /** The album statement of `import_file`. */
  method InsertTrackAlbum(db: Db, o: Options, m: TrackMetadata) returns (albumId: Option<Uuid>)
    requires db.Valid()
    modifies db
    ensures db.Valid()
    ensures db.Snapshot() == ApplyAll(old(db.Snapshot()), AlbumWrites(o, m))
    ensures albumId == AlbumId(o, m)
  {
    ghost var t0 := db.Snapshot();
    if m.album.Some? {
      var artist := m.albumArtist.UnwrapOr(m.artist);
      var album := DbAlbum(o.hash(m.album.value + artist), m.album.value, None);
      var id := db.InsertAlbumIfNotExists(album);
      ApplyAllSingle(t0, PutAlbum(album));
      albumId := Some(id);
    } else {
      albumId := None;
    }
  }

  /** An artist statement of `import_file` (track artist or album artist). */
  method InsertTrackArtist(db: Db, o: Options, name: string) returns (artistId: Uuid)
    requires db.Valid()
    modifies db
    ensures db.Valid()
    ensures db.Snapshot() == ApplyAll(old(db.Snapshot()), [PutArtist(ArtistRow(o, name))])
    ensures artistId == o.hash(name)
  {
    ghost var t0 := db.Snapshot();
    artistId := db.InsertArtistIfNotExists(DbArtist(o.hash(name), name, None, None));
    ApplyAllSingle(t0, PutArtist(ArtistRow(o, name)));
  }

  /** The album, artist, album-artist and link statements of `import_file`. */
  method CatalogTrack(db: Db, o: Options, m: TrackMetadata) returns (artistId: Uuid, albumId: Option<Uuid>)
    requires db.Valid()
    modifies db
    ensures db.Valid()
    ensures db.Snapshot() == ApplyAll(old(db.Snapshot()), CatalogWrites(o, m))
    ensures artistId == ArtistId(o, m) && albumId == AlbumId(o, m)
  {
    ghost var t0 := db.Snapshot();
    ghost var aw := AlbumWrites(o, m);
    ghost var ws := aw + [PutArtist(ArtistRow(o, m.artist))];
    albumId := InsertTrackAlbum(db, o, m);
    ghost var t1 := db.Snapshot();
    artistId := InsertTrackArtist(db, o, m.artist);
    assert db.Snapshot() == ApplyAll(t0, ws) by {
      ApplyAllConcat(t0, aw, [PutArtist(ArtistRow(o, m.artist))]);
    }
    var albumArtistId := InsertTrackAlbumArtist(db, o, m);
    assert db.Snapshot() == ApplyAll(t0, ws + AlbumArtistWrites(o, m)) by {
      ApplyAllConcat(t0, ws, AlbumArtistWrites(o, m));
    }
    InsertTrackLink(db, o, m, albumId, albumArtistId.Or(Some(artistId)));
    assert db.Snapshot() == ApplyAll(t0, CatalogWrites(o, m)) by {
      ApplyAllConcat(t0, ws + AlbumArtistWrites(o, m), LinkWrites(o, m));
    }
  }

  /** The album-artist statement of `import_file`. */
  method InsertTrackAlbumArtist(db: Db, o: Options, m: TrackMetadata) returns (albumArtistId: Option<Uuid>)
    requires db.Valid()
    modifies db
    ensures db.Valid()
    ensures db.Snapshot() == ApplyAll(old(db.Snapshot()), AlbumArtistWrites(o, m))
    ensures albumArtistId.Some? <==> m.albumArtist.Some?
    ensures albumArtistId.Some? ==> albumArtistId.value == o.hash(m.albumArtist.value)
  {
    if m.albumArtist.Some? {
      var id := InsertTrackArtist(db, o, m.albumArtist.value);
      albumArtistId := Some(id);
    } else {
      albumArtistId := None;
    }
  }

  /** The `upsert_album_artist` statement of `import_file`, for a track with an album. */
  method InsertTrackLink(db: Db, o: Options, m: TrackMetadata, albumId: Option<Uuid>, actual: Option<Uuid>)
    requires db.Valid()
    requires albumId == AlbumId(o, m) && actual == Some(LinkedArtistId(o, m))
    modifies db
    ensures db.Valid()
    ensures db.Snapshot() == ApplyAll(old(db.Snapshot()), LinkWrites(o, m))
  {
    ghost var t0 := db.Snapshot();
    if albumId.Some? {
      db.UpsertAlbumArtist(albumId.value, actual.value);
      ApplyAllSingle(t0, PutAlbumArtist(albumId.value, actual.value));
    }
  }

  /** The cataloging half of `import_file`, for metadata that passed `is_valid`. */
  method ImportTrack(db: Db, o: Options, path: string, folderId: Uuid, m: TrackMetadata, length: nat) returns (r: Outcome)
    requires db.Valid()
    modifies db
    ensures db.Valid()
    ensures db.Snapshot() == ApplyAll(old(db.Snapshot()), TrackWrites(o, path, folderId, m, length))
    ensures r == if m.title.None? then Panicked else Done
  {
    ghost var t0 := db.Snapshot();
    var artistId, albumId := CatalogTrack(db, o, m);
    if m.title.None? {
      // `metadata.title.unwrap()` panics
      assert SongWrites(o, path, folderId, m, length) == [];
      assert TrackWrites(o, path, folderId, m, length) == CatalogWrites(o, m) + [] == CatalogWrites(o, m);
      return Panicked;
    }
    ghost var t1 := db.Snapshot();
    var title := m.title.value;
    InsertTrackSong(db, o, path, folderId, m, length, title, artistId, albumId);
    assert db.Snapshot() == ApplyAll(t0, TrackWrites(o, path, folderId, m, length)) by {
      ApplyAllPair(t1, PutSong(SongRow(o, m, title, length)), PutFolderChild(ChildRow(o, path, folderId, title, SongId(o, m, title))));
      ApplyAllConcat(t0, CatalogWrites(o, m), SongWrites(o, path, folderId, m, length));
    }
    r := Done;
  }

  /** The song and folder-child statements of `import_file`. */
  method InsertTrackSong(db: Db, o: Options, path: string, folderId: Uuid, m: TrackMetadata, length: nat,
                         title: string, artistId: Uuid, albumId: Option<Uuid>)
    requires db.Valid()
    requires m.title == Some(title) && artistId == ArtistId(o, m) && albumId == AlbumId(o, m)
    modifies db
    ensures db.Valid()
    ensures db.Snapshot()
      == Apply(Apply(old(db.Snapshot()), PutSong(SongRow(o, m, title, length))),
               PutFolderChild(ChildRow(o, path, folderId, title, SongId(o, m, title))))
  {
    ghost var t0 := db.Snapshot();
    // the key is built from the ids the artist and album statements returned
    var song := SongRow(o, m, title, length);
    var songId := db.InsertSongIfNotExists(song);
    ghost var t1 := db.Snapshot();
    assert t1 == Apply(t0, PutSong(song));
    var child := DbFolderChild(o.hash(path), folderId, path, title, Some(songId), None);
    assert child == ChildRow(o, path, folderId, title, SongId(o, m, title));
    var _ := db.InsertFolderChildIfNotExists(child);
    assert db.Snapshot() == Apply(t1, PutFolderChild(child));
  }

  /** The root row (without a parent) and the folder's own row; `None` where naming the folder panics. */
  method InsertFolderRows(db: Db, o: Options, folder: string, parent: Option<Uuid>) returns (folderId: Option<Uuid>)
    requires db.Valid()
    modifies db
    ensures db.Valid()
    ensures folderId.None? <==> folder != o.root && FileName(folder).None?
    ensures folderId.None? ==> db.Snapshot() == ApplyAll(old(db.Snapshot()), RootWrites(o, parent))
    ensures folderId.Some? ==>
      folderId.value == FolderId(o, folder)
      && db.Snapshot() == ApplyAll(old(db.Snapshot()), FolderWrites(o, folder, parent))
  {
    ghost var t0 := db.Snapshot();
    var parentId: Uuid;
    if parent.None? {
      parentId := db.InsertFolderIfNotExists(RootRow(o));
      ApplyAllSnoc(t0, [], PutFolder(RootRow(o)));
      assert [] + [PutFolder(RootRow(o))] == RootWrites(o, parent);
    } else {
      parentId := parent.value;
    }
    if folder == o.root {
      folderId := Some(NIL);
      assert RootWrites(o, parent) + [] == FolderWrites(o, folder, parent);
    } else {
      var name := FileName(folder);
      if name.None? {
        // `folder.file_name().unwrap()` panics
        return None;
      }
      var row := DbFolder(o.hash(folder), Some(parentId), name.value, None, o.now, None);
      var id := db.InsertFolderIfNotExists(row);
      ApplyAllSnoc(t0, RootWrites(o, parent), PutFolder(row));
      folderId := Some(id);
    }
  }

  /** `import_folder`: the folder rows, then the listing chunk by chunk. */
  method ImportFolder(db: Db, o: Options, folder: string, parent: Option<Uuid>, node: Node) returns (r: Outcome)
    requires db.Valid()
    modifies db
    ensures db.Valid()
    ensures (db.Snapshot(), r) == ImportFolderSpec(old(db.Snapshot()), o, folder, parent, node)
    decreases node, 3
  {
    var folderId := InsertFolderRows(db, o, folder, parent);
    if folderId.None? {
      return Panicked;
    }
    if !node.Dir? {
      // `read_dir` fails
      return Failed;
    }
    var stopped := ImportListing(db, o, folder, folderId.value, node.entries);
    r := if stopped then Failed else Done;
  }

  /** The `while let Some(chunk)` loop: each chunk's units, then its join set. */
  method ImportListing(db: Db, o: Options, dir: string, folderId: Uuid, es: seq<Entry>) returns (stopped: bool)
    requires db.Valid()
    modifies db
    ensures db.Valid()
    ensures (db.Snapshot(), stopped) == ImportChunks(old(db.Snapshot()), o, dir, folderId, es)
    decreases es, 2
  {
    ghost var t1 := db.Snapshot();
    var i := 0;
    stopped := false;
    while i < |es| && !stopped
      invariant 0 <= i <= |es| && db.Valid()
      invariant !stopped ==>
        ImportChunks(t1, o, dir, folderId, es) == ImportChunks(db.Snapshot(), o, dir, folderId, es[i..])
      invariant stopped ==> ImportChunks(t1, o, dir, folderId, es) == (db.Snapshot(), true)
      decreases |es| - i
    {
      var n := if |es| - i <= CHUNK_SIZE then |es| - i else CHUNK_SIZE;
      ghost var tc := db.Snapshot();
      var panicked := ImportChunkUnits(db, o, dir, folderId, es, i, n);
      ChunksStep(tc, o, dir, folderId, es, i, n);
      stopped := panicked;
      i := i + n;
    }
    if !stopped {
      assert es[i..] == [];
    }
  }

  /** One chunk: its units one after another, and whether one of them panicked. */
  method ImportChunkUnits(db: Db, o: Options, dir: string, folderId: Uuid, es: seq<Entry>, i: nat, n: nat)
    returns (panicked: bool)
    requires db.Valid() && i + n <= |es|
    modifies db
    ensures db.Valid()
    ensures (db.Snapshot(), panicked) == ImportUnits(old(db.Snapshot()), o, dir, folderId, es, i, n)
    decreases es, 1
  {
    ghost var tc := db.Snapshot();
    panicked := false;
    var j := 0;
    while j < n
      invariant 0 <= j <= n && db.Valid()
      invariant (db.Snapshot(), panicked) == ImportUnits(tc, o, dir, folderId, es, i, j)
    {
      panicked := ImportNextUnit(db, o, dir, folderId, es, i, j, tc, panicked);
      j := j + 1;
    }
  }

  /** Runs the unit for `es[i + j]` after the first `j` units of the chunk. */
  method ImportNextUnit(db: Db, o: Options, dir: string, folderId: Uuid, es: seq<Entry>, i: nat, j: nat,
                        ghost tc: Tables, panicked: bool)
    returns (panickedAfter: bool)
    requires db.Valid() && i + j < |es|
    requires (db.Snapshot(), panicked) == ImportUnits(tc, o, dir, folderId, es, i, j)
    modifies db
    ensures db.Valid()
    ensures (db.Snapshot(), panickedAfter) == ImportUnits(tc, o, dir, folderId, es, i, j + 1)
    decreases es, 0
  {
    var unit := ImportUnit(db, o, dir, folderId, es[i + j]);
    panickedAfter := panicked || unit == Panicked;
  }

  /** The listing from position `i` is its next chunk of `n` entries, then the rest. */
  lemma ChunksStep(t: Tables, o: Options, dir: string, folderId: Uuid, es: seq<Entry>, i: nat, n: nat)
    requires i < |es| && n == (if |es| - i <= CHUNK_SIZE then |es| - i else CHUNK_SIZE)
    ensures var r := ImportUnits(t, o, dir, folderId, es, i, n);
      ImportChunks(t, o, dir, folderId, es[i..])
        == if r.1 then r else ImportChunks(r.0, o, dir, folderId, es[i + n..])
  {
    UnitsShift(t, o, dir, folderId, es, i, n);
    if |es| - i > CHUNK_SIZE {
      assert es[i..][CHUNK_SIZE..] == es[i + n..];
    }
  }

  /** A chunk taken at position `i` is the chunk at the front of the rest of the listing. */
  lemma {:induction false} UnitsShift(t: Tables, o: Options, dir: string, folderId: Uuid, es: seq<Entry>, i: nat, n: nat)
    requires i + n <= |es|
    ensures ImportUnits(t, o, dir, folderId, es[i..], 0, n) == ImportUnits(t, o, dir, folderId, es, i, n)
    decreases n
  {
    if n > 0 {
      UnitsShift(t, o, dir, folderId, es, i, n - 1);
      assert es[i..][n - 1] == es[i + n - 1];
    }
  }

  /** The unit spawned for one listing entry. */
  method ImportUnit(db: Db, o: Options, dir: string, folderId: Uuid, e: Entry) returns (r: Outcome)
    requires db.Valid()
    modifies db
    ensures db.Valid()
    ensures (db.Snapshot(), r) == ImportEntry(old(db.Snapshot()), o, dir, folderId, e)
    decreases e
  {
    var path := Join(dir, e.name);
    match e.node
    case File(c) =>
      r := ImportFile(db, o, path, folderId, c);
    case Special =>
      r := Done;
    case _ =>
      // `let _ = import_folder(…)`: only a panic escapes the unit
      var sub := ImportFolder(db, o, path, Some(folderId), e.node);
      r := if sub == Panicked then Panicked else Done;
  }
}
