/**
 * The earlier folder import of `tasks/mod.rs`: only `.ogg` files are
 * imported, every key is the hash of a provider URI (`path:` for folders,
 * `tags:` for albums, artists and songs), a file is skipped only when its
 * path is already a folder child, and a file without metadata leaves no
 * trace at all.
 *
 * The filesystem is an input tree, the container parse an input per file,
 * the clock a constant `now`, `uri_to_uuid` the `hash` parameter and the
 * date parse the `parseDate` parameter. Each folder's join set is run
 * sequentially: every unit runs when it is spawned, and `await_join_set`
 * then drains the outcomes in spawn order.
 *
 * `ImportFileSpec` and `ImportFolderSpec` say what the import does to the
 * tables; `ImportFile` and `ImportFolder` do it through the `Db` handle and
 * are proved to match them.
 */
module LegacyImport {

  import opened Base
  import opened Paths
  import opened Sequences
  import opened Catalog
  import opened Providers
  import Metadata

  /** Opening the file and reading its length either fails or gives the length and what the parser found. */
  datatype FileContent = CannotOpen | Opened(length: nat, container: Metadata.Container)

  /** A filesystem node as `read_dir` and `file_type` see it. */
  datatype Node =
    | Dir(entries: seq<Entry>)
    | UnreadableDir
    | File(content: FileContent)
    | Special

  datatype Entry = Entry(name: string, node: Node)

  /** The `TaskState` the importer reads: library root, clock, URI hash and date parser. */
  datatype Options = Options(
    root: string,
    now: Timestamp,
    hash: Hasher,
    parseDate: Metadata.DateParser)

  /** The provider name of everything read from the file's own tags. */
  const TAGS: string := "tags"

  // ---------------------------------------------------------------------
  // Keys and rows
  // ---------------------------------------------------------------------

  /** The key of a tag value: the hash of its `tags:` URI. */
  function TagId(o: Options, name: string): Uuid
  {
    o.hash(AsStr(FromProvider(TAGS, name)))
  }

  function AlbumId(o: Options, m: Metadata.SongMetadata): Option<Uuid>
  {
    if m.album.Some? then Some(TagId(o, m.album.value)) else None
  }

  function AlbumRow(o: Options, title: string): DbAlbum
  {
    DbAlbum(TagId(o, title), title, None)
  }

  function ArtistRow(o: Options, name: string): DbArtist
  {
    DbArtist(TagId(o, name), name, None, None)
  }

  /**
   * The song row: keyed by the title alone, no date and no genre (the
   * release built from the tags has neither), the raw extension as suffix.
   */
  function SongRow(o: Options, path: string, m: Metadata.SongMetadata, length: nat): DbSong
  {
    var suffix := Extension(path);
    DbSong(
      songId := TagId(o, m.title),
      title := m.title,
      created := o.now,
      date := None,
      coverArtId := None,
      artistId := Some(TagId(o, m.artist)),
      albumId := AlbumId(o, m),
      contentType := Metadata.ContentType(suffix),
      suffix := suffix,
      size := Some(AsU32(length)),
      trackNumber := m.trackNumber,
      discNumber := m.discNumber,
      duration := m.duration,
      bitRate := m.bitRate,
      genre := None)
  }

  /** The folder child: keyed by the hash of the bare path, pointing at the title's song. */
  function ChildRow(o: Options, path: string, folderId: Uuid, m: Metadata.SongMetadata): DbFolderChild
  {
    DbFolderChild(o.hash(path), folderId, path, m.title, Some(TagId(o, m.title)), None)
  }

  function AlbumWrites(o: Options, m: Metadata.SongMetadata): seq<Write>
  {
    if m.album.Some? then [PutAlbum(AlbumRow(o, m.album.value))] else []
  }

  /** The album link; the album artist of the release is always absent, so it is the track artist. */
  function LinkWrites(o: Options, m: Metadata.SongMetadata): seq<Write>
  {
    if m.album.Some? then [PutAlbumArtist(TagId(o, m.album.value), TagId(o, m.artist))] else []
  }

  /** Everything a file with metadata writes, in statement order. */
  function TrackWrites(o: Options, path: string, folderId: Uuid, m: Metadata.SongMetadata, length: nat): seq<Write>
  {
    AlbumWrites(o, m) + [PutArtist(ArtistRow(o, m.artist))] + LinkWrites(o, m)
    + [PutSong(SongRow(o, path, m, length)), PutFolderChild(ChildRow(o, path, folderId, m))]
  }

  // ---------------------------------------------------------------------
  // What `import_file` does
  // ---------------------------------------------------------------------

  /** The extraction on the file's name (empty when the path has none) and its container. */
  function Extraction(o: Options, path: string, container: Metadata.Container)
    : Result<Option<Metadata.SongMetadata>, Metadata.ExtractError>
  {
    Metadata.ExtractMetadata(FileName(path).UnwrapOr(""), container, o.parseDate)
  }

  /** The statements `import_file` issues after an extraction, and how it ends. */
  function ExtractedPlan(o: Options, path: string, folderId: Uuid, length: nat,
                         metadata: Result<Option<Metadata.SongMetadata>, Metadata.ExtractError>): (seq<Write>, Outcome)
  {
    match metadata
    case Err(_) => ([], Failed)
    case Ok(None) => ([], Done)
    case Ok(Some(m)) => (TrackWrites(o, path, folderId, m, length), Done)
  }

  /** The statements `import_file` issues and how it ends. */
  function FilePlan(t: Tables, o: Options, path: string, folderId: Uuid, content: FileContent): (seq<Write>, Outcome)
  {
    if HasChildPath(t, path) then ([], Done)
    else
      match content
      case CannotOpen => ([], Failed)
      case Opened(length, container) => ExtractedPlan(o, path, folderId, length, Extraction(o, path, container))
  }

  function ImportFileSpec(t: Tables, o: Options, path: string, folderId: Uuid, content: FileContent): (Tables, Outcome)
  {
    var plan := FilePlan(t, o, path, folderId, content);
    (ApplyAll(t, plan.0), plan.1)
  }

  // ---------------------------------------------------------------------
  // What `import_folder` does
  // ---------------------------------------------------------------------

  function FolderUri(folder: string): string
  {
    "path:" + folder
  }

  /** The root path is the nil folder; any other folder is keyed by its `path:` URI. */
  function FolderId(o: Options, folder: string): Uuid
  {
    if folder == o.root then NIL else o.hash(FolderUri(folder))
  }

  function FolderRow(o: Options, folder: string, name: string, parent: Option<Uuid>): DbFolder
  {
    DbFolder(o.hash(FolderUri(folder)), parent, name, None, o.now, None)
  }

  /** The folder's own row, unless it is the root. */
  function FolderWrites(o: Options, folder: string, parent: Option<Uuid>): seq<Write>
    requires folder == o.root || FileName(folder).Some?
  {
    if folder == o.root then [] else [PutFolder(FolderRow(o, folder, FileName(folder).value, parent))]
  }

  /** A listing entry gets a unit: a directory, or a regular file whose lower-cased extension is `ogg`. */
  predicate Spawns(dir: string, e: Entry)
  {
    e.node.Dir? || e.node.UnreadableDir?
    || (e.node.File? && Metadata.Suffix(Join(dir, e.name)) == Some("ogg"))
  }

  function Spawned(dir: string): Entry -> bool
  {
    e => Spawns(dir, e)
  }

  /** `await_join_set`: an ordinary error of a unit is swallowed, a panicked unit fails the folder. */
  function JoinSetResult(outcomes: seq<Outcome>): Outcome
  {
    if Panicked in outcomes then Failed else Done
  }

  /** `import_folder(folder, parent)`. */
  function ImportFolderSpec(t: Tables, o: Options, folder: string, parent: Option<Uuid>, node: Node): (Tables, Outcome)
    decreases node, 2
  {
    if folder != o.root && FileName(folder).None? then (t, Panicked)
    else
      var t1 := ApplyAll(t, FolderWrites(o, folder, parent));
      match node
      case Dir(es) =>
        var r := ImportUnits(t1, o, folder, FolderId(o, folder), es);
        (r.0, JoinSetResult(r.1))
      case _ => (t1, Failed)
  }

  /** The units of a listing, in spawn order, and their outcomes. */
  function ImportUnits(t: Tables, o: Options, dir: string, folderId: Uuid, es: seq<Entry>): (Tables, seq<Outcome>)
    decreases es, 1
  {
    if es == [] then (t, [])
    else
      var r := ImportUnits(t, o, dir, folderId, es[..|es| - 1]);
      var e := es[|es| - 1];
      if !Spawns(dir, e) then r
      else
        var u := ImportEntry(r.0, o, dir, folderId, e);
        (u.0, r.1 + [u.1])
  }

  /** The unit of one spawned entry: `import_file`, or `import_folder` under this folder. */
  function ImportEntry(t: Tables, o: Options, dir: string, folderId: Uuid, e: Entry): (Tables, Outcome)
    requires Spawns(dir, e)
    decreases e, 0
  {
    var path := Join(dir, e.name);
    if e.node.File? then ImportFileSpec(t, o, path, folderId, e.node.content)
    else ImportFolderSpec(t, o, path, Some(folderId), e.node)
  }

  // ---------------------------------------------------------------------
  // Properties of one file
  // ---------------------------------------------------------------------

  /** A path already recorded as a folder child is skipped without any store change. */
  lemma KnownChildSkipped(t: Tables, o: Options, path: string, folderId: Uuid, content: FileContent)
    requires HasChildPath(t, path)
    ensures ImportFileSpec(t, o, path, folderId, content) == (t, Done)
  {
  }

  /** Without metadata nothing at all is written, not even a failure record, and the unit succeeds. */
  lemma NothingExtractedNothingWritten(t: Tables, o: Options, path: string, folderId: Uuid, length: nat, container: Metadata.Container)
    requires Extraction(o, path, container) == Ok(None)
    ensures ImportFileSpec(t, o, path, folderId, Opened(length, container)) == (t, Done)
  {
    var content := Opened(length, container);
    if !HasChildPath(t, path) {
      NothingExtractedPlan(o, path, folderId, length, Extraction(o, path, container));
      assert FilePlan(t, o, path, folderId, content) == ([], Done);
    }
    assert ApplyAll(t, []) == t;
  }

  lemma NothingExtractedPlan(o: Options, path: string, folderId: Uuid, length: nat,
                             metadata: Result<Option<Metadata.SongMetadata>, Metadata.ExtractError>)
    requires metadata == Ok(None)
    ensures ExtractedPlan(o, path, folderId, length, metadata) == ([], Done)
  {
  }

  /** A container the parser cannot read is such a file, whatever its name. */
  lemma UnreadableNothingWritten(t: Tables, o: Options, path: string, folderId: Uuid, length: nat)
    ensures ImportFileSpec(t, o, path, folderId, Opened(length, Metadata.Unreadable)) == (t, Done)
  {
    Metadata.UnreadableGivesNone(FileName(path).UnwrapOr(""), o.parseDate);
    NothingExtractedNothingWritten(t, o, path, folderId, length, Metadata.Unreadable);
  }

  /** A new file that cannot be opened, or whose tags do not parse, fails its unit and writes nothing. */
  lemma BrokenFileFails(t: Tables, o: Options, path: string, folderId: Uuid, content: FileContent)
    requires !HasChildPath(t, path)
    requires content.CannotOpen? || Extraction(o, path, content.container).Err?
    ensures ImportFileSpec(t, o, path, folderId, content) == (t, Failed)
  {
  }

  /** A tag key is the hash of the value prefixed with `tags:`. */
  lemma TagKey(o: Options, name: string)
    ensures TagId(o, name) == o.hash("tags:" + name)
  {
    assert AsStr(FromProvider(TAGS, name)) == "tags:" + name;
  }

  /**
   * A file with metadata catalogs the artist, the song under its title's key
   * and the folder child under its path's key, and with an album the album
   * and its link to the track artist.
   */
  lemma TrackCataloged(t: Tables, o: Options, path: string, folderId: Uuid, m: Metadata.SongMetadata, length: nat)
    ensures var u := ApplyAll(t, TrackWrites(o, path, folderId, m, length));
      TagId(o, m.artist) in u.artists
      && TagId(o, m.title) in u.songs
      && o.hash(path) in u.folderChildren
      && (m.album.Some? ==>
            TagId(o, m.album.value) in u.albums
            && (TagId(o, m.album.value), TagId(o, m.artist)) in u.albumArtists)
  {
    var ws := TrackWrites(o, path, folderId, m, length);
    var u := ApplyAll(t, ws);
    ApplyAllHolds(t, ws);
    assert Holds(u, PutArtist(ArtistRow(o, m.artist)));
    assert Holds(u, PutSong(SongRow(o, path, m, length)));
    assert Holds(u, PutFolderChild(ChildRow(o, path, folderId, m)));
    if m.album.Some? {
      assert Holds(u, PutAlbum(AlbumRow(o, m.album.value)));
      assert Holds(u, PutAlbumArtist(TagId(o, m.album.value), TagId(o, m.artist)));
    }
  }

  /**
   * The song key depends on the title alone: a second track with the same
   * title, from any file, artist or album, leaves the first track's song row
   * as it was.
   */
  lemma SameTitleSameSong(t: Tables, o: Options,
                          p1: string, f1: Uuid, m1: Metadata.SongMetadata, l1: nat,
                          p2: string, f2: Uuid, m2: Metadata.SongMetadata, l2: nat)
    requires m1.title == m2.title
    ensures var u1 := ApplyAll(t, TrackWrites(o, p1, f1, m1, l1));
      var u2 := ApplyAll(u1, TrackWrites(o, p2, f2, m2, l2));
      TagId(o, m1.title) in u1.songs && TagId(o, m2.title) in u2.songs
      && u2.songs[TagId(o, m2.title)] == u1.songs[TagId(o, m1.title)]
  {
    var u1 := ApplyAll(t, TrackWrites(o, p1, f1, m1, l1));
    TrackCataloged(t, o, p1, f1, m1, l1);
    ApplyAllExtends(u1, TrackWrites(o, p2, f2, m2, l2));
  }

  /** The song's suffix is the raw extension; its content type is `audio/ogg` exactly when that is `ogg`. */
  lemma SongContentType(o: Options, path: string, m: Metadata.SongMetadata, length: nat)
    ensures var s := SongRow(o, path, m, length);
      s.suffix == Extension(path)
      && (s.contentType.Some? <==> Extension(path) == Some("ogg"))
      && (s.contentType.Some? ==> s.contentType.value == "audio/ogg")
  {
  }

  /**
   * A `.OGG` file passes the lower-casing filter, but its song gets no
   * content type: the content-type match is on the raw extension.
   */
  lemma UpperCaseOggUntyped(o: Options, path: string, m: Metadata.SongMetadata, length: nat)
    requires Extension(path) == Some("OGG")
    ensures Metadata.Suffix(path) == Some("ogg")
    ensures SongRow(o, path, m, length).contentType.None?
  {
    assert Strings.Lower("OGG") == "ogg";
  }

  // ---------------------------------------------------------------------
  // Properties of the listing
  // ---------------------------------------------------------------------

  /** Running a listing is running its prefix, then its last entry if it spawns a unit. */
  lemma UnitsSnoc(t: Tables, o: Options, dir: string, folderId: Uuid, es: seq<Entry>, e: Entry)
    ensures var r := ImportUnits(t, o, dir, folderId, es);
      ImportUnits(t, o, dir, folderId, es + [e])
        == if Spawns(dir, e) then
             var u := ImportEntry(r.0, o, dir, folderId, e); (u.0, r.1 + [u.1])
           else r
  {
    var s := es + [e];
    assert s[..|s| - 1] == es;
  }

  /** One turn of the listing loop extends the run of the prefix by the next entry. */
  lemma UnitsStep(t: Tables, o: Options, dir: string, folderId: Uuid, es: seq<Entry>, i: nat,
                  r: (Tables, seq<Outcome>), next: (Tables, seq<Outcome>))
    requires i < |es| && r == ImportUnits(t, o, dir, folderId, es[..i])
    requires Spawns(dir, es[i]) ==> next == (ImportEntry(r.0, o, dir, folderId, es[i]).0, r.1 + [ImportEntry(r.0, o, dir, folderId, es[i]).1])
    requires !Spawns(dir, es[i]) ==> next == r
    ensures next == ImportUnits(t, o, dir, folderId, es[..i + 1])
  {
    assert es[..i + 1] == es[..i] + [es[i]];
    UnitsSnoc(t, o, dir, folderId, es[..i], es[i]);
  }

  /**
   * Entries that spawn no unit (files without an `ogg` extension, and
   * anything neither file nor directory) change nothing: the listing acts
   * exactly as its directories and `.ogg` files alone.
   */
  lemma {:induction false} OnlySpawnedEntriesCount(t: Tables, o: Options, dir: string, folderId: Uuid, es: seq<Entry>)
    ensures ImportUnits(t, o, dir, folderId, Filter(es, Spawned(dir))) == ImportUnits(t, o, dir, folderId, es)
    decreases |es|
  {
    if es != [] {
      var init := es[..|es| - 1];
      var e := es[|es| - 1];
      assert es == init + [e];
      FilterConcat(init, [e], Spawned(dir));
      OnlySpawnedEntriesCount(t, o, dir, folderId, init);
      var fi := Filter(init, Spawned(dir));
      assert [e][1..] == [];
      if Spawns(dir, e) {
        assert Filter([e], Spawned(dir)) == [e];
        UnitsSnoc(t, o, dir, folderId, fi, e);
        UnitsSnoc(t, o, dir, folderId, init, e);
      } else {
        assert Filter([e], Spawned(dir)) == [];
        assert fi + [] == fi;
        UnitsSnoc(t, o, dir, folderId, init, e);
      }
    }
  }

  /** Every entry name in the tree is one a directory listing can yield. */
  predicate NamesProper(node: Node)
    decreases node, 1
  {
    match node
    case Dir(es) => NamesProperIn(es)
    case _ => true
  }

  predicate NamesProperIn(es: seq<Entry>)
    decreases es, 0
  {
    forall i :: 0 <= i < |es| ==> IsEntryName(es[i].name) && NamesProper(es[i].node)
  }

  /** A prefix of a well-named listing is well named. */
  lemma NamesProperPrefix(es: seq<Entry>, n: nat)
    requires n <= |es| && NamesProperIn(es)
    ensures NamesProperIn(es[..n])
  {
    assert forall i :: 0 <= i < n ==> es[..n][i] == es[i];
  }

  /** A nameless folder other than the root panics before writing anything. */
  lemma NamelessFolderPanics(t: Tables, o: Options, folder: string, parent: Option<Uuid>, node: Node)
    requires folder != o.root && FileName(folder).None?
    ensures ImportFolderSpec(t, o, folder, parent, node) == (t, Panicked)
  {
  }

  /**
   * In a well-named tree no unit panics, so an ordinary error below a folder
   * never reaches it: the folder fails exactly when it cannot be listed.
   */
  lemma {:induction false} FolderOutcome(t: Tables, o: Options, folder: string, parent: Option<Uuid>, node: Node)
    requires NamesProper(node) && (folder == o.root || FileName(folder).Some?)
    ensures ImportFolderSpec(t, o, folder, parent, node).1 == if node.Dir? then Done else Failed
    decreases node, 2
  {
    if node.Dir? {
      UnitsNoPanic(ApplyAll(t, FolderWrites(o, folder, parent)), o, folder, FolderId(o, folder), node.entries);
    }
  }

  lemma {:induction false} UnitsNoPanic(t: Tables, o: Options, dir: string, folderId: Uuid, es: seq<Entry>)
    requires NamesProperIn(es)
    ensures Panicked !in ImportUnits(t, o, dir, folderId, es).1
    decreases es, 1
  {
    if es != [] {
      var init := es[..|es| - 1];
      var e := es[|es| - 1];
      NamesProperPrefix(es, |es| - 1);
      UnitsNoPanic(t, o, dir, folderId, init);
      if Spawns(dir, e) {
        EntryNoPanic(ImportUnits(t, o, dir, folderId, init).0, o, dir, folderId, e);
      }
    }
  }

  lemma {:induction false} EntryNoPanic(t: Tables, o: Options, dir: string, folderId: Uuid, e: Entry)
    requires Spawns(dir, e) && IsEntryName(e.name) && NamesProper(e.node)
    ensures ImportEntry(t, o, dir, folderId, e).1 != Panicked
    decreases e, 0
  {
    if e.node.File? {
      FileNoPanic(t, o, Join(dir, e.name), folderId, e.node.content);
    } else {
      FileNameOfJoin(dir, e.name);
      FolderOutcome(t, o, Join(dir, e.name), Some(folderId), e.node);
    }
  }

  /** `import_file` of this importer has no panicking statement. */
  lemma FileNoPanic(t: Tables, o: Options, path: string, folderId: Uuid, content: FileContent)
    ensures ImportFileSpec(t, o, path, folderId, content).1 != Panicked
  {
    var plan := FilePlan(t, o, path, folderId, content);
    assert plan.1 != Panicked;
  }

  /**
   * A named folder other than the root is stored under the hash of its
   * `path:` URI, with its name and the given parent when the key was new.
   */
  lemma FolderCataloged(t: Tables, o: Options, folder: string, parent: Option<Uuid>, node: Node)
    requires folder != o.root && FileName(folder).Some?
    ensures var u := ImportFolderSpec(t, o, folder, parent, node).0;
      o.hash("path:" + folder) in u.folders
      && (o.hash("path:" + folder) !in t.folders ==>
            u.folders[o.hash("path:" + folder)] == FolderRow(o, folder, FileName(folder).value, parent))
  {
    var row := FolderRow(o, folder, FileName(folder).value, parent);
    ApplyAllSingle(t, PutFolder(row));
    var t1 := InsertFolder(t, row);
    if node.Dir? {
      UnitsGrow(t1, o, folder, FolderId(o, folder), node.entries);
    }
  }

  // ---------------------------------------------------------------------
  // Growth and idempotence
  // ---------------------------------------------------------------------

  lemma FileGrows(t: Tables, o: Options, path: string, folderId: Uuid, content: FileContent)
    ensures Extends(t, ImportFileSpec(t, o, path, folderId, content).0)
  {
    ApplyAllExtends(t, FilePlan(t, o, path, folderId, content).0);
  }

  lemma {:induction false} FolderGrows(t: Tables, o: Options, folder: string, parent: Option<Uuid>, node: Node)
    ensures Extends(t, ImportFolderSpec(t, o, folder, parent, node).0)
    decreases node, 2
  {
    if folder == o.root || FileName(folder).Some? {
      var t1 := ApplyAll(t, FolderWrites(o, folder, parent));
      ApplyAllExtends(t, FolderWrites(o, folder, parent));
      if node.Dir? {
        UnitsGrow(t1, o, folder, FolderId(o, folder), node.entries);
        ExtendsTransitive(t, t1, ImportFolderSpec(t, o, folder, parent, node).0);
      }
    }
  }

  lemma {:induction false} UnitsGrow(t: Tables, o: Options, dir: string, folderId: Uuid, es: seq<Entry>)
    ensures Extends(t, ImportUnits(t, o, dir, folderId, es).0)
    decreases es, 1
  {
    if es != [] {
      var init := es[..|es| - 1];
      var e := es[|es| - 1];
      var r := ImportUnits(t, o, dir, folderId, init);
      UnitsGrow(t, o, dir, folderId, init);
      if Spawns(dir, e) {
        EntryGrows(r.0, o, dir, folderId, e);
        ExtendsTransitive(t, r.0, ImportUnits(t, o, dir, folderId, es).0);
      }
    }
  }

  lemma {:induction false} EntryGrows(t: Tables, o: Options, dir: string, folderId: Uuid, e: Entry)
    requires Spawns(dir, e)
    ensures Extends(t, ImportEntry(t, o, dir, folderId, e).0)
    decreases e, 0
  {
    var path := Join(dir, e.name);
    if e.node.File? {
      FileGrows(t, o, path, folderId, e.node.content);
    } else {
      FolderGrows(t, o, path, Some(folderId), e.node);
    }
  }

  /** Once a file's effect is in the store, importing it again changes nothing. */
  lemma FileAbsorbed(t: Tables, o: Options, path: string, folderId: Uuid, content: FileContent, u: Tables)
    requires Extends(ImportFileSpec(t, o, path, folderId, content).0, u)
    ensures ImportFileSpec(u, o, path, folderId, content).0 == u
  {
    var plan := FilePlan(t, o, path, folderId, content);
    ApplyAllExtends(t, plan.0);
    ExtendsTransitive(t, ApplyAll(t, plan.0), u);
    PathsPersist(t, u, path);
    if !HasChildPath(u, path) {
      ApplyAllAbsorbed(t, plan.0, u);
    }
  }

  /** Once a folder's effect is in the store, importing it again changes nothing and ends the same way. */
  lemma {:induction false} FolderAbsorbed(t: Tables, o: Options, folder: string, parent: Option<Uuid>, node: Node, u: Tables)
    requires NamesProper(node) && (folder == o.root || FileName(folder).Some?)
    requires Extends(ImportFolderSpec(t, o, folder, parent, node).0, u)
    ensures ImportFolderSpec(u, o, folder, parent, node) == (u, if node.Dir? then Done else Failed)
    decreases node, 2
  {
    var ws := FolderWrites(o, folder, parent);
    var t1 := ApplyAll(t, ws);
    if node.Dir? {
      var id := FolderId(o, folder);
      UnitsGrow(t1, o, folder, id, node.entries);
      ExtendsTransitive(t1, ImportUnits(t1, o, folder, id, node.entries).0, u);
      ApplyAllAbsorbed(t, ws, u);
      UnitsAbsorbed(t1, o, folder, id, node.entries, u);
      UnitsNoPanic(u, o, folder, id, node.entries);
    } else {
      ApplyAllAbsorbed(t, ws, u);
    }
  }

  lemma {:induction false} UnitsAbsorbed(t: Tables, o: Options, dir: string, folderId: Uuid, es: seq<Entry>, u: Tables)
    requires NamesProperIn(es)
    requires Extends(ImportUnits(t, o, dir, folderId, es).0, u)
    ensures ImportUnits(u, o, dir, folderId, es).0 == u
    decreases es, 1
  {
    if es != [] {
      var init := es[..|es| - 1];
      var e := es[|es| - 1];
      var r := ImportUnits(t, o, dir, folderId, init);
      NamesProperPrefix(es, |es| - 1);
      if Spawns(dir, e) {
        EntryGrows(r.0, o, dir, folderId, e);
        ExtendsTransitive(r.0, ImportEntry(r.0, o, dir, folderId, e).0, u);
        UnitsAbsorbed(t, o, dir, folderId, init, u);
        EntryAbsorbed(r.0, o, dir, folderId, e, u);
      } else {
        UnitsAbsorbed(t, o, dir, folderId, init, u);
      }
    }
  }

  lemma {:induction false} EntryAbsorbed(t: Tables, o: Options, dir: string, folderId: Uuid, e: Entry, u: Tables)
    requires Spawns(dir, e) && IsEntryName(e.name) && NamesProper(e.node)
    requires Extends(ImportEntry(t, o, dir, folderId, e).0, u)
    ensures ImportEntry(u, o, dir, folderId, e).0 == u
    decreases e, 0
  {
    var path := Join(dir, e.name);
    if e.node.File? {
      FileAbsorbed(t, o, path, folderId, e.node.content, u);
    } else {
      FileNameOfJoin(dir, e.name);
      FolderAbsorbed(t, o, path, Some(folderId), e.node, u);
    }
  }

  /**
   * Importing a well-named tree a second time into the store the first
   * import produced leaves the store as it is and ends the same way: done
   * for a directory, failed for anything that cannot be listed.
   */
  lemma ImportIdempotent(t: Tables, o: Options, folder: string, parent: Option<Uuid>, node: Node)
    requires NamesProper(node) && (folder == o.root || FileName(folder).Some?)
    ensures var first := ImportFolderSpec(t, o, folder, parent, node);
      first.1 == (if node.Dir? then Done else Failed)
      && ImportFolderSpec(first.0, o, folder, parent, node) == first
  {
    var first := ImportFolderSpec(t, o, folder, parent, node);
    FolderOutcome(t, o, folder, parent, node);
    FolderAbsorbed(t, o, folder, parent, node, first.0);
  }

  // ---------------------------------------------------------------------
  // The import against the store
  // ---------------------------------------------------------------------

  /** `import_file`: the folder-child check, the extraction, then the track's writes. */
  method ImportFile(db: Db, o: Options, path: string, folderId: Uuid, content: FileContent) returns (r: Outcome)
    requires db.Valid()
    modifies db
    ensures db.Valid()
    ensures (db.Snapshot(), r) == ImportFileSpec(old(db.Snapshot()), o, path, folderId, content)
  {
    var existing := db.FindFolderChildByPath(path);
    if existing.Some? {
      return Done;
    }
    if content.CannotOpen? {
      return Failed;
    }
    var metadata := Extraction(o, path, content.container);
    r := ImportExtracted(db, o, path, folderId, content.length, metadata);
  }

  /** `import_file` after the extraction: a failed one fails, an empty one is done, a track is written. */
  method ImportExtracted(db: Db, o: Options, path: string, folderId: Uuid, length: nat,
                         metadata: Result<Option<Metadata.SongMetadata>, Metadata.ExtractError>) returns (r: Outcome)
    requires db.Valid()
    modifies db
    ensures db.Valid()
    ensures var plan := ExtractedPlan(o, path, folderId, length, metadata);
      db.Snapshot() == ApplyAll(old(db.Snapshot()), plan.0) && r == plan.1
  {
    if metadata.Err? {
      return Failed;
    }
    if metadata.value.None? {
      return Done;
    }
    ImportTrack(db, o, path, folderId, metadata.value.value, length);
    r := Done;
  }

  /** The album statement of `import_file`. */
  method InsertTrackAlbum(db: Db, o: Options, m: Metadata.SongMetadata) returns (albumId: Option<Uuid>)
    requires db.Valid()
    modifies db
    ensures db.Valid()
    ensures db.Snapshot() == ApplyAll(old(db.Snapshot()), AlbumWrites(o, m))
    ensures albumId == AlbumId(o, m)
  {
    ghost var t0 := db.Snapshot();
    if m.album.Some? {
      var id := db.InsertAlbumIfNotExists(DbAlbum(TagId(o, m.album.value), m.album.value, None));
      ApplyAllSingle(t0, PutAlbum(AlbumRow(o, m.album.value)));
      albumId := Some(id);
    } else {
      albumId := None;
    }
  }

  /** The artist statement of `import_file`. */
  method InsertTrackArtist(db: Db, o: Options, m: Metadata.SongMetadata) returns (artistId: Uuid)
    requires db.Valid()
    modifies db
    ensures db.Valid()
    ensures db.Snapshot() == ApplyAll(old(db.Snapshot()), [PutArtist(ArtistRow(o, m.artist))])
    ensures artistId == TagId(o, m.artist)
  {
    ghost var t0 := db.Snapshot();
    artistId := db.InsertArtistIfNotExists(DbArtist(TagId(o, m.artist), m.artist, None, None));
    ApplyAllSingle(t0, PutArtist(ArtistRow(o, m.artist)));
  }

  /** The `upsert_album_artist` statement, for a track with an album. */
  method InsertTrackLink(db: Db, o: Options, m: Metadata.SongMetadata, albumId: Option<Uuid>, artistId: Uuid)
    requires db.Valid()
    requires albumId == AlbumId(o, m) && artistId == TagId(o, m.artist)
    modifies db
    ensures db.Valid()
    ensures db.Snapshot() == ApplyAll(old(db.Snapshot()), LinkWrites(o, m))
  {
    ghost var t0 := db.Snapshot();
    if albumId.Some? {
      db.UpsertAlbumArtist(albumId.value, artistId);
      ApplyAllSingle(t0, PutAlbumArtist(albumId.value, artistId));
    }
  }

  /** The song statement of `import_file`, built from the ids the album and artist statements returned. */
  method InsertTrackSong(db: Db, o: Options, path: string, m: Metadata.SongMetadata, length: nat,
                         artistId: Uuid, albumId: Option<Uuid>) returns (songId: Uuid)
    requires db.Valid()
    requires artistId == TagId(o, m.artist) && albumId == AlbumId(o, m)
    modifies db
    ensures db.Valid()
    ensures db.Snapshot() == Apply(old(db.Snapshot()), PutSong(SongRow(o, path, m, length)))
    ensures songId == TagId(o, m.title)
  {
    var suffix := Extension(path);
    var contentType := Metadata.ContentType(suffix);
    var song := DbSong(TagId(o, m.title), m.title, o.now, None, None, Some(artistId), albumId,
                       contentType, suffix, Some(AsU32(length)),
                       m.trackNumber, m.discNumber, m.duration, m.bitRate, None);
    assert song == SongRow(o, path, m, length);
    songId := db.InsertSongIfNotExists(song);
  }

  /** The folder-child statement of `import_file`. */
  method InsertTrackChild(db: Db, o: Options, path: string, folderId: Uuid, m: Metadata.SongMetadata, songId: Uuid)
    requires db.Valid() && songId == TagId(o, m.title)
    modifies db
    ensures db.Valid()
    ensures db.Snapshot() == Apply(old(db.Snapshot()), PutFolderChild(ChildRow(o, path, folderId, m)))
  {
    var _ := db.InsertFolderChildIfNotExists(DbFolderChild(o.hash(path), folderId, path, m.title, Some(songId), None));
  }

  /** Every write of `import_file` for a file with metadata, in statement order. */
  method ImportTrack(db: Db, o: Options, path: string, folderId: Uuid, m: Metadata.SongMetadata, length: nat)
    requires db.Valid()
    modifies db
    ensures db.Valid()
    ensures db.Snapshot() == ApplyAll(old(db.Snapshot()), TrackWrites(o, path, folderId, m, length))
  {
    ghost var t0 := db.Snapshot();
    ghost var aw := AlbumWrites(o, m);
    ghost var artistWs := aw + [PutArtist(ArtistRow(o, m.artist))];
    ghost var catalogWs := artistWs + LinkWrites(o, m);
    var albumId := InsertTrackAlbum(db, o, m);
    var artistId := InsertTrackArtist(db, o, m);
    assert db.Snapshot() == ApplyAll(t0, artistWs) by {
      ApplyAllConcat(t0, aw, [PutArtist(ArtistRow(o, m.artist))]);
    }
    InsertTrackLink(db, o, m, albumId, artistId);
    assert db.Snapshot() == ApplyAll(t0, catalogWs) by {
      ApplyAllConcat(t0, artistWs, LinkWrites(o, m));
    }
    ghost var t1 := db.Snapshot();
    var songId := InsertTrackSong(db, o, path, m, length, artistId, albumId);
    InsertTrackChild(db, o, path, folderId, m, songId);
    ApplyAllPair(t1, PutSong(SongRow(o, path, m, length)), PutFolderChild(ChildRow(o, path, folderId, m)));
    ApplyAllConcat(t0, catalogWs, [PutSong(SongRow(o, path, m, length)), PutFolderChild(ChildRow(o, path, folderId, m))]);
  }

  /** The folder's own row; `None` where naming the folder panics. */
  method InsertFolderRow(db: Db, o: Options, folder: string, parent: Option<Uuid>) returns (folderId: Option<Uuid>)
    requires db.Valid()
    modifies db
    ensures db.Valid()
    ensures folderId.None? <==> folder != o.root && FileName(folder).None?
    ensures folderId.None? ==> db.Snapshot() == old(db.Snapshot())
    ensures folderId.Some? ==>
      folderId.value == FolderId(o, folder)
      && db.Snapshot() == ApplyAll(old(db.Snapshot()), FolderWrites(o, folder, parent))
  {
    ghost var t0 := db.Snapshot();
    if folder == o.root {
      return Some(NIL);
    }
    var name := FileName(folder);
    if name.None? {
      // `folder.file_name().unwrap()` panics
      return None;
    }
    var uri := FolderUri(folder);
    var row := DbFolder(o.hash(uri), parent, name.value, None, o.now, None);
    var id := db.InsertFolderIfNotExists(row);
    ApplyAllSingle(t0, PutFolder(row));
    folderId := Some(id);
  }

  /** `import_folder`: the folder row, a unit per spawned entry, then the join set. */
  method ImportFolder(db: Db, o: Options, folder: string, parent: Option<Uuid>, node: Node) returns (r: Outcome)
    requires db.Valid()
    modifies db
    ensures db.Valid()
    ensures (db.Snapshot(), r) == ImportFolderSpec(old(db.Snapshot()), o, folder, parent, node)
    decreases node, 2
  {
    var folderId := InsertFolderRow(db, o, folder, parent);
    if folderId.None? {
      return Panicked;
    }
    if !node.Dir? {
      // `read_dir` fails
      return Failed;
    }
    var outcomes := ImportListing(db, o, folder, folderId.value, node.entries);
    r := AwaitJoinSet(outcomes);
  }

  /** The `read_dir` loop: each directory and `.ogg` file spawns its unit, the rest is passed over. */
  method ImportListing(db: Db, o: Options, dir: string, folderId: Uuid, es: seq<Entry>) returns (outcomes: seq<Outcome>)
    requires db.Valid()
    modifies db
    ensures db.Valid()
    ensures (db.Snapshot(), outcomes) == ImportUnits(old(db.Snapshot()), o, dir, folderId, es)
    decreases es, 1
  {
    ghost var t0 := db.Snapshot();
    outcomes := [];
    var i := 0;
    while i < |es|
      invariant 0 <= i <= |es| && db.Valid()
      invariant (db.Snapshot(), outcomes) == ImportUnits(t0, o, dir, folderId, es[..i])
    {
      var e := es[i];
      ghost var before := (db.Snapshot(), outcomes);
      if Spawns(dir, e) {
        var unit := ImportUnit(db, o, dir, folderId, e);
        outcomes := outcomes + [unit];
      }
      UnitsStep(t0, o, dir, folderId, es, i, before, (db.Snapshot(), outcomes));
      i := i + 1;
    }
    assert es[..i] == es;
  }

  /** The unit spawned for an entry: `import_file`, or `import_folder` under this folder. */
  method ImportUnit(db: Db, o: Options, dir: string, folderId: Uuid, e: Entry) returns (r: Outcome)
    requires db.Valid() && Spawns(dir, e)
    modifies db
    ensures db.Valid()
    ensures (db.Snapshot(), r) == ImportEntry(old(db.Snapshot()), o, dir, folderId, e)
    decreases e, 0
  {
    var path := Join(dir, e.name);
    if e.node.File? {
      r := ImportFile(db, o, path, folderId, e.node.content);
    } else {
      r := ImportFolder(db, o, path, Some(folderId), e.node);
    }
  }

  /** `await_join_set`: drains the outcomes in order and fails at the first panicked unit. */
  method AwaitJoinSet(outcomes: seq<Outcome>) returns (r: Outcome)
    ensures r == Failed <==> Panicked in outcomes
    ensures r == Done <==> Panicked !in outcomes
  {
    var i := 0;
    while i < |outcomes|
      invariant 0 <= i <= |outcomes| && Panicked !in outcomes[..i]
    {
      if outcomes[i] == Panicked {
        return Failed;
      }
      assert outcomes[..i + 1] == outcomes[..i] + [outcomes[i]];
      i := i + 1;
    }
    assert outcomes[..i] == outcomes;
    return Done;
  }
}
