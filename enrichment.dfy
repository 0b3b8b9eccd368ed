/**
 * `import_external_metadata`: the background task that fills in missing
 * genres, MusicBrainz artist ids and cover art from the web services.
 *
 * The web is an input (`Web`): each service's answer to a request, already
 * decoded, or the error the request ended with. The candidate query's
 * result is an input as well (`rows`), tied to the tables by
 * `IsCandidateQuery`. Title casing and transliteration are uninterpreted
 * functions, and the clock is read once per run (`Context.now`); timestamps
 * and durations are both in nanoseconds.
 */
module Enrichment {

  import opened Base
  import opened Catalog
  import opened ApiClients

  /** Songs are processed this many at a time. */
  const CHUNK_SIZE: nat := 8

  /** A song is looked at again only this long after its last update: 96 hours. */
  const COOLDOWN: Duration := Seconds(96 * 60 * 60)

  /** The query's cutoff for a run started at `now`: `now - 96 hours`. */
  function Cutoff(now: Timestamp): Timestamp
  {
    now - COOLDOWN
  }

  /** A Discogs search: `release_title` is absent from the retry. */
  datatype DiscogsSearch = DiscogsSearch(artist: string, releaseTitle: Option<string>, track: string, token: string)

  /** A HEAD request's final (redirected) URL and that URL's path. */
  datatype Head = Head(url: string, path: string)

  /** What each web request returns. */
  datatype Web = Web(
    recordings: string -> AppResult<Option<MusicbrainzRecordingsResponse>>,
    artists: string -> AppResult<Option<MusicbrainzArtistsResponse>>,
    releaseImages: string -> AppResult<Option<CoverArtArchiveImagesResponse>>,
    search: DiscogsSearch -> AppResult<Option<DiscogsSearchResponse>>,
    master: (string, string) -> AppResult<DiscogsMasterResponse>,
    resource: (string, string) -> AppResult<DiscogsResourceResponse>,
    head: string -> AppResult<Head>,
    download: string -> AppResult<seq<Byte>>)

  datatype Context = Context(
    enabled: bool,
    discogsToken: Option<string>,
    now: Timestamp,
    hash: Hasher,
    unidecode: string -> string,
    titleCase: string -> string,
    web: Web)

  // ---------------------------------------------------------------------
  // The candidate query.
  // ---------------------------------------------------------------------

  /** `artists.cover_art_id is null` after the LEFT JOIN: no artist row, or one without cover. */
  predicate ArtistCoverMissing(t: Tables, s: DbSong)
  {
    s.artistId.None? || s.artistId.value !in t.artists || t.artists[s.artistId.value].coverArtId.None?
  }

  predicate AlbumCoverMissing(t: Tables, s: DbSong)
  {
    s.albumId.None? || s.albumId.value !in t.albums || t.albums[s.albumId.value].coverArtId.None?
  }

  /** The first half of the `WHERE` clause. */
  predicate NeedsMetadata(t: Tables, s: DbSong)
  {
    s.coverArtId.None? || ArtistCoverMissing(t, s) || AlbumCoverMissing(t, s) || s.genre.None?
  }

  /** The second half: not updated since the cutoff. */
  predicate Stale(cutoff: Timestamp, c: DbFolderChild)
  {
    c.lastUpdated.None? || c.lastUpdated.value < cutoff
  }

  predicate NoChildFor(t: Tables, songId: Uuid)
  {
    forall c :: c in t.folderChildren ==> t.folderChildren[c].songId != Some(songId)
  }

  /**
   * The song `k`, joined with the folder child `child` that points at it
   * (`None` when none does, which the LEFT JOIN fills with NULLs), passes
   * the `WHERE` clause.
   */
  predicate Selected(t: Tables, cutoff: Timestamp, k: Uuid, child: Option<Uuid>)
  {
    k in t.songs && NeedsMetadata(t, t.songs[k])
    && match child
       case None => NoChildFor(t, k)
       case Some(c) => c in t.folderChildren && t.folderChildren[c].songId == Some(k) && Stale(cutoff, t.folderChildren[c])
  }

  /** A row of the query, every column as SQLite returns it. */
  datatype RawRow = RawRow(
    path: Option<string>,
    folderChildId: Option<Uuid>,
    songId: Uuid,
    songTitle: string,
    albumId: Option<Uuid>,
    albumTitle: Option<string>,
    artistId: Option<Uuid>,
    artistName: Option<string>)

  /** The row the joins produce for a song and a folder child. */
  function RowOf(t: Tables, k: Uuid, child: Option<Uuid>): RawRow
    requires k in t.songs && (child.Some? ==> child.value in t.folderChildren)
  {
    var s := t.songs[k];
    var album := if s.albumId.Some? && s.albumId.value in t.albums then Some(t.albums[s.albumId.value]) else None;
    var artist := if s.artistId.Some? && s.artistId.value in t.artists then Some(t.artists[s.artistId.value]) else None;
    RawRow(
      if child.Some? then Some(t.folderChildren[child.value].path) else None,
      if child.Some? then Some(t.folderChildren[child.value].folderChildId) else None,
      s.songId,
      s.title,
      if album.Some? then Some(album.value.albumId) else None,
      if album.Some? then Some(album.value.title) else None,
      if artist.Some? then Some(artist.value.artistId) else None,
      if artist.Some? then Some(artist.value.name) else None)
  }

  /**
   * `rows` is what the query returns at `cutoff`: each row comes from a
   * selected song and child, and each selected pair has a row. A pair may
   * appear more than once: the join with `album_artists` repeats it once
   * per artist linked to the album.
   */
  ghost predicate IsCandidateQuery(t: Tables, cutoff: Timestamp, rows: seq<RawRow>)
  {
    (forall i :: 0 <= i < |rows| ==> exists k, c :: Selected(t, cutoff, k, c) && rows[i] == RowOf(t, k, c))
    && (forall k, c :: Selected(t, cutoff, k, c) ==> RowOf(t, k, c) in rows)
  }

  /** `SongInfo`. */
  datatype SongInfo = SongInfo(
    path: string,
    folderChildId: Uuid,
    songId: Uuid,
    songTitle: string,
    albumId: Option<Uuid>,
    albumTitle: Option<string>,
    artistId: Uuid,
    artistName: string)

  /** The row mapper: `row.get` panics (here `None`) on a NULL path, child id, artist id or artist name. */
  function Decode(row: RawRow): (r: Option<SongInfo>)
    ensures r.Some? <==>
      row.path.Some? && row.folderChildId.Some? && row.artistId.Some? && row.artistName.Some?
  {
    if row.path.Some? && row.folderChildId.Some? && row.artistId.Some? && row.artistName.Some? then
      Some(SongInfo(row.path.value, row.folderChildId.value, row.songId, row.songTitle,
                    row.albumId, row.albumTitle, row.artistId.value, row.artistName.value))
    else None
  }

  // ---------------------------------------------------------------------
  // The lookups.
  // ---------------------------------------------------------------------

  /** The MusicBrainz `query` parameter. */
  function MusicbrainzQuery(info: SongInfo): (q: string)
    ensures info.albumTitle.None? ==> q == "query=title:" + info.songTitle + " AND artist:" + info.artistName
    ensures info.albumTitle.Some? ==>
      q == "query=title:" + info.songTitle + " AND artist:" + info.artistName + " AND release:" + info.albumTitle.value
  {
    var base := "query=title:" + info.songTitle + " AND artist:" + info.artistName;
    if info.albumTitle.Some? then base + " AND release:" + info.albumTitle.value else base
  }

  /** `musicbrainz_find_song`: the last recording found. */
  function FindSong(ctx: Context, info: SongInfo): AppResult<Option<MusicbrainzRecording>>
  {
    match ctx.web.recordings(MusicbrainzQuery(info))
    case Err(e) => Err(e)
    case Ok(response) => Ok(if response.Some? then Last(response.value.recordings) else None)
  }

  /** `musicbrainz_find_artist`: the last artist found for `arid:<id>`. */
  function FindArtist(ctx: Context, artistId: string): AppResult<Option<MusicbrainzArtist>>
  {
    match ctx.web.artists("arid:" + artistId)
    case Err(e) => Err(e)
    case Ok(response) => Ok(if response.Some? then Last(response.value.artists) else None)
  }

  /** The first Discogs search, with the album title (empty when unknown). */
  function FirstSearch(ctx: Context, token: string, info: SongInfo): DiscogsSearch
  {
    DiscogsSearch(ctx.unidecode(info.artistName),
                  Some(if info.albumTitle.Some? then ctx.unidecode(info.albumTitle.value) else ""),
                  ctx.unidecode(info.songTitle), token)
  }

  /** The retry drops `release_title` and keeps everything else. */
  function RetrySearch(ctx: Context, token: string, info: SongInfo): (q: DiscogsSearch)
    ensures q.releaseTitle.None? && q == FirstSearch(ctx, token, info).(releaseTitle := None)
  {
    DiscogsSearch(ctx.unidecode(info.artistName), None, ctx.unidecode(info.songTitle), token)
  }

  function LastResult(response: Option<DiscogsSearchResponse>): Option<DiscogsSearchResult>
  {
    if response.Some? then Last(response.value.results) else None
  }

  /** `discogs_find_song`: nothing without a token; the last result, retrying without the album when there is none. */
  function DiscogsFindSong(ctx: Context, info: SongInfo): (r: AppResult<Option<DiscogsSearchResult>>)
    ensures ctx.discogsToken.None? ==> r == Ok(None)
  {
    match ctx.discogsToken
    case None => Ok(None)
    case Some(token) =>
      match ctx.web.search(FirstSearch(ctx, token, info))
      case Err(e) => Err(e)
      case Ok(first) =>
        if LastResult(first).Some? then Ok(LastResult(first))
        else
          match ctx.web.search(RetrySearch(ctx, token, info))
          case Err(e) => Err(e)
          case Ok(second) => Ok(LastResult(second))
  }

  /** The genre MusicBrainz knows: the recording's last tag, else the last tag of its last credited artist. */
  function MusicbrainzGenre(ctx: Context, song: Option<MusicbrainzRecording>): AppResult<Option<string>>
  {
    match song
    case None => Ok(None)
    case Some(recording) =>
      match Last(recording.tags)
      case Some(tag) => Ok(Some(tag.name))
      case None =>
        match Last(recording.artistCredit)
        case None => Ok(None)
        case Some(credit) =>
          match FindArtist(ctx, credit.artist.id)
          case Err(e) => Err(e)
          case Ok(None) => Ok(None)
          case Ok(Some(artist)) => Ok(if Last(artist.tags).Some? then Some(Last(artist.tags).value.name) else None)
  }

  /** The genre chain of `update_genre`: MusicBrainz first, then the last Discogs genre. */
  function GenreLookup(ctx: Context, info: SongInfo): AppResult<Option<string>>
  {
    match FindSong(ctx, info)
    case Err(e) => Err(e)
    case Ok(song) =>
      match MusicbrainzGenre(ctx, song)
      case Err(e) => Err(e)
      case Ok(Some(genre)) => Ok(Some(genre))
      case Ok(None) =>
        match DiscogsFindSong(ctx, info)
        case Err(e) => Err(e)
        case Ok(found) => Ok(if found.Some? then Last(found.value.genre) else None)
  }

  /** The Cover Art Archive's last image of the recording's last release. */
  function MusicbrainzCoverUrl(ctx: Context, song: Option<MusicbrainzRecording>): AppResult<Option<string>>
  {
    match song
    case None => Ok(None)
    case Some(recording) =>
      match Last(recording.releases)
      case None => Ok(None)
      case Some(release) =>
        match ctx.web.releaseImages(release.id)
        case Err(e) => Err(e)
        case Ok(None) => Ok(None)
        case Ok(Some(images)) => Ok(if Last(images.images).Some? then Last(images.images).value.image else None)
  }

  /** The song cover chain of `update_song_cover_art`: the archive, else Discogs' cover image, else its thumbnail. */
  function SongCoverUrl(ctx: Context, info: SongInfo): AppResult<Option<string>>
  {
    match FindSong(ctx, info)
    case Err(e) => Err(e)
    case Ok(song) =>
      match MusicbrainzCoverUrl(ctx, song)
      case Err(e) => Err(e)
      case Ok(Some(url)) => Ok(Some(url))
      case Ok(None) =>
        match DiscogsFindSong(ctx, info)
        case Err(e) => Err(e)
        case Ok(found) => Ok(if found.Some? then found.value.coverImage.Or(found.value.thumb) else None)
  }

  /** `update_album_cover_art`'s lookup: the last image of the Discogs master. */
  function AlbumCoverUrl(ctx: Context, info: SongInfo): (r: AppResult<Option<string>>)
    ensures ctx.discogsToken.None? ==> r == Ok(None)
  {
    match ctx.discogsToken
    case None => Ok(None)
    case Some(token) =>
      match DiscogsFindSong(ctx, info)
      case Err(e) => Err(e)
      case Ok(None) => Ok(None)
      case Ok(Some(found)) =>
        if found.masterUrl.Some? && found.masterUrl.value != "" then
          match ctx.web.master(found.masterUrl.value, token)
          case Err(e) => Err(e)
          case Ok(master) => Ok(if Last(master.images).Some? then Last(master.images).value.resourceUrl else None)
        else Ok(None)
  }

  /** `update_artist_cover_art`'s lookup: the thumbnail of the Discogs resource's last artist. */
  function ArtistPhotoUrl(ctx: Context, info: SongInfo): (r: AppResult<Option<string>>)
    ensures ctx.discogsToken.None? ==> r == Ok(None)
  {
    match ctx.discogsToken
    case None => Ok(None)
    case Some(token) =>
      match DiscogsFindSong(ctx, info)
      case Err(e) => Err(e)
      case Ok(None) => Ok(None)
      case Ok(Some(found)) =>
        if found.resourceUrl.Some? && found.resourceUrl.value != "" then
          match ctx.web.resource(found.resourceUrl.value, token)
          case Err(e) => Err(e)
          case Ok(resource) => Ok(if Last(resource.artists).Some? then Last(resource.artists).value.thumbnailUrl else None)
        else Ok(None)
  }

  // ---------------------------------------------------------------------
  // The writes.
  // ---------------------------------------------------------------------

  /**
   * `insert_cover_art`: the id is the hash of the redirected URL's path; an
   * image stored under it already is reused, otherwise it is downloaded.
   */
  function FetchCoverArt(t: Tables, ctx: Context, url: string): (Tables, AppResult<Uuid>)
  {
    match ctx.web.head(url)
    case Err(e) => (t, Err(e))
    case Ok(head) =>
      var id := ctx.hash(head.path);
      if id in t.coverArt then (t, Ok(id))
      else
        match ctx.web.download(head.url)
        case Err(e) => (t, Err(e))
        case Ok(data) => (InsertCoverArt(t, DbCoverArt(id, data)), Ok(id))
  }

  /** Whose cover an update sets. */
  datatype CoverTarget = SongCover(songId: Uuid) | AlbumCover(albumId: Uuid) | ArtistCover(artistId: Uuid)

  function SetCover(t: Tables, target: CoverTarget, coverArtId: Uuid): Tables
  {
    match target
    case SongCover(id) => SetSongCoverArt(t, id, coverArtId)
    case AlbumCover(id) => SetAlbumCoverArt(t, id, coverArtId)
    case ArtistCover(id) => SetArtistCoverArt(t, id, coverArtId)
  }

  /** The tail shared by the three cover updates: a non-empty URL is fetched and its id stored. */
  function StoreCover(t: Tables, ctx: Context, url: AppResult<Option<string>>, target: CoverTarget): (Tables, AppResult<()>)
  {
    match url
    case Err(e) => (t, Err(e))
    case Ok(None) => (t, Ok(()))
    case Ok(Some(u)) =>
      if u == "" then (t, Ok(()))
      else
        var (t1, id) := FetchCoverArt(t, ctx, u);
        match id
        case Err(e) => (t1, Err(e))
        case Ok(c) => (SetCover(t1, target, c), Ok(()))
  }

  /** `DbSongInfo`: the song, its artist, and its album when it has one. */
  datatype DbSongInfo = DbSongInfo(song: DbSong, artist: DbArtist, album: Option<DbAlbum>)

  /** `get_db_song_info`: fails when the song or the artist is gone. */
  function GetDbSongInfo(t: Tables, info: SongInfo): (r: AppResult<DbSongInfo>)
    ensures r.Ok? <==> info.songId in t.songs && info.artistId in t.artists
  {
    if info.songId !in t.songs then Err(AppError("Song not found"))
    else if info.artistId !in t.artists then Err(AppError("Artist not found"))
    else
      Ok(DbSongInfo(t.songs[info.songId], t.artists[info.artistId],
                    if info.albumId.Some? && info.albumId.value in t.albums then Some(t.albums[info.albumId.value]) else None))
  }

  /** `update_artist`'s lookup: the MusicBrainz id of the recording's last credited artist. */
  function ArtistMbid(ctx: Context, info: SongInfo): AppResult<Option<string>>
  {
    match FindSong(ctx, info)
    case Err(e) => Err(e)
    case Ok(None) => Ok(None)
    case Ok(Some(recording)) =>
      Ok(if Last(recording.artistCredit).Some? then Some(Last(recording.artistCredit).value.artist.id) else None)
  }

  /**
   * What a unit's five steps learn from the web. No lookup reads the
   * database and a request always gets the same answer, so the answers can
   * be gathered up front.
   */
  datatype Answers = Answers(
    artistMbid: AppResult<Option<string>>,
    genre: AppResult<Option<string>>,
    songCover: AppResult<Option<string>>,
    albumCover: AppResult<Option<string>>,
    artistPhoto: AppResult<Option<string>>)

  function Lookup(ctx: Context, info: SongInfo): Answers
  {
    Answers(ArtistMbid(ctx, info), GenreLookup(ctx, info), SongCoverUrl(ctx, info),
            AlbumCoverUrl(ctx, info), ArtistPhotoUrl(ctx, info))
  }

  /** `update_artist`: skipped once the artist has a MusicBrainz id. */
  function UpdateArtist(t: Tables, ans: Answers, info: SongInfo, db: DbSongInfo): (Tables, AppResult<()>)
  {
    if db.artist.musicbrainzId.Some? then (t, Ok(()))
    else
      match ans.artistMbid
      case Err(e) => (t, Err(e))
      case Ok(None) => (t, Ok(()))
      case Ok(Some(mbid)) => (SetArtistMusicbrainzId(t, info.artistId, mbid), Ok(()))
  }

  /** `update_genre`: skipped once the song has a genre; the genre found is stored title-cased. */
  function UpdateGenre(t: Tables, ctx: Context, ans: Answers, info: SongInfo, db: DbSongInfo): (Tables, AppResult<()>)
  {
    if db.song.genre.Some? then (t, Ok(()))
    else
      match ans.genre
      case Err(e) => (t, Err(e))
      case Ok(None) => (t, Ok(()))
      case Ok(Some(genre)) => (SetSongGenre(t, info.songId, ctx.titleCase(genre)), Ok(()))
  }

  /** `update_song_cover_art`. */
  function UpdateSongCover(t: Tables, ctx: Context, ans: Answers, db: DbSongInfo): (Tables, AppResult<()>)
  {
    if db.song.coverArtId.Some? then (t, Ok(()))
    else StoreCover(t, ctx, ans.songCover, SongCover(db.song.songId))
  }

  /** `update_album_cover_art`: only for a song with a stored album. */
  function UpdateAlbumCover(t: Tables, ctx: Context, ans: Answers, db: DbSongInfo): (Tables, AppResult<()>)
  {
    match db.album
    case None => (t, Ok(()))
    case Some(album) =>
      if album.coverArtId.Some? then (t, Ok(()))
      else StoreCover(t, ctx, ans.albumCover, AlbumCover(album.albumId))
  }

  /** `update_artist_cover_art`. */
  function UpdateArtistCover(t: Tables, ctx: Context, ans: Answers, info: SongInfo, db: DbSongInfo): (Tables, AppResult<()>)
  {
    if db.artist.coverArtId.Some? then (t, Ok(()))
    else StoreCover(t, ctx, ans.artistPhoto, ArtistCover(info.artistId))
  }

  /** The five updates, in the order a unit runs them. */
  datatype Step = ArtistStep | GenreStep | SongCoverStep | AlbumCoverStep | ArtistCoverStep

  function RunStep(t: Tables, ctx: Context, ans: Answers, info: SongInfo, step: Step, db: DbSongInfo): (Tables, AppResult<()>)
  {
    match step
    case ArtistStep => UpdateArtist(t, ans, info, db)
    case GenreStep => UpdateGenre(t, ctx, ans, info, db)
    case SongCoverStep => UpdateSongCover(t, ctx, ans, db)
    case AlbumCoverStep => UpdateAlbumCover(t, ctx, ans, db)
    case ArtistCoverStep => UpdateArtistCover(t, ctx, ans, info, db)
  }

  /**
   * One step of a unit: re-read the song info (a failure there ends the
   * unit with an error), then run the update under `wrap_err`, which drops
   * its error while its writes stay.
   */
  function Unit(t: Tables, ctx: Context, ans: Answers, info: SongInfo, step: Step): (Tables, Outcome)
  {
    if GetDbSongInfo(t, info).Err? then (t, Failed)
    else (RunStep(t, ctx, ans, info, step, GetDbSongInfo(t, info).value).0, Done)
  }

  /** The next step, unless an earlier one ended the unit. */
  function Then(r: (Tables, Outcome), ctx: Context, ans: Answers, info: SongInfo, step: Step): (Tables, Outcome)
  {
    if r.1 != Done then r else Unit(r.0, ctx, ans, info, step)
  }

  /** One unit with the web's answers in hand: touch the folder child first, then the five steps in order. */
  function RunUnit(t: Tables, ctx: Context, ans: Answers, info: SongInfo): (Tables, Outcome)
  {
    var r1 := Unit(TouchFolderChild(t, info.folderChildId, ctx.now), ctx, ans, info, ArtistStep);
    var r2 := Then(r1, ctx, ans, info, GenreStep);
    var r3 := Then(r2, ctx, ans, info, SongCoverStep);
    var r4 := Then(r3, ctx, ans, info, AlbumCoverStep);
    Then(r4, ctx, ans, info, ArtistCoverStep)
  }

  /** One unit: the `set.spawn` body for one song. */
  function ProcessSong(t: Tables, ctx: Context, info: SongInfo): (Tables, Outcome)
  {
    RunUnit(t, ctx, Lookup(ctx, info), info)
  }

  // ---------------------------------------------------------------------
  // The run.
  // ---------------------------------------------------------------------

  function Min(a: nat, b: nat): nat
  {
    if a <= b then a else b
  }

  predicate DecodesIn(rows: seq<RawRow>, lo: nat, hi: nat)
    requires lo <= hi <= |rows|
  {
    forall i :: lo <= i < hi ==> Decode(rows[i]).Some?
  }

  /** A unit as the chunk loop sees it: the tables before and after one song. */
  type SongRun = (Tables, SongInfo) -> Tables

  /** The enrichment's own unit: `ProcessSong`, whose outcome the chunk loop logs and drops. */
  function SongUnit(ctx: Context): SongRun
  {
    (t: Tables, info: SongInfo) => ProcessSong(t, ctx, info).0
  }

  /** The units for `rows[lo..hi]`, one after the other. */
  function ProcessRows(t: Tables, run: SongRun, rows: seq<RawRow>, lo: nat, hi: nat): Tables
    requires lo <= hi <= |rows| && DecodesIn(rows, lo, hi)
    decreases hi - lo
  {
    if hi == lo then t
    else run(ProcessRows(t, run, rows, lo, hi - 1), Decode(rows[hi - 1]).value)
  }

  /**
   * The chunk loop from `rows[start..]`: a chunk is decoded whole before
   * its units run, so an undecodable row panics the enrichment before any unit
   * of its chunk.
   */
  function RunChunks(t: Tables, run: SongRun, rows: seq<RawRow>, start: nat): (Tables, Outcome)
    requires start <= |rows|
    decreases |rows| - start
  {
    if start == |rows| then (t, Done)
    else
      var end := Min(start + CHUNK_SIZE, |rows|);
      if !DecodesIn(rows, start, end) then (t, Panicked)
      else RunChunks(ProcessRows(t, run, rows, start, end), run, rows, end)
  }

  /** `import_external_metadata` over the candidate rows. */
  function EnrichSpec(t: Tables, ctx: Context, rows: seq<RawRow>): (Tables, Outcome)
  {
    if !ctx.enabled then (t, Done) else RunChunks(t, SongUnit(ctx), rows, 0)
  }

  // ---------------------------------------------------------------------
  // What a run may change: it fills blanks and touches timestamps.
  // ---------------------------------------------------------------------

  /** A value once present stays. */
  predicate Kept<T(==)>(a: Option<T>, b: Option<T>)
  {
    a.Some? ==> b == a
  }

  /** `b` is `a` with a missing genre or cover possibly filled in. */
  predicate FilledSong(a: DbSong, b: DbSong)
  {
    b.songId == a.songId && b.title == a.title && b.created == a.created && b.date == a.date
    && b.artistId == a.artistId && b.albumId == a.albumId && b.contentType == a.contentType
    && b.suffix == a.suffix && b.size == a.size && b.trackNumber == a.trackNumber
    && b.discNumber == a.discNumber && b.duration == a.duration && b.bitRate == a.bitRate
    && Kept(a.genre, b.genre) && Kept(a.coverArtId, b.coverArtId)
  }

  predicate FilledArtist(a: DbArtist, b: DbArtist)
  {
    b.artistId == a.artistId && b.name == a.name
    && Kept(a.musicbrainzId, b.musicbrainzId) && Kept(a.coverArtId, b.coverArtId)
  }

  predicate FilledAlbum(a: DbAlbum, b: DbAlbum)
  {
    b.albumId == a.albumId && b.title == a.title && Kept(a.coverArtId, b.coverArtId)
  }

  /** Of a folder child, only `last_updated` may move. */
  predicate TouchedChild(a: DbFolderChild, b: DbFolderChild)
  {
    b.folderChildId == a.folderChildId && b.folderId == a.folderId && b.path == a.path
    && b.name == a.name && b.songId == a.songId
  }

  ghost predicate ChildrenTouched(a: map<Uuid, DbFolderChild>, b: map<Uuid, DbFolderChild>)
  {
    b.Keys == a.Keys && forall k :: k in a ==> TouchedChild(a[k], b[k])
  }

  ghost predicate SongsFilled(a: map<Uuid, DbSong>, b: map<Uuid, DbSong>)
  {
    b.Keys == a.Keys && forall k :: k in a ==> FilledSong(a[k], b[k])
  }

  ghost predicate ArtistsFilled(a: map<Uuid, DbArtist>, b: map<Uuid, DbArtist>)
  {
    b.Keys == a.Keys && forall k :: k in a ==> FilledArtist(a[k], b[k])
  }

  ghost predicate AlbumsFilled(a: map<Uuid, DbAlbum>, b: map<Uuid, DbAlbum>)
  {
    b.Keys == a.Keys && forall k :: k in a ==> FilledAlbum(a[k], b[k])
  }

  ghost predicate CoverArtGrown(a: map<Uuid, DbCoverArt>, b: map<Uuid, DbCoverArt>)
  {
    forall k :: k in a ==> k in b && b[k] == a[k]
  }

  /**
   * `r` comes from `t` by filling in missing values only: no row appears or
   * disappears (cover art is only added), no present value changes, and
   * of a folder child only `last_updated` moves.
   */
  ghost predicate Enriched(t: Tables, r: Tables)
  {
    r.folders == t.folders && r.failedChildren == t.failedChildren
    && r.albumArtists == t.albumArtists && r.starred == t.starred
    && ChildrenTouched(t.folderChildren, r.folderChildren)
    && SongsFilled(t.songs, r.songs)
    && ArtistsFilled(t.artists, r.artists)
    && AlbumsFilled(t.albums, r.albums)
    && CoverArtGrown(t.coverArt, r.coverArt)
  }

  /** The target row, when present, has no cover yet. */
  predicate CoverMissing(t: Tables, target: CoverTarget)
  {
    match target
    case SongCover(id) => id in t.songs ==> t.songs[id].coverArtId.None?
    case AlbumCover(id) => id in t.albums ==> t.albums[id].coverArtId.None?
    case ArtistCover(id) => id in t.artists ==> t.artists[id].coverArtId.None?
  }

  /** What a step keeps: the keys, the filled values, the folder children. */
  ghost predicate StepKept(t: Tables, r: Tables)
  {
    WellKeyed(r) && Enriched(t, r) && r.folderChildren == t.folderChildren
  }

  /** What a run keeps, from one unit to the next. */
  ghost predicate Grows(t: Tables, r: Tables)
  {
    WellKeyed(r) && Enriched(t, r)
  }
}
