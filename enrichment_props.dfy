/**
 * What a unit, a chunk and a whole run of `import_external_metadata`
 * achieve: which values get filled in, when a unit fails, which folder
 * children are on cooldown afterwards, and that chunking only matters
 * when a row cannot be decoded.
 */
module EnrichmentProperties {

  import opened Base
  import opened Catalog
  import opened ApiClients
  import opened Enrichment
  import opened EnrichmentFacts

  // ---------------------------------------------------------------------
  // Lookups and writes.
  // ---------------------------------------------------------------------

  /** A selected song's row decodes exactly when the song's artist is stored; otherwise the enrichment panics on it. */
  lemma SelectedRowDecodes(t: Tables, k: Uuid, c: Uuid)
    requires WellKeyed(t) && k in t.songs && c in t.folderChildren
    ensures Decode(RowOf(t, k, Some(c))).Some? <==>
      t.songs[k].artistId.Some? && t.songs[k].artistId.value in t.artists
    ensures Decode(RowOf(t, k, Some(c))).Some? ==>
      var info := Decode(RowOf(t, k, Some(c))).value;
      info.songId == t.songs[k].songId && info.folderChildId == t.folderChildren[c].folderChildId
      && info.artistId == t.songs[k].artistId.value
  {
  }

  /** Once the first Discogs search has a result, the retry is never sent: its answer does not matter. */
  lemma RetryOnlyWhenFirstEmpty(ctx: Context, search2: DiscogsSearch -> AppResult<Option<DiscogsSearchResponse>>, info: SongInfo)
    requires ctx.discogsToken.Some?
    requires search2(FirstSearch(ctx, ctx.discogsToken.value, info)) == ctx.web.search(FirstSearch(ctx, ctx.discogsToken.value, info))
    requires ctx.web.search(FirstSearch(ctx, ctx.discogsToken.value, info)).Ok?
    requires LastResult(ctx.web.search(FirstSearch(ctx, ctx.discogsToken.value, info)).value).Some?
    ensures DiscogsFindSong(ctx.(web := ctx.web.(search := search2)), info) == DiscogsFindSong(ctx, info)
    ensures DiscogsFindSong(ctx, info) == Ok(LastResult(ctx.web.search(FirstSearch(ctx, ctx.discogsToken.value, info)).value))
  {
    var ctx2 := ctx.(web := ctx.web.(search := search2));
    assert FirstSearch(ctx2, ctx.discogsToken.value, info) == FirstSearch(ctx, ctx.discogsToken.value, info);
  }

  /** An empty first answer is retried without the album title, and the retry's answer is the result. */
  lemma RetryWhenFirstEmpty(ctx: Context, info: SongInfo)
    requires ctx.discogsToken.Some?
    requires ctx.web.search(FirstSearch(ctx, ctx.discogsToken.value, info)).Ok?
    requires LastResult(ctx.web.search(FirstSearch(ctx, ctx.discogsToken.value, info)).value).None?
    ensures var second := ctx.web.search(RetrySearch(ctx, ctx.discogsToken.value, info));
      DiscogsFindSong(ctx, info) == (if second.Ok? then Ok(LastResult(second.value)) else Err(second.error))
  {
  }

  /**
   * The stored image's id is the hash of the redirected URL's path, and
   * the image is in the tables afterwards; an error leaves the tables as
   * they were, and success adds at most that one image.
   */
  lemma FetchCoverArtId(t: Tables, ctx: Context, url: string)
    ensures var (r, id) := FetchCoverArt(t, ctx, url);
      (id.Ok? ==> ctx.web.head(url).Ok? && id.value == ctx.hash(ctx.web.head(url).value.path) && id.value in r.coverArt)
      && (id.Err? ==> r == t)
      && (r == t || (id.Ok? && id.value !in t.coverArt && r == t.(coverArt := t.coverArt[id.value := r.coverArt[id.value]])))
  {
    var (r, id) := FetchCoverArt(t, ctx, url);
    match ctx.web.head(url)
    case Err(_) =>
    case Ok(head) =>
      var k := ctx.hash(head.path);
      if k !in t.coverArt && ctx.web.download(head.url).Ok? {
        var data := ctx.web.download(head.url).value;
        assert r == InsertCoverArt(t, DbCoverArt(k, data));
        assert r.coverArt == t.coverArt[k := DbCoverArt(k, data)];
      }
  }

  /** An image already stored under the id is reused: the download is never consulted. */
  lemma FetchCoverArtReuses(t: Tables, ctx: Context, url: string, download2: string -> AppResult<seq<Byte>>)
    requires ctx.web.head(url).Ok? && ctx.hash(ctx.web.head(url).value.path) in t.coverArt
    ensures FetchCoverArt(t, ctx.(web := ctx.web.(download := download2)), url) == FetchCoverArt(t, ctx, url)
    ensures FetchCoverArt(t, ctx, url) == (t, Ok(ctx.hash(ctx.web.head(url).value.path)))
  {
  }

  /** A cover write changes nothing unless the lookup found a non-empty URL whose HEAD request succeeds. */
  lemma StoreCoverNeedsUrl(t: Tables, ctx: Context, url: AppResult<Option<string>>, target: CoverTarget)
    requires StoreCover(t, ctx, url, target).0 != t
    ensures url.Ok? && url.value.Some? && url.value.value != "" && ctx.web.head(url.value.value).Ok?
  {
  }

  /**
   * When the URL is non-empty, the HEAD request succeeds and the image is
   * stored or downloads, the target gets the hashed id as its cover.
   */
  lemma StoreCoverSets(t: Tables, ctx: Context, u: string, target: CoverTarget)
    requires u != "" && ctx.web.head(u).Ok?
    requires ctx.hash(ctx.web.head(u).value.path) in t.coverArt || ctx.web.download(ctx.web.head(u).value.url).Ok?
    ensures var id := ctx.hash(ctx.web.head(u).value.path);
      var (r, res) := StoreCover(t, ctx, Ok(Some(u)), target);
      res == Ok(()) && id in r.coverArt && r == SetCover(FetchCoverArt(t, ctx, u).0, target, id)
  {
    FetchCoverArtId(t, ctx, u);
  }

  /** Without a Discogs token the album and artist cover steps are no-ops. */
  lemma NoTokenNoDiscogsCovers(t: Tables, ctx: Context, info: SongInfo, db: DbSongInfo)
    requires ctx.discogsToken.None?
    ensures UpdateAlbumCover(t, ctx, Lookup(ctx, info), db) == (t, Ok(()))
    ensures UpdateArtistCover(t, ctx, Lookup(ctx, info), info, db) == (t, Ok(()))
  {
    assert Lookup(ctx, info).albumCover == Ok(None);
    assert Lookup(ctx, info).artistPhoto == Ok(None);
  }

  // ---------------------------------------------------------------------
  // One unit.
  // ---------------------------------------------------------------------

  /**
   * `wrap_err` around an update: once the re-read succeeds the step ends
   * `Done` whatever the update returned, so its error never escapes, and the
   * writes a failing update made stay.
   */
  lemma UnitDropsStepError(t: Tables, ctx: Context, ans: Answers, info: SongInfo, step: Step)
    ensures Unit(t, ctx, ans, info, step).1 == if GetDbSongInfo(t, info).Ok? then Done else Failed
    ensures GetDbSongInfo(t, info).Err? ==> Unit(t, ctx, ans, info, step).0 == t
    ensures GetDbSongInfo(t, info).Ok? && RunStep(t, ctx, ans, info, step, GetDbSongInfo(t, info).value).1.Err? ==>
      Unit(t, ctx, ans, info, step) == (RunStep(t, ctx, ans, info, step, GetDbSongInfo(t, info).value).0, Done)
  {
  }

  /** A unit ends `Done` exactly when its song and artist are stored, and `Failed` otherwise. */
  lemma RunUnitOutcome(t: Tables, ctx: Context, ans: Answers, info: SongInfo)
    requires WellKeyed(t)
    ensures RunUnit(t, ctx, ans, info).1 == if info.songId in t.songs && info.artistId in t.artists then Done else Failed
  {
    var t1 := TouchFolderChild(t, info.folderChildId, ctx.now);
    var r1 := Unit(t1, ctx, ans, info, ArtistStep);
    var r2 := Then(r1, ctx, ans, info, GenreStep);
    var r3 := Then(r2, ctx, ans, info, SongCoverStep);
    var r4 := Then(r3, ctx, ans, info, AlbumCoverStep);
    var r5 := Then(r4, ctx, ans, info, ArtistCoverStep);
    assert RunUnit(t, ctx, ans, info) == r5;
    TouchEnriched(t, info.folderChildId, ctx.now);
    UnitKept(t1, ctx, ans, info, ArtistStep);
    ThenKept(t1, r1, ctx, ans, info, GenreStep);
    ThenKept(t1, r2, ctx, ans, info, SongCoverStep);
    ThenKept(t1, r3, ctx, ans, info, AlbumCoverStep);
  }

  /** A missing MusicBrainz artist id that the lookup finds is stored, and stays through the later steps. */
  lemma ArtistMbidFilled(t: Tables, ctx: Context, ans: Answers, info: SongInfo, mbid: string)
    requires WellKeyed(t) && info.songId in t.songs && info.artistId in t.artists
    requires t.artists[info.artistId].musicbrainzId.None? && ans.artistMbid == Ok(Some(mbid))
    ensures info.artistId in RunUnit(t, ctx, ans, info).0.artists
    ensures RunUnit(t, ctx, ans, info).0.artists[info.artistId].musicbrainzId == Some(mbid)
  {
    var t1 := TouchFolderChild(t, info.folderChildId, ctx.now);
    var r1 := Unit(t1, ctx, ans, info, ArtistStep);
    var r2 := Then(r1, ctx, ans, info, GenreStep);
    var r3 := Then(r2, ctx, ans, info, SongCoverStep);
    var r4 := Then(r3, ctx, ans, info, AlbumCoverStep);
    var r5 := Then(r4, ctx, ans, info, ArtistCoverStep);
    assert WellKeyed(r1.0) && info.artistId in r1.0.artists && r1.0.artists[info.artistId].musicbrainzId == Some(mbid) by {
      TouchEnriched(t, info.folderChildId, ctx.now);
      assert r1.0 == SetArtistMusicbrainzId(t1, info.artistId, mbid);
      UnitKept(t1, ctx, ans, info, ArtistStep);
    }
    assert Enriched(r1.0, r5.0) by {
      StepKeptRefl(r1.0);
      ThenKept(r1.0, r1, ctx, ans, info, GenreStep);
      ThenKept(r1.0, r2, ctx, ans, info, SongCoverStep);
      ThenKept(r1.0, r3, ctx, ans, info, AlbumCoverStep);
      ThenKept(r1.0, r4, ctx, ans, info, ArtistCoverStep);
    }
    assert RunUnit(t, ctx, ans, info) == r5;
  }

  /** The artist step writes the artist only: the songs stay as they are. */
  lemma ArtistStepKeepsSongs(t: Tables, ctx: Context, ans: Answers, info: SongInfo)
    ensures Unit(t, ctx, ans, info, ArtistStep).0.songs == t.songs
  {
  }

  /** On a song without a genre, the genre step stores the title-cased genre the lookup found. */
  lemma GenreStepSets(t: Tables, ctx: Context, ans: Answers, info: SongInfo, genre: string)
    requires info.songId in t.songs && info.artistId in t.artists
    requires t.songs[info.songId].genre.None? && ans.genre == Ok(Some(genre))
    ensures Unit(t, ctx, ans, info, GenreStep) == (SetSongGenre(t, info.songId, ctx.titleCase(genre)), Done)
  {
  }

  /** A missing genre that the lookup finds is stored title-cased, and stays through the later steps. */
  lemma GenreFilled(t: Tables, ctx: Context, ans: Answers, info: SongInfo, genre: string)
    requires WellKeyed(t) && info.songId in t.songs && info.artistId in t.artists
    requires t.songs[info.songId].genre.None? && ans.genre == Ok(Some(genre))
    ensures info.songId in RunUnit(t, ctx, ans, info).0.songs
    ensures RunUnit(t, ctx, ans, info).0.songs[info.songId].genre == Some(ctx.titleCase(genre))
  {
    var t1 := TouchFolderChild(t, info.folderChildId, ctx.now);
    var r1 := Unit(t1, ctx, ans, info, ArtistStep);
    var r2 := Then(r1, ctx, ans, info, GenreStep);
    var r3 := Then(r2, ctx, ans, info, SongCoverStep);
    var r4 := Then(r3, ctx, ans, info, AlbumCoverStep);
    var r5 := Then(r4, ctx, ans, info, ArtistCoverStep);
    assert WellKeyed(r2.0) && info.songId in r2.0.songs && r2.0.songs[info.songId].genre == Some(ctx.titleCase(genre)) by {
      TouchEnriched(t, info.folderChildId, ctx.now);
      UnitKept(t1, ctx, ans, info, ArtistStep);
      ArtistStepKeepsSongs(t1, ctx, ans, info);
      GenreStepSets(r1.0, ctx, ans, info, genre);
      UnitKept(r1.0, ctx, ans, info, GenreStep);
    }
    assert Enriched(r2.0, r5.0) by {
      StepKeptRefl(r2.0);
      ThenKept(r2.0, r2, ctx, ans, info, SongCoverStep);
      ThenKept(r2.0, r3, ctx, ans, info, AlbumCoverStep);
      ThenKept(r2.0, r4, ctx, ans, info, ArtistCoverStep);
    }
    assert RunUnit(t, ctx, ans, info) == r5;
  }

  /** The song cover step stores the hashed id of a usable URL as the song's cover. */
  lemma SongCoverFilled(t: Tables, ctx: Context, ans: Answers, db: DbSongInfo, u: string)
    requires WellKeyed(t) && db.song.songId in t.songs && db.song.coverArtId.None?
    requires ans.songCover == Ok(Some(u)) && u != "" && ctx.web.head(u).Ok?
    requires ctx.hash(ctx.web.head(u).value.path) in t.coverArt || ctx.web.download(ctx.web.head(u).value.url).Ok?
    ensures UpdateSongCover(t, ctx, ans, db).0.songs[db.song.songId].coverArtId == Some(ctx.hash(ctx.web.head(u).value.path))
  {
    StoreCoverSets(t, ctx, u, SongCover(db.song.songId));
    FetchCoverArtId(t, ctx, u);
  }

  /** The album cover step stores the hashed id of a usable URL as the stored album's cover. */
  lemma AlbumCoverFilled(t: Tables, ctx: Context, ans: Answers, db: DbSongInfo, u: string)
    requires WellKeyed(t) && db.album.Some? && db.album.value.albumId in t.albums && db.album.value.coverArtId.None?
    requires ans.albumCover == Ok(Some(u)) && u != "" && ctx.web.head(u).Ok?
    requires ctx.hash(ctx.web.head(u).value.path) in t.coverArt || ctx.web.download(ctx.web.head(u).value.url).Ok?
    ensures UpdateAlbumCover(t, ctx, ans, db).0.albums[db.album.value.albumId].coverArtId == Some(ctx.hash(ctx.web.head(u).value.path))
  {
    StoreCoverSets(t, ctx, u, AlbumCover(db.album.value.albumId));
    FetchCoverArtId(t, ctx, u);
  }

  /** The artist cover step stores the hashed id of a usable URL as the artist's cover. */
  lemma ArtistCoverFilled(t: Tables, ctx: Context, ans: Answers, info: SongInfo, db: DbSongInfo, u: string)
    requires WellKeyed(t) && info.artistId in t.artists && db.artist.coverArtId.None?
    requires ans.artistPhoto == Ok(Some(u)) && u != "" && ctx.web.head(u).Ok?
    requires ctx.hash(ctx.web.head(u).value.path) in t.coverArt || ctx.web.download(ctx.web.head(u).value.url).Ok?
    ensures UpdateArtistCover(t, ctx, ans, info, db).0.artists[info.artistId].coverArtId == Some(ctx.hash(ctx.web.head(u).value.path))
  {
    StoreCoverSets(t, ctx, u, ArtistCover(info.artistId));
    FetchCoverArtId(t, ctx, u);
  }

  // ---------------------------------------------------------------------
  // Cooldown.
  // ---------------------------------------------------------------------

  /** The folder child was last updated at `now`. */
  predicate Cooled(t: Tables, id: Uuid, now: Timestamp)
  {
    id in t.folderChildren && t.folderChildren[id].lastUpdated == Some(now)
  }

  /** A child updated at `now` is not stale for any cutoff up to `now`, so its song is not selected through it. */
  lemma CooledNotSelected(t: Tables, cutoff: Timestamp, now: Timestamp, k: Uuid, c: Uuid)
    requires Cooled(t, c, now) && cutoff <= now
    ensures !Stale(cutoff, t.folderChildren[c]) && !Selected(t, cutoff, k, Some(c))
  {
  }

  /** A unit cools its own folder child down, and leaves cooled children cooled. */
  lemma ProcessSongCools(t: Tables, ctx: Context, info: SongInfo, id: Uuid)
    requires WellKeyed(t)
    requires (id == info.folderChildId && id in t.folderChildren) || Cooled(t, id, ctx.now)
    ensures Cooled(ProcessSong(t, ctx, info).0, id, ctx.now)
  {
    ProcessSongEnriched(t, ctx, info);
  }

  /** Every unit `run` performs cools its own folder child down and leaves cooled children cooled. */
  ghost predicate UnitsCool(run: SongRun, now: Timestamp)
  {
    forall t: Tables, info: SongInfo, id: Uuid {:trigger Cooled(run(t, info), id, now)} ::
      WellKeyed(t) && ((id == info.folderChildId && id in t.folderChildren) || Cooled(t, id, now))
      ==> Cooled(run(t, info), id, now)
  }

  lemma SongUnitCools(ctx: Context)
    ensures UnitsCool(SongUnit(ctx), ctx.now)
  {
    forall t: Tables, info: SongInfo, id: Uuid | WellKeyed(t) && ((id == info.folderChildId && id in t.folderChildren) || Cooled(t, id, ctx.now))
      ensures Cooled(SongUnit(ctx)(t, info), id, ctx.now)
    {
      ProcessSongCools(t, ctx, info, id);
    }
  }

  /** Children cooled before the units for `rows[lo..hi]` are cooled after them. */
  lemma {:induction false} ProcessRowsKeepsCooled(t: Tables, run: SongRun, now: Timestamp, rows: seq<RawRow>, lo: nat, hi: nat, id: Uuid)
    requires WellKeyed(t) && lo <= hi <= |rows| && DecodesIn(rows, lo, hi)
    requires UnitsGrow(run) && UnitsCool(run, now) && Cooled(t, id, now)
    ensures Cooled(ProcessRows(t, run, rows, lo, hi), id, now)
    decreases hi - lo
  {
    if hi > lo {
      var t1 := ProcessRows(t, run, rows, lo, hi - 1);
      assert ProcessRows(t, run, rows, lo, hi) == run(t1, Decode(rows[hi - 1]).value);
      ProcessRowsKeepsCooled(t, run, now, rows, lo, hi - 1, id);
      assert WellKeyed(t1) by {
        ProcessRowsEnriched(t, run, rows, lo, hi - 1);
      }
    }
  }

  /** After the units for `rows[lo..hi]`, the folder child of row `i` is cooled down. */
  lemma {:induction false} ProcessRowsCools(t: Tables, run: SongRun, now: Timestamp, rows: seq<RawRow>, lo: nat, hi: nat, i: nat)
    requires WellKeyed(t) && lo <= i < hi <= |rows| && DecodesIn(rows, lo, hi)
    requires UnitsGrow(run) && UnitsCool(run, now)
    requires rows[i].folderChildId.Some? && rows[i].folderChildId.value in t.folderChildren
    ensures Cooled(ProcessRows(t, run, rows, lo, hi), rows[i].folderChildId.value, now)
    decreases hi - lo
  {
    var id := rows[i].folderChildId.value;
    var t1 := ProcessRows(t, run, rows, lo, hi - 1);
    var info := Decode(rows[hi - 1]).value;
    assert ProcessRows(t, run, rows, lo, hi) == run(t1, info);
    assert WellKeyed(t1) && t1.folderChildren.Keys == t.folderChildren.Keys by {
      ProcessRowsEnriched(t, run, rows, lo, hi - 1);
    }
    if i < hi - 1 {
      ProcessRowsCools(t, run, now, rows, lo, hi - 1, i);
    } else {
      assert id == info.folderChildId;
    }
  }

  // ---------------------------------------------------------------------
  // Chunking.
  // ---------------------------------------------------------------------

  /** Running the units for `rows[lo..mid]` and then `rows[mid..hi]` is running them for `rows[lo..hi]`. */
  lemma {:induction false} ProcessRowsSplit(t: Tables, run: SongRun, rows: seq<RawRow>, lo: nat, mid: nat, hi: nat)
    requires lo <= mid <= hi <= |rows| && DecodesIn(rows, lo, hi)
    ensures DecodesIn(rows, lo, mid) && DecodesIn(rows, mid, hi)
    ensures ProcessRows(ProcessRows(t, run, rows, lo, mid), run, rows, mid, hi) == ProcessRows(t, run, rows, lo, hi)
    decreases hi - mid
  {
    if hi > mid {
      ProcessRowsSplit(t, run, rows, lo, mid, hi - 1);
    }
  }

  /** When every row decodes, the chunks run every unit in order and the run succeeds. */
  lemma {:induction false} ChunksInvisible(t: Tables, run: SongRun, rows: seq<RawRow>, start: nat)
    requires start <= |rows| && DecodesIn(rows, start, |rows|)
    ensures RunChunks(t, run, rows, start) == (ProcessRows(t, run, rows, start, |rows|), Done)
    decreases |rows| - start
  {
    if start < |rows| {
      var end := Min(start + CHUNK_SIZE, |rows|);
      assert DecodesIn(rows, start, end);
      var t1 := ProcessRows(t, run, rows, start, end);
      assert RunChunks(t, run, rows, start) == RunChunks(t1, run, rows, end);
      ChunksInvisible(t1, run, rows, end);
      ProcessRowsSplit(t, run, rows, start, end, |rows|);
    }
  }

  /** Where the chunk holding row `p` starts, counting chunks from `start`. */
  function ChunkStart(start: nat, p: nat): (r: nat)
    requires start <= p
    ensures start <= r <= p < r + CHUNK_SIZE && (r - start) % CHUNK_SIZE == 0
    decreases p - start
  {
    if p < start + CHUNK_SIZE then start else ChunkStart(start + CHUNK_SIZE, p)
  }

  /**
   * When row `p` is the first that cannot be decoded, every unit of the
   * chunks before it runs, no unit of its own chunk does, and the enrichment
   * panics.
   */
  lemma {:induction false} RunChunksPanics(t: Tables, run: SongRun, rows: seq<RawRow>, start: nat, p: nat)
    requires start <= p < |rows| && Decode(rows[p]).None? && DecodesIn(rows, start, p)
    ensures RunChunks(t, run, rows, start) == (ProcessRows(t, run, rows, start, ChunkStart(start, p)), Panicked)
    decreases p - start
  {
    var end := Min(start + CHUNK_SIZE, |rows|);
    if p < start + CHUNK_SIZE {
      assert !DecodesIn(rows, start, end);
    } else {
      assert DecodesIn(rows, start, end);
      var t1 := ProcessRows(t, run, rows, start, end);
      assert RunChunks(t, run, rows, start) == RunChunks(t1, run, rows, end);
      RunChunksPanics(t1, run, rows, end, p);
      ProcessRowsSplit(t, run, rows, start, end, ChunkStart(end, p));
    }
  }

  // ---------------------------------------------------------------------
  // The whole run.
  // ---------------------------------------------------------------------

  /** The run panics exactly when some row cannot be decoded. */
  lemma RunOutcome(t: Tables, ctx: Context, rows: seq<RawRow>)
    requires ctx.enabled
    ensures EnrichSpec(t, ctx, rows).1 == Panicked <==> !DecodesIn(rows, 0, |rows|)
    ensures EnrichSpec(t, ctx, rows).1 != Failed
  {
    if DecodesIn(rows, 0, |rows|) {
      ChunksInvisible(t, SongUnit(ctx), rows, 0);
    } else {
      var p := FirstUndecodable(rows);
      RunChunksPanics(t, SongUnit(ctx), rows, 0, p);
    }
  }

  /** The first row that cannot be decoded. */
  function FirstUndecodable(rows: seq<RawRow>): (p: nat)
    requires !DecodesIn(rows, 0, |rows|)
    ensures p < |rows| && Decode(rows[p]).None? && DecodesIn(rows, 0, p)
    decreases |rows|
  {
    if Decode(rows[0]).None? then 0
    else
      assert !DecodesIn(rows[1..], 0, |rows| - 1) by {
        var i :| 0 <= i < |rows| && Decode(rows[i]).None?;
        assert rows[1..][i - 1] == rows[i];
      }
      var q := FirstUndecodable(rows[1..]);
      assert forall i :: 1 <= i <= q ==> rows[i] == rows[1..][i - 1];
      q + 1
  }

  /** A selected song and child has a row, and that row names the child. */
  lemma CandidateRow(t: Tables, cutoff: Timestamp, rows: seq<RawRow>, k: Uuid, c: Uuid) returns (i: nat)
    requires WellKeyed(t) && IsCandidateQuery(t, cutoff, rows) && Selected(t, cutoff, k, Some(c))
    ensures i < |rows| && rows[i].folderChildId == Some(c) && c in t.folderChildren
  {
    assert RowOf(t, k, Some(c)) in rows;
    i :| 0 <= i < |rows| && rows[i] == RowOf(t, k, Some(c));
  }

  /**
   * A child updated at `now` is stale again for the run started at `later`
   * exactly when `later` is more than 96 hours after `now`.
   */
  lemma CooledStaleAgain(t: Tables, c: Uuid, now: Timestamp, later: Timestamp)
    requires Cooled(t, c, now)
    ensures Stale(Cutoff(later), t.folderChildren[c]) <==> later > now + COOLDOWN
  {
  }

  /**
   * After a run started at `ctx.now`, over the rows of the query at
   * `Cutoff(ctx.now)`, in which every row decodes, every candidate song's
   * folder child was last updated at `ctx.now`.
   */
  lemma CandidatesCooledDown(t: Tables, ctx: Context, rows: seq<RawRow>)
    requires WellKeyed(t) && ctx.enabled && IsCandidateQuery(t, Cutoff(ctx.now), rows) && DecodesIn(rows, 0, |rows|)
    ensures EnrichSpec(t, ctx, rows).1 == Done
    ensures forall k, c :: Selected(t, Cutoff(ctx.now), k, Some(c)) ==> Cooled(EnrichSpec(t, ctx, rows).0, c, ctx.now)
  {
    var r := ProcessRows(t, SongUnit(ctx), rows, 0, |rows|);
    ChunksInvisible(t, SongUnit(ctx), rows, 0);
    assert EnrichSpec(t, ctx, rows) == (r, Done);
    SongUnitGrows(ctx);
    SongUnitCools(ctx);
    forall k, c | Selected(t, Cutoff(ctx.now), k, Some(c))
      ensures Cooled(r, c, ctx.now)
    {
      var i := CandidateRow(t, Cutoff(ctx.now), rows, k, c);
      ProcessRowsCools(t, SongUnit(ctx), ctx.now, rows, 0, |rows|, i);
    }
  }

  /**
   * A later run started within 96 hours of such a run selects no song
   * through a folder child that was a candidate of the first run.
   */
  lemma NextRunSkipsCandidates(t: Tables, ctx: Context, rows: seq<RawRow>, later: Timestamp)
    requires WellKeyed(t) && ctx.enabled && IsCandidateQuery(t, Cutoff(ctx.now), rows) && DecodesIn(rows, 0, |rows|)
    requires later <= ctx.now + COOLDOWN
    ensures forall k, c, k2 :: Selected(t, Cutoff(ctx.now), k, Some(c)) ==> !Selected(EnrichSpec(t, ctx, rows).0, Cutoff(later), k2, Some(c))
  {
    CandidatesCooledDown(t, ctx, rows);
    var r := EnrichSpec(t, ctx, rows).0;
    forall k, c, k2 | Selected(t, Cutoff(ctx.now), k, Some(c))
      ensures !Selected(r, Cutoff(later), k2, Some(c))
    {
      CooledNotSelected(r, Cutoff(later), ctx.now, k2, c);
    }
  }
}
