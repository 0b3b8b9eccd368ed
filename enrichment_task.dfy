/**
 * `import_external_metadata` as it runs against the database: the
 * UPDATE statements of the five `update_*` functions, the unit that runs
 * them one after the other, and the chunk loop over the candidate rows.
 * Every method is proved to leave the database as the functions of
 * `Enrichment` describe, so the properties proved about those functions
 * hold of the running task.
 */
module EnrichmentTask {

  import opened Base
  import opened Catalog
  import opened Enrichment

  /** `insert_cover_art`: HEAD the URL, key the cover by the final path's hash, download only a new one. */
  method FetchCoverArtInto(db: Db, ctx: Context, url: string) returns (id: AppResult<Uuid>)
    requires db.Valid()
    modifies db
    ensures db.Valid()
    ensures (db.Snapshot(), id) == FetchCoverArt(old(db.Snapshot()), ctx, url)
  {
    var head := ctx.web.head(url);
    if head.Err? {
      return Err(head.error);
    }
    var coverArtId := ctx.hash(head.value.path);
    var found := db.FindCoverArt(coverArtId);
    if found.Some? {
      return Ok(found.value);
    }
    var data := ctx.web.download(head.value.url);
    if data.Err? {
      return Err(data.error);
    }
    var stored := db.InsertCoverArtIfNotExists(DbCoverArt(coverArtId, data.value));
    return Ok(stored);
  }

  /** The `UPDATE ... SET cover_art_id = ?` of one of the three cover updates. */
  method SetCoverOn(db: Db, target: CoverTarget, coverArtId: Uuid)
    requires db.Valid()
    modifies db
    ensures db.Valid()
    ensures db.Snapshot() == SetCover(old(db.Snapshot()), target, coverArtId)
  {
    match target {
      case SongCover(id) => db.UpdateSongCoverArt(id, coverArtId);
      case AlbumCover(id) => db.UpdateAlbumCoverArt(id, coverArtId);
      case ArtistCover(id) => db.UpdateArtistCoverArt(id, coverArtId);
    }
  }

  /** The tail of the cover updates: a non-empty URL is fetched and its id stored on the target. */
  method StoreCoverOn(db: Db, ctx: Context, url: AppResult<Option<string>>, target: CoverTarget) returns (res: AppResult<()>)
    requires db.Valid()
    modifies db
    ensures db.Valid()
    ensures (db.Snapshot(), res) == StoreCover(old(db.Snapshot()), ctx, url, target)
  {
    if url.Err? {
      return Err(url.error);
    }
    if url.value.None? || url.value.value == "" {
      return Ok(());
    }
    var id := FetchCoverArtInto(db, ctx, url.value.value);
    if id.Err? {
      return Err(id.error);
    }
    SetCoverOn(db, target, id.value);
    return Ok(());
  }

  /** `get_db_song_info`: the song and its artist must exist; the album is looked up when the song has one. */
  method GetDbSongInfoFrom(db: Db, info: SongInfo) returns (r: AppResult<DbSongInfo>)
    ensures r == GetDbSongInfo(db.Snapshot(), info)
  {
    var song := db.FindSongById(info.songId);
    if song.None? {
      return Err(AppError("Song not found"));
    }
    var artist := db.FindArtistById(info.artistId);
    if artist.None? {
      return Err(AppError("Artist not found"));
    }
    var album: Option<DbAlbum> := None;
    if info.albumId.Some? {
      album := db.FindAlbumById(info.albumId.value);
    }
    return Ok(DbSongInfo(song.value, artist.value, album));
  }

  method UpdateArtistOn(db: Db, ans: Answers, info: SongInfo, song: DbSongInfo) returns (res: AppResult<()>)
    requires db.Valid()
    modifies db
    ensures db.Valid()
    ensures (db.Snapshot(), res) == UpdateArtist(old(db.Snapshot()), ans, info, song)
  {
    if song.artist.musicbrainzId.Some? {
      return Ok(());
    }
    if ans.artistMbid.Err? {
      return Err(ans.artistMbid.error);
    }
    if ans.artistMbid.value.Some? {
      db.UpdateArtistMusicbrainzId(info.artistId, ans.artistMbid.value.value);
    }
    return Ok(());
  }

  method UpdateGenreOn(db: Db, ctx: Context, ans: Answers, info: SongInfo, song: DbSongInfo) returns (res: AppResult<()>)
    requires db.Valid()
    modifies db
    ensures db.Valid()
    ensures (db.Snapshot(), res) == UpdateGenre(old(db.Snapshot()), ctx, ans, info, song)
  {
    if song.song.genre.Some? {
      return Ok(());
    }
    if ans.genre.Err? {
      return Err(ans.genre.error);
    }
    if ans.genre.value.Some? {
      db.UpdateSongGenre(info.songId, ctx.titleCase(ans.genre.value.value));
    }
    return Ok(());
  }

  method UpdateSongCoverOn(db: Db, ctx: Context, ans: Answers, song: DbSongInfo) returns (res: AppResult<()>)
    requires db.Valid()
    modifies db
    ensures db.Valid()
    ensures (db.Snapshot(), res) == UpdateSongCover(old(db.Snapshot()), ctx, ans, song)
  {
    if song.song.coverArtId.Some? {
      return Ok(());
    }
    res := StoreCoverOn(db, ctx, ans.songCover, SongCover(song.song.songId));
  }

  method UpdateAlbumCoverOn(db: Db, ctx: Context, ans: Answers, song: DbSongInfo) returns (res: AppResult<()>)
    requires db.Valid()
    modifies db
    ensures db.Valid()
    ensures (db.Snapshot(), res) == UpdateAlbumCover(old(db.Snapshot()), ctx, ans, song)
  {
    if song.album.None? || song.album.value.coverArtId.Some? {
      return Ok(());
    }
    res := StoreCoverOn(db, ctx, ans.albumCover, AlbumCover(song.album.value.albumId));
  }

  method UpdateArtistCoverOn(db: Db, ctx: Context, ans: Answers, info: SongInfo, song: DbSongInfo) returns (res: AppResult<()>)
    requires db.Valid()
    modifies db
    ensures db.Valid()
    ensures (db.Snapshot(), res) == UpdateArtistCover(old(db.Snapshot()), ctx, ans, info, song)
  {
    if song.artist.coverArtId.Some? {
      return Ok(());
    }
    res := StoreCoverOn(db, ctx, ans.artistPhoto, ArtistCover(info.artistId));
  }

  /**
   * One `wrap_err(update_*(&ctx, get_db_song_info(..).await?), || ())`: a
   * failed re-read ends the unit, an update's own error is dropped.
   */
  method UnitOn(db: Db, ctx: Context, ans: Answers, info: SongInfo, step: Step) returns (o: Outcome)
    requires db.Valid()
    modifies db
    ensures db.Valid()
    ensures (db.Snapshot(), o) == Unit(old(db.Snapshot()), ctx, ans, info, step)
  {
    var song := GetDbSongInfoFrom(db, info);
    if song.Err? {
      return Failed;
    }
    var res: AppResult<()>;
    match step {
      case ArtistStep => res := UpdateArtistOn(db, ans, info, song.value);
      case GenreStep => res := UpdateGenreOn(db, ctx, ans, info, song.value);
      case SongCoverStep => res := UpdateSongCoverOn(db, ctx, ans, song.value);
      case AlbumCoverStep => res := UpdateAlbumCoverOn(db, ctx, ans, song.value);
      case ArtistCoverStep => res := UpdateArtistCoverOn(db, ctx, ans, info, song.value);
    }
    return Done;
  }

  /** The `set.spawn` body: touch the folder child, then the five steps, stopping at the first `?`. */
  method ProcessSongOn(db: Db, ctx: Context, info: SongInfo) returns (o: Outcome)
    requires db.Valid()
    modifies db
    ensures db.Valid()
    ensures (db.Snapshot(), o) == ProcessSong(old(db.Snapshot()), ctx, info)
  {
    ghost var t := db.Snapshot();
    var ans := Lookup(ctx, info);
    db.UpdateLastUpdated(info.folderChildId, ctx.now);
    o := UnitOn(db, ctx, ans, info, ArtistStep);
    ghost var r1 := (db.Snapshot(), o);
    if o != Done {
      return;
    }
    o := UnitOn(db, ctx, ans, info, GenreStep);
    ghost var r2 := (db.Snapshot(), o);
    assert r2 == Then(r1, ctx, ans, info, GenreStep);
    if o != Done {
      return;
    }
    o := UnitOn(db, ctx, ans, info, SongCoverStep);
    ghost var r3 := (db.Snapshot(), o);
    assert r3 == Then(r2, ctx, ans, info, SongCoverStep);
    if o != Done {
      return;
    }
    o := UnitOn(db, ctx, ans, info, AlbumCoverStep);
    ghost var r4 := (db.Snapshot(), o);
    assert r4 == Then(r3, ctx, ans, info, AlbumCoverStep);
    if o != Done {
      return;
    }
    o := UnitOn(db, ctx, ans, info, ArtistCoverStep);
  }

  /**
   * A chunk as the stream yields it: every row decoded, or `None` when a
   * row's `row.get` would panic.
   */
  method DecodeChunk(rows: seq<RawRow>, start: nat, end: nat) returns (r: Option<seq<SongInfo>>)
    requires start <= end <= |rows|
    ensures r.Some? <==> DecodesIn(rows, start, end)
    ensures r.Some? ==> (|r.value| == end - start
      && forall k :: 0 <= k < end - start ==> r.value[k] == Decode(rows[start + k]).value)
  {
    var infos: seq<SongInfo> := [];
    var i := start;
    while i < end
      invariant start <= i <= end
      invariant DecodesIn(rows, start, i)
      invariant |infos| == i - start
      invariant forall k :: 0 <= k < i - start ==> infos[k] == Decode(rows[start + k]).value
    {
      var info := Decode(rows[i]);
      if info.None? {
        return None;
      }
      infos := infos + [info.value];
      i := i + 1;
    }
    return Some(infos);
  }

  /**
   * `run` is the enrichment's own unit. The trigger keeps the unit's definition
   * out of the chunk loop's proof until a unit has actually run.
   */
  ghost predicate IsSongUnit(run: SongRun, ctx: Context)
  {
    forall t: Tables, info: SongInfo {:trigger ProcessSong(t, ctx, info)} :: run(t, info) == ProcessSong(t, ctx, info).0
  }

  /** One unit as the chunk loop sees it: its outcome is logged and dropped by `await_join_set`. */
  method SongUnitOn(db: Db, ctx: Context, ghost run: SongRun, info: SongInfo)
    requires db.Valid() && IsSongUnit(run, ctx)
    modifies db
    ensures db.Valid()
    ensures db.Snapshot() == run(old(db.Snapshot()), info)
  {
    var o := ProcessSongOn(db, ctx, info);
  }

  /** The units of one decoded chunk, one after the other. */
  method RunChunkOn(db: Db, ctx: Context, ghost run: SongRun, rows: seq<RawRow>, start: nat, infos: seq<SongInfo>)
    requires db.Valid() && IsSongUnit(run, ctx)
    requires start + |infos| <= |rows| && DecodesIn(rows, start, start + |infos|)
    requires forall k :: 0 <= k < |infos| ==> infos[k] == Decode(rows[start + k]).value
    modifies db
    ensures db.Valid()
    ensures db.Snapshot() == ProcessRows(old(db.Snapshot()), run, rows, start, start + |infos|)
  {
    ghost var t := db.Snapshot();
    var j := 0;
    while j < |infos|
      invariant j <= |infos|
      invariant db.Valid()
      invariant db.Snapshot() == ProcessRows(t, run, rows, start, start + j)
    {
      ghost var before := db.Snapshot();
      SongUnitOn(db, ctx, run, infos[j]);
      assert infos[j] == Decode(rows[start + j]).value;
      assert ProcessRows(t, run, rows, start, start + j + 1) == run(before, infos[j]);
      j := j + 1;
    }
  }

  /** The `while let Some(chunk) = results.next().await` loop, for any unit. */
  method RunChunksOn(db: Db, ctx: Context, ghost run: SongRun, rows: seq<RawRow>) returns (o: Outcome)
    requires db.Valid() && IsSongUnit(run, ctx)
    modifies db
    ensures db.Valid()
    ensures (db.Snapshot(), o) == RunChunks(old(db.Snapshot()), run, rows, 0)
  {
    ghost var t := db.Snapshot();
    var start := 0;
    while start < |rows|
      invariant start <= |rows|
      invariant db.Valid()
      invariant RunChunks(db.Snapshot(), run, rows, start) == RunChunks(t, run, rows, 0)
      decreases |rows| - start
    {
      var end := Min(start + CHUNK_SIZE, |rows|);
      var chunk := DecodeChunk(rows, start, end);
      if chunk.None? {
        return Panicked;
      }
      RunChunkOn(db, ctx, run, rows, start, chunk.value);
      start := end;
    }
    return Done;
  }

  lemma SongUnitIsSongUnit(ctx: Context)
    ensures IsSongUnit(SongUnit(ctx), ctx)
  {
  }

  /** `import_external_metadata` over the candidate query's rows. */
  method ImportExternalMetadata(db: Db, ctx: Context, rows: seq<RawRow>) returns (o: Outcome)
    requires db.Valid()
    modifies db
    ensures db.Valid()
    ensures (db.Snapshot(), o) == EnrichSpec(old(db.Snapshot()), ctx, rows)
  {
    if !ctx.enabled {
      return Done;
    }
    SongUnitIsSongUnit(ctx);
    o := RunChunksOn(db, ctx, SongUnit(ctx), rows);
  }
}
