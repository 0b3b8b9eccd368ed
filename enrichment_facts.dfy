/**
 * What `import_external_metadata` guarantees: it only fills in blanks, the
 * candidates it processes are on cooldown afterwards, and chunking is
 * invisible unless a row cannot be decoded.
 */
module EnrichmentFacts {

  import opened Base
  import opened Catalog
  import opened ApiClients
  import opened Enrichment

  // ---------------------------------------------------------------------
  // The run fills blanks only.
  // ---------------------------------------------------------------------

  lemma EnrichedRefl(t: Tables)
    ensures Enriched(t, t)
  {
  }

  lemma EnrichedTrans(t1: Tables, t2: Tables, t3: Tables)
    requires Enriched(t1, t2) && Enriched(t2, t3)
    ensures Enriched(t1, t3)
  {
  }

  // Each write changes one table; these put the pieces together.

  lemma OnlyChildrenTouched(t: Tables, r: Tables)
    requires r == t.(folderChildren := r.folderChildren) && ChildrenTouched(t.folderChildren, r.folderChildren)
    ensures Enriched(t, r)
  {
  }

  lemma OnlySongsFilled(t: Tables, r: Tables)
    requires r == t.(songs := r.songs) && SongsFilled(t.songs, r.songs)
    ensures Enriched(t, r)
  {
  }

  lemma OnlyArtistsFilled(t: Tables, r: Tables)
    requires r == t.(artists := r.artists) && ArtistsFilled(t.artists, r.artists)
    ensures Enriched(t, r)
  {
  }

  lemma OnlyAlbumsFilled(t: Tables, r: Tables)
    requires r == t.(albums := r.albums) && AlbumsFilled(t.albums, r.albums)
    ensures Enriched(t, r)
  {
  }

  lemma OnlyCoverArtGrown(t: Tables, r: Tables)
    requires r == t.(coverArt := r.coverArt) && CoverArtGrown(t.coverArt, r.coverArt)
    ensures Enriched(t, r)
  {
  }

  lemma TouchEnriched(t: Tables, id: Uuid, now: Timestamp)
    requires WellKeyed(t)
    ensures WellKeyed(TouchFolderChild(t, id, now)) && Enriched(t, TouchFolderChild(t, id, now))
  {
    var r := TouchFolderChild(t, id, now);
    if id in t.folderChildren {
      assert ChildrenTouched(t.folderChildren, r.folderChildren);
      OnlyChildrenTouched(t, r);
    } else {
      EnrichedRefl(t);
    }
  }

  lemma SetArtistMusicbrainzIdEnriched(t: Tables, id: Uuid, mbid: string)
    requires WellKeyed(t) && (id in t.artists ==> t.artists[id].musicbrainzId.None?)
    ensures var r := SetArtistMusicbrainzId(t, id, mbid); WellKeyed(r) && Enriched(t, r) && r.folderChildren == t.folderChildren
  {
    var r := SetArtistMusicbrainzId(t, id, mbid);
    if id in t.artists {
      assert ArtistsFilled(t.artists, r.artists);
      OnlyArtistsFilled(t, r);
    } else {
      EnrichedRefl(t);
    }
  }

  lemma SetSongGenreEnriched(t: Tables, id: Uuid, genre: string)
    requires WellKeyed(t) && (id in t.songs ==> t.songs[id].genre.None?)
    ensures var r := SetSongGenre(t, id, genre); WellKeyed(r) && Enriched(t, r) && r.folderChildren == t.folderChildren
  {
    var r := SetSongGenre(t, id, genre);
    if id in t.songs {
      assert SongsFilled(t.songs, r.songs);
      OnlySongsFilled(t, r);
    } else {
      EnrichedRefl(t);
    }
  }

  lemma SetSongCoverEnriched(t: Tables, id: Uuid, c: Uuid)
    requires WellKeyed(t) && (id in t.songs ==> t.songs[id].coverArtId.None?)
    ensures var r := SetSongCoverArt(t, id, c); WellKeyed(r) && Enriched(t, r) && r.folderChildren == t.folderChildren
  {
    var r := SetSongCoverArt(t, id, c);
    if id in t.songs {
      assert SongsFilled(t.songs, r.songs);
      OnlySongsFilled(t, r);
    } else {
      EnrichedRefl(t);
    }
  }

  lemma SetAlbumCoverEnriched(t: Tables, id: Uuid, c: Uuid)
    requires WellKeyed(t) && (id in t.albums ==> t.albums[id].coverArtId.None?)
    ensures var r := SetAlbumCoverArt(t, id, c); WellKeyed(r) && Enriched(t, r) && r.folderChildren == t.folderChildren
  {
    var r := SetAlbumCoverArt(t, id, c);
    if id in t.albums {
      assert AlbumsFilled(t.albums, r.albums);
      OnlyAlbumsFilled(t, r);
    } else {
      EnrichedRefl(t);
    }
  }

  lemma SetArtistCoverEnriched(t: Tables, id: Uuid, c: Uuid)
    requires WellKeyed(t) && (id in t.artists ==> t.artists[id].coverArtId.None?)
    ensures var r := SetArtistCoverArt(t, id, c); WellKeyed(r) && Enriched(t, r) && r.folderChildren == t.folderChildren
  {
    var r := SetArtistCoverArt(t, id, c);
    if id in t.artists {
      assert ArtistsFilled(t.artists, r.artists);
      OnlyArtistsFilled(t, r);
    } else {
      EnrichedRefl(t);
    }
  }

  lemma SetCoverEnriched(t: Tables, target: CoverTarget, c: Uuid)
    requires WellKeyed(t) && CoverMissing(t, target)
    ensures var r := SetCover(t, target, c); WellKeyed(r) && Enriched(t, r) && r.folderChildren == t.folderChildren
  {
    match target
    case SongCover(id) => SetSongCoverEnriched(t, id, c);
    case AlbumCover(id) => SetAlbumCoverEnriched(t, id, c);
    case ArtistCover(id) => SetArtistCoverEnriched(t, id, c);
  }

  lemma FetchCoverArtEnriched(t: Tables, ctx: Context, url: string)
    requires WellKeyed(t)
    ensures var r := FetchCoverArt(t, ctx, url).0;
      WellKeyed(r) && Enriched(t, r) && r == t.(coverArt := r.coverArt)
  {
    if ctx.web.head(url).Ok? {
      var id := ctx.hash(ctx.web.head(url).value.path);
      if id !in t.coverArt && ctx.web.download(ctx.web.head(url).value.url).Ok? {
        var c := DbCoverArt(id, ctx.web.download(ctx.web.head(url).value.url).value);
        var r := InsertCoverArt(t, c);
        assert FetchCoverArt(t, ctx, url).0 == r;
        assert CoverArtGrown(t.coverArt, r.coverArt);
        OnlyCoverArtGrown(t, r);
        return;
      }
    }
    EnrichedRefl(t);
  }

  /** A fetched cover stored on a target whose cover was missing fills that cover and nothing else. */
  lemma FetchAndSetEnriched(t: Tables, ctx: Context, u: string, target: CoverTarget)
    requires WellKeyed(t) && CoverMissing(t, target) && FetchCoverArt(t, ctx, u).1.Ok?
    ensures var r := SetCover(FetchCoverArt(t, ctx, u).0, target, FetchCoverArt(t, ctx, u).1.value);
      WellKeyed(r) && Enriched(t, r) && r.folderChildren == t.folderChildren
  {
    var fetched := FetchCoverArt(t, ctx, u);
    FetchCoverArtEnriched(t, ctx, u);
    assert CoverMissing(fetched.0, target);
    SetCoverEnriched(fetched.0, target, fetched.1.value);
    EnrichedTrans(t, fetched.0, SetCover(fetched.0, target, fetched.1.value));
  }

  /** A cover update fills the target's missing cover and nothing else. */
  lemma StoreCoverEnriched(t: Tables, ctx: Context, url: AppResult<Option<string>>, target: CoverTarget)
    requires WellKeyed(t) && CoverMissing(t, target)
    ensures var r := StoreCover(t, ctx, url, target).0;
      WellKeyed(r) && Enriched(t, r) && r.folderChildren == t.folderChildren
  {
    if url.Ok? && url.value.Some? && url.value.value != "" {
      var u := url.value.value;
      if FetchCoverArt(t, ctx, u).1.Ok? {
        FetchAndSetEnriched(t, ctx, u, target);
      } else {
        FetchCoverArtEnriched(t, ctx, u);
      }
    } else {
      EnrichedRefl(t);
    }
  }

  lemma UpdateArtistEnriched(t: Tables, ans: Answers, info: SongInfo, db: DbSongInfo)
    requires WellKeyed(t) && GetDbSongInfo(t, info) == Ok(db)
    ensures StepKept(t, UpdateArtist(t, ans, info, db).0)
  {
    if db.artist.musicbrainzId.None? && ans.artistMbid.Ok? && ans.artistMbid.value.Some? {
      SetArtistMusicbrainzIdEnriched(t, info.artistId, ans.artistMbid.value.value);
    } else {
      EnrichedRefl(t);
    }
  }

  lemma UpdateGenreEnriched(t: Tables, ctx: Context, ans: Answers, info: SongInfo, db: DbSongInfo)
    requires WellKeyed(t) && GetDbSongInfo(t, info) == Ok(db)
    ensures StepKept(t, UpdateGenre(t, ctx, ans, info, db).0)
  {
    if db.song.genre.None? && ans.genre.Ok? && ans.genre.value.Some? {
      SetSongGenreEnriched(t, info.songId, ctx.titleCase(ans.genre.value.value));
    } else {
      EnrichedRefl(t);
    }
  }

  lemma UpdateSongCoverEnriched(t: Tables, ctx: Context, ans: Answers, info: SongInfo, db: DbSongInfo)
    requires WellKeyed(t) && GetDbSongInfo(t, info) == Ok(db)
    ensures StepKept(t, UpdateSongCover(t, ctx, ans, db).0)
  {
    if db.song.coverArtId.None? {
      assert db.song.songId == info.songId;
      StoreCoverEnriched(t, ctx, ans.songCover, SongCover(db.song.songId));
    } else {
      EnrichedRefl(t);
    }
  }

  lemma UpdateAlbumCoverEnriched(t: Tables, ctx: Context, ans: Answers, info: SongInfo, db: DbSongInfo)
    requires WellKeyed(t) && GetDbSongInfo(t, info) == Ok(db)
    ensures StepKept(t, UpdateAlbumCover(t, ctx, ans, db).0)
  {
    if db.album.Some? && db.album.value.coverArtId.None? {
      assert db.album.value == t.albums[info.albumId.value];
      StoreCoverEnriched(t, ctx, ans.albumCover, AlbumCover(db.album.value.albumId));
    } else {
      EnrichedRefl(t);
    }
  }

  lemma UpdateArtistCoverEnriched(t: Tables, ctx: Context, ans: Answers, info: SongInfo, db: DbSongInfo)
    requires WellKeyed(t) && GetDbSongInfo(t, info) == Ok(db)
    ensures StepKept(t, UpdateArtistCover(t, ctx, ans, info, db).0)
  {
    if db.artist.coverArtId.None? {
      StoreCoverEnriched(t, ctx, ans.artistPhoto, ArtistCover(info.artistId));
    } else {
      EnrichedRefl(t);
    }
  }

  lemma StepKeptRefl(t: Tables)
    requires WellKeyed(t)
    ensures StepKept(t, t)
  {
    EnrichedRefl(t);
  }

  lemma StepKeptTrans(t1: Tables, t2: Tables, t3: Tables)
    requires StepKept(t1, t2) && StepKept(t2, t3)
    ensures StepKept(t1, t3)
  {
    EnrichedTrans(t1, t2, t3);
  }

  /** Each step fills blanks only, and leaves the folder children alone. */
  lemma StepEnriched(t: Tables, ctx: Context, ans: Answers, info: SongInfo, step: Step, db: DbSongInfo)
    requires WellKeyed(t) && GetDbSongInfo(t, info) == Ok(db)
    ensures StepKept(t, RunStep(t, ctx, ans, info, step, db).0)
  {
    match step
    case ArtistStep => UpdateArtistEnriched(t, ans, info, db);
    case GenreStep => UpdateGenreEnriched(t, ctx, ans, info, db);
    case SongCoverStep => UpdateSongCoverEnriched(t, ctx, ans, info, db);
    case AlbumCoverStep => UpdateAlbumCoverEnriched(t, ctx, ans, info, db);
    case ArtistCoverStep => UpdateArtistCoverEnriched(t, ctx, ans, info, db);
  }

  lemma UnitKept(t: Tables, ctx: Context, ans: Answers, info: SongInfo, step: Step)
    requires WellKeyed(t)
    ensures StepKept(t, Unit(t, ctx, ans, info, step).0)
  {
    if GetDbSongInfo(t, info).Ok? {
      StepEnriched(t, ctx, ans, info, step, GetDbSongInfo(t, info).value);
    } else {
      StepKeptRefl(t);
    }
  }

  lemma ThenKept(t: Tables, r: (Tables, Outcome), ctx: Context, ans: Answers, info: SongInfo, step: Step)
    requires StepKept(t, r.0)
    ensures StepKept(t, Then(r, ctx, ans, info, step).0)
  {
    if r.1 == Done {
      UnitKept(r.0, ctx, ans, info, step);
      StepKeptTrans(t, r.0, Unit(r.0, ctx, ans, info, step).0);
    }
  }

  lemma GrowsRefl(t: Tables)
    requires WellKeyed(t)
    ensures Grows(t, t)
  {
    EnrichedRefl(t);
  }

  lemma GrowsTrans(t1: Tables, t2: Tables, t3: Tables)
    requires Grows(t1, t2) && Grows(t2, t3)
    ensures Grows(t1, t3)
  {
    EnrichedTrans(t1, t2, t3);
  }

  /**
   * One unit fills blanks only; of the folder children, it changes just the
   * unit's own `last_updated`, which becomes `now`.
   */
  lemma RunUnitEnriched(t: Tables, ctx: Context, ans: Answers, info: SongInfo)
    requires WellKeyed(t)
    ensures Grows(t, RunUnit(t, ctx, ans, info).0)
    ensures RunUnit(t, ctx, ans, info).0.folderChildren == TouchFolderChild(t, info.folderChildId, ctx.now).folderChildren
  {
    var t1 := TouchFolderChild(t, info.folderChildId, ctx.now);
    var r1 := Unit(t1, ctx, ans, info, ArtistStep);
    var r2 := Then(r1, ctx, ans, info, GenreStep);
    var r3 := Then(r2, ctx, ans, info, SongCoverStep);
    var r4 := Then(r3, ctx, ans, info, AlbumCoverStep);
    var r5 := Then(r4, ctx, ans, info, ArtistCoverStep);
    assert RunUnit(t, ctx, ans, info) == r5;
    TouchEnriched(t, info.folderChildId, ctx.now);
    UnitKept(t1, ctx, ans, info, ArtistStep);
    ThenKept(t1, r1, ctx, ans, info, GenreStep);
    ThenKept(t1, r2, ctx, ans, info, SongCoverStep);
    ThenKept(t1, r3, ctx, ans, info, AlbumCoverStep);
    ThenKept(t1, r4, ctx, ans, info, ArtistCoverStep);
    EnrichedTrans(t, t1, r5.0);
  }

  lemma ProcessSongEnriched(t: Tables, ctx: Context, info: SongInfo)
    requires WellKeyed(t)
    ensures Grows(t, ProcessSong(t, ctx, info).0)
    ensures ProcessSong(t, ctx, info).0.folderChildren == TouchFolderChild(t, info.folderChildId, ctx.now).folderChildren
  {
    RunUnitEnriched(t, ctx, Lookup(ctx, info), info);
  }

  /** Every unit `run` performs fills blanks only. */
  ghost predicate UnitsGrow(run: SongRun)
  {
    forall t: Tables, info: SongInfo :: WellKeyed(t) ==> Grows(t, run(t, info))
  }

  lemma SongUnitGrows(ctx: Context)
    ensures UnitsGrow(SongUnit(ctx))
  {
    forall t: Tables, info: SongInfo | WellKeyed(t)
      ensures Grows(t, SongUnit(ctx)(t, info))
    {
      ProcessSongEnriched(t, ctx, info);
    }
  }

  lemma {:induction false} ProcessRowsEnriched(t: Tables, run: SongRun, rows: seq<RawRow>, lo: nat, hi: nat)
    requires WellKeyed(t) && lo <= hi <= |rows| && DecodesIn(rows, lo, hi) && UnitsGrow(run)
    ensures Grows(t, ProcessRows(t, run, rows, lo, hi))
    decreases hi - lo
  {
    if hi == lo {
      GrowsRefl(t);
    } else {
      var t1 := ProcessRows(t, run, rows, lo, hi - 1);
      var t2 := run(t1, Decode(rows[hi - 1]).value);
      assert ProcessRows(t, run, rows, lo, hi) == t2;
      ProcessRowsEnriched(t, run, rows, lo, hi - 1);
      GrowsTrans(t, t1, t2);
    }
  }

  lemma {:induction false} RunChunksEnriched(t: Tables, run: SongRun, rows: seq<RawRow>, start: nat)
    requires WellKeyed(t) && start <= |rows| && UnitsGrow(run)
    ensures Grows(t, RunChunks(t, run, rows, start).0)
    decreases |rows| - start
  {
    var end := Min(start + CHUNK_SIZE, |rows|);
    if start == |rows| || !DecodesIn(rows, start, end) {
      assert RunChunks(t, run, rows, start).0 == t;
      GrowsRefl(t);
    } else {
      var t1 := ProcessRows(t, run, rows, start, end);
      var t2 := RunChunks(t1, run, rows, end).0;
      assert RunChunks(t, run, rows, start).0 == t2;
      ProcessRowsEnriched(t, run, rows, start, end);
      RunChunksEnriched(t1, run, rows, end);
      GrowsTrans(t, t1, t2);
    }
  }

  /**
   * The whole run, however it ends, only fills in missing genres, covers
   * and MusicBrainz ids, adds cover art and moves `last_updated`: no row
   * is added or removed and no value already present is overwritten.
   */
  lemma EnrichFillsBlanksOnly(t: Tables, ctx: Context, rows: seq<RawRow>)
    requires WellKeyed(t)
    ensures WellKeyed(EnrichSpec(t, ctx, rows).0) && Enriched(t, EnrichSpec(t, ctx, rows).0)
  {
    if ctx.enabled {
      SongUnitGrows(ctx);
      RunChunksEnriched(t, SongUnit(ctx), rows, 0);
    } else {
      GrowsRefl(t);
    }
  }

  // ---------------------------------------------------------------------
  // Properties.
  // ---------------------------------------------------------------------

  /** With the option off, nothing happens. */
  lemma DisabledDoesNothing(t: Tables, ctx: Context, rows: seq<RawRow>)
    requires !ctx.enabled
    ensures EnrichSpec(t, ctx, rows) == (t, Done)
  {
  }

  /** A song whose four fields are all present is never a candidate. */
  lemma CompleteSongNotSelected(t: Tables, cutoff: Timestamp, rows: seq<RawRow>, k: Uuid)
    requires WellKeyed(t) && IsCandidateQuery(t, cutoff, rows)
    requires k in t.songs && !NeedsMetadata(t, t.songs[k])
    ensures forall i :: 0 <= i < |rows| ==> rows[i].songId != k
  {
    forall i | 0 <= i < |rows| ensures rows[i].songId != k {
      var k2, c :| Selected(t, cutoff, k2, c) && rows[i] == RowOf(t, k2, c);
      assert rows[i].songId == k2;
    }
  }
}
