/**
 * `getArtistInfo` and `getArtistInfo2`: find the artist an id names (an
 * artist, else the artist of a song, else of an album's first song that has
 * one), then fill its info from Last.fm when an API key is configured, its
 * cover art, and its name.
 */
module ArtistInfoApi {

  import opened Base
  import opened Uuids
  import opened Catalog
  import opened ApiClients
  import opened Format

  const NOT_FOUND: nat := 404

  /** What `get_lastfm` answers for a query: a decoded response, none, or an error. */
  type LastFm = seq<(string, string)> -> AppResult<Option<LastFmArtistResponse>>

  /** `ArtistInfo`. */
  datatype ArtistInfo = ArtistInfo(
    biography: Option<string>,
    musicBrainzId: Option<string>,
    lastFmUrl: Option<string>,
    smallImageUrl: Option<string>,
    mediumImageUrl: Option<string>,
    largeImageUrl: Option<string>)

  /** `ArtistInfoResponse` and `ArtistInfo2Response`. */
  datatype ArtistInfoResponse = ArtistInfoResponse(artistInfo: ArtistInfo)
  datatype ArtistInfo2Response = ArtistInfo2Response(artistInfo2: ArtistInfo)

  /** The XML form: the element name (`artistInfo` or `artistInfo2`) and the same fields. */
  datatype XmlArtistInfo = XmlArtistInfo(element: string, info: ArtistInfo)

  const ARTIST_INFO: string := "artistInfo"
  const ARTIST_INFO2: string := "artistInfo2"

  function ArtistInfoIntoXml(r: ArtistInfoResponse): (x: XmlArtistInfo)
    ensures x.element == ARTIST_INFO && x.info == r.artistInfo
  {
    XmlArtistInfo(ARTIST_INFO, r.artistInfo)
  }

  function ArtistInfo2IntoXml(r: ArtistInfo2Response): (x: XmlArtistInfo)
    ensures x.element == ARTIST_INFO2 && x.info == r.artistInfo2
  {
    XmlArtistInfo(ARTIST_INFO2, r.artistInfo2)
  }

  // ---- which artist ------------------------------------------------------

  function Lookup(artists: map<Uuid, DbArtist>, id: Uuid): (r: Option<DbArtist>)
  {
    if id in artists then Some(artists[id]) else None
  }

  /** The artist id of the first song that has one. */
  function FirstArtistId(songs: seq<DbSong>): (r: Option<Uuid>)
    ensures r.None? <==> forall i :: 0 <= i < |songs| ==> songs[i].artistId.None?
  {
    if songs == [] then None
    else if songs[0].artistId.Some? then songs[0].artistId
    else
      assert forall i :: 0 < i < |songs| ==> songs[i] == songs[1..][i - 1];
      FirstArtistId(songs[1..])
  }

  /** When none before `i` has an artist id and song `i` has one, it is the first. */
  lemma {:induction false} FirstArtistIdAt(songs: seq<DbSong>, i: nat)
    requires i < |songs| && songs[i].artistId.Some?
    requires forall j :: 0 <= j < i ==> songs[j].artistId.None?
    ensures FirstArtistId(songs) == songs[i].artistId
  {
    if i > 0 {
      assert songs[1..][i - 1] == songs[i];
      forall j | 0 <= j < i - 1 ensures songs[1..][j].artistId.None? {
        assert songs[1..][j] == songs[j + 1];
      }
      FirstArtistIdAt(songs[1..], i - 1);
    }
  }

  /**
   * The artist `id` names. With `onlyCheckArtistId` only the artists table
   * counts; otherwise a song's artist, then the artist of the first of
   * `albumSongs` (`find_songs_by_album_id(id)`, in database order) that has
   * one, each tried while no artist is found.
   */
  function Resolved(t: Tables, id: Uuid, albumSongs: seq<DbSong>, onlyCheckArtistId: bool): (r: Option<DbArtist>)
  {
    var direct := Lookup(t.artists, id);
    if onlyCheckArtistId || direct.Some? then direct
    else
      var viaSong :=
        if id in t.songs && t.songs[id].artistId.Some? then Lookup(t.artists, t.songs[id].artistId.value) else None;
      if viaSong.Some? then viaSong
      else
        var first := FirstArtistId(albumSongs);
        if first.Some? then Lookup(t.artists, first.value) else None
  }

  // ---- what the info holds ------------------------------------------------

  /** The query `get_lastfm` is sent: key, format, method, the artist's name, and its MusicBrainz id when known. */
  function LastFmQuery(apiKey: string, artist: DbArtist): (q: seq<(string, string)>)
  {
    [("api_key", apiKey), ("format", "json"), ("method", "artist.getinfo"), ("artist", artist.name)]
      + (if artist.musicbrainzId.Some? then [("mbid", artist.musicbrainzId.value)] else [])
  }

  /** `format!("/rest/getCoverArt.view?id={cover_art_id}")`, the id hyphenated. */
  function CoverArtUrl(coverArtId: Uuid): string
  {
    "/rest/getCoverArt.view?id=" + UuidText(coverArtId)
  }

  /** An image url: Last.fm's of that size, else the cover art url, else none. */
  function ImageUrl(found: Option<LastFmArtist>, size: string, coverArtId: Option<Uuid>): Option<string>
  {
    var own := if found.Some? then found.value.Image(size) else None;
    if own.Some? then own
    else if coverArtId.Some? then Some(CoverArtUrl(coverArtId.value))
    else None
  }

  /** The summary of Last.fm's biography. */
  function Summary(found: Option<LastFmArtist>): Option<string>
  {
    if found.Some? && found.value.bio.Some? then Some(found.value.bio.value.summary) else None
  }

  /**
   * The info of `artist`, field by field, given the artist Last.fm
   * described (none without an API key or when it answered nothing).
   */
  function InfoOf(artist: DbArtist, found: Option<LastFmArtist>): ArtistInfo
  {
    ArtistInfo(
      biography := Some(Summary(found).UnwrapOr(artist.name)),
      musicBrainzId := artist.musicbrainzId,
      lastFmUrl := if found.Some? then found.value.url else None,
      smallImageUrl := ImageUrl(found, "small", artist.coverArtId),
      mediumImageUrl := ImageUrl(found, "medium", artist.coverArtId),
      largeImageUrl := ImageUrl(found, "large", artist.coverArtId))
  }

  /** The Last.fm artist in a response. */
  function FoundIn(resp: Option<LastFmArtistResponse>): Option<LastFmArtist>
  {
    if resp.Some? then resp.value.artist else None
  }

  /** `get_artist_info_impl`: `Ok(None)` when no artist is found, a Last.fm error propagated. */
  function InfoSpec(t: Tables, id: Uuid, albumSongs: seq<DbSong>, apiKey: Option<string>, lastfm: LastFm, onlyCheckArtistId: bool)
    : AppResult<Option<ArtistInfoResponse>>
  {
    var artist := Resolved(t, id, albumSongs, onlyCheckArtistId);
    if artist.None? then Ok(None)
    else if apiKey.None? then Ok(Some(ArtistInfoResponse(InfoOf(artist.value, None))))
    else
      var resp := lastfm(LastFmQuery(apiKey.value, artist.value));
      if resp.Err? then Err(resp.error)
      else Ok(Some(ArtistInfoResponse(InfoOf(artist.value, FoundIn(resp.value)))))
  }

  // ---- the handlers -------------------------------------------------------

  /**
   * The first half of `get_artist_info_impl`: `artist` is looked up and
   * replaced step by step, the album's songs scanned up to the first with an
   * artist id.
   */
  method FindArtist(db: Db, id: Uuid, albumSongs: seq<DbSong>, onlyCheckArtistId: bool) returns (artist: Option<DbArtist>)
    ensures artist == Resolved(db.Snapshot(), id, albumSongs, onlyCheckArtistId)
  {
    artist := db.FindArtistById(id);
    if !onlyCheckArtistId && artist.None? {
      var song := db.FindSongById(id);
      if song.Some? && song.value.artistId.Some? {
        artist := db.FindArtistById(song.value.artistId.value);
      }
    }
    if !onlyCheckArtistId && artist.None? {
      var i := 0;
      while i < |albumSongs|
        invariant 0 <= i <= |albumSongs|
        invariant artist.None?
        invariant forall j :: 0 <= j < i ==> albumSongs[j].artistId.None?
      {
        if albumSongs[i].artistId.Some? {
          FirstArtistIdAt(albumSongs, i);
          artist := db.FindArtistById(albumSongs[i].artistId.value);
          break;
        }
        i := i + 1;
      }
    }
  }

  /** The second half: `result` filled field by field from Last.fm, the cover art and the name. */
  method FillInfo(a: DbArtist, apiKey: Option<string>, lastfm: LastFm) returns (r: AppResult<ArtistInfo>)
    ensures apiKey.None? ==> r == Ok(InfoOf(a, None))
    ensures apiKey.Some? ==> var resp := lastfm(LastFmQuery(apiKey.value, a));
      r == if resp.Err? then Err(resp.error) else Ok(InfoOf(a, FoundIn(resp.value)))
  {
    var result := ArtistInfo(None, a.musicbrainzId, None, None, None, None);
    ghost var found: Option<LastFmArtist> := None;
    if apiKey.Some? {
      var query := [("api_key", apiKey.value), ("format", "json"), ("method", "artist.getinfo"), ("artist", a.name)];
      if a.musicbrainzId.Some? {
        query := query + [("mbid", a.musicbrainzId.value)];
      }
      assert query == LastFmQuery(apiKey.value, a);
      var resp := lastfm(query);
      if resp.Err? {
        return Err(resp.error);
      }
      found := FoundIn(resp.value);
      if resp.value.Some? && resp.value.value.artist.Some? {
        var la := resp.value.value.artist.value;
        result := result.(lastFmUrl := la.url);
        result := result.(smallImageUrl := la.Image("small"));
        result := result.(mediumImageUrl := la.Image("medium"));
        result := result.(largeImageUrl := la.Image("large"));
        result := result.(biography := MapOption(la.bio, (b: LastFmBio) => b.summary));
      }
    }
    if a.coverArtId.Some? {
      var url := Some(CoverArtUrl(a.coverArtId.value));
      if result.smallImageUrl.None? {
        result := result.(smallImageUrl := url);
      }
      if result.mediumImageUrl.None? {
        result := result.(mediumImageUrl := url);
      }
      if result.largeImageUrl.None? {
        result := result.(largeImageUrl := url);
      }
    }
    if result.biography.None? {
      result := result.(biography := Some(a.name));
    }
    assert result == InfoOf(a, found);
    r := Ok(result);
  }

  /** `get_artist_info_impl`. */
  method GetArtistInfoImpl(db: Db, id: Uuid, albumSongs: seq<DbSong>, apiKey: Option<string>, lastfm: LastFm, onlyCheckArtistId: bool)
    returns (r: AppResult<Option<ArtistInfoResponse>>)
    ensures r == InfoSpec(db.Snapshot(), id, albumSongs, apiKey, lastfm, onlyCheckArtistId)
  {
    var artist := FindArtist(db, id, albumSongs, onlyCheckArtistId);
    if artist.None? {
      return Ok(None);
    }
    var info := FillInfo(artist.value, apiKey, lastfm);
    if info.Err? {
      return Err(info.error);
    }
    r := Ok(Some(ArtistInfoResponse(info.value)));
  }

  /** The handler's answer: an error, a 404 without an artist, or the rendered info. */
  function Answer<T, X>(format: SubsonicFormat, impl: AppResult<Option<ArtistInfoResponse>>,
                        wrap: ArtistInfo -> T, intoXml: T -> X): AppResult<Result<Rendered<T, X>, nat>>
  {
    if impl.Err? then Err(impl.error)
    else if impl.value.None? then Ok(Err(NOT_FOUND))
    else Ok(Ok(Render(format, Some(wrap(impl.value.value.artistInfo)), intoXml)))
  }

  function AsInfo(info: ArtistInfo): ArtistInfoResponse
  {
    ArtistInfoResponse(info)
  }

  function AsInfo2(info: ArtistInfo): ArtistInfo2Response
  {
    ArtistInfo2Response(info)
  }

  /** `get_artist_info`: ids of artists, songs and albums are accepted. */
  method GetArtistInfo(format: SubsonicFormat, db: Db, id: Uuid, albumSongs: seq<DbSong>, apiKey: Option<string>, lastfm: LastFm)
    returns (r: AppResult<Result<Rendered<ArtistInfoResponse, XmlArtistInfo>, nat>>)
    ensures r == Answer(format, InfoSpec(db.Snapshot(), id, albumSongs, apiKey, lastfm, false), AsInfo, ArtistInfoIntoXml)
  {
    var impl := GetArtistInfoImpl(db, id, albumSongs, apiKey, lastfm, false);
    r := Answer(format, impl, AsInfo, ArtistInfoIntoXml);
  }

  /** `get_artist_info2`: only artist ids are accepted; the info is wrapped as `artistInfo2`. */
  method GetArtistInfo2(format: SubsonicFormat, db: Db, id: Uuid, albumSongs: seq<DbSong>, apiKey: Option<string>, lastfm: LastFm)
    returns (r: AppResult<Result<Rendered<ArtistInfo2Response, XmlArtistInfo>, nat>>)
    ensures r == Answer(format, InfoSpec(db.Snapshot(), id, albumSongs, apiKey, lastfm, true), AsInfo2, ArtistInfo2IntoXml)
  {
    var impl := GetArtistInfoImpl(db, id, albumSongs, apiKey, lastfm, true);
    r := Answer(format, impl, AsInfo2, ArtistInfo2IntoXml);
  }

  // ---- properties -------------------------------------------------------

  /** A found artist is a row of the artists table; artist-only lookup is the table's own. */
  lemma ResolvedIsArtist(t: Tables, id: Uuid, albumSongs: seq<DbSong>, onlyCheckArtistId: bool)
    ensures var r := Resolved(t, id, albumSongs, onlyCheckArtistId);
      (r.Some? ==> exists k :: k in t.artists && t.artists[k] == r.value)
      && (onlyCheckArtistId ==> r == Lookup(t.artists, id))
  {
    var r := Resolved(t, id, albumSongs, onlyCheckArtistId);
    if r.Some? {
      var viaSong := id in t.songs && t.songs[id].artistId.Some? && t.songs[id].artistId.value in t.artists;
      if id in t.artists {
        assert t.artists[id] == r.value;
      } else if !onlyCheckArtistId && viaSong {
        var k := t.songs[id].artistId.value;
        assert t.artists[k] == r.value;
      } else {
        var k := FirstArtistId(albumSongs).value;
        assert t.artists[k] == r.value;
      }
    }
  }

  /** Whatever artist-only lookup finds, the general lookup finds too. */
  lemma ResolvedAgree(t: Tables, id: Uuid, albumSongs: seq<DbSong>)
    ensures Resolved(t, id, albumSongs, true).Some? ==>
      Resolved(t, id, albumSongs, false) == Resolved(t, id, albumSongs, true)
  {
  }

  /** An id that is neither an artist, a song with an artist, nor an album with one gets a 404 from both handlers. */
  lemma UnknownIdNotFound(format: SubsonicFormat, t: Tables, id: Uuid, albumSongs: seq<DbSong>, apiKey: Option<string>, lastfm: LastFm)
    requires id !in t.artists
    requires id in t.songs && t.songs[id].artistId.Some? ==> t.songs[id].artistId.value !in t.artists
    requires forall i :: 0 <= i < |albumSongs| && albumSongs[i].artistId.Some? ==> albumSongs[i].artistId.value !in t.artists
    ensures Answer(format, InfoSpec(t, id, albumSongs, apiKey, lastfm, false), AsInfo, ArtistInfoIntoXml) == Ok(Err(NOT_FOUND))
    ensures Answer(format, InfoSpec(t, id, albumSongs, apiKey, lastfm, true), AsInfo2, ArtistInfo2IntoXml) == Ok(Err(NOT_FOUND))
  {
    var first := FirstArtistId(albumSongs);
    if first.Some? {
      var i :| 0 <= i < |albumSongs| && albumSongs[i].artistId.Some?;
      FirstArtistIdFrom(albumSongs);
    }
  }

  /** The first artist id is the artist id of some song. */
  lemma {:induction false} FirstArtistIdFrom(songs: seq<DbSong>)
    ensures FirstArtistId(songs).Some? ==> exists i :: 0 <= i < |songs| && songs[i].artistId == FirstArtistId(songs)
  {
    if songs != [] && songs[0].artistId.None? {
      FirstArtistIdFrom(songs[1..]);
      if FirstArtistId(songs[1..]).Some? {
        var i :| 0 <= i < |songs[1..]| && songs[1..][i].artistId == FirstArtistId(songs[1..]);
        assert songs[i + 1] == songs[1..][i];
      }
    }
  }

  /** Without an API key Last.fm is never asked: the answer does not depend on it. */
  lemma NoKeyNoLastFm(t: Tables, id: Uuid, albumSongs: seq<DbSong>, lastfm: LastFm, other: LastFm, onlyCheckArtistId: bool)
    ensures InfoSpec(t, id, albumSongs, None, lastfm, onlyCheckArtistId) == InfoSpec(t, id, albumSongs, None, other, onlyCheckArtistId)
  {
  }

  /** A Last.fm error is the handler's error, whenever an artist is found and a key is set. */
  lemma LastFmErrorPropagates(t: Tables, id: Uuid, albumSongs: seq<DbSong>, apiKey: string, lastfm: LastFm, onlyCheckArtistId: bool)
    requires Resolved(t, id, albumSongs, onlyCheckArtistId).Some?
    requires lastfm(LastFmQuery(apiKey, Resolved(t, id, albumSongs, onlyCheckArtistId).value)).Err?
    ensures InfoSpec(t, id, albumSongs, Some(apiKey), lastfm, onlyCheckArtistId)
         == Err(lastfm(LastFmQuery(apiKey, Resolved(t, id, albumSongs, onlyCheckArtistId).value)).error)
  {
  }

  /** The query names the key, JSON, `artist.getinfo` and the artist, and carries `mbid` exactly when the id is known. */
  lemma LastFmQueryShape(apiKey: string, artist: DbArtist)
    ensures var q := LastFmQuery(apiKey, artist);
      q[..4] == [("api_key", apiKey), ("format", "json"), ("method", "artist.getinfo"), ("artist", artist.name)]
      && (artist.musicbrainzId.None? <==> |q| == 4)
      && (artist.musicbrainzId.Some? ==> q[4..] == [("mbid", artist.musicbrainzId.value)])
  {
  }

  /**
   * The info always has a biography (Last.fm's summary, else the name)
   * and the artist's MusicBrainz id; an image url is Last.fm's one of that
   * size, else the cover art url, so with cover art every image is set.
   */
  lemma InfoFields(artist: DbArtist, found: Option<LastFmArtist>)
    ensures var info := InfoOf(artist, found);
      info.biography.Some?
      && (Summary(found).None? ==> info.biography == Some(artist.name))
      && (Summary(found).Some? ==> info.biography == Summary(found))
      && info.musicBrainzId == artist.musicbrainzId
      && (found.None? ==> info.lastFmUrl.None?)
      && (artist.coverArtId.Some? ==>
            info.smallImageUrl.Some? && info.mediumImageUrl.Some? && info.largeImageUrl.Some?)
      && (found.None? ==>
            info.smallImageUrl == info.mediumImageUrl == info.largeImageUrl
            == MapOption(artist.coverArtId, CoverArtUrl))
  {
  }

  /** Last.fm's image of a size wins over the cover art. */
  lemma LastFmImageWins(found: LastFmArtist, size: string, coverArtId: Option<Uuid>)
    requires exists i :: 0 <= i < |found.image| && found.image[i].size == size
    ensures ImageUrl(Some(found), size, coverArtId) == found.Image(size)
    ensures ImageUrl(Some(found), size, coverArtId).Some?
  {
  }

  /** For an artist id both handlers report the same info. */
  lemma HandlersAgree(t: Tables, id: Uuid, albumSongs: seq<DbSong>, apiKey: Option<string>, lastfm: LastFm)
    requires id in t.artists
    ensures InfoSpec(t, id, albumSongs, apiKey, lastfm, false) == InfoSpec(t, id, albumSongs, apiKey, lastfm, true)
  {
  }
}
