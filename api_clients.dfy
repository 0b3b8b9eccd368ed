/**
 * `utils::api_clients`: the response records of the Discogs, MusicBrainz,
 * Cover Art Archive and Last.fm web services, how a `get_*` call turns an
 * HTTP exchange into a result, and the field defaults of the decoders.
 *
 * JSON syntax is not modelled: a decoder is given the body already parsed
 * into a `Raw*` record whose every field may be absent, and decides whether
 * the object has the shape the program asks for.
 */
module ApiClients {

  import opened Base

  // ---- decoded records -----------------------------------------------------

  datatype DiscogsSearchResult = DiscogsSearchResult(
    genre: seq<string>,
    coverImage: Option<string>,
    thumb: Option<string>,
    masterUrl: Option<string>,
    resourceUrl: Option<string>)

  datatype DiscogsSearchResponse = DiscogsSearchResponse(results: seq<DiscogsSearchResult>)

  datatype DiscogsImage = DiscogsImage(resourceUrl: Option<string>)

  datatype DiscogsMasterResponse = DiscogsMasterResponse(images: seq<DiscogsImage>)

  datatype DiscogsArtist = DiscogsArtist(thumbnailUrl: Option<string>)

  datatype DiscogsResourceResponse = DiscogsResourceResponse(artists: seq<DiscogsArtist>)

  datatype MusicbrainzTag = MusicbrainzTag(name: string)

  datatype MusicbrainzArtist = MusicbrainzArtist(id: string, tags: seq<MusicbrainzTag>)

  datatype MusicbrainzArtistCredit = MusicbrainzArtistCredit(artist: MusicbrainzArtist)

  datatype MusicbrainzRelease = MusicbrainzRelease(id: string)

  datatype MusicbrainzRecording = MusicbrainzRecording(
    artistCredit: seq<MusicbrainzArtistCredit>,
    releases: seq<MusicbrainzRelease>,
    tags: seq<MusicbrainzTag>)

  datatype MusicbrainzRecordingsResponse = MusicbrainzRecordingsResponse(recordings: seq<MusicbrainzRecording>)

  datatype MusicbrainzArtistsResponse = MusicbrainzArtistsResponse(artists: seq<MusicbrainzArtist>)

  datatype CoverArtArchiveImage = CoverArtArchiveImage(image: Option<string>)

  datatype CoverArtArchiveImagesResponse = CoverArtArchiveImagesResponse(images: seq<CoverArtArchiveImage>)

  datatype LastFmImage = LastFmImage(text: string, size: string)

  datatype LastFmBio = LastFmBio(summary: string)

  datatype LastFmArtist = LastFmArtist(url: Option<string>, image: seq<LastFmImage>, bio: Option<LastFmBio>)
  {
    /** `LastFmArtist::image`: the text of the first image of that size. */
    function Image(size: string): (r: Option<string>)
      ensures r.None? <==> forall i :: 0 <= i < |image| ==> image[i].size != size
      ensures r.Some? ==>
        exists i :: 0 <= i < |image| && image[i].size == size && image[i].text == r.value
          && forall j :: 0 <= j < i ==> image[j].size != size
      decreases |image|
    {
      if image == [] then None
      else if image[0].size == size then Some(image[0].text)
      else
        var rest := LastFmArtist(url, image[1..], bio);
        assert forall i :: 0 < i < |image| ==> image[i] == rest.image[i - 1];
        rest.Image(size)
    }
  }

  datatype LastFmArtistResponse = LastFmArtistResponse(artist: Option<LastFmArtist>)

  // ---- the HTTP exchange ---------------------------------------------------

  const NOT_FOUND: nat := 404

  /** What the client saw: the request could not be sent, or a status and the body (or the error reading it). */
  datatype Exchange = SendFailed(error: AppError) | Received(status: nat, body: AppResult<string>)

  /**
   * The shared shape of `get_discogs`, `get_musicbrainz`,
   * `get_cover_art_archive` and `get_lastfm`: transport errors propagate, a
   * 404 is "nothing there" without looking at the body, and a body that does
   * not decode is "nothing there" as well.
   */
  function Get<T>(exchange: Exchange, decode: string -> Option<T>): (r: AppResult<Option<T>>)
    ensures r.Err? <==> exchange.SendFailed? || (exchange.status != NOT_FOUND && exchange.body.Err?)
    ensures r == Ok(None) <==>
      exchange.Received? && (exchange.status == NOT_FOUND || (exchange.body.Ok? && decode(exchange.body.value).None?))
    ensures r.Ok? && r.value.Some? ==>
      exchange.Received? && exchange.status != NOT_FOUND && exchange.body.Ok?
      && decode(exchange.body.value) == r.value
  {
    match exchange
    case SendFailed(e) => Err(e)
    case Received(status, body) =>
      if status == NOT_FOUND then Ok(None)
      else match body
        case Err(e) => Err(e)
        case Ok(json) => Ok(decode(json))
  }

  /** A 404 never consults the decoder: any two decoders agree on it. */
  lemma NotFoundIgnoresBody<T>(body: AppResult<string>, d1: string -> Option<T>, d2: string -> Option<T>)
    ensures Get(Received(NOT_FOUND, body), d1) == Get(Received(NOT_FOUND, body), d2) == Ok(None)
  {
  }

  // ---- decoders and their field defaults --------------------------------------

  /** A list decodes when every element does. */
  function DecodeAll<R, T>(raws: seq<R>, decode: R -> Option<T>): (r: Option<seq<T>>)
    ensures r.Some? <==> forall i :: 0 <= i < |raws| ==> decode(raws[i]).Some?
    ensures r.Some? ==> |r.value| == |raws| && forall i :: 0 <= i < |raws| ==> decode(raws[i]) == Some(r.value[i])
    decreases |raws|
  {
    if raws == [] then Some([])
    else
      match (decode(raws[0]), DecodeAll(raws[1..], decode))
      case (Some(t), Some(ts)) =>
        assert forall i :: 0 < i < |raws| ==> raws[i] == raws[1..][i - 1];
        Some([t] + ts)
      case (None, _) => None
      case (_, None) =>
        assert forall i :: 0 < i < |raws| ==> raws[i] == raws[1..][i - 1];
        None
  }

  /** `#[serde(default)]` on a list field: an absent list is empty. */
  function DefaultList<R, T>(field: Option<seq<R>>, decode: R -> Option<T>): (r: Option<seq<T>>)
    ensures field.None? ==> r == Some([])
    ensures field.Some? ==> r == DecodeAll(field.value, decode)
  {
    match field
    case None => Some([])
    case Some(raws) => DecodeAll(raws, decode)
  }

  datatype RawTag = RawTag(name: Option<string>)

  datatype RawArtist = RawArtist(id: Option<string>, tags: Option<seq<RawTag>>)

  datatype RawArtistCredit = RawArtistCredit(artist: Option<RawArtist>)

  datatype RawRelease = RawRelease(id: Option<string>)

  datatype RawRecording = RawRecording(
    artistCredit: Option<seq<RawArtistCredit>>,
    releases: Option<seq<RawRelease>>,
    tags: Option<seq<RawTag>>)

  datatype RawDiscogsImage = RawDiscogsImage(resourceUrl: Option<string>)

  datatype RawDiscogsMaster = RawDiscogsMaster(images: Option<seq<RawDiscogsImage>>)

  datatype RawDiscogsArtist = RawDiscogsArtist(thumbnailUrl: Option<string>)

  datatype RawDiscogsResource = RawDiscogsResource(artists: Option<seq<RawDiscogsArtist>>)

  datatype RawCoverArtImage = RawCoverArtImage(image: Option<string>)

  datatype RawCoverArtImages = RawCoverArtImages(images: Option<seq<RawCoverArtImage>>)

  function DecodeTag(raw: RawTag): Option<MusicbrainzTag>
  {
    if raw.name.Some? then Some(MusicbrainzTag(raw.name.value)) else None
  }

  /** `MusicbrainzArtist`: the id is required, the tags default to none. */
  function DecodeArtist(raw: RawArtist): (r: Option<MusicbrainzArtist>)
    ensures r.Some? <==> raw.id.Some? && DefaultList(raw.tags, DecodeTag).Some?
    ensures raw.id.Some? && raw.tags.None? ==> r == Some(MusicbrainzArtist(raw.id.value, []))
  {
    var tags := DefaultList(raw.tags, DecodeTag);
    if raw.id.Some? && tags.Some? then Some(MusicbrainzArtist(raw.id.value, tags.value)) else None
  }

  function DecodeCredit(raw: RawArtistCredit): Option<MusicbrainzArtistCredit>
  {
    match raw.artist
    case None => None
    case Some(a) =>
      match DecodeArtist(a)
      case None => None
      case Some(artist) => Some(MusicbrainzArtistCredit(artist))
  }

  function DecodeRelease(raw: RawRelease): Option<MusicbrainzRelease>
  {
    if raw.id.Some? then Some(MusicbrainzRelease(raw.id.value)) else None
  }

  /** `MusicbrainzRecording`: `artist-credit`, `releases` and `tags` all default to none. */
  function DecodeRecording(raw: RawRecording): (r: Option<MusicbrainzRecording>)
    ensures raw.artistCredit.None? && raw.releases.None? && raw.tags.None? ==>
      r == Some(MusicbrainzRecording([], [], []))
    ensures r.Some? ==>
      (raw.artistCredit.None? ==> r.value.artistCredit == [])
      && (raw.releases.None? ==> r.value.releases == [])
      && (raw.tags.None? ==> r.value.tags == [])
    ensures r.Some? <==>
      DefaultList(raw.artistCredit, DecodeCredit).Some? && DefaultList(raw.releases, DecodeRelease).Some?
      && DefaultList(raw.tags, DecodeTag).Some?
  {
    var credits := DefaultList(raw.artistCredit, DecodeCredit);
    var releases := DefaultList(raw.releases, DecodeRelease);
    var tags := DefaultList(raw.tags, DecodeTag);
    if credits.Some? && releases.Some? && tags.Some? then
      Some(MusicbrainzRecording(credits.value, releases.value, tags.value))
    else None
  }

  /** `DiscogsMasterResponse`: absent `images` decode to none. */
  function DecodeMaster(raw: RawDiscogsMaster): (r: Option<DiscogsMasterResponse>)
    ensures raw.images.None? ==> r == Some(DiscogsMasterResponse([]))
    ensures raw.images.Some? ==>
      r.Some? && |r.value.images| == |raw.images.value|
      && forall i :: 0 <= i < |raw.images.value| ==> r.value.images[i].resourceUrl == raw.images.value[i].resourceUrl
  {
    var images := DefaultList(raw.images, (i: RawDiscogsImage) => Some(DiscogsImage(i.resourceUrl)));
    Some(DiscogsMasterResponse(images.value))
  }

  /** `DiscogsResourceResponse`: absent `artists` decode to none. */
  function DecodeResource(raw: RawDiscogsResource): (r: Option<DiscogsResourceResponse>)
    ensures raw.artists.None? ==> r == Some(DiscogsResourceResponse([]))
    ensures raw.artists.Some? ==>
      r.Some? && |r.value.artists| == |raw.artists.value|
      && forall i :: 0 <= i < |raw.artists.value| ==> r.value.artists[i].thumbnailUrl == raw.artists.value[i].thumbnailUrl
  {
    var artists := DefaultList(raw.artists, (a: RawDiscogsArtist) => Some(DiscogsArtist(a.thumbnailUrl)));
    Some(DiscogsResourceResponse(artists.value))
  }

  /** `CoverArtArchiveImagesResponse`: absent `images` decode to none. */
  function DecodeCoverArtImages(raw: RawCoverArtImages): (r: Option<CoverArtArchiveImagesResponse>)
    ensures raw.images.None? ==> r == Some(CoverArtArchiveImagesResponse([]))
    ensures raw.images.Some? ==>
      r.Some? && |r.value.images| == |raw.images.value|
      && forall i :: 0 <= i < |raw.images.value| ==> r.value.images[i].image == raw.images.value[i].image
  {
    var images := DefaultList(raw.images, (i: RawCoverArtImage) => Some(CoverArtArchiveImage(i.image)));
    Some(CoverArtArchiveImagesResponse(images.value))
  }
}
