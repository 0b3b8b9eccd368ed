/**
 * `InfoProviderList` over the two real providers: which provider can
 * actually answer each kind of lookup.
 */
module ProviderList {

  import opened Base
  import opened Providers
  import MB = MusicBrainz
  import DC = Discogs

  /** Everything the providers consult while answering one query. */
  datatype Services = Services(
    search: MB.RecordingSearch,
    distance: MB.Distance,
    coverFetch: MB.CoverFetch,
    discogsSearch: DC.SearchAt,
    discogsResource: DC.ResourceAt)

  function AskRelease(query: FindReleaseQuery, env: Services): Provider -> AppResult<Option<Release>>
  {
    (p: Provider) =>
      match p
      case MbProvider => MB.FindRelease(query, env.search, env.distance)
      case DiscogsProvider(_) => DC.FindRelease(query)
  }

  function AskCoverArt(query: FindCoverArtQuery, env: Services): Provider -> AppResult<Option<string>>
  {
    (p: Provider) =>
      match p
      case MbProvider => MB.FindCoverArt(query, env.search, env.distance, env.coverFetch)
      case DiscogsProvider(_) => DC.FindCoverArt(query)
  }

  function AskArtistPhoto(query: FindCoverArtQuery, env: Services): Provider -> AppResult<Option<string>>
  {
    (p: Provider) =>
      match p
      case MbProvider => MB.FindArtistPhoto(query)
      case DiscogsProvider(token) => DC.FindArtistPhoto(token, query, env.discogsSearch, env.discogsResource)
  }

  /** `InfoProviderList::find_release`. */
  function FindRelease(providers: seq<Provider>, query: FindReleaseQuery, env: Services): AppResult<Option<Release>>
  {
    FirstHit(providers, AskRelease(query, env))
  }

  /** `InfoProviderList::find_cover_art`. */
  function FindCoverArt(providers: seq<Provider>, query: FindCoverArtQuery, env: Services): AppResult<Option<string>>
  {
    FirstHit(providers, AskCoverArt(query, env))
  }

  /** `InfoProviderList::find_artist_photo`. */
  function FindArtistPhoto(providers: seq<Provider>, query: FindCoverArtQuery, env: Services): AppResult<Option<string>>
  {
    FirstHit(providers, AskArtistPhoto(query, env))
  }

  /** Releases only ever come from MusicBrainz: Discogs never knows one. */
  lemma ReleaseFromMusicBrainz(token: Option<string>, query: FindReleaseQuery, env: Services)
    ensures FindRelease(NewProviderList(token), query, env) == MB.FindRelease(query, env.search, env.distance)
  {
    var list := NewProviderList(token);
    if MB.FindRelease(query, env.search, env.distance) != Ok(None) {
      FirstHitStops(list, AskRelease(query, env), AskRelease(query, env), 0);
    } else {
      assert forall i :: 0 <= i < |list| ==> AskRelease(query, env)(list[i]) == Ok(None);
    }
  }

  /** Cover art only ever comes from MusicBrainz. */
  lemma CoverArtFromMusicBrainz(token: Option<string>, query: FindCoverArtQuery, env: Services)
    ensures FindCoverArt(NewProviderList(token), query, env)
         == MB.FindCoverArt(query, env.search, env.distance, env.coverFetch)
  {
    var list := NewProviderList(token);
    if MB.FindCoverArt(query, env.search, env.distance, env.coverFetch) != Ok(None) {
      FirstHitStops(list, AskCoverArt(query, env), AskCoverArt(query, env), 0);
    } else {
      assert forall i :: 0 <= i < |list| ==> AskCoverArt(query, env)(list[i]) == Ok(None);
    }
  }

  /** Artist photos only ever come from Discogs, and so only with a token. */
  lemma ArtistPhotoFromDiscogs(token: Option<string>, query: FindCoverArtQuery, env: Services)
    ensures FindArtistPhoto(NewProviderList(token), query, env)
         == if token.None? then Ok(None) else DC.FindArtistPhoto(token.value, query, env.discogsSearch, env.discogsResource)
  {
    var list := NewProviderList(token);
    var ask := AskArtistPhoto(query, env);
    if token.Some? && ask(list[1]) != Ok(None) {
      FirstHitStops(list, ask, ask, 1);
    } else {
      assert forall i :: 0 <= i < |list| ==> ask(list[i]) == Ok(None);
    }
  }
}
