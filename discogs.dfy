/**
 * The Discogs provider. It knows nothing about releases or cover art; its
 * artist photo is the first artist thumbnail found by following the search
 * results' resource links in order.
 *
 * The two HTTP exchanges (the search, and each resource) are inputs, already
 * decoded; a transport or decoding error in either ends the lookup with that
 * error.
 */
module Discogs {

  import opened Base
  import opened Sequences
  import opened Providers

  const SEARCH_URL: string := "https://api.discogs.com/database/search"

  datatype SearchResult = SearchResult(resourceUrl: Option<string>)

  datatype Artist = Artist(thumbnailUrl: Option<string>)

  datatype ResourceResponse = ResourceResponse(artists: Option<seq<Artist>>)

  /** The search request answered with the results, or an error. */
  type SearchAt = string -> AppResult<seq<SearchResult>>

  /** A resource request answered with the resource, or an error. */
  type ResourceAt = string -> AppResult<ResourceResponse>

  /** `DiscogsProvider::find_release`. */
  function FindRelease(query: FindReleaseQuery): AppResult<Option<Release>>
  {
    Ok(None)
  }

  /** `DiscogsProvider::find_cover_art`. */
  function FindCoverArt(query: FindCoverArtQuery): AppResult<Option<string>>
  {
    Ok(None)
  }

  /** The search URL; a missing album or artist is searched for as the empty string. */
  function SearchUrl(album: Option<string>, artist: Option<string>, token: string): string
  {
    SEARCH_URL + "?release_title=" + album.UnwrapOr("") + "&artist=" + artist.UnwrapOr("") + "&token=" + token
  }

  lemma MissingTermSearchedAsEmpty(album: Option<string>, artist: Option<string>, token: string)
    ensures SearchUrl(None, artist, token) == SearchUrl(Some(""), artist, token)
    ensures SearchUrl(album, None, token) == SearchUrl(album, Some(""), token)
  {
  }

  function ResourceUrl(resourceUrl: string, token: string): string
  {
    resourceUrl + "?token=" + token
  }

  /** The first artist with a thumbnail. */
  function FirstThumbnail(artists: seq<Artist>): (r: Option<string>)
    ensures r.None? <==> forall i :: 0 <= i < |artists| ==> artists[i].thumbnailUrl.None?
    ensures r.Some? ==>
      exists i :: 0 <= i < |artists| && artists[i].thumbnailUrl == r
        && forall j :: 0 <= j < i ==> artists[j].thumbnailUrl.None?
    decreases |artists|
  {
    if artists == [] then None
    else if artists[0].thumbnailUrl.Some? then artists[0].thumbnailUrl
    else
      assert forall i :: 0 < i < |artists| ==> artists[i] == artists[1..][i - 1];
      FirstThumbnail(artists[1..])
  }

  /** What one search result contributes: nothing without a resource link, else its first thumbnail. */
  function ResultPhoto(result: SearchResult, token: string, resourceAt: ResourceAt): AppResult<Option<string>>
  {
    match result.resourceUrl
    case None => Ok(None)
    case Some(url) =>
      match resourceAt(ResourceUrl(url, token))
      case Err(e) => Err(e)
      case Ok(resource) => Ok(FirstThumbnail(resource.artists.UnwrapOr([])))
  }

  /** The loop over the search results: the first result that yields a photo or an error decides. */
  function ScanResults(results: seq<SearchResult>, token: string, resourceAt: ResourceAt): (r: AppResult<Option<string>>)
    ensures r == Ok(None) <==> forall i :: 0 <= i < |results| ==> ResultPhoto(results[i], token, resourceAt) == Ok(None)
    ensures r != Ok(None) ==>
      exists i :: 0 <= i < |results| && ResultPhoto(results[i], token, resourceAt) == r
        && forall j :: 0 <= j < i ==> ResultPhoto(results[j], token, resourceAt) == Ok(None)
    decreases |results|
  {
    if results == [] then Ok(None)
    else
      var first := ResultPhoto(results[0], token, resourceAt);
      if first != Ok(None) then first
      else
        assert forall i :: 0 < i < |results| ==> results[i] == results[1..][i - 1];
        ScanResults(results[1..], token, resourceAt)
  }

  /** `DiscogsProvider::find_artist_photo`. */
  function FindArtistPhoto(token: string, query: FindCoverArtQuery, searchAt: SearchAt, resourceAt: ResourceAt): (r: AppResult<Option<string>>)
    ensures searchAt(SearchUrl(query.album, query.artist, token)).Err? ==> r.Err?
    ensures searchAt(SearchUrl(query.album, query.artist, token)).Ok? ==>
      r == ScanResults(searchAt(SearchUrl(query.album, query.artist, token)).value, token, resourceAt)
  {
    match searchAt(SearchUrl(query.album, query.artist, token))
    case Err(e) => Err(e)
    case Ok(results) => ScanResults(results, token, resourceAt)
  }

  function HasResource(result: SearchResult): bool
  {
    result.resourceUrl.Some?
  }

  /** Results without a resource link are skipped: dropping them changes nothing. */
  lemma {:induction false} ResultsWithoutResourceSkipped(results: seq<SearchResult>, token: string, resourceAt: ResourceAt)
    ensures ScanResults(Filter(results, HasResource), token, resourceAt) == ScanResults(results, token, resourceAt)
    decreases |results|
  {
    if results != [] {
      var rest := results[1..];
      ResultsWithoutResourceSkipped(rest, token, resourceAt);
      var kept := Filter(rest, HasResource);
      if HasResource(results[0]) {
        assert Filter(results, HasResource) == [results[0]] + kept;
        assert ([results[0]] + kept)[1..] == kept;
      } else {
        assert Filter(results, HasResource) == kept;
        assert ResultPhoto(results[0], token, resourceAt) == Ok(None);
      }
    }
  }

  /** With no thumbnail behind any result, there is no photo. */
  lemma {:induction false} NoThumbnailNoPhoto(results: seq<SearchResult>, token: string, resourceAt: ResourceAt)
    requires forall i :: 0 <= i < |results| && results[i].resourceUrl.Some? ==>
      var resource := resourceAt(ResourceUrl(results[i].resourceUrl.value, token));
      resource.Ok? && forall a :: a in resource.value.artists.UnwrapOr([]) ==> a.thumbnailUrl.None?
    ensures ScanResults(results, token, resourceAt) == Ok(None)
  {
    forall i | 0 <= i < |results|
      ensures ResultPhoto(results[i], token, resourceAt) == Ok(None)
    {
      if results[i].resourceUrl.Some? {
        var artists := resourceAt(ResourceUrl(results[i].resourceUrl.value, token)).value.artists.UnwrapOr([]);
        assert forall k :: 0 <= k < |artists| ==> artists[k] in artists;
      }
    }
  }
}
