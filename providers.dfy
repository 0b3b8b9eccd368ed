/**
 * The metadata providers' shared vocabulary: provider-qualified URIs, the
 * release a provider reports, the queries, and the provider list that asks
 * each provider in turn and keeps the first answer.
 *
 * A provider's answer to a query is an input: `ask(p)` is what provider `p`
 * returns for the query at hand.
 */
module Providers {

  import opened Base
  import opened Strings

  /** `ProviderUri`: a provider's name and that provider's own id, joined by a colon. */
  datatype ProviderUri = ProviderUri(text: string)

  /** `ProviderUri::from_provider`. */
  function FromProvider(provider: string, uri: string): (r: ProviderUri)
    ensures |AsStr(r)| == |provider| + 1 + |uri|
    ensures StartsWith(AsStr(r), provider + ":")
    ensures AsStr(r)[|provider| + 1..] == uri
  {
    ProviderUri(provider + ":" + uri)
  }

  /** `ProviderUri::as_str`: the wrapped text. */
  function AsStr(u: ProviderUri): string
  {
    u.text
  }

  /** `ToString for ProviderUri`: a copy of the wrapped text. */
  function ToString(u: ProviderUri): (s: string)
    ensures s == AsStr(u)
  {
    u.text
  }

  /** A provider name without a colon is recovered, with the id, by splitting at the first colon. */
  lemma FromProviderSplit(provider: string, uri: string)
    requires ':' !in provider
    ensures SplitOnce(AsStr(FromProvider(provider, uri)), ':') == Some((provider, uri))
  {
    SplitOnceUnique(AsStr(FromProvider(provider, uri)), ':', provider, uri);
  }

  /** Under one provider name, different ids give different URIs. */
  lemma FromProviderInjective(provider: string, u1: string, u2: string)
    requires FromProvider(provider, u1) == FromProvider(provider, u2)
    ensures u1 == u2
  {
    assert AsStr(FromProvider(provider, u1))[|provider| + 1..] == u1;
  }

  /** Different colon-free provider names never produce the same URI. */
  lemma ProvidersApart(p1: string, u1: string, p2: string, u2: string)
    requires ':' !in p1 && ':' !in p2 && p1 != p2
    ensures FromProvider(p1, u1) != FromProvider(p2, u2)
  {
    FromProviderSplit(p1, u1);
    FromProviderSplit(p2, u2);
  }

  /** `Release`: a song is always present; album, artists, genre and date may be missing. */
  datatype Release = Release(
    album: Option<(ProviderUri, string)>,
    albumArtist: Option<(ProviderUri, string)>,
    artist: Option<(ProviderUri, string)>,
    song: (ProviderUri, string),
    genre: Option<string>,
    releaseDate: Option<Timestamp>)

  datatype FindReleaseQuery = FindReleaseQuery(album: Option<string>, artist: string, songTitle: Option<string>)

  datatype FindCoverArtQuery = FindCoverArtQuery(album: Option<string>, artist: Option<string>, songTitle: Option<string>)

  /** The providers an `InfoProviderList` can hold. */
  datatype Provider = MbProvider | DiscogsProvider(token: string)

  /** `InfoProviderList::new`: MusicBrainz first, then Discogs when a token is configured. */
  function NewProviderList(discogsToken: Option<string>): (r: seq<Provider>)
    ensures 1 <= |r| <= 2 && r[0] == MbProvider
    ensures |r| == 2 <==> discogsToken.Some?
    ensures discogsToken.Some? ==> r[1] == DiscogsProvider(discogsToken.value)
  {
    [MbProvider] + (if discogsToken.Some? then [DiscogsProvider(discogsToken.value)] else [])
  }

  /**
   * The `for provider in &self.providers` loop of every `find_*`: the first
   * `Some` wins, an error ends the search, and `Ok(None)` when nobody knew.
   */
  function FirstHit<T>(providers: seq<Provider>, ask: Provider -> AppResult<Option<T>>): (r: AppResult<Option<T>>)
    ensures r == Ok(None) <==> forall i :: 0 <= i < |providers| ==> ask(providers[i]) == Ok(None)
    ensures r != Ok(None) ==>
      exists i :: 0 <= i < |providers| && ask(providers[i]) == r
        && forall j :: 0 <= j < i ==> ask(providers[j]) == Ok(None)
    decreases |providers|
  {
    if providers == [] then Ok(None)
    else
      var answer := ask(providers[0]);
      if answer != Ok(None) then answer
      else
        var rest := FirstHit(providers[1..], ask);
        assert forall i :: 0 < i < |providers| ==> providers[i] == providers[1..][i - 1];
        rest
  }

  /**
   * Once a provider has answered (with a value or an error), the providers
   * after it are not consulted: changing their answers changes nothing.
   */
  lemma {:induction false} FirstHitStops<T>(providers: seq<Provider>, ask: Provider -> AppResult<Option<T>>,
                                            other: Provider -> AppResult<Option<T>>, i: nat)
    requires i < |providers| && ask(providers[i]) != Ok(None)
    requires forall j :: 0 <= j < i ==> ask(providers[j]) == Ok(None)
    requires forall j :: 0 <= j <= i ==> other(providers[j]) == ask(providers[j])
    ensures FirstHit(providers, other) == FirstHit(providers, ask) == ask(providers[i])
    decreases i
  {
    if i > 0 {
      FirstHitStops(providers[1..], ask, other, i - 1);
    }
  }
}
