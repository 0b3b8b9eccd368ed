/**
 * The MusicBrainz provider: a recording search, the (recording, release)
 * candidates it yields ranked by track count and title distance, and the
 * release and cover art read off the best candidates.
 *
 * The search service and the cover-art fetch are inputs; the edit distance
 * is a parameter, since only its use in the ranking matters here.
 */
module MusicBrainz {

  import opened Base
  import opened Strings
  import opened Sequences
  import opened Providers

  const PROVIDER_ID: string := "mb"

  /** Cover URLs on this host are not accepted as art. */
  const COVER_ART_ARCHIVE: string := "http://coverartarchive.org"

  datatype ArtistCredit = ArtistCredit(artistId: string, name: string)

  datatype Genre = Genre(name: string)

  datatype Media = Media(trackCount: U32)

  datatype MbRelease = MbRelease(
    id: string,
    title: string,
    artistCredit: Option<seq<ArtistCredit>>,
    date: Option<Timestamp>,
    media: Option<seq<Media>>)

  datatype Recording = Recording(
    id: string,
    title: string,
    artistCredit: Option<seq<ArtistCredit>>,
    genres: Option<seq<Genre>>,
    releases: Option<seq<MbRelease>>)

  /** A term of the Lucene recording query. */
  datatype QueryTerm = ArtistName(artist: string) | RecordingTitle(title: string) | ReleaseTitle(album: string)

  function Rank(t: QueryTerm): nat
  {
    match t
    case ArtistName(_) => 0
    case RecordingTitle(_) => 1
    case ReleaseTitle(_) => 2
  }

  function Count<T>(o: Option<T>): nat
  {
    if o.Some? then 1 else 0
  }

  /** The terms of the recording query: artist, title and album, each when present. */
  function QueryTerms(album: Option<string>, artist: Option<string>, songTitle: Option<string>): seq<QueryTerm>
  {
    (if artist.Some? then [ArtistName(artist.value)] else [])
    + (if songTitle.Some? then [RecordingTitle(songTitle.value)] else [])
    + (if album.Some? then [ReleaseTitle(album.value)] else [])
  }

  /**
   * The `query_builder` steps of `find_recording_releases`: one term for
   * each of artist, title and album that is present, in that order.
   */
  method BuildQuery(album: Option<string>, artist: Option<string>, songTitle: Option<string>)
    returns (terms: seq<QueryTerm>)
    ensures terms == QueryTerms(album, artist, songTitle)
    ensures |terms| == Count(artist) + Count(songTitle) + Count(album)
    ensures forall a :: ArtistName(a) in terms <==> artist == Some(a)
    ensures forall t :: RecordingTitle(t) in terms <==> songTitle == Some(t)
    ensures forall a :: ReleaseTitle(a) in terms <==> album == Some(a)
    ensures forall i, j :: 0 <= i < j < |terms| ==> Rank(terms[i]) < Rank(terms[j])
  {
    terms := [];
    if artist.Some? {
      terms := terms + [ArtistName(artist.value)];
    }
    assert terms == (if artist.Some? then [ArtistName(artist.value)] else []);
    ghost var first := terms;
    if songTitle.Some? {
      terms := terms + [RecordingTitle(songTitle.value)];
    }
    assert terms == first + (if songTitle.Some? then [RecordingTitle(songTitle.value)] else []);
    ghost var second := terms;
    if album.Some? {
      terms := terms + [ReleaseTitle(album.value)];
    }
    assert terms == second + (if album.Some? then [ReleaseTitle(album.value)] else []);
    QueryTermsShape(album, artist, songTitle);
  }

  /** Each present field gives exactly one term, and the terms come in rank order. */
  lemma QueryTermsShape(album: Option<string>, artist: Option<string>, songTitle: Option<string>)
    ensures var terms := QueryTerms(album, artist, songTitle);
      |terms| == Count(artist) + Count(songTitle) + Count(album)
      && (forall a :: ArtistName(a) in terms <==> artist == Some(a))
      && (forall t :: RecordingTitle(t) in terms <==> songTitle == Some(t))
      && (forall a :: ReleaseTitle(a) in terms <==> album == Some(a))
      && (forall i, j :: 0 <= i < j < |terms| ==> Rank(terms[i]) < Rank(terms[j]))
  {
  }

  /** The search service: the recordings matching the query of these terms, or an error. */
  type RecordingSearch = seq<QueryTerm> -> AppResult<seq<Recording>>

  function ReleasesOf(rec: Recording): seq<MbRelease>
  {
    rec.releases.UnwrapOr([])
  }

  /** One recording paired with each of its releases, in order. */
  function PairsOf(rec: Recording): (r: seq<(Recording, MbRelease)>)
    ensures |r| == |ReleasesOf(rec)|
    ensures forall i :: 0 <= i < |r| ==> r[i] == (rec, ReleasesOf(rec)[i])
  {
    seq(|ReleasesOf(rec)|, i requires 0 <= i < |ReleasesOf(rec)| => (rec, ReleasesOf(rec)[i]))
  }

  /** The `flat_map` over the search results: every (recording, release) pair. */
  function Pairs(recs: seq<Recording>): (r: seq<(Recording, MbRelease)>)
    decreases |recs|
  {
    if recs == [] then [] else PairsOf(recs[0]) + Pairs(recs[1..])
  }

  /** A pair is a candidate exactly when its release belongs to one of the recordings found. */
  lemma {:induction false} PairsMembers(recs: seq<Recording>, p: (Recording, MbRelease))
    ensures p in Pairs(recs) <==> p.0 in recs && p.1 in ReleasesOf(p.0)
    decreases |recs|
  {
    if recs != [] {
      PairsMembers(recs[1..], p);
      assert p in PairsOf(recs[0]) <==> p.0 == recs[0] && p.1 in ReleasesOf(recs[0]) by {
        if p.0 == recs[0] && p.1 in ReleasesOf(recs[0]) {
          var i :| 0 <= i < |ReleasesOf(recs[0])| && ReleasesOf(recs[0])[i] == p.1;
          assert PairsOf(recs[0])[i] == p;
        }
      }
      assert recs == [recs[0]] + recs[1..];
    }
  }

  /** The candidates of earlier recordings come first. */
  lemma {:induction false} PairsConcat(a: seq<Recording>, b: seq<Recording>)
    ensures Pairs(a + b) == Pairs(a) + Pairs(b)
    decreases |a|
  {
    if a == [] {
      assert a + b == b;
    } else {
      assert (a + b)[0] == a[0];
      assert (a + b)[1..] == a[1..] + b;
      PairsConcat(a[1..], b);
    }
  }

  /** The largest track count of the release's media, 0 without media. */
  function MaxTrackCount(media: seq<Media>): (m: nat)
    ensures forall i :: 0 <= i < |media| ==> media[i].trackCount <= m
    ensures media == [] ==> m == 0
    ensures media != [] ==> exists i :: 0 <= i < |media| && media[i].trackCount == m
    decreases |media|
  {
    if media == [] then 0
    else
      var rest := MaxTrackCount(media[1..]);
      assert forall i :: 0 < i < |media| ==> media[i] == media[1..][i - 1];
      if media[0].trackCount >= rest then media[0].trackCount else rest
  }

  function TrackCount(rel: MbRelease): nat
  {
    match rel.media
    case None => 0
    case Some(media) => MaxTrackCount(media)
  }

  /** An edit distance between two titles. */
  type Distance = (string, string) -> nat

  /** The ranking key of a candidate: (track count, distance from the album asked for to the release title). */
  function SortKey(album: Option<string>, distance: Distance, rel: MbRelease): (nat, nat)
  {
    (TrackCount(rel), distance(album.UnwrapOr(""), rel.title))
  }

  /** Tuples compare lexicographically. */
  predicate KeyLe(a: (nat, nat), b: (nat, nat))
  {
    a.0 < b.0 || (a.0 == b.0 && a.1 <= b.1)
  }

  function CandidateLe(album: Option<string>, distance: Distance): ((Recording, MbRelease), (Recording, MbRelease)) -> bool
  {
    (p: (Recording, MbRelease), q: (Recording, MbRelease)) =>
      KeyLe(SortKey(album, distance, p.1), SortKey(album, distance, q.1))
  }

  lemma CandidateLeTotal(album: Option<string>, distance: Distance)
    ensures TotalPreorder(CandidateLe(album, distance))
  {
  }

  /**
   * `find_recording_releases`: the candidates, stably sorted by their key;
   * a failed search gives no candidates rather than an error.
   */
  function FindRecordingReleases(album: Option<string>, artist: Option<string>, songTitle: Option<string>,
                                 search: RecordingSearch, distance: Distance): (r: AppResult<seq<(Recording, MbRelease)>>)
    ensures r.Ok?
    ensures search(QueryTerms(album, artist, songTitle)).Err? ==> r.value == []
    ensures search(QueryTerms(album, artist, songTitle)).Ok? ==>
      multiset(r.value) == multiset(Pairs(search(QueryTerms(album, artist, songTitle)).value))
  {
    match search(QueryTerms(album, artist, songTitle))
    case Err(_) => Ok([])
    case Ok(recs) => Ok(SortBy(Pairs(recs), CandidateLe(album, distance)))
  }

  /** The candidates come out ordered by their key... */
  lemma CandidatesSorted(album: Option<string>, artist: Option<string>, songTitle: Option<string>,
                         search: RecordingSearch, distance: Distance)
    ensures SortedBy(FindRecordingReleases(album, artist, songTitle, search, distance).value, CandidateLe(album, distance))
  {
    CandidateLeTotal(album, distance);
    if search(QueryTerms(album, artist, songTitle)).Ok? {
      SortBySorted(Pairs(search(QueryTerms(album, artist, songTitle)).value), CandidateLe(album, distance));
    }
  }

  /** ...and candidates with equal keys keep the order of the search results. */
  lemma CandidatesStable(album: Option<string>, artist: Option<string>, songTitle: Option<string>,
                         search: RecordingSearch, distance: Distance, y: (Recording, MbRelease))
    requires search(QueryTerms(album, artist, songTitle)).Ok?
    ensures Filter(FindRecordingReleases(album, artist, songTitle, search, distance).value, SameKey(CandidateLe(album, distance), y))
         == Filter(Pairs(search(QueryTerms(album, artist, songTitle)).value), SameKey(CandidateLe(album, distance), y))
  {
    CandidateLeTotal(album, distance);
    SortByStable(Pairs(search(QueryTerms(album, artist, songTitle)).value), CandidateLe(album, distance), y);
  }

  function FirstCredit(credits: Option<seq<ArtistCredit>>): (r: Option<(ProviderUri, string)>)
    ensures r.None? <==> credits.UnwrapOr([]) == []
    ensures r.Some? ==>
      r.value == (FromProvider(PROVIDER_ID, credits.value[0].artistId), credits.value[0].name)
  {
    match First(credits.UnwrapOr([]))
    case None => None
    case Some(c) => Some((FromProvider(PROVIDER_ID, c.artistId), c.name))
  }

  /** The `Release` built from the best candidate. */
  function ToRelease(rec: Recording, rel: MbRelease): (r: Release)
    ensures r.album == Some((FromProvider(PROVIDER_ID, rel.id), rel.title))
    ensures r.song == (FromProvider(PROVIDER_ID, rec.id), rec.title)
    ensures r.artist == FirstCredit(rec.artistCredit)
    ensures r.albumArtist == FirstCredit(rel.artistCredit)
    ensures r.genre.None? <==> rec.genres.UnwrapOr([]) == []
    ensures r.genre.Some? ==> r.genre.value == rec.genres.value[0].name
    ensures r.releaseDate == rel.date
  {
    Release(
      Some((FromProvider(PROVIDER_ID, rel.id), rel.title)),
      FirstCredit(rel.artistCredit),
      FirstCredit(rec.artistCredit),
      (FromProvider(PROVIDER_ID, rec.id), rec.title),
      match First(rec.genres.UnwrapOr([])) case None => None case Some(g) => Some(g.name),
      rel.date)
  }

  /** Every URI in a MusicBrainz release splits back into "mb" and a MusicBrainz id. */
  lemma ReleaseUrisAreMb(rec: Recording, rel: MbRelease)
    ensures SplitOnce(AsStr(ToRelease(rec, rel).song.0), ':') == Some((PROVIDER_ID, rec.id))
    ensures SplitOnce(AsStr(ToRelease(rec, rel).album.value.0), ':') == Some((PROVIDER_ID, rel.id))
    ensures ToRelease(rec, rel).artist.Some? ==>
      SplitOnce(AsStr(ToRelease(rec, rel).artist.value.0), ':') == Some((PROVIDER_ID, rec.artistCredit.value[0].artistId))
    ensures ToRelease(rec, rel).albumArtist.Some? ==>
      SplitOnce(AsStr(ToRelease(rec, rel).albumArtist.value.0), ':') == Some((PROVIDER_ID, rel.artistCredit.value[0].artistId))
  {
    FromProviderSplit(PROVIDER_ID, rec.id);
    FromProviderSplit(PROVIDER_ID, rel.id);
    if rec.artistCredit.UnwrapOr([]) != [] {
      FromProviderSplit(PROVIDER_ID, rec.artistCredit.value[0].artistId);
    }
    if rel.artistCredit.UnwrapOr([]) != [] {
      FromProviderSplit(PROVIDER_ID, rel.artistCredit.value[0].artistId);
    }
  }

  /** `MbProvider::find_release`: the best candidate as a release, `None` without candidates. */
  function FindRelease(query: FindReleaseQuery, search: RecordingSearch, distance: Distance): (r: AppResult<Option<Release>>)
    ensures r.Ok?
    ensures r.value.None? <==> FindRecordingReleases(query.album, Some(query.artist), query.songTitle, search, distance).value == []
    ensures r.value.Some? ==>
      var best := FindRecordingReleases(query.album, Some(query.artist), query.songTitle, search, distance).value[0];
      r.value.value == ToRelease(best.0, best.1)
  {
    var candidates := FindRecordingReleases(query.album, Some(query.artist), query.songTitle, search, distance).value;
    Ok(match First(candidates) case None => None case Some(best) => Some(ToRelease(best.0, best.1)))
  }

  /** `CoverartResponse`: a redirect URL, or a JSON listing. */
  datatype CoverartResponse = CoverUrl(url: string) | CoverJson

  /** The front-cover fetch for a release id. */
  type CoverFetch = string -> Result<CoverartResponse, AppError>

  predicate Usable(response: Result<CoverartResponse, AppError>)
  {
    response.Ok? && response.value.CoverUrl? && !StartsWith(response.value.url, COVER_ART_ARCHIVE)
  }

  /** The loop of `find_cover_art`: the first usable URL, skipping failed fetches. */
  function FirstCoverUrl(candidates: seq<(Recording, MbRelease)>, fetch: CoverFetch): (r: Option<string>)
    ensures r.None? <==> forall i :: 0 <= i < |candidates| ==> !Usable(fetch(candidates[i].1.id))
    ensures r.Some? ==>
      exists i :: 0 <= i < |candidates| && Usable(fetch(candidates[i].1.id))
        && fetch(candidates[i].1.id).value.url == r.value
        && forall j :: 0 <= j < i ==> !Usable(fetch(candidates[j].1.id))
    decreases |candidates|
  {
    if candidates == [] then None
    else if Usable(fetch(candidates[0].1.id)) then Some(fetch(candidates[0].1.id).value.url)
    else
      assert forall i :: 0 < i < |candidates| ==> candidates[i] == candidates[1..][i - 1];
      FirstCoverUrl(candidates[1..], fetch)
  }

  /** `MbProvider::find_cover_art`. */
  function FindCoverArt(query: FindCoverArtQuery, search: RecordingSearch, distance: Distance, fetch: CoverFetch): (r: AppResult<Option<string>>)
    ensures r.Ok?
    ensures r.value.Some? ==> !StartsWith(r.value.value, COVER_ART_ARCHIVE)
  {
    Ok(FirstCoverUrl(FindRecordingReleases(query.album, query.artist, query.songTitle, search, distance).value, fetch))
  }

  /** `MbProvider::find_artist_photo`: MusicBrainz has no artist photos. */
  function FindArtistPhoto(query: FindCoverArtQuery): AppResult<Option<string>>
  {
    Ok(None)
  }
}
