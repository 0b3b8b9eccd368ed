/**
 * `getGenres`: song and album counts per genre, merged into one list
 * ordered by genre. The two counting queries are inputs, one row per
 * `GROUP BY s.genre` group; SQL's grouping itself is not modelled.
 */
module Genres {

  import opened Base
  import opened Strings
  import opened SortedMaps
  import opened Format

  /** `Genre`. */
  datatype Genre = Genre(songCount: U32, albumCount: U32, value: string)

  /** `XmlGenre`: the same three fields, the value as element text. */
  datatype XmlGenre = XmlGenre(songCount: U32, albumCount: U32, value: string)

  /** `GetGenresResponse` and `XmlGetGenresResponse`. */
  datatype GetGenresResponse = GetGenresResponse(genre: seq<Genre>)
  datatype XmlGetGenresResponse = XmlGetGenresResponse(genre: seq<XmlGenre>)

  /** A counting row, with a NULL genre counted under `unknownGenre` (`UNKNOWN_GENRE`). */
  function KeyRows(rows: seq<(Option<string>, U32)>, unknownGenre: string): (r: seq<(string, U32)>)
    ensures |r| == |rows|
    ensures forall i :: 0 <= i < |rows| ==>
      r[i] == (if rows[i].0.Some? then rows[i].0.value else unknownGenre, rows[i].1)
  {
    seq(|rows|, i requires 0 <= i < |rows| => (rows[i].0.UnwrapOr(unknownGenre), rows[i].1))
  }

  /** The genre the merge loop stores for one song-count entry. */
  function MergedGenre(entry: (string, U32), albums: seq<(string, U32)>): Genre
  {
    Genre(entry.1, Get(albums, entry.0).UnwrapOr(0), entry.0)
  }

  /** What the merge loop leaves in `result`: one genre per song-count entry. */
  function MergeSpec(songs: seq<(string, U32)>, albums: seq<(string, U32)>): (r: seq<(string, Genre)>)
    ensures |r| == |songs|
    ensures forall i :: 0 <= i < |songs| ==> r[i] == (songs[i].0, MergedGenre(songs[i], albums))
  {
    seq(|songs|, i requires 0 <= i < |songs| => (songs[i].0, MergedGenre(songs[i], albums)))
  }

  lemma MergeSpecSnoc(songs: seq<(string, U32)>, albums: seq<(string, U32)>, i: nat)
    requires i < |songs|
    ensures MergeSpec(songs[..i + 1], albums) == MergeSpec(songs[..i], albums) + [(songs[i].0, MergedGenre(songs[i], albums))]
  {
  }

  lemma MergeSpecSorted(songs: seq<(string, U32)>, albums: seq<(string, U32)>)
    requires Sorted(songs)
    ensures Sorted(MergeSpec(songs, albums))
  {
  }

  /** One pass of the merge loop on a key above every key so far: `or_insert` inserts, the update replaces. */
  lemma EntryBeyond(result: seq<(string, Genre)>, value: string, inserted: Genre, updated: Genre)
    requires Sorted(result) && Below(result, value)
    ensures Get(result, value).None?
    ensures Get(Put(result, value, inserted), value) == Some(inserted)
    ensures Put(Put(result, value, inserted), value, updated) == result + [(value, updated)]
  {
    forall i | 0 <= i < |result| ensures result[i].0 != value {
      LessIrreflexive(value);
    }
    PutBeyond(result, value, inserted);
    PutAfterLast(result, value, inserted, updated);
  }

  /**
   * The `for (value, song_count) in genre_songs` loop: `entry(..).or_insert`
   * a genre with album count 0, then set its album count to the album
   * count of the same genre, or 0.
   */
  method MergeGenres(songs: seq<(string, U32)>, albums: seq<(string, U32)>) returns (result: seq<(string, Genre)>)
    requires Sorted(songs)
    ensures Sorted(result)
    ensures result == MergeSpec(songs, albums)
  {
    result := [];
    for i := 0 to |songs|
      invariant result == MergeSpec(songs[..i], albums)
    {
      var (value, songCount) := songs[i];
      ghost var before := result;
      MergeSpecSorted(songs[..i], albums);
      assert Below(before, value);
      var albumCount := Get(albums, value).UnwrapOr(0);
      EntryBeyond(before, value, Genre(songCount, 0, value), Genre(songCount, albumCount, value));
      if Get(result, value).None? {
        result := Put(result, value, Genre(songCount, 0, value));
      }
      var e := Get(result, value).value;
      result := Put(result, value, e.(albumCount := albumCount));
      MergeSpecSnoc(songs, albums, i);
    }
    assert songs[..|songs|] == songs;
    MergeSpecSorted(songs, albums);
  }

  /** The genres `getGenres` answers, in `into_values` order. */
  function GenresOf(songRows: seq<(Option<string>, U32)>, albumRows: seq<(Option<string>, U32)>, unknownGenre: string): seq<Genre>
  {
    Values(MergeSpec(Collect(KeyRows(songRows, unknownGenre)), Collect(KeyRows(albumRows, unknownGenre))))
  }

  /** `ToXml for GetGenresResponse`. */
  function GenresIntoXml(r: GetGenresResponse): (x: XmlGetGenresResponse)
    ensures |x.genre| == |r.genre|
    ensures forall i :: 0 <= i < |r.genre| ==>
      x.genre[i].songCount == r.genre[i].songCount && x.genre[i].albumCount == r.genre[i].albumCount
      && x.genre[i].value == r.genre[i].value
  {
    XmlGetGenresResponse(seq(|r.genre|, i requires 0 <= i < |r.genre| =>
      XmlGenre(r.genre[i].songCount, r.genre[i].albumCount, r.genre[i].value)))
  }

  /** `get_genres`: count, key NULL genres, collect both maps, merge, render. */
  method GetGenres(format: SubsonicFormat, songRows: seq<(Option<string>, U32)>, albumRows: seq<(Option<string>, U32)>, unknownGenre: string)
    returns (r: Rendered<GetGenresResponse, XmlGetGenresResponse>)
    ensures r == Render(format, Some(GetGenresResponse(GenresOf(songRows, albumRows, unknownGenre))), GenresIntoXml)
  {
    var genreSongs := Collect(KeyRows(songRows, unknownGenre));
    var genreAlbums := Collect(KeyRows(albumRows, unknownGenre));
    var result := MergeGenres(genreSongs, genreAlbums);
    r := Render(format, Some(GetGenresResponse(Values(result))), GenresIntoXml);
  }

  // ---- properties -------------------------------------------------------

  /** The genres come out strictly ascending by value. */
  lemma GenresAscending(songRows: seq<(Option<string>, U32)>, albumRows: seq<(Option<string>, U32)>, unknownGenre: string)
    ensures var g := GenresOf(songRows, albumRows, unknownGenre);
      forall i, j :: 0 <= i < j < |g| ==> Less(g[i].value, g[j].value)
  {
  }

  /**
   * A genre is listed exactly when some song row has it (a NULL genre as
   * `unknownGenre`); its song count is that of the last such row, and its
   * album count that of the last album row with it, or 0.
   */
  lemma GenresEntries(songRows: seq<(Option<string>, U32)>, albumRows: seq<(Option<string>, U32)>, unknownGenre: string, k: string)
    ensures var g := GenresOf(songRows, albumRows, unknownGenre);
      var songCount := LastValue(KeyRows(songRows, unknownGenre), k);
      var albumCount := LastValue(KeyRows(albumRows, unknownGenre), k);
      (songCount.Some? <==> exists i :: 0 <= i < |g| && g[i].value == k)
      && forall i :: 0 <= i < |g| && g[i].value == k ==>
           songCount.Some? && g[i].songCount == songCount.value && g[i].albumCount == albumCount.UnwrapOr(0)
  {
    var songs := Collect(KeyRows(songRows, unknownGenre));
    var albums := Collect(KeyRows(albumRows, unknownGenre));
    var g := GenresOf(songRows, albumRows, unknownGenre);
    assert |g| == |songs| && forall i :: 0 <= i < |g| ==> g[i] == MergedGenre(songs[i], albums);
    CollectGet(KeyRows(songRows, unknownGenre), k);
    CollectGet(KeyRows(albumRows, unknownGenre), k);
    forall i | 0 <= i < |g| && g[i].value == k
      ensures Get(songs, k) == Some(g[i].songCount) && g[i].albumCount == Get(albums, k).UnwrapOr(0)
    {
      GetSorted(songs, i);
    }
    if Get(songs, k).Some? {
      var i :| 0 <= i < |songs| && songs[i] == (k, Get(songs, k).value);
      assert g[i].value == k;
    }
  }

  /** A genre that only albums have is not listed. */
  lemma AlbumOnlyGenreDropped(songRows: seq<(Option<string>, U32)>, albumRows: seq<(Option<string>, U32)>, unknownGenre: string, k: string)
    requires forall i :: 0 <= i < |songRows| ==> songRows[i].0.UnwrapOr(unknownGenre) != k
    ensures var g := GenresOf(songRows, albumRows, unknownGenre);
      forall i :: 0 <= i < |g| ==> g[i].value != k
  {
    GenresEntries(songRows, albumRows, unknownGenre, k);
    assert LastValue(KeyRows(songRows, unknownGenre), k).None?;
  }
}
