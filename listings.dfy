/**
 * The three list endpoints that answer albums, artists and songs together:
 * `search3`, `getStarred` and `getStarred2`. Each builds one query per
 * kind, and in XML the three lists become one list of items, albums first.
 *
 * The rows the queries return are inputs (`Catalog` does not model the
 * Subsonic row shapes); `A`, `R` and `S` stand for `SubsonicAlbum`,
 * `SubsonicArtist` and `SubsonicSong`.
 */
module Listings {

  import opened Base
  import opened Format

  // ---- queries ----------------------------------------------------------

  /** `GetSubsonicSongsQuery`. */
  datatype SongsQuery = SongsQuery(folderId: Option<Uuid>, starred: bool, songOffset: U32, songCount: U32)

  /** `GetSubsonicArtistsQuery`. */
  datatype ArtistsQuery = ArtistsQuery(artistId: Option<Uuid>, folderId: Option<Uuid>, starred: bool, artistOffset: U32, artistCount: U32)

  /** `GetSubsonicAlbumsQuery`. */
  datatype AlbumsQuery = AlbumsQuery(folderId: Option<Uuid>, starred: bool, offset: U32, size: U32)

  /** `get_subsonic_albums` (folder based) or `get_subsonic_albums_by_id3` (tag based). */
  datatype AlbumSource = FolderAlbums | Id3Albums

  /** The `Default` of each query: 20 rows from offset 0, nothing filtered. */
  const DEFAULT_COUNT: U32 := 20
  const DEFAULT_SONGS_QUERY := SongsQuery(None, false, 0, DEFAULT_COUNT)
  const DEFAULT_ARTISTS_QUERY := ArtistsQuery(None, None, false, 0, DEFAULT_COUNT)
  const DEFAULT_ALBUMS_QUERY := AlbumsQuery(None, false, 0, DEFAULT_COUNT)

  /** The row limit of the starred lists. */
  const STARRED_LIMIT: U32 := 1000

  /** The queries one endpoint runs. */
  datatype Queries = Queries(songs: SongsQuery, artists: ArtistsQuery, albums: AlbumsQuery, albumSource: AlbumSource)

  /** `Search3Params`; `query` is required but unused, so it is not kept. */
  datatype Search3Params = Search3Params(
    artistCount: Option<U32>, artistOffset: Option<U32>,
    albumCount: Option<U32>, albumOffset: Option<U32>,
    songCount: Option<U32>, songOffset: Option<U32>)

  /** The queries of `search3`: each count defaults to 20 and each offset to 0. */
  function Search3Queries(p: Search3Params): (q: Queries)
    ensures q.songs.songCount == (if p.songCount.Some? then p.songCount.value else 20)
    ensures q.songs.songOffset == (if p.songOffset.Some? then p.songOffset.value else 0)
    ensures q.artists.artistCount == (if p.artistCount.Some? then p.artistCount.value else 20)
    ensures q.artists.artistOffset == (if p.artistOffset.Some? then p.artistOffset.value else 0)
    ensures q.albums.size == (if p.albumCount.Some? then p.albumCount.value else 20)
    ensures q.albums.offset == (if p.albumOffset.Some? then p.albumOffset.value else 0)
    ensures !q.songs.starred && !q.artists.starred && !q.albums.starred
    ensures q.songs.folderId.None? && q.artists.folderId.None? && q.artists.artistId.None? && q.albums.folderId.None?
    ensures q.albumSource == Id3Albums
  {
    Queries(
      DEFAULT_SONGS_QUERY.(songOffset := p.songOffset.UnwrapOr(0), songCount := p.songCount.UnwrapOr(DEFAULT_COUNT)),
      DEFAULT_ARTISTS_QUERY.(artistOffset := p.artistOffset.UnwrapOr(0), artistCount := p.artistCount.UnwrapOr(DEFAULT_COUNT)),
      DEFAULT_ALBUMS_QUERY.(offset := p.albumOffset.UnwrapOr(0), size := p.albumCount.UnwrapOr(DEFAULT_COUNT)),
      Id3Albums)
  }

  /** The queries of `getStarred` (folder albums) and `getStarred2` (tag albums). */
  function StarredQueries(albumSource: AlbumSource): (q: Queries)
    ensures q.songs.starred && q.artists.starred && q.albums.starred
    ensures q.songs.songCount == STARRED_LIMIT && q.artists.artistCount == STARRED_LIMIT && q.albums.size == STARRED_LIMIT
    ensures q.songs.songOffset == 0 && q.artists.artistOffset == 0 && q.albums.offset == 0
    ensures q.songs.folderId.None? && q.artists.folderId.None? && q.artists.artistId.None? && q.albums.folderId.None?
    ensures q.albumSource == albumSource
  {
    Queries(
      DEFAULT_SONGS_QUERY.(starred := true, songCount := STARRED_LIMIT),
      DEFAULT_ARTISTS_QUERY.(starred := true, artistCount := STARRED_LIMIT),
      DEFAULT_ALBUMS_QUERY.(starred := true, size := STARRED_LIMIT),
      albumSource)
  }

  /** Search with no parameters runs the default queries. */
  lemma Search3Defaults()
    ensures var q := Search3Queries(Search3Params(None, None, None, None, None, None));
      q.songs == DEFAULT_SONGS_QUERY && q.artists == DEFAULT_ARTISTS_QUERY && q.albums == DEFAULT_ALBUMS_QUERY
  {
  }

  // ---- responses --------------------------------------------------------

  /** `SearchResult3`, `Starred` and `Starred2`, named by their element. */
  datatype Listing<A, R, S> = Listing(element: string, album: seq<A>, artist: seq<R>, song: seq<S>)

  /** `SubsonicItem`. */
  datatype SubsonicItem<A, R, S> = Album(album: A) | Artist(artist: R) | Song(song: S)

  /** `XmlSearchResult3`, `XmlStarredResponse` and `XmlStarred2Response`: one element of items. */
  datatype XmlListing<A, R, S> = XmlListing(element: string, items: seq<SubsonicItem<A, R, S>>)

  const SEARCH_RESULT3: string := "searchResult3"
  const STARRED: string := "starred"
  const STARRED2: string := "starred2"

  function AlbumItems<A, R, S>(al: seq<A>): (r: seq<SubsonicItem<A, R, S>>)
    ensures |r| == |al| && forall i :: 0 <= i < |al| ==> r[i] == Album(al[i])
  {
    seq(|al|, i requires 0 <= i < |al| => Album(al[i]))
  }

  function ArtistItems<A, R, S>(ar: seq<R>): (r: seq<SubsonicItem<A, R, S>>)
    ensures |r| == |ar| && forall i :: 0 <= i < |ar| ==> r[i] == Artist(ar[i])
  {
    seq(|ar|, i requires 0 <= i < |ar| => Artist(ar[i]))
  }

  function SongItems<A, R, S>(so: seq<S>): (r: seq<SubsonicItem<A, R, S>>)
    ensures |r| == |so| && forall i :: 0 <= i < |so| ==> r[i] == Song(so[i])
  {
    seq(|so|, i requires 0 <= i < |so| => Song(so[i]))
  }

  /** The XML items: every album, then every artist, then every song, each list in its order. */
  function Items<A, R, S>(l: Listing<A, R, S>): (r: seq<SubsonicItem<A, R, S>>)
    ensures |r| == |l.album| + |l.artist| + |l.song|
    ensures forall i :: 0 <= i < |l.album| ==> r[i] == Album(l.album[i])
    ensures forall i :: 0 <= i < |l.artist| ==> r[|l.album| + i] == Artist(l.artist[i])
    ensures forall i :: 0 <= i < |l.song| ==> r[|l.album| + |l.artist| + i] == Song(l.song[i])
  {
    AlbumItems(l.album) + ArtistItems(l.artist) + SongItems(l.song)
  }

  /** `ToXml::into_xml` of a listing. */
  function IntoXml<A, R, S>(l: Listing<A, R, S>): (x: XmlListing<A, R, S>)
    ensures x.element == l.element
  {
    XmlListing(l.element, Items(l))
  }

  // ---- reading the items back -------------------------------------------

  function AlbumsOf<A, R, S>(items: seq<SubsonicItem<A, R, S>>): seq<A>
  {
    if items == [] then []
    else (if items[0].Album? then [items[0].album] else []) + AlbumsOf(items[1..])
  }

  function ArtistsOf<A, R, S>(items: seq<SubsonicItem<A, R, S>>): seq<R>
  {
    if items == [] then []
    else (if items[0].Artist? then [items[0].artist] else []) + ArtistsOf(items[1..])
  }

  function SongsOf<A, R, S>(items: seq<SubsonicItem<A, R, S>>): seq<S>
  {
    if items == [] then []
    else (if items[0].Song? then [items[0].song] else []) + SongsOf(items[1..])
  }

  lemma {:induction false} OfConcat<A, R, S>(a: seq<SubsonicItem<A, R, S>>, b: seq<SubsonicItem<A, R, S>>)
    ensures AlbumsOf(a + b) == AlbumsOf(a) + AlbumsOf(b)
    ensures ArtistsOf(a + b) == ArtistsOf(a) + ArtistsOf(b)
    ensures SongsOf(a + b) == SongsOf(a) + SongsOf(b)
  {
    AlbumsOfConcat(a, b);
    ArtistsOfConcat(a, b);
    SongsOfConcat(a, b);
  }

  lemma {:induction false} AlbumsOfConcat<A, R, S>(a: seq<SubsonicItem<A, R, S>>, b: seq<SubsonicItem<A, R, S>>)
    ensures AlbumsOf(a + b) == AlbumsOf(a) + AlbumsOf(b)
  {
    if a == [] {
      assert a + b == b;
    } else {
      assert (a + b)[0] == a[0];
      assert (a + b)[1..] == a[1..] + b;
      AlbumsOfConcat(a[1..], b);
    }
  }

  lemma {:induction false} ArtistsOfConcat<A, R, S>(a: seq<SubsonicItem<A, R, S>>, b: seq<SubsonicItem<A, R, S>>)
    ensures ArtistsOf(a + b) == ArtistsOf(a) + ArtistsOf(b)
  {
    if a == [] {
      assert a + b == b;
    } else {
      assert (a + b)[0] == a[0];
      assert (a + b)[1..] == a[1..] + b;
      ArtistsOfConcat(a[1..], b);
    }
  }

  lemma {:induction false} SongsOfConcat<A, R, S>(a: seq<SubsonicItem<A, R, S>>, b: seq<SubsonicItem<A, R, S>>)
    ensures SongsOf(a + b) == SongsOf(a) + SongsOf(b)
  {
    if a == [] {
      assert a + b == b;
    } else {
      assert (a + b)[0] == a[0];
      assert (a + b)[1..] == a[1..] + b;
      SongsOfConcat(a[1..], b);
    }
  }

  lemma {:induction false} OfAlbumItems<A, R, S>(al: seq<A>)
    ensures AlbumsOf(AlbumItems<A, R, S>(al)) == al
    ensures ArtistsOf(AlbumItems<A, R, S>(al)) == [] && SongsOf(AlbumItems<A, R, S>(al)) == []
  {
    if al != [] {
      assert AlbumItems<A, R, S>(al)[1..] == AlbumItems<A, R, S>(al[1..]);
      OfAlbumItems<A, R, S>(al[1..]);
    }
  }

  lemma {:induction false} OfArtistItems<A, R, S>(ar: seq<R>)
    ensures ArtistsOf(ArtistItems<A, R, S>(ar)) == ar
    ensures AlbumsOf(ArtistItems<A, R, S>(ar)) == [] && SongsOf(ArtistItems<A, R, S>(ar)) == []
  {
    if ar != [] {
      assert ArtistItems<A, R, S>(ar)[1..] == ArtistItems<A, R, S>(ar[1..]);
      OfArtistItems<A, R, S>(ar[1..]);
    }
  }

  lemma {:induction false} OfSongItems<A, R, S>(so: seq<S>)
    ensures SongsOf(SongItems<A, R, S>(so)) == so
    ensures AlbumsOf(SongItems<A, R, S>(so)) == [] && ArtistsOf(SongItems<A, R, S>(so)) == []
  {
    if so != [] {
      assert SongItems<A, R, S>(so)[1..] == SongItems<A, R, S>(so[1..]);
      OfSongItems<A, R, S>(so[1..]);
    }
  }

  /** The XML items lose nothing: each kind reads back as the list it came from. */
  lemma ItemsRoundTrip<A, R, S>(l: Listing<A, R, S>)
    ensures var items := Items(l);
      AlbumsOf(items) == l.album && ArtistsOf(items) == l.artist && SongsOf(items) == l.song
  {
    var a, b, c := AlbumItems<A, R, S>(l.album), ArtistItems<A, R, S>(l.artist), SongItems<A, R, S>(l.song);
    OfConcat(a, b);
    OfConcat(a + b, c);
    OfAlbumItems<A, R, S>(l.album);
    OfArtistItems<A, R, S>(l.artist);
    OfSongItems<A, R, S>(l.song);
  }

  // ---- handlers ---------------------------------------------------------

  /** `into_xml`, as the three `extend` calls on a growing vector. */
  method CollectItems<A, R, S>(l: Listing<A, R, S>) returns (items: seq<SubsonicItem<A, R, S>>)
    ensures items == Items(l)
  {
    items := [];
    for i := 0 to |l.album|
      invariant items == AlbumItems(l.album[..i])
    {
      items := items + [Album(l.album[i])];
    }
    ghost var albums := items;
    for i := 0 to |l.artist|
      invariant items == albums + ArtistItems(l.artist[..i])
    {
      items := items + [Artist(l.artist[i])];
    }
    ghost var albumsArtists := items;
    for i := 0 to |l.song|
      invariant items == albumsArtists + SongItems(l.song[..i])
    {
      items := items + [Song(l.song[i])];
    }
    assert l.album[..|l.album|] == l.album;
    assert l.artist[..|l.artist|] == l.artist;
    assert l.song[..|l.song|] == l.song;
  }

  /**
   * Runs the three queries of `q` and renders the result; `songs`,
   * `artists`, `folderAlbums` and `id3Albums` are the query functions.
   */
  method RenderListing<A, R, S>(format: SubsonicFormat, element: string, q: Queries,
                                songs: SongsQuery -> seq<S>, artists: ArtistsQuery -> seq<R>,
                                folderAlbums: AlbumsQuery -> seq<A>, id3Albums: AlbumsQuery -> seq<A>)
    returns (r: Rendered<Listing<A, R, S>, XmlListing<A, R, S>>)
    ensures r == Render(format, Some(ListingOf(element, q, songs, artists, folderAlbums, id3Albums)), IntoXml)
  {
    var so := songs(q.songs);
    var ar := artists(q.artists);
    var al := if q.albumSource == FolderAlbums then folderAlbums(q.albums) else id3Albums(q.albums);
    var l := Listing(element, al, ar, so);
    match format.contentType {
      case Json =>
        r := JsonResponse(SubsonicResponse(STATUS_OK, SUBSONIC_API_VERSION, SERVER_TYPE, format.serverVersion, Some(l)));
      case Xml =>
        var items := CollectItems(l);
        r := XmlResponse([(CONTENT_TYPE, XML_CONTENT_TYPE)],
                         XmlSubsonicResponse(STATUS_OK, SUBSONIC_API_VERSION, SERVER_TYPE, format.serverVersion,
                                             Some(XmlListing(element, items))));
    }
  }

  /** The listing an endpoint answers: the rows of its three queries. */
  function ListingOf<A, R, S>(element: string, q: Queries,
                              songs: SongsQuery -> seq<S>, artists: ArtistsQuery -> seq<R>,
                              folderAlbums: AlbumsQuery -> seq<A>, id3Albums: AlbumsQuery -> seq<A>): (l: Listing<A, R, S>)
    ensures l.element == element && l.song == songs(q.songs) && l.artist == artists(q.artists)
    ensures l.album == (if q.albumSource == FolderAlbums then folderAlbums(q.albums) else id3Albums(q.albums))
  {
    Listing(element, if q.albumSource == FolderAlbums then folderAlbums(q.albums) else id3Albums(q.albums),
            artists(q.artists), songs(q.songs))
  }

  /** `search3`. */
  method Search3<A, R, S>(format: SubsonicFormat, p: Search3Params,
                          songs: SongsQuery -> seq<S>, artists: ArtistsQuery -> seq<R>,
                          folderAlbums: AlbumsQuery -> seq<A>, id3Albums: AlbumsQuery -> seq<A>)
    returns (r: Rendered<Listing<A, R, S>, XmlListing<A, R, S>>)
    ensures r == Render(format, Some(ListingOf(SEARCH_RESULT3, Search3Queries(p), songs, artists, folderAlbums, id3Albums)), IntoXml)
  {
    r := RenderListing(format, SEARCH_RESULT3, Search3Queries(p), songs, artists, folderAlbums, id3Albums);
  }

  /** `getStarred`: the starred rows, albums from the folder-based query. */
  method GetStarred<A, R, S>(format: SubsonicFormat,
                             songs: SongsQuery -> seq<S>, artists: ArtistsQuery -> seq<R>,
                             folderAlbums: AlbumsQuery -> seq<A>, id3Albums: AlbumsQuery -> seq<A>)
    returns (r: Rendered<Listing<A, R, S>, XmlListing<A, R, S>>)
    ensures r == Render(format, Some(ListingOf(STARRED, StarredQueries(FolderAlbums), songs, artists, folderAlbums, id3Albums)), IntoXml)
  {
    r := RenderListing(format, STARRED, StarredQueries(FolderAlbums), songs, artists, folderAlbums, id3Albums);
  }

  /** `getStarred2`: the starred rows, albums from the tag-based query. */
  method GetStarred2<A, R, S>(format: SubsonicFormat,
                              songs: SongsQuery -> seq<S>, artists: ArtistsQuery -> seq<R>,
                              folderAlbums: AlbumsQuery -> seq<A>, id3Albums: AlbumsQuery -> seq<A>)
    returns (r: Rendered<Listing<A, R, S>, XmlListing<A, R, S>>)
    ensures r == Render(format, Some(ListingOf(STARRED2, StarredQueries(Id3Albums), songs, artists, folderAlbums, id3Albums)), IntoXml)
  {
    r := RenderListing(format, STARRED2, StarredQueries(Id3Albums), songs, artists, folderAlbums, id3Albums);
  }
}
