/**
 * `getIndexes` and `getArtists`: entries grouped by the first character of
 * their name into runs of consecutive entries (itertools' `group_by`), one
 * index per run, then the indexes stably sorted by that character.
 */
module Indexes {

  import opened Base
  import opened Strings
  import opened Sequences
  import opened Uuids
  import opened Catalog
  import opened Format
  import opened Listings

  const IGNORED_ARTICLES: string := "The El La Los Las Le Les Os As O A"
  const NOT_FOUND: nat := 404

  /** `IndexArtist`: its id is the folder id's text for `getIndexes`, the artist id for `getArtists`. */
  datatype IndexArtist<I> = IndexArtist(id: I, name: string, albumCount: nat)

  /** `Index`: a one-character name and its entries. */
  datatype Index<I> = Index(name: string, artist: seq<IndexArtist<I>>)

  /** `name.chars().next().unwrap_or_default()`: the first character, `'\0'` for an empty name. */
  function FirstChar(name: string): char
  {
    if name == [] then '\0' else name[0]
  }

  /** The grouping key of an entry. */
  function KeyOf<T>(name: T -> string): T -> char
  {
    t => FirstChar(name(t))
  }

  function MapSeq<T, U>(s: seq<T>, f: T -> U): (r: seq<U>)
    ensures |r| == |s| && forall i :: 0 <= i < |s| ==> r[i] == f(s[i])
  {
    seq(|s|, i requires 0 <= i < |s| => f(s[i]))
  }

  /** `sorted_by_key(|index| index.name.clone())`: by name, ascending. */
  function IndexLe<I>(a: Index<I>, b: Index<I>): bool
  {
    !Less(b.name, a.name)
  }

  lemma IndexLeTotalPreorder<I(!new)>()
    ensures TotalPreorder(IndexLe<I>)
  {
    forall a: Index<I>, b: Index<I>
      ensures IndexLe(a, b) || IndexLe(b, a)
    {
      LessTotal(a.name, b.name);
      LessIrreflexive(a.name);
      if Less(a.name, b.name) && Less(b.name, a.name) {
        LessTransitive(a.name, b.name, a.name);
      }
    }
    forall a: Index<I>, b: Index<I>, c: Index<I> | IndexLe(a, b) && IndexLe(b, c)
      ensures IndexLe(a, c)
    {
      if Less(c.name, a.name) {
        LessTotal(a.name, b.name);
        if Less(a.name, b.name) {
          LessTransitive(c.name, a.name, b.name);
        }
      }
    }
  }

  /** The index of one run: named by the run's character, holding the run's entries. */
  function ToIndex<T, I>(run: seq<T>, name: T -> string, f: T -> IndexArtist<I>): (x: Index<I>)
    requires run != []
  {
    Index([FirstChar(name(run[0]))], MapSeq(run, f))
  }

  /** The indexes before sorting: one per maximal run of equal first characters. */
  function Grouped<T, I>(items: seq<T>, name: T -> string, f: T -> IndexArtist<I>): (r: seq<Index<I>>)
    ensures |r| == |Runs(items, KeyOf(name))|
    ensures forall i :: 0 <= i < |r| ==> r[i] == ToIndex(Runs(items, KeyOf(name))[i], name, f)
  {
    var runs := Runs(items, KeyOf(name));
    seq(|runs|, i requires 0 <= i < |runs| => ToIndex(runs[i], name, f))
  }

  /** The whole pipeline: group, map each run to an index, sort the indexes. */
  function Group<T, I>(items: seq<T>, name: T -> string, f: T -> IndexArtist<I>): seq<Index<I>>
  {
    SortBy(Grouped(items, name, f), IndexLe)
  }

  /** The entries of some indexes, in order. */
  function Entries<I>(xs: seq<Index<I>>): seq<IndexArtist<I>>
  {
    if xs == [] then [] else xs[0].artist + Entries(xs[1..])
  }

  lemma {:induction false} EntriesConcat<I>(a: seq<Index<I>>, b: seq<Index<I>>)
    ensures Entries(a + b) == Entries(a) + Entries(b)
  {
    if a == [] {
      assert a + b == b;
    } else {
      assert (a + b)[0] == a[0] && (a + b)[1..] == a[1..] + b;
      EntriesConcat(a[1..], b);
    }
  }

  lemma {:induction false} EntriesOfRuns<T, I>(runs: seq<seq<T>>, name: T -> string, f: T -> IndexArtist<I>)
    requires forall i :: 0 <= i < |runs| ==> runs[i] != []
    ensures Entries(seq(|runs|, i requires 0 <= i < |runs| => ToIndex(runs[i], name, f))) == MapSeq(Flatten(runs), f)
  {
    var xs := seq(|runs|, i requires 0 <= i < |runs| => ToIndex(runs[i], name, f));
    if runs != [] {
      var tail := seq(|runs[1..]|, i requires 0 <= i < |runs[1..]| => ToIndex(runs[1..][i], name, f));
      assert xs[1..] == tail;
      EntriesOfRuns(runs[1..], name, f);
      assert Flatten(runs) == runs[0] + Flatten(runs[1..]);
      assert MapSeq(Flatten(runs), f) == MapSeq(runs[0], f) + MapSeq(Flatten(runs[1..]), f);
    }
  }

  /** Before sorting, the indexes hold every entry once, in input order. */
  lemma GroupedEntries<T, I>(items: seq<T>, name: T -> string, f: T -> IndexArtist<I>)
    ensures Entries(Grouped(items, name, f)) == MapSeq(items, f)
  {
    var runs := Runs(items, KeyOf(name));
    RunsFlatten(items, KeyOf(name));
    EntriesOfRuns(runs, name, f);
    assert Grouped(items, name, f) == seq(|runs|, i requires 0 <= i < |runs| => ToIndex(runs[i], name, f));
  }

  /**
   * Each index is nonempty and named by the first character of each of its
   * entries (when `f` keeps the name), and neighbouring indexes before sorting
   * have different names: the runs are maximal.
   */
  lemma GroupedUniform<T, I>(items: seq<T>, name: T -> string, f: T -> IndexArtist<I>)
    requires forall t :: f(t).name == name(t)
    ensures var g := Grouped(items, name, f);
      (forall i :: 0 <= i < |g| ==> g[i].artist != [])
      && (forall i, j :: 0 <= i < |g| && 0 <= j < |g[i].artist| ==> g[i].name == [FirstChar(g[i].artist[j].name)])
      && (forall i :: 0 < i < |g| ==> g[i - 1].name != g[i].name)
  {
    var runs := Runs(items, KeyOf(name));
    var g := Grouped(items, name, f);
    RunsUniform(items, KeyOf(name));
    RunsApart(items, KeyOf(name));
    forall i, j | 0 <= i < |g| && 0 <= j < |g[i].artist|
      ensures g[i].name == [FirstChar(g[i].artist[j].name)]
    {
      assert g[i] == ToIndex(runs[i], name, f);
      assert g[i].artist[j] == f(runs[i][j]);
      assert g[i].artist[j].name == name(runs[i][j]);
      assert KeyOf(name)(runs[i][j]) == KeyOf(name)(runs[i][0]);
      assert KeyOf(name)(runs[i][j]) == FirstChar(name(runs[i][j]));
      assert KeyOf(name)(runs[i][0]) == FirstChar(name(runs[i][0]));
    }
    forall i | 0 < i < |g|
      ensures g[i - 1].name != g[i].name
    {
      assert KeyOf(name)(runs[i - 1][0]) != KeyOf(name)(runs[i][0]);
      assert g[i - 1].name[0] == KeyOf(name)(runs[i - 1][0]);
    }
  }

  /** Inserting an index adds its entries. */
  lemma EntriesInsert<I>(x: Index<I>, t: seq<Index<I>>)
    ensures multiset(Entries(Insert(x, t, IndexLe))) == multiset(Entries(t)) + multiset(x.artist)
  {
    var k := InsertionPoint(x, t, IndexLe);
    SplitAt(t, k);
    EntriesSplit(Insert(x, t, IndexLe), t, t[..k], x, t[k..]);
  }

  /** The entries of `lo + [x] + hi` are those of `lo + hi` and of `x`. */
  lemma EntriesSplit<I>(u: seq<Index<I>>, t: seq<Index<I>>, lo: seq<Index<I>>, x: Index<I>, hi: seq<Index<I>>)
    requires u == lo + [x] + hi && t == lo + hi
    ensures multiset(Entries(u)) == multiset(Entries(t)) + multiset(x.artist)
  {
    EntriesConcat(lo + [x], hi);
    EntriesConcat(lo, [x]);
    EntriesConcat(lo, hi);
    assert Entries([x]) == x.artist;
    var a, b, c := Entries(lo), x.artist, Entries(hi);
    assert multiset(a + b + c) == multiset(a) + multiset(b) + multiset(c);
  }

  lemma EntriesSnoc<I>(init: seq<Index<I>>, x: Index<I>)
    ensures multiset(Entries(init + [x])) == multiset(Entries(init)) + multiset(x.artist)
  {
    EntriesConcat(init, [x]);
    assert Entries([x]) == x.artist;
  }

  /** One insertion step of the sort keeps the entries. */
  lemma EntriesSortByStep<I>(xs: seq<Index<I>>, init: seq<Index<I>>, x: Index<I>)
    requires xs == init + [x]
    requires multiset(Entries(SortBy(init, IndexLe))) == multiset(Entries(init))
    ensures multiset(Entries(SortBy(xs, IndexLe))) == multiset(Entries(xs))
  {
    assert xs[..|xs| - 1] == init && xs[|xs| - 1] == x;
    var t := SortBy(init, IndexLe);
    var u := Insert(x, t, IndexLe);
    assert SortBy(xs, IndexLe) == u;
    EntriesInsert(x, t);
    EntriesSnoc(init, x);
    calc {
      multiset(Entries(u));
      multiset(Entries(t)) + multiset(x.artist);
      multiset(Entries(init)) + multiset(x.artist);
      multiset(Entries(xs));
    }
  }

  lemma {:induction false} EntriesSortBy<I>(xs: seq<Index<I>>)
    ensures multiset(Entries(SortBy(xs, IndexLe))) == multiset(Entries(xs))
    decreases |xs|
  {
    if xs != [] {
      var init := xs[..|xs| - 1];
      EntriesSortBy(init);
      EntriesSortByStep(xs, init, xs[|xs| - 1]);
    }
  }

  /** The sorted indexes are ascending by name. */
  lemma GroupSorted<T, I(!new)>(items: seq<T>, name: T -> string, f: T -> IndexArtist<I>)
    ensures SortedBy(Group(items, name, f), IndexLe)
  {
    IndexLeTotalPreorder<I>();
    SortBySorted(Grouped(items, name, f), IndexLe);
  }

  /** Sorting moves whole indexes: every entry is still there exactly once. */
  lemma GroupEntries<T, I>(items: seq<T>, name: T -> string, f: T -> IndexArtist<I>)
    ensures multiset(Group(items, name, f)) == multiset(Grouped(items, name, f))
    ensures multiset(Entries(Group(items, name, f))) == multiset(MapSeq(items, f))
  {
    GroupedEntries(items, name, f);
    EntriesSortBy(Grouped(items, name, f));
  }

  /** Indexes with the same name keep the order their runs had. */
  lemma GroupStable<T, I(!new)>(items: seq<T>, name: T -> string, f: T -> IndexArtist<I>, y: Index<I>)
    ensures Filter(Group(items, name, f), SameKey(IndexLe, y)) == Filter(Grouped(items, name, f), SameKey(IndexLe, y))
  {
    IndexLeTotalPreorder<I>();
    SortByStable(Grouped(items, name, f), IndexLe, y);
  }

  // ---- getIndexes -------------------------------------------------------

  /** `GetIndexesResponse` and `XmlGetIndexesResponse`: the indexes and the ignored articles. */
  datatype GetIndexesResponse = GetIndexesResponse(index: seq<Index<string>>, ignoredArticles: string)
  datatype XmlGetIndexesResponse = XmlGetIndexesResponse(index: seq<Index<string>>, ignoredArticles: string)

  function IndexesIntoXml(r: GetIndexesResponse): (x: XmlGetIndexesResponse)
    ensures x.index == r.index && x.ignoredArticles == r.ignoredArticles
  {
    XmlGetIndexesResponse(r.index, r.ignoredArticles)
  }

  /** `WHERE parent_id = ?` with a music folder id, `WHERE parent_id IS NOT NULL` without. */
  function Listed(musicFolderId: Option<Uuid>): DbFolder -> bool
  {
    (folder: DbFolder) => if musicFolderId.Some? then folder.parentId == musicFolderId else folder.parentId.Some?
  }

  /** The entry of one folder row. */
  function FolderEntry(folder: DbFolder): (a: IndexArtist<string>)
    ensures a.id == UuidText(folder.folderId) && a.name == folder.name && a.albumCount == 1
  {
    IndexArtist(UuidText(folder.folderId), folder.name, 1)
  }

  function EntryName<I>(a: IndexArtist<I>): string
  {
    a.name
  }

  function Same<I>(a: IndexArtist<I>): IndexArtist<I>
  {
    a
  }

  /**
   * `get_indexes`; `rows` is the `folders` table in the order SQLite
   * returns it. No listed folder is a 404.
   */
  function GetIndexes(format: SubsonicFormat, musicFolderId: Option<Uuid>, rows: seq<DbFolder>)
    : (r: Result<Rendered<GetIndexesResponse, XmlGetIndexesResponse>, nat>)
    ensures r.Err? <==> forall i :: 0 <= i < |rows| ==> !Listed(musicFolderId)(rows[i])
    ensures r.Err? ==> r.error == NOT_FOUND
    ensures r.Ok? ==> r == Ok(Render(format, Some(GetIndexesResponse(
      Group(MapSeq(Filter(rows, Listed(musicFolderId)), FolderEntry), EntryName, Same), IGNORED_ARTICLES)), IndexesIntoXml))
  {
    var folders := MapSeq(Filter(rows, Listed(musicFolderId)), FolderEntry);
    FilterMembers(rows, Listed(musicFolderId));
    if folders == [] then
      Err(NOT_FOUND)
    else
      Ok(Render(format, Some(GetIndexesResponse(Group(folders, EntryName, Same), IGNORED_ARTICLES)), IndexesIntoXml))
  }

  // ---- getArtists -------------------------------------------------------

  /** `SubsonicArtist`. */
  datatype SubsonicArtist = SubsonicArtist(id: Uuid, name: string, coverArt: Option<Uuid>, albumCount: U32)

  /** `ArtistsResponse` and `XmlArtistsResponse`. */
  datatype ArtistsResponse = ArtistsResponse(artists: seq<Index<Uuid>>, ignoredArticles: string)
  datatype XmlArtistsResponse = XmlArtistsResponse(index: seq<Index<Uuid>>, ignoredArticles: string)

  function ArtistsIntoXml(r: ArtistsResponse): (x: XmlArtistsResponse)
    ensures x.index == r.artists && x.ignoredArticles == r.ignoredArticles
  {
    XmlArtistsResponse(r.artists, r.ignoredArticles)
  }

  /** The entry of one artist: id, name and album count copied. */
  function ArtistEntry(a: SubsonicArtist): (e: IndexArtist<Uuid>)
    ensures e.id == a.id && e.name == a.name && e.albumCount == a.albumCount
  {
    IndexArtist(a.id, a.name, a.albumCount)
  }

  function ArtistName(a: SubsonicArtist): string
  {
    a.name
  }

  /** `get_artists_impl` on the artists the default artists query returns. */
  function GetArtistsImpl(artists: seq<SubsonicArtist>): (r: ArtistsResponse)
    ensures r.ignoredArticles == IGNORED_ARTICLES
    ensures artists == [] ==> r.artists == []
  {
    ArtistsResponse(Group(artists, ArtistName, ArtistEntry), IGNORED_ARTICLES)
  }

  /** `get_artists`: the default artists query (20 artists from the first), grouped and rendered. */
  function GetArtists(format: SubsonicFormat, query: ArtistsQuery -> seq<SubsonicArtist>)
    : (r: Rendered<ArtistsResponse, XmlArtistsResponse>)
  {
    Render(format, Some(GetArtistsImpl(query(DEFAULT_ARTISTS_QUERY))), ArtistsIntoXml)
  }

  /** Every artist is listed exactly once, in an index named by its first character. */
  lemma ArtistsListedOnce(artists: seq<SubsonicArtist>)
    ensures var index := GetArtistsImpl(artists).artists;
      multiset(Entries(index)) == multiset(MapSeq(artists, ArtistEntry))
      && SortedBy(index, IndexLe)
  {
    GroupEntries(artists, ArtistName, ArtistEntry);
    GroupSorted(artists, ArtistName, ArtistEntry);
  }

  /** Every listed folder is an entry exactly once; the indexes are ascending. */
  lemma FoldersListedOnce(format: SubsonicFormat, musicFolderId: Option<Uuid>, rows: seq<DbFolder>)
    ensures var folders := MapSeq(Filter(rows, Listed(musicFolderId)), FolderEntry);
      var index := Group(folders, EntryName, Same);
      multiset(Entries(index)) == multiset(folders) && SortedBy(index, IndexLe)
  {
    var folders := MapSeq(Filter(rows, Listed(musicFolderId)), FolderEntry);
    GroupEntries(folders, EntryName, Same);
    assert MapSeq(folders, Same) == folders;
    GroupSorted(folders, EntryName, Same);
  }
}
