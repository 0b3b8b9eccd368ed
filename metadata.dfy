/**
 * Tag extraction for one audio file: the Vorbis comment header when the
 * container has one, completed from an "Artist - Title" file name.
 *
 * The container parse itself (Ogg framing, the Vorbis identification and
 * comment headers, the sample count) is an input: `Container` says what the
 * parser found, and `DateParser` stands for the RFC 3339 / `%Y-%m-%d` date
 * parse.
 */
module Metadata {

  import opened Base
  import opened Strings
  import opened Paths

  datatype SongMetadata = SongMetadata(
    title: string,
    artist: string,
    album: Option<string>,
    albumArtist: Option<string>,
    date: Option<Timestamp>,
    trackNumber: Option<U32>,
    discNumber: Option<U32>,
    bitRate: Option<U32>,
    duration: Option<Duration>,
    genre: Option<string>,
    contentType: Option<string>,
    suffix: Option<string>)

  /** `SongMetadata::default()`. */
  const DEFAULT_METADATA: SongMetadata :=
    SongMetadata("", "", None, None, None, None, None, None, None, None, None, None)

  const UNKNOWN_TITLE: string := "Unknown"
  const UNKNOWN_ARTIST: string := "Unknown artist"

  /** What the Vorbis headers hold: the comment list, the nominal bitrate, the rounded length. */
  datatype VorbisStream = VorbisStream(
    comments: seq<(string, string)>,
    bitrateNominal: I32,
    durationSeconds: int)

  /** What the container parser reports. */
  datatype Container =
    | Unreadable            // `read_format` failed
    | NoStreams             // readable, but no logical stream
    | OtherFormat           // the first stream is not Vorbis
    | BrokenVorbis          // the seek or the Vorbis header read failed
    | Vorbis(stream: VorbisStream)

  datatype ExtractError = StreamError | ParseIntError

  /** The date parse applied to the `date` comment. */
  type DateParser = string -> Option<Timestamp>

  // ---------------------------------------------------------------------
  // Comment map
  // ---------------------------------------------------------------------

  /** `comment_list.into_iter().collect::<HashMap<_, _>>()`: a later pair overwrites an earlier one. */
  function CommentMap(comments: seq<(string, string)>): map<string, string>
    decreases |comments|
  {
    if comments == [] then map[]
    else
      var last := comments[|comments| - 1];
      CommentMap(comments[..|comments| - 1])[last.0 := last.1]
  }

  /** The position of the last pair with this key, as a reference for the map lookup. */
  function LastKeyIndex(comments: seq<(string, string)>, key: string): (r: Option<nat>)
    ensures r.None? <==> forall i :: 0 <= i < |comments| ==> comments[i].0 != key
    ensures r.Some? ==>
      (r.value < |comments| && comments[r.value].0 == key
       && forall j :: r.value < j < |comments| ==> comments[j].0 != key)
    decreases |comments|
  {
    if comments == [] then None
    else if comments[|comments| - 1].0 == key then Some(|comments| - 1)
    else
      var r := LastKeyIndex(comments[..|comments| - 1], key);
      assert forall i :: 0 <= i < |comments| - 1 ==> comments[..|comments| - 1][i] == comments[i];
      r
  }

  /** Looking a key up in the collected map finds the value of the last pair with that key. */
  lemma {:induction false} CommentMapLookup(comments: seq<(string, string)>, key: string)
    ensures key in CommentMap(comments) <==> LastKeyIndex(comments, key).Some?
    ensures key in CommentMap(comments) ==>
      CommentMap(comments)[key] == comments[LastKeyIndex(comments, key).value].1
    decreases |comments|
  {
    if comments != [] {
      var n := |comments| - 1;
      if comments[n].0 != key {
        var init := comments[..n];
        CommentMapLookup(init, key);
        if LastKeyIndex(init, key).Some? {
          assert init[LastKeyIndex(init, key).value] == comments[LastKeyIndex(init, key).value];
        }
      }
    }
  }

  /** The value of a comment, if the header has one with that key. */
  function Comment(comments: seq<(string, string)>, key: string): Option<string>
  {
    var m := CommentMap(comments);
    if key in m then Some(m[key]) else None
  }

  // ---------------------------------------------------------------------
  // `u32::from_str`
  // ---------------------------------------------------------------------

  predicate IsDigit(c: char)
  {
    '0' <= c <= '9'
  }

  /** The value of a string of decimal digits. */
  function DigitsValue(d: string): nat
    requires forall i :: 0 <= i < |d| ==> IsDigit(d[i])
    decreases |d|
  {
    if d == [] then 0
    else
      assert IsDigit(d[|d| - 1]);
      DigitsValue(d[..|d| - 1]) * 10 + (d[|d| - 1] as int - '0' as int)
  }

  /**
   * Rust's `u32::from_str`: an optional `+`, then at least one ASCII digit,
   * and a value below 2^32.
   */
  function ParseU32(s: string): (r: Option<U32>)
    ensures r.Some? ==> s != [] && s != "+"
    ensures r.Some? ==> forall i :: (if s[0] == '+' then 1 else 0) <= i < |s| ==> IsDigit(s[i])
  {
    var d := if s != [] && s[0] == '+' then s[1..] else s;
    if d == [] || exists i :: 0 <= i < |d| && !IsDigit(d[i]) then None
    else
      var v := DigitsValue(d);
      if v < U32_LIMIT then Some(v) else None
  }

  /** The decimal rendering of a number, without leading zeros. */
  function Decimal(n: nat): (d: string)
    ensures d != [] && forall i :: 0 <= i < |d| ==> IsDigit(d[i])
    ensures n > 0 ==> d[0] != '0'
  {
    if n < 10 then [('0' as int + n) as char]
    else Decimal(n / 10) + [('0' as int + n % 10) as char]
  }

  lemma {:induction false} DecimalValue(n: nat)
    ensures DigitsValue(Decimal(n)) == n
  {
    if n >= 10 {
      var d := Decimal(n);
      assert d[..|d| - 1] == Decimal(n / 10);
      DecimalValue(n / 10);
    }
  }

  /** Every `u32` written in decimal parses back to itself. */
  lemma ParseU32OfDecimal(n: U32)
    ensures ParseU32(Decimal(n)) == Some(n)
  {
    DecimalValue(n);
  }

  /** `.map(|s| s.parse()).transpose()?`: an absent comment is fine, a malformed one is an error. */
  function ParseOptional(v: Option<string>): (r: Result<Option<U32>, ExtractError>)
    ensures v.None? ==> r == Ok(None)
    ensures v.Some? && ParseU32(v.value).Some? ==> r == Ok(ParseU32(v.value))
    ensures v.Some? && ParseU32(v.value).None? ==> r == Err(ParseIntError)
  {
    match v
    case None => Ok(None)
    case Some(s) =>
      match ParseU32(s)
      case None => Err(ParseIntError)
      case Some(n) => Ok(Some(n))
  }

  // ---------------------------------------------------------------------
  // The pieces of `extract_metadata`
  // ---------------------------------------------------------------------

  /** `bitrate_nominal / 1000` on an `i32`, then `as u32`. */
  function BitRate(nominal: I32): (r: U32)
    ensures nominal >= 0 ==> r == nominal / 1000
    ensures -1000 < nominal < 0 ==> r == 0
    ensures nominal <= -1000 ==> r == U32_LIMIT - (-(nominal as int)) / 1000
  {
    AsU32(TruncDiv(nominal, 1000))
  }

  /** The lower-cased extension of the file name. */
  function Suffix(filename: string): (r: Option<string>)
    ensures r.None? <==> Extension(filename).None?
    ensures r.Some? ==> r.value == Lower(Extension(filename).value)
  {
    match Extension(filename)
    case None => None
    case Some(e) => Some(Lower(e))
  }

  /** The only content type the extractor knows. */
  function ContentType(suffix: Option<string>): (r: Option<string>)
    ensures r.Some? <==> suffix == Some("ogg")
    ensures r.Some? ==> r.value == "audio/ogg"
  {
    if suffix == Some("ogg") then Some("audio/ogg") else None
  }

  /**
   * Title and artist read off the file name: the name without its extension,
   * split at the first `-`, both halves trimmed; the artist is on the left.
   */
  function FilenameGuess(filename: string): (r: Option<(string, string)>)
    ensures r.None? <==> '-' !in WithoutExtension(filename)
  {
    match SplitOnce(WithoutExtension(filename), '-')
    case None => None
    case Some(parts) => Some((Trim(parts.1), Trim(parts.0)))
  }

  /** A name `left-right` without an earlier `-` guesses artist `left` and title `right`, trimmed. */
  lemma FilenameGuessOfSplit(filename: string, left: string, right: string)
    requires WithoutExtension(filename) == left + "-" + right && '-' !in left
    ensures FilenameGuess(filename) == Some((Trim(right), Trim(left)))
  {
    SplitOnceUnique(WithoutExtension(filename), '-', left, right);
  }

  /** The metadata read from the Vorbis comment header of a file with this suffix. */
  function VorbisMetadata(suffix: Option<string>, v: VorbisStream, parseDate: DateParser): (r: Result<SongMetadata, ExtractError>)
    ensures r.Err? <==>
      ParseOptional(Comment(v.comments, "tracknumber")).Err?
      || ParseOptional(Comment(v.comments, "discnumber")).Err?
    ensures r.Ok? ==>
      r.value.title == Comment(v.comments, "title").UnwrapOr(UNKNOWN_TITLE)
      && r.value.artist == Comment(v.comments, "artist").UnwrapOr(UNKNOWN_ARTIST)
      && r.value.album == Comment(v.comments, "album")
      && r.value.albumArtist == Comment(v.comments, "albumartist")
      && r.value.genre == Comment(v.comments, "genre")
      && r.value.bitRate == Some(BitRate(v.bitrateNominal))
      && r.value.duration == Some(Seconds(v.durationSeconds))
      && r.value.suffix == suffix
      && r.value.contentType == ContentType(suffix)
  {
    var c := v.comments;
    var date := match Comment(c, "date") case None => None case Some(s) => parseDate(s);
    match ParseOptional(Comment(c, "tracknumber"))
    case Err(e) => Err(e)
    case Ok(track) =>
      match ParseOptional(Comment(c, "discnumber"))
      case Err(e) => Err(e)
      case Ok(disc) =>
        Ok(SongMetadata(
          title := Comment(c, "title").UnwrapOr(UNKNOWN_TITLE),
          artist := Comment(c, "artist").UnwrapOr(UNKNOWN_ARTIST),
          album := Comment(c, "album"),
          albumArtist := Comment(c, "albumartist"),
          date := date,
          trackNumber := track,
          discNumber := disc,
          bitRate := Some(BitRate(v.bitrateNominal)),
          duration := Some(Seconds(v.durationSeconds)),
          genre := Comment(c, "genre"),
          contentType := ContentType(suffix),
          suffix := suffix))
  }

  /**
   * The file-name guess fills in placeholders only: a tag title or artist is
   * kept, and an artist taken from the file name is the album artist too.
   */
  function Merge(m: SongMetadata, guess: Option<(string, string)>): (r: SongMetadata)
    ensures guess.None? ==> r == m
    ensures r.title == (if guess.Some? && m.title == UNKNOWN_TITLE then guess.value.0 else m.title)
    ensures r.artist == (if guess.Some? && m.artist == UNKNOWN_ARTIST then guess.value.1 else m.artist)
    ensures r.albumArtist == (if guess.Some? && m.artist == UNKNOWN_ARTIST then Some(guess.value.1) else m.albumArtist)
    ensures r.(title := m.title, artist := m.artist, albumArtist := m.albumArtist) == m
  {
    match guess
    case None => m
    case Some(g) =>
      var withTitle := if m.title == UNKNOWN_TITLE then m.(title := g.0) else m;
      if m.artist == UNKNOWN_ARTIST then withTitle.(artist := g.1, albumArtist := Some(g.1)) else withTitle
  }

  /** `extract_metadata` once the file name has given its guess and its suffix. */
  function Extract(container: Container, guess: Option<(string, string)>, suffix: Option<string>, parseDate: DateParser): Result<Option<SongMetadata>, ExtractError>
  {
    match container
    case Unreadable => Ok(None)
    case BrokenVorbis => Err(StreamError)
    case Vorbis(v) =>
      (match VorbisMetadata(suffix, v, parseDate)
       case Err(e) => Err(e)
       case Ok(m) => Ok(Some(Merge(m, guess))))
    case _ =>
      match guess
      case None => Ok(None)
      case Some(g) => Ok(Some(DEFAULT_METADATA.(title := g.0, artist := g.1, albumArtist := Some(g.1))))
  }

  /** `extract_metadata(filename, reader)`. */
  function ExtractMetadata(filename: string, container: Container, parseDate: DateParser): Result<Option<SongMetadata>, ExtractError>
  {
    Extract(container, FilenameGuess(filename), Suffix(filename), parseDate)
  }

  // ---------------------------------------------------------------------
  // Properties
  // ---------------------------------------------------------------------

  /** A container the parser cannot read gives no metadata, whatever the file name. */
  lemma UnreadableGivesNone(filename: string, parseDate: DateParser)
    ensures ExtractMetadata(filename, Unreadable, parseDate) == Ok(None)
  {
  }

  /**
   * Without a Vorbis stream the result comes from the file name alone: it is
   * present exactly when there is a guess, and then has the guessed title
   * and artist, the artist as album artist, and nothing else.
   */
  lemma NoVorbisUsesGuess(container: Container, guess: Option<(string, string)>, suffix: Option<string>, parseDate: DateParser)
    requires container.NoStreams? || container.OtherFormat?
    ensures var r := Extract(container, guess, suffix, parseDate);
      r.Ok? && (r.value.Some? <==> guess.Some?)
      && (r.value.Some? ==>
            r.value.value == DEFAULT_METADATA.(title := guess.value.0, artist := guess.value.1, albumArtist := Some(guess.value.1)))
  {
  }

  /**
   * With a Vorbis stream, a malformed track or disc number fails the whole
   * call; otherwise the tags are kept except for the two placeholders, which
   * the guess replaces when there is one.
   */
  lemma VorbisResult(v: VorbisStream, guess: Option<(string, string)>, suffix: Option<string>, parseDate: DateParser)
    ensures var r := Extract(Vorbis(v), guess, suffix, parseDate);
      (r.Err? <==>
        ParseOptional(Comment(v.comments, "tracknumber")).Err?
        || ParseOptional(Comment(v.comments, "discnumber")).Err?)
      && (r.Ok? ==>
            var m := r.value.value;
            var tagTitle := Comment(v.comments, "title");
            var tagArtist := Comment(v.comments, "artist");
            r.value.Some?
            && (tagTitle.Some? && tagTitle.value != UNKNOWN_TITLE ==> m.title == tagTitle.value)
            && (tagArtist.Some? && tagArtist.value != UNKNOWN_ARTIST ==>
                  m.artist == tagArtist.value && m.albumArtist == Comment(v.comments, "albumartist"))
            && (tagTitle.None? && guess.Some? ==> m.title == guess.value.0)
            && (tagArtist.None? && guess.Some? ==> m.artist == guess.value.1 && m.albumArtist == Some(m.artist))
            && m.album == Comment(v.comments, "album")
            && m.suffix == suffix
            && (m.contentType == Some("audio/ogg") <==> m.suffix == Some("ogg"))
            && m.bitRate == Some(BitRate(v.bitrateNominal)))
  {
  }

  /** An empty comment header gives the placeholders and no tags. */
  lemma UntaggedVorbis(suffix: Option<string>, v: VorbisStream, parseDate: DateParser)
    requires v.comments == []
    ensures var r := VorbisMetadata(suffix, v, parseDate);
      r.Ok? && r.value.title == UNKNOWN_TITLE && r.value.artist == UNKNOWN_ARTIST
      && r.value.album.None? && r.value.albumArtist.None? && r.value.date.None?
      && r.value.trackNumber.None? && r.value.discNumber.None? && r.value.genre.None?
  {
    assert CommentMap([]) == map[];
  }

  lemma FooBarFileName()
    ensures FileName("Foo - Bar.ogg") == Some("Foo - Bar.ogg")
  {
    assert '/' !in "Foo - Bar.ogg";
  }

  lemma FooBarExtension()
    ensures Extension("Foo - Bar.ogg") == Some("ogg")
    ensures WithoutExtension("Foo - Bar.ogg") == "Foo - Bar"
  {
    FooBarFileName();
    SplitNameOfDotted("Foo - Bar", "ogg");
    assert "Foo - Bar.ogg" == "Foo - Bar" + "." + "ogg";
  }

  lemma FooBarSplit()
    ensures SplitOnce("Foo - Bar", '-') == Some(("Foo ", " Bar"))
  {
    SplitOnceUnique("Foo - Bar", '-', "Foo ", " Bar");
    assert "Foo - Bar" == "Foo " + "-" + " Bar";
  }

  lemma BarTrim()
    ensures Trim(" Bar") == "Bar"
  {
    TrimPadded(" ", "Bar", "");
    assert " " + "Bar" + "" == " Bar";
  }

  lemma FooTrim()
    ensures Trim("Foo ") == "Foo"
  {
    TrimPadded("", "Foo", " ");
    assert "" + "Foo" + " " == "Foo ";
  }

  lemma FooBarGuess()
    ensures FilenameGuess("Foo - Bar.ogg") == Some(("Bar", "Foo"))
  {
    FooBarExtension();
    FooBarSplit();
    BarTrim();
    FooTrim();
  }

  lemma FooBarSuffix()
    ensures Suffix("Foo - Bar.ogg") == Some("ogg")
  {
    FooBarExtension();
    assert Lower("ogg") == "ogg";
  }

  /** An untagged Vorbis stream takes its title and artist from the guess. */
  lemma UntaggedUsesGuess(v: VorbisStream, title: string, artist: string, suffix: Option<string>, parseDate: DateParser)
    requires v.comments == []
    ensures var r := Extract(Vorbis(v), Some((title, artist)), suffix, parseDate);
      r.Ok? && r.value.Some?
      && r.value.value.title == title && r.value.value.artist == artist
      && r.value.value.albumArtist == Some(artist) && r.value.value.album.None?
      && r.value.value.date.None? && r.value.value.trackNumber.None? && r.value.value.discNumber.None?
      && r.value.value.genre.None? && r.value.value.suffix == suffix
      && r.value.value.contentType == ContentType(suffix)
  {
    UntaggedVorbis(suffix, v, parseDate);
  }

  /** `"Foo - Bar.ogg"` with an untagged Vorbis stream gives title `Bar` and artist `Foo`. */
  lemma UntaggedFooBar(bitrate: I32, seconds: int, parseDate: DateParser)
    ensures var r := ExtractMetadata("Foo - Bar.ogg", Vorbis(VorbisStream([], bitrate, seconds)), parseDate);
      r.Ok? && r.value.Some?
      && r.value.value.title == "Bar" && r.value.value.artist == "Foo"
      && r.value.value.albumArtist == Some("Foo") && r.value.value.album.None?
      && r.value.value.date.None? && r.value.value.trackNumber.None? && r.value.value.discNumber.None?
      && r.value.value.contentType == Some("audio/ogg") && r.value.value.suffix == Some("ogg")
  {
    FooBarGuess();
    FooBarSuffix();
    UntaggedUsesGuess(VorbisStream([], bitrate, seconds), "Bar", "Foo", Some("ogg"), parseDate);
  }
}
