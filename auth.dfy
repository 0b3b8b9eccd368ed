/**
 * Request authentication of the Subsonic API: token authentication
 * (`t` = MD5 of password and salt `s`), the legacy `u`/`p` pair with its
 * optional `enc:` hex encoding, and no authentication at all.
 *
 * MD5 (RFC 1321) and `String::from_utf8_lossy` on non-ASCII bytes are
 * uninterpreted functions; hex decoding is written out.
 */
module Auth {

  import opened Base
  import opened Strings

  const UNAUTHORIZED: nat := 401

  /** The configured authentication. */
  datatype SubsonicAuth = NoAuth | UsernamePassword(username: string, password: string)

  /** `AuthQuery`: the four optional query parameters. */
  datatype AuthQuery = AuthQuery(u: Option<string>, p: Option<string>, t: Option<string>, s: Option<string>)

  /** The hex text of the MD5 digest of a string: the digest's `Debug` format, which is lower-case hex. */
  type Md5Hex = string -> string

  /** `String::from_utf8_lossy` on bytes that are not all ASCII. */
  type Utf8Lossy = seq<Byte> -> string

  // ---- hex --------------------------------------------------------------

  /** The value of one hex digit, either case. */
  function HexValue(c: char): (r: Option<nat>)
    ensures r.Some? ==> r.value < 16
  {
    if '0' <= c <= '9' then Some(c as nat - '0' as nat)
    else if 'a' <= c <= 'f' then Some(c as nat - 'a' as nat + 10)
    else if 'A' <= c <= 'F' then Some(c as nat - 'A' as nat + 10)
    else None
  }

  /** `hex::decode`: pairs of hex digits; an odd length or a non-hex character is an error. */
  function HexDecode(s: string): (r: Option<seq<Byte>>)
    ensures r.Some? ==> |s| == 2 * |r.value|
    decreases |s|
  {
    if |s| % 2 == 1 then None
    else if s == [] then Some([])
    else
      match (HexValue(s[0]), HexValue(s[1]), HexDecode(s[2..]))
      case (Some(hi), Some(lo), Some(rest)) => Some([(hi * 16 + lo) as Byte] + rest)
      case _ => None
  }

  function LowerHexDigit(d: nat): (c: char)
    requires d < 16
    ensures HexValue(c) == Some(d)
  {
    if d < 10 then ('0' as nat + d) as char else ('a' as nat + d - 10) as char
  }

  /** `hex::encode`: two lower-case digits per byte. */
  function HexEncode(b: seq<Byte>): (s: string)
    ensures |s| == 2 * |b|
  {
    if b == [] then [] else [LowerHexDigit(b[0] / 16), LowerHexDigit(b[0] % 16)] + HexEncode(b[1..])
  }

  /** Decoding reverses encoding. */
  lemma {:induction false} HexRoundTrip(b: seq<Byte>)
    ensures HexDecode(HexEncode(b)) == Some(b)
  {
    if b != [] {
      var s := HexEncode(b);
      HexRoundTrip(b[1..]);
      assert s[2..] == HexEncode(b[1..]);
      assert (b[0] / 16) * 16 + b[0] % 16 == b[0];
      assert b == [b[0]] + b[1..];
    }
  }

  /** The characters of bytes that are all ASCII. */
  function AsciiText(b: seq<Byte>): (s: string)
    requires forall i :: 0 <= i < |b| ==> b[i] < 128
    ensures |s| == |b| && forall i :: 0 <= i < |b| ==> s[i] as int == b[i]
  {
    if b == [] then [] else [b[0] as char] + AsciiText(b[1..])
  }

  /** `String::from_utf8_lossy`: ASCII maps to itself; anything else is left to `lossy`. */
  function FromUtf8Lossy(b: seq<Byte>, lossy: Utf8Lossy): string
  {
    if forall i :: 0 <= i < |b| ==> b[i] < 128 then AsciiText(b) else lossy(b)
  }

  // ---- checks -----------------------------------------------------------

  /** `check_user`: the user name plays no part; the token is compared lower-cased. */
  function CheckUser(md5: Md5Hex, username: string, password: string, t: string, s: string): (ok: bool)
  {
    Lower(t) == md5(password + s)
  }

  /** The password of a legacy check, with an `enc:` prefix hex-decoded (undecodable hex gives ""). */
  function LegacyPassword(p: string, lossy: Utf8Lossy): string
  {
    if StartsWith(p, "enc:") then
      match SplitOnce(p, ':')
      case Some((_, encoded)) =>
        FromUtf8Lossy(match HexDecode(encoded) case Some(b) => b case None => [], lossy)
      case None => p
    else p
  }

  /** `check_legacy_user`. */
  function CheckLegacyUser(lossy: Utf8Lossy, username: string, password: string, u: string, p: string): (ok: bool)
    ensures ok <==> username == u && password == LegacyPassword(p, lossy)
  {
    username == u && password == LegacyPassword(p, lossy)
  }

  /**
   * `RequireAuth::from_request_parts`. `query` is the decoded `AuthQuery`,
   * `None` when the query string does not decode.
   */
  function RequireAuth(state: SubsonicAuth, query: Option<AuthQuery>, md5: Md5Hex, lossy: Utf8Lossy): (r: Result<(), nat>)
    ensures r.Err? ==> r.error == UNAUTHORIZED
    ensures state.NoAuth? ==> r.Ok?
    ensures state.UsernamePassword? && query.None? ==> r.Err?
    ensures state.UsernamePassword? && query.Some? && query.value.t.Some? && query.value.s.Some? ==>
      (r.Ok? <==> CheckUser(md5, state.username, state.password, query.value.t.value, query.value.s.value))
    ensures (state.UsernamePassword? && query.Some? && !(query.value.t.Some? && query.value.s.Some?)
             && query.value.u.Some? && query.value.p.Some?) ==>
      (r.Ok? <==> CheckLegacyUser(lossy, state.username, state.password, query.value.u.value, query.value.p.value))
    ensures (state.UsernamePassword? && query.Some? && !(query.value.t.Some? && query.value.s.Some?)
             && !(query.value.u.Some? && query.value.p.Some?)) ==> r.Err?
  {
    match state
    case NoAuth => Ok(())
    case UsernamePassword(username, password) =>
      var isValid :=
        match query
        case None => false
        case Some(q) =>
          match (q.u, q.p, q.t, q.s)
          case (_, _, Some(t), Some(s)) => CheckUser(md5, username, password, t, s)
          case (Some(u), Some(p), _, _) => CheckLegacyUser(lossy, username, password, u, p)
          case _ => false;
      if isValid then Ok(()) else Err(UNAUTHORIZED)
  }

  // ---- properties -------------------------------------------------------

  /** A password behind `enc:` is the lossy text of its hex decoding. */
  lemma {:induction false} LegacyPasswordEncoded(encoded: string, lossy: Utf8Lossy)
    ensures LegacyPassword("enc:" + encoded, lossy)
      == FromUtf8Lossy(match HexDecode(encoded) case Some(b) => b case None => [], lossy)
  {
    var p := "enc:" + encoded;
    assert p[..4] == "enc:";
    assert p == "enc" + [':'] + encoded;
    SplitOnceUnique(p, ':', "enc", encoded);
  }

  /** A legacy password that is the hex encoding of an ASCII password behind `enc:` is accepted. */
  lemma EncodedPasswordAccepted(lossy: Utf8Lossy, username: string, password: seq<Byte>)
    requires forall i :: 0 <= i < |password| ==> password[i] < 128
    ensures CheckLegacyUser(lossy, username, AsciiText(password), username, "enc:" + HexEncode(password))
  {
    LegacyPasswordEncoded(HexEncode(password), lossy);
    HexRoundTrip(password);
  }

  /** Token checking wins over `u`/`p` when both are given. */
  lemma TokenPreferred(username: string, password: string, q: AuthQuery, md5: Md5Hex, lossy: Utf8Lossy)
    requires q.t.Some? && q.s.Some?
    ensures RequireAuth(UsernamePassword(username, password), Some(q), md5, lossy).Ok?
      <==> Lower(q.t.value) == md5(password + q.s.value)
  {
  }

  /** The token is compared case-insensitively. */
  lemma TokenCaseInsensitive(md5: Md5Hex, username: string, password: string, t: string, s: string)
    ensures CheckUser(md5, username, password, Lower(t), s) == CheckUser(md5, username, password, t, s)
  {
    LowerIdempotent(t);
  }

  /**
   * The token case of the module's own tests, given the MD5 digests it
   * relies on: the token is that of `sesame` salted with `c19b2d`.
   */
  lemma CheckUserExample(md5: Md5Hex)
    requires md5("sesame" + "c19b2d") == "26719a1196d2a940705a59634eb18eab"
    requires md5("snuh" + "c19b2d") != "26719a1196d2a940705a59634eb18eab"
    ensures CheckUser(md5, "joe", "sesame", "26719a1196d2a940705a59634eb18eab", "c19b2d")
    ensures !CheckUser(md5, "joe", "snuh", "26719a1196d2a940705a59634eb18eab", "c19b2d")
  {
    LowerOfLowerHex("26719a1196d2a940705a59634eb18eab");
  }

  /** Lower-case hex text is its own lower-casing. */
  lemma LowerOfLowerHex(t: string)
    requires forall i :: 0 <= i < |t| ==> '0' <= t[i] <= '9' || 'a' <= t[i] <= 'f'
    ensures Lower(t) == t
  {
    assert forall i :: 0 <= i < |t| ==> Lower(t)[i] == t[i];
  }

  /** The plain legacy cases of the module's own tests. */
  lemma LegacyPlainExamples(lossy: Utf8Lossy)
    ensures CheckLegacyUser(lossy, "joe", "foo", "joe", "foo")
    ensures !CheckLegacyUser(lossy, "joe", "foo", "joe", "bar")
    ensures !CheckLegacyUser(lossy, "joe", "foo", "joe", "enc")
  {
  }

  /** `enc:666f6f` is hex for `foo`. */
  lemma LegacyEncodedExample(lossy: Utf8Lossy)
    ensures CheckLegacyUser(lossy, "joe", "foo", "joe", "enc:666f6f")
  {
    var foo: seq<Byte> := [0x66, 0x6f, 0x6f];
    assert HexEncode(foo) == "666f6f";
    assert "enc:" + "666f6f" == "enc:666f6f";
    EncodedPasswordAccepted(lossy, "joe", foo);
    assert AsciiText(foo) == "foo";
  }

  /** `enc:` decodes to the empty password. */
  lemma LegacyEmptyHexExample(lossy: Utf8Lossy)
    ensures !CheckLegacyUser(lossy, "joe", "foo", "joe", "enc:")
  {
    LegacyPasswordEncoded("", lossy);
    assert "enc:" + "" == "enc:";
    assert HexDecode("") == Some([]);
    assert FromUtf8Lossy([], lossy) == [];
  }

  /** `enc:randomstuff` is not hex, so it decodes to the empty password. */
  lemma LegacyBadHexExample(lossy: Utf8Lossy)
    ensures !CheckLegacyUser(lossy, "joe", "foo", "joe", "enc:randomstuff")
  {
    LegacyPasswordEncoded("randomstuff", lossy);
    assert "enc:" + "randomstuff" == "enc:randomstuff";
    assert HexDecode("randomstuff") == None;
    assert FromUtf8Lossy([], lossy) == [];
  }
}
