/**
 * The text form of a UUID, as `uuid::Uuid`'s `Display` writes it and as the
 * importer concatenates it into song keys: 32 lower-case hexadecimal digits
 * in groups of 8-4-4-4-12 separated by `-`.
 */
module Uuids {

  import opened Base

  function HexDigit(d: nat): (c: char)
    requires d < 16
    ensures c != '-'
  {
    if d < 10 then ('0' as int + d) as char else ('a' as int + d - 10) as char
  }

  function Pow16(width: nat): nat
  {
    if width == 0 then 1 else 16 * Pow16(width - 1)
  }

  /** The `width` least significant hexadecimal digits of `n`, most significant first. */
  function Hex(n: nat, width: nat): (s: string)
    ensures |s| == width
    ensures forall i :: 0 <= i < width ==> s[i] != '-'
  {
    if width == 0 then [] else Hex(n / 16, width - 1) + [HexDigit(n % 16)]
  }

  /** Different numbers below 16^width have different digit strings. */
  lemma {:induction false} HexInjective(n: nat, m: nat, width: nat)
    requires n < Pow16(width) && m < Pow16(width)
    requires Hex(n, width) == Hex(m, width)
    ensures n == m
  {
    if width > 0 {
      var s := Hex(n, width);
      assert s[width - 1] == HexDigit(n % 16);
      assert Hex(m, width)[width - 1] == HexDigit(m % 16);
      assert n % 16 == m % 16;
      assert s[..width - 1] == Hex(n / 16, width - 1);
      assert Hex(m, width)[..width - 1] == Hex(m / 16, width - 1);
      HexInjective(n / 16, m / 16, width - 1);
    }
  }

  /** `Uuid`'s `Display`. */
  function UuidText(u: Uuid): (s: string)
    ensures |s| == 36
    ensures s[8] == '-' && s[13] == '-' && s[18] == '-' && s[23] == '-'
  {
    var h := Hex(u, 32);
    h[..8] + "-" + h[8..12] + "-" + h[12..16] + "-" + h[16..20] + "-" + h[20..]
  }

  /** The 32 digits of a UUID text, without the separators. */
  function Digits(s: string): string
    requires |s| == 36
  {
    s[..8] + s[9..13] + s[14..18] + s[19..23] + s[24..]
  }

  lemma DigitsOfText(u: Uuid)
    ensures Digits(UuidText(u)) == Hex(u, 32)
  {
    var h := Hex(u, 32);
    assert h == h[..8] + h[8..12] + h[12..16] + h[16..20] + h[20..];
  }

  lemma {:induction false} Pow16Add(a: nat, b: nat)
    ensures Pow16(a + b) == Pow16(a) * Pow16(b)
  {
    if a > 0 {
      Pow16Add(a - 1, b);
    }
  }

  lemma Pow16Of32()
    ensures Pow16(32) == 0x1_0000_0000_0000_0000_0000_0000_0000_0000
  {
    assert Pow16(4) == 0x1_0000;
    Pow16Add(4, 4);
    Pow16Add(8, 8);
    Pow16Add(16, 16);
  }

  /** Different UUIDs are written differently. */
  lemma UuidTextInjective(u: Uuid, v: Uuid)
    requires UuidText(u) == UuidText(v)
    ensures u == v
  {
    DigitsOfText(u);
    DigitsOfText(v);
    Pow16Of32();
    HexInjective(u, v, 32);
  }
}
