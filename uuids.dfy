/** The event key of a command: its UUID in the hyphenated lower-case form
    (8-4-4-4-12 hexadecimal digits) that the uuid crate prints. */
module Uuids {
  import opened Model

  const HexDigits: string := "0123456789abcdef"

  function HexByte(b: byte): (s: string)
    ensures |s| == 2
  {
    [HexDigits[b as int / 16], HexDigits[b as int % 16]]
  }

  function Hex(bs: seq<byte>): (s: string)
    ensures |s| == 2 * |bs|
  {
    if bs == [] then [] else HexByte(bs[0]) + Hex(bs[1..])
  }

  /** The key of every account-creation and money-transfer outcome event. */
  function Hyphenated(id: Uuid): (s: string)
    ensures |s| == 36
    ensures s[8] == '-' && s[13] == '-' && s[18] == '-' && s[23] == '-'
  {
    Hex(id[..4]) + "-" + Hex(id[4..6]) + "-" + Hex(id[6..8]) + "-" + Hex(id[8..10]) + "-" + Hex(id[10..])
  }

  lemma DigitInjective(i: nat, j: nat)
    requires i < 16 && j < 16 && HexDigits[i] == HexDigits[j]
    ensures i == j
  {
  }

  lemma HexByteInjective(a: byte, b: byte)
    requires HexByte(a) == HexByte(b)
    ensures a == b
  {
    DigitInjective(a as int / 16, b as int / 16);
    DigitInjective(a as int % 16, b as int % 16);
  }

  /** Equal-length byte strings with the same hexadecimal text are equal. */
  lemma {:induction false} HexInjective(a: seq<byte>, b: seq<byte>)
    requires |a| == |b| && Hex(a) == Hex(b)
    ensures a == b
  {
    if a != [] {
      var ha, hb := Hex(a), Hex(b);
      assert ha[..2] == HexByte(a[0]) && hb[..2] == HexByte(b[0]);
      HexByteInjective(a[0], b[0]);
      assert ha[2..] == Hex(a[1..]) && hb[2..] == Hex(b[1..]);
      HexInjective(a[1..], b[1..]);
      assert a == [a[0]] + a[1..] && b == [b[0]] + b[1..];
    }
  }

  /** The five hexadecimal groups of the key, at their positions. */
  lemma HyphenatedGroups(x: Uuid)
    ensures var s := Hyphenated(x);
      s[0..8] == Hex(x[..4]) && s[9..13] == Hex(x[4..6]) && s[14..18] == Hex(x[6..8]) &&
      s[19..23] == Hex(x[8..10]) && s[24..] == Hex(x[10..])
  {
    var s := Hyphenated(x);
    assert s[0..8] == Hex(x[..4]);
    assert s[9..13] == Hex(x[4..6]);
    assert s[14..18] == Hex(x[6..8]);
    assert s[19..23] == Hex(x[8..10]);
    assert s[24..] == Hex(x[10..]);
  }

  /** Distinct commands get distinct event keys. */
  lemma HyphenatedInjective(x: Uuid, y: Uuid)
    requires Hyphenated(x) == Hyphenated(y)
    ensures x == y
  {
    HyphenatedGroups(x);
    HyphenatedGroups(y);
    HexInjective(x[..4], y[..4]);
    HexInjective(x[4..6], y[4..6]);
    HexInjective(x[6..8], y[6..8]);
    HexInjective(x[8..10], y[8..10]);
    HexInjective(x[10..], y[10..]);
    assert x == x[..4] + x[4..6] + x[6..8] + x[8..10] + x[10..];
    assert y == y[..4] + y[4..6] + y[6..8] + y[8..10] + y[10..];
  }
}
