/**
 Bytes, little-endian integers, length-prefixed strings and account ids: what the contracts'
 signed and hashed byte strings are made of.
 */
module Bytes {
  import opened Common

  type Byte = b: int | 0 <= b < 256

  /** A string as a contract holds it. Lengths fit 32 bits, as they do on wasm32. */
  type Text = s: seq<Byte> | |s| < 0x1_0000_0000

  type U64 = n: int | 0 <= n < 0x1_0000_0000_0000_0000

  // ---------------------------------------------------------------- little-endian integers

  function LeBytes(n: nat, width: nat): (r: seq<Byte>)
    ensures |r| == width
  {
    if width == 0 then [] else [n % 256] + LeBytes(n / 256, width - 1)
  }

  function LeValue(b: seq<Byte>): nat {
    if b == [] then 0 else b[0] + 256 * LeValue(b[1..])
  }

  function Pow256(width: nat): nat {
    if width == 0 then 1 else 256 * Pow256(width - 1)
  }

  lemma {:induction false} LeValueOfBytes(n: nat, width: nat)
    requires n < Pow256(width)
    ensures LeValue(LeBytes(n, width)) == n
  {
    if width > 0 {
      LeValueOfBytes(n / 256, width - 1);
      assert LeBytes(n, width)[1..] == LeBytes(n / 256, width - 1);
    }
  }

  lemma {:induction false} LeBytesOfValue(b: seq<Byte>)
    ensures LeValue(b) < Pow256(|b|)
    ensures LeBytes(LeValue(b), |b|) == b
  {
    if b != [] {
      LeBytesOfValue(b[1..]);
      assert LeValue(b) % 256 == b[0] && LeValue(b) / 256 == LeValue(b[1..]);
    }
  }

  lemma Widths()
    ensures Pow256(4) == 0x1_0000_0000 && Pow256(8) == 0x1_0000_0000_0000_0000
  {
    assert Pow256(2) == 65536;
    assert Pow256(4) == 65536 * Pow256(2);
    assert Pow256(6) == 65536 * Pow256(4);
  }

  lemma Assoc(a: seq<Byte>, b: seq<Byte>, c: seq<Byte>)
    ensures (a + b) + c == a + (b + c)
  {
  }

  // ---------------------------------------------------------------- length-prefixed strings

  function TextBytes(s: Text): seq<Byte> {
    LeBytes(|s|, 4) + s
  }

  function ReadText(b: seq<Byte>): Option<(Text, seq<Byte>)> {
    if |b| < 4 then None
    else
      var n := LeValue(b[..4]);
      if n >= 0x1_0000_0000 || |b| < 4 + n then None else Some((b[4..4 + n], b[4 + n..]))
  }

  /** A string written in front of any bytes is read back, leaving those bytes. */
  lemma TextBack(s: Text, tail: seq<Byte>)
    ensures ReadText(TextBytes(s) + tail) == Some((s, tail))
  {
    var b := TextBytes(s) + tail;
    Widths();
    LeValueOfBytes(|s|, 4);
    assert b[..4] == LeBytes(|s|, 4);
    assert b[4..4 + |s|] == s && b[4 + |s|..] == tail;
  }

  lemma TextLayout(b: seq<Byte>)
    requires ReadText(b).Some?
    ensures b == TextBytes(ReadText(b).value.0) + ReadText(b).value.1
  {
    LeBytesOfValue(b[..4]);
    var n := LeValue(b[..4]);
    assert b == b[..4] + b[4..4 + n] + b[4 + n..];
  }

  // ---------------------------------------------------------------- account ids

  predicate IsSeparator(c: Byte) {
    c == 45 || c == 46 || c == 95
  }

  predicate IsLabelByte(c: Byte) {
    97 <= c <= 122 || 48 <= c <= 57
  }

  /** The protocol's rule for account ids: 2 to 64 bytes, separators single and inside. */
  predicate ValidAccountId(s: seq<Byte>) {
    && 2 <= |s| <= 64
    && (forall i | 0 <= i < |s| :: IsLabelByte(s[i]) || IsSeparator(s[i]))
    && IsLabelByte(s[0]) && IsLabelByte(s[|s| - 1])
    && (forall i | 0 <= i < |s| - 1 :: IsLabelByte(s[i]) || IsLabelByte(s[i + 1]))
  }
}
