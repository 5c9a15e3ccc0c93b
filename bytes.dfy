/** Byte-level helpers the decoder and the call construction rely on: big-endian
    32-bit words, lowercase hex (what Node's `Buffer.toString('hex')` produces),
    ASCII lower-casing and left padding of strings. */
module Bytes {
  import opened Types

  const Two32: nat := 0x1_0000_0000

  /** The unsigned 32-bit big-endian word stored at `offset`, as `Buffer.readUInt32BE` reads it. */
  function ReadUInt32BE(s: seq<Byte>, offset: nat): (v: nat)
    requires offset + 4 <= |s|
    ensures v < Two32
  {
    ((s[offset] as int * 256 + s[offset + 1]) * 256 + s[offset + 2]) * 256 + s[offset + 3]
  }

  /** The four big-endian bytes of a 32-bit word. */
  function UInt32BE(v: nat): (s: seq<Byte>)
    requires v < Two32
    ensures |s| == 4
  {
    [v / 0x100_0000, v / 0x1_0000 % 0x100, v / 0x100 % 0x100, v % 0x100]
  }

  lemma UInt32RoundTrip(v: nat)
    requires v < Two32
    ensures ReadUInt32BE(UInt32BE(v), 0) == v
  {
    var a, b, c, d := v / 0x100_0000, v / 0x1_0000 % 0x100, v / 0x100 % 0x100, v % 0x100;
    assert v / 0x1_0000 == a * 256 + b;
    assert v / 0x100 == (a * 256 + b) * 256 + c;
  }

  /** The four bytes read are the ones that encode the value read: the reader takes the
      first byte as the most significant and the fourth as the least. */
  lemma ReadUInt32Inverse(s: seq<Byte>, offset: nat)
    requires offset + 4 <= |s|
    ensures UInt32BE(ReadUInt32BE(s, offset)) == s[offset..offset + 4]
  {
    var a, b, c, d: int := s[offset], s[offset + 1], s[offset + 2], s[offset + 3];
    var v := ReadUInt32BE(s, offset);
    assert v == a * 0x100_0000 + (b * 0x1_0000 + c * 0x100 + d);
    assert v == (a * 0x100 + b) * 0x1_0000 + (c * 0x100 + d);
    assert v == ((a * 0x100 + b) * 0x100 + c) * 0x100 + d;
    assert v / 0x100_0000 == a;
    assert v / 0x1_0000 == a * 0x100 + b;
    assert v / 0x100 == (a * 0x100 + b) * 0x100 + c;
  }

  /** The lowercase hex digit of a nibble. */
  function HexDigit(n: nat): (c: char)
    requires n < 16
  {
    if n < 10 then ('0' as int + n) as char else ('a' as int + n - 10) as char
  }

  /** The value of a hex digit of either case, as a hex parser reads it. */
  function DigitValue(c: char): Option<nat> {
    if '0' <= c <= '9' then Some(c as int - '0' as int)
    else if 'a' <= c <= 'f' then Some(c as int - 'a' as int + 10)
    else if 'A' <= c <= 'F' then Some(c as int - 'A' as int + 10)
    else None
  }

  /** Lowercase hex of a byte string, two digits per byte, most significant nibble first. */
  function LowerHex(s: seq<Byte>): (h: string)
    ensures |h| == 2 * |s|
  {
    if s == [] then [] else [HexDigit(s[0] / 16), HexDigit(s[0] % 16)] + LowerHex(s[1..])
  }

  /** Strict hex decoding: an even number of hex digits, nothing else. */
  function ParseHex(h: string): Option<seq<Byte>>
    decreases |h|
  {
    if h == [] then Some([])
    else if |h| == 1 then None
    else match (DigitValue(h[0]), DigitValue(h[1]), ParseHex(h[2..]))
      case (Some(hi), Some(lo), Some(rest)) =>
        if hi < 16 && lo < 16 then Some([hi * 16 + lo] + rest) else None
      case _ => None
  }

  /** Hex encoding loses nothing: decoding the lowercase hex of bytes gives those bytes back. */
  lemma {:induction false} ParseLowerHex(s: seq<Byte>)
    ensures ParseHex(LowerHex(s)) == Some(s)
  {
    if s != [] {
      var h := LowerHex(s);
      assert h[2..] == LowerHex(s[1..]);
      ParseLowerHex(s[1..]);
      assert DigitValue(h[0]) == Some(s[0] / 16);
      assert DigitValue(h[1]) == Some(s[0] % 16);
      assert [s[0]] + s[1..] == s;
    }
  }

  /** Equal lowercase hex means equal bytes. */
  lemma LowerHexInjective(a: seq<Byte>, b: seq<Byte>)
    requires LowerHex(a) == LowerHex(b)
    ensures a == b
  {
    ParseLowerHex(a);
    ParseLowerHex(b);
  }

  lemma {:induction false} LowerHexAppend(a: seq<Byte>, b: seq<Byte>)
    ensures LowerHex(a + b) == LowerHex(a) + LowerHex(b)
  {
    if a != [] {
      assert (a + b)[0] == a[0] && (a + b)[1..] == a[1..] + b;
      LowerHexAppend(a[1..], b);
      var d := [HexDigit(a[0] / 16), HexDigit(a[0] % 16)];
      calc {
        LowerHex(a + b);
        d + LowerHex(a[1..] + b);
        d + (LowerHex(a[1..]) + LowerHex(b));
        (d + LowerHex(a[1..])) + LowerHex(b);
        LowerHex(a) + LowerHex(b);
      }
    } else {
      assert a + b == b;
    }
  }

  /** `n` zero bytes. */
  function Zeros(n: nat): (z: seq<Byte>)
    ensures |z| == n && forall i :: 0 <= i < n ==> z[i] == 0
  {
    seq(n, _ => 0)
  }

  /** `n` copies of a character. */
  function Repeat(c: char, n: nat): (r: string)
    ensures |r| == n
  {
    if n == 0 then [] else [c] + Repeat(c, n - 1)
  }

  /** The hex of zero bytes is all '0' digits. */
  lemma {:induction false} LowerHexOfZeros(n: nat)
    ensures LowerHex(Zeros(n)) == Repeat('0', 2 * n)
  {
    if n > 0 {
      assert Zeros(n)[1..] == Zeros(n - 1);
      LowerHexOfZeros(n - 1);
      assert Repeat('0', 2 * n) == ['0', '0'] + Repeat('0', 2 * (n - 1));
    }
  }

  /** ASCII `toLowerCase` of one character. */
  function ToLowerChar(c: char): char {
    if 'A' <= c <= 'Z' then (c as int - 'A' as int + 'a' as int) as char else c
  }

  /** ASCII `toLowerCase` of a string, character by character. */
  function ToLower(s: string): (r: string)
    ensures |r| == |s|
    ensures forall i :: 0 <= i < |s| ==> r[i] == ToLowerChar(s[i])
    ensures forall i :: 0 <= i < |r| ==> !('A' <= r[i] <= 'Z')
  {
    if s == [] then [] else [ToLowerChar(s[0])] + ToLower(s[1..])
  }

  /** A string with no upper-case letter is its own lower-case form. */
  lemma {:induction false} ToLowerFixed(s: string)
    requires forall i :: 0 <= i < |s| ==> ToLowerChar(s[i]) == s[i]
    ensures ToLower(s) == s
  {
    if s != [] {
      ToLowerFixed(s[1..]);
      assert [s[0]] + s[1..] == s;
    }
  }

  /** Lower-casing twice is lower-casing once. */
  lemma {:induction false} ToLowerIdempotent(s: string)
    ensures ToLower(ToLower(s)) == ToLower(s)
  {
    if s != [] {
      ToLowerIdempotent(s[1..]);
    }
  }

  /** `String.prototype.padStart(width, fill)` with a one-character fill. */
  function PadStart(s: string, width: nat, fill: char): (r: string)
    ensures |r| == if |s| < width then width else |s|
  {
    if |s| < width then Repeat(fill, width - |s|) + s else s
  }

  /** `s.replace(/^0x/, "")`: drop one leading "0x", if any. */
  function StripHexPrefix(s: string): (r: string)
    ensures s == r || s == "0x" + r
    ensures s != r <==> |s| >= 2 && s[..2] == "0x"
  {
    if |s| >= 2 && s[..2] == "0x" then s[2..] else s
  }
}
