/**
 * The hex encoding of the signature digest: each signed Java byte is
 * written with `String.format("%02x", b)`, two lower-case digits of its
 * unsigned value, and the pieces are appended in order to a `StringBuilder`.
 */
module HexEncoding {
  /** A Java `byte`. */
  newtype JavaByte = b: int | -128 <= b < 128

  /** What `%x` prints for a byte: negative values count from 256. */
  function Unsigned(b: JavaByte): (r: nat)
    ensures r < 256 && (r == b as int || r == b as int + 256)
  {
    if b < 0 then b as int + 256 else b as int
  }

  /** The byte whose unsigned value is `u`. */
  function FromUnsigned(u: nat): (b: JavaByte)
    requires u < 256
    ensures Unsigned(b) == u
  {
    if u < 128 then u as JavaByte else (u - 256) as JavaByte
  }

  predicate IsHexDigit(c: char)
  {
    '0' <= c <= '9' || 'a' <= c <= 'f'
  }

  function HexDigit(n: nat): (c: char)
    requires n < 16
    ensures IsHexDigit(c)
  {
    if n < 10 then ('0' as int + n) as char else ('a' as int + n - 10) as char
  }

  function DigitValue(c: char): (n: nat)
    requires IsHexDigit(c)
    ensures n < 16 && HexDigit(n) == c
  {
    if c <= '9' then c as int - '0' as int else c as int - 'a' as int + 10
  }

  /** `String.format("%02x", b)`: exactly two digits, high nibble first. */
  function HexByte(b: JavaByte): (r: string)
    ensures |r| == 2 && IsHexDigit(r[0]) && IsHexDigit(r[1])
    ensures DigitValue(r[0]) * 16 + DigitValue(r[1]) == Unsigned(b)
  {
    [HexDigit(Unsigned(b) / 16), HexDigit(Unsigned(b) % 16)]
  }

  /** The digest, byte by byte in order, as lower-case hex. */
  function Hex(digest: seq<JavaByte>): (r: string)
    ensures |r| == 2 * |digest|
    ensures forall i :: 0 <= i < |r| ==> IsHexDigit(r[i])
  {
    if digest == [] then "" else Hex(digest[..|digest| - 1]) + HexByte(digest[|digest| - 1])
  }

  /** The loop of `hmacSha256Hex`: append each byte's two digits to the builder. */
  method HexOf(digest: seq<JavaByte>) returns (hex: string)
    ensures hex == Hex(digest)
  {
    hex := "";
    var i := 0;
    while i < |digest|
      invariant 0 <= i <= |digest|
      invariant hex == Hex(digest[..i])
    {
      assert digest[..i + 1][..i] == digest[..i];
      hex := hex + HexByte(digest[i]);
      i := i + 1;
    }
    assert digest[..|digest|] == digest;
  }

  /** Reading hex back: two digits per byte. */
  function Unhex(h: string): (r: seq<JavaByte>)
    requires |h| % 2 == 0 && forall i :: 0 <= i < |h| ==> IsHexDigit(h[i])
    ensures |r| == |h| / 2
  {
    if h == [] then []
    else
      var n := |h|;
      Unhex(h[..n - 2]) + [FromUnsigned(DigitValue(h[n - 2]) * 16 + DigitValue(h[n - 1]))]
  }

  /** Hex loses nothing: reading it back gives the digest. */
  lemma {:induction false} UnhexHex(digest: seq<JavaByte>)
    ensures Unhex(Hex(digest)) == digest
  {
    if digest != [] {
      var front, last := digest[..|digest| - 1], digest[|digest| - 1];
      UnhexHex(front);
      UnhexHexSnoc(front, last);
      FrontAndLast(digest);
    }
  }

  /** One more byte: if the hex of `front` reads back, so does the hex of `front` followed by `last`. */
  lemma UnhexHexSnoc(front: seq<JavaByte>, last: JavaByte)
    requires Unhex(Hex(front)) == front
    ensures Unhex(Hex(front + [last])) == front + [last]
  {
    var digest := front + [last];
    assert digest[..|digest| - 1] == front;
    assert Hex(digest) == Hex(front) + HexByte(last);
    UnhexSnoc(Hex(front), HexByte(last));
    HexByteReadsBack(last);
  }

  /** Reading `h` followed by two more digits: the bytes of `h`, then the byte of those two digits. */
  lemma UnhexSnoc(h: string, pair: string)
    requires |h| % 2 == 0 && forall i :: 0 <= i < |h| ==> IsHexDigit(h[i])
    requires |pair| == 2 && IsHexDigit(pair[0]) && IsHexDigit(pair[1])
    ensures forall i :: 0 <= i < |h + pair| ==> IsHexDigit((h + pair)[i])
    ensures Unhex(h + pair) == Unhex(h) + [FromUnsigned(DigitValue(pair[0]) * 16 + DigitValue(pair[1]))]
  {
    var hp := h + pair;
    assert hp[..|hp| - 2] == h;
    assert hp[|hp| - 2] == pair[0] && hp[|hp| - 1] == pair[1];
  }

  /** The two digits of one byte read back as that byte. */
  lemma HexByteReadsBack(b: JavaByte)
    ensures FromUnsigned(DigitValue(HexByte(b)[0]) * 16 + DigitValue(HexByte(b)[1])) == b
  {
    assert FromUnsigned(Unsigned(b)) == b;
  }

  /** A non-empty sequence is its front followed by its last element. */
  lemma FrontAndLast<T>(s: seq<T>)
    requires s != []
    ensures s[..|s| - 1] + [s[|s| - 1]] == s
  {
  }

  /** Two digests with the same hex are the same digest, so comparing hex strings compares digests. */
  lemma HexIsInjective(a: seq<JavaByte>, b: seq<JavaByte>)
    requires Hex(a) == Hex(b)
    ensures a == b
  {
    UnhexHex(a);
    UnhexHex(b);
  }
}
