/** The hex rendering of a digest, as `sha256` in worker/src/handler.ts builds it:
    every byte becomes `("00" + b.toString(16)).slice(-2)` and the pieces are joined. */
module Hex {
  import opened Wrappers

  type byte = b: int | 0 <= b < 256

  /** The lowercase hexadecimal digit of a value below 16. */
  function HexDigit(d: int): (c: char)
    requires 0 <= d < 16
    ensures IsHexDigit(c)
  {
    if d < 10 then ('0' as int + d) as char else ('a' as int + d - 10) as char
  }

  predicate IsHexDigit(c: char) {
    ('0' <= c <= '9') || ('a' <= c <= 'f')
  }

  /** The value of a lowercase hexadecimal digit, -1 for any other character. */
  function DigitValue(c: char): (v: int)
    ensures IsHexDigit(c) ==> 0 <= v < 16 && HexDigit(v) == c
    ensures !IsHexDigit(c) ==> v == -1
  {
    if '0' <= c <= '9' then c as int - '0' as int
    else if 'a' <= c <= 'f' then c as int - 'a' as int + 10
    else -1
  }

  /** The number a string of lowercase hex digits spells, most significant digit first. */
  function HexValue(s: string): nat
    requires forall i | 0 <= i < |s| :: IsHexDigit(s[i])
  {
    if s == [] then 0 else 16 * HexValue(s[..|s| - 1]) + DigitValue(s[|s| - 1])
  }

  /** `Number.prototype.toString(16)` on a natural number: the hex digits that spell n, with no
      leading zero, and "0" for zero. */
  function ToHexString(n: nat): (s: string)
    ensures 1 <= |s|
    ensures n < 16 <==> |s| == 1
    ensures forall i | 0 <= i < |s| :: IsHexDigit(s[i])
    ensures HexValue(s) == n
    ensures |s| > 1 ==> s[0] != '0'
    decreases n
  {
    if n < 16 then
      [HexDigit(n)]
    else
      var high := ToHexString(n / 16);
      var s := high + [HexDigit(n % 16)];
      assert s[..|s| - 1] == high;
      assert high[0] != '0' by {
        if |high| == 1 { assert HexValue(high) == DigitValue(high[0]); }
      }
      s
  }

  /** `String.prototype.slice(-k)` for k > 0: the last k characters, or the whole string when it
      is shorter. (`slice(-0)` would be the whole string; the source only uses k = 2.) */
  function SliceLast(s: string, k: nat): (r: string)
    requires 0 < k
    ensures |r| == if |s| < k then |s| else k
    ensures r == s[|s| - |r|..]
  {
    if |s| < k then s else s[|s| - k..]
  }

  /** One byte as the source renders it: pad with "00" on the left, keep the last two characters.
      The result is the two-digit lowercase form, high nibble first. */
  function ByteHex(b: byte): (r: string)
    ensures r == [HexDigit(b / 16), HexDigit(b % 16)]
  {
    var t := ToHexString(b);
    assert b >= 16 ==> t == ToHexString(b / 16) + [HexDigit(b % 16)] && |ToHexString(b / 16)| == 1;
    SliceLast("00" + t, 2)
  }

  /** `hashArray.map(ByteHex).join("")`. */
  function HexEncode(bytes: seq<byte>): (r: string)
    ensures |r| == 2 * |bytes|
    ensures forall i | 0 <= i < |r| :: IsHexDigit(r[i])
  {
    if bytes == [] then "" else ByteHex(bytes[0]) + HexEncode(bytes[1..])
  }

  /** Decoder of lowercase hex text: the inverse that shows the encoding loses nothing. */
  function HexDecode(s: string): (r: Option<seq<byte>>)
    ensures r.Some? ==> 2 * |r.value| == |s|
    decreases |s|
  {
    if s == [] then Some([])
    else if |s| == 1 then None
    else
      var hi, lo := DigitValue(s[0]), DigitValue(s[1]);
      if hi < 0 || lo < 0 then None
      else match HexDecode(s[2..])
        case None => None
        case Some(rest) => Some([(16 * hi + lo) as byte] + rest)
  }

  /** Each byte's two digits sit at positions 2i and 2i+1 of the encoding. */
  lemma {:induction false} HexEncodeAt(bytes: seq<byte>, i: nat)
    requires i < |bytes|
    ensures HexEncode(bytes)[2 * i] == HexDigit(bytes[i] / 16)
    ensures HexEncode(bytes)[2 * i + 1] == HexDigit(bytes[i] % 16)
  {
    if i > 0 {
      HexEncodeAt(bytes[1..], i - 1);
    }
  }

  lemma DigitValueOfHexDigit(d: int)
    requires 0 <= d < 16
    ensures DigitValue(HexDigit(d)) == d
  {
  }

  /** Decoding the encoding gives the bytes back. */
  lemma {:induction false} HexRoundTrip(bytes: seq<byte>)
    ensures HexDecode(HexEncode(bytes)) == Some(bytes)
  {
    if bytes != [] {
      var b := bytes[0];
      var s := HexEncode(bytes);
      assert s == ByteHex(b) + HexEncode(bytes[1..]);
      assert s[0] == HexDigit(b / 16) && s[1] == HexDigit(b % 16);
      assert s[2..] == HexEncode(bytes[1..]);
      HexRoundTrip(bytes[1..]);
      DigitValueOfHexDigit(b / 16);
      DigitValueOfHexDigit(b % 16);
      assert HexDecode(s) == Some([(16 * (b / 16) + b % 16) as byte] + bytes[1..]);
      assert [b] + bytes[1..] == bytes;
    }
  }

  /** The encoding is injective: distinct digests give distinct hex strings. */
  lemma HexEncodeInjective(a: seq<byte>, b: seq<byte>)
    ensures HexEncode(a) == HexEncode(b) ==> a == b
  {
    HexRoundTrip(a);
    HexRoundTrip(b);
  }
}
