/**
 * `hexdigest()`: a digest's bytes as lowercase hexadecimal text, two
 * characters per byte, with its inverse.
 */
module Hex {

  type Byte = b: int | 0 <= b < 256

  /** The 16 bytes of an MD5 digest. */
  type Md5Digest = s: seq<Byte> | |s| == 16
    witness [0, 0, 0, 0, 0, 0, 0, 0, 0, 0, 0, 0, 0, 0, 0, 0]

  predicate IsHexChar(c: char) {
    '0' <= c <= '9' || 'a' <= c <= 'f'
  }

  predicate IsLowerHex(s: string) {
    forall i :: 0 <= i < |s| ==> IsHexChar(s[i])
  }

  /** The lowercase hexadecimal digit for `k`. */
  function HexChar(k: nat): (c: char)
    requires k < 16
    ensures IsHexChar(c)
  {
    if k < 10 then ('0' as int + k) as char else ('a' as int + (k - 10)) as char
  }

  /** The value of a lowercase hexadecimal digit. */
  function HexCharValue(c: char): (k: nat)
    requires IsHexChar(c)
    ensures k < 16
  {
    if c <= '9' then c as int - '0' as int else c as int - 'a' as int + 10
  }

  lemma HexCharRoundTrip(k: nat)
    requires k < 16
    ensures HexCharValue(HexChar(k)) == k
  {
  }

  function HexDigest(bytes: seq<Byte>): (r: string)
    ensures |r| == 2 * |bytes| && IsLowerHex(r)
    decreases |bytes|
  {
    if bytes == [] then ""
    else [HexChar(bytes[0] / 16), HexChar(bytes[0] % 16)] + HexDigest(bytes[1..])
  }

  /** Reads lowercase hexadecimal text back into bytes, two digits per byte. */
  function Unhex(s: string): (r: seq<Byte>)
    requires |s| % 2 == 0 && IsLowerHex(s)
    decreases |s|
  {
    if s == [] then []
    else [16 * HexCharValue(s[0]) + HexCharValue(s[1])] + Unhex(s[2..])
  }

  /** The hexadecimal text determines the bytes it was made from. */
  lemma {:induction false} UnhexHexDigest(bytes: seq<Byte>)
    ensures Unhex(HexDigest(bytes)) == bytes
    decreases |bytes|
  {
    if bytes != [] {
      var b := bytes[0];
      var s := HexDigest(bytes);
      HexCharRoundTrip(b / 16);
      HexCharRoundTrip(b % 16);
      assert s[2..] == HexDigest(bytes[1..]);
      UnhexHexDigest(bytes[1..]);
      assert bytes == [b] + bytes[1..];
    }
  }
}
