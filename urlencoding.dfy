/**
 * PHP's rawurlencode: every byte outside the unreserved set of section 2.3 of
 * RFC 3986 becomes '%' followed by two upper-case hexadecimal digits.
 * PHP strings are byte strings, so a string here is a sequence of characters below 256.
 */
module UrlEncoding {

  predicate IsByteString(s: string) {
    forall i :: 0 <= i < |s| ==> s[i] as int < 256
  }

  /** ALPHA / DIGIT / "-" / "." / "_" / "~" */
  predicate IsUnreserved(c: char) {
    ('A' <= c <= 'Z') || ('a' <= c <= 'z') || ('0' <= c <= '9') || c == '-' || c == '.' || c == '_' || c == '~'
  }

  const UpperHex: string := "0123456789ABCDEF"

  predicate IsHexDigit(c: char) {
    ('0' <= c <= '9') || ('A' <= c <= 'F') || ('a' <= c <= 'f')
  }

  function HexValue(c: char): (v: nat)
    requires IsHexDigit(c)
    ensures v < 16
  {
    if '0' <= c <= '9' then c as int - '0' as int
    else if 'A' <= c <= 'F' then c as int - 'A' as int + 10
    else c as int - 'a' as int + 10
  }

  lemma HexDigitValue(k: nat)
    requires k < 16
    ensures IsHexDigit(UpperHex[k]) && HexValue(UpperHex[k]) == k
  {
  }

  /** The encoding of one byte. */
  function EncodeByte(c: char): string
    requires c as int < 256
  {
    if IsUnreserved(c) then [c] else ['%', UpperHex[c as int / 16], UpperHex[c as int % 16]]
  }

  /** rawurlencode: the result uses only unreserved characters and '%', and never shrinks. */
  function RawUrlEncode(s: string): (r: string)
    requires IsByteString(s)
    ensures forall i :: 0 <= i < |r| ==> IsUnreserved(r[i]) || r[i] == '%'
    ensures |s| <= |r|
  {
    if s == [] then [] else EncodeByte(s[0]) + RawUrlEncode(s[1..])
  }

  /** rawurldecode: '%' and two hexadecimal digits (either case) become that byte; all else is kept. */
  function RawUrlDecode(t: string): string
    decreases |t|
  {
    if t == [] then []
    else if |t| >= 3 && t[0] == '%' && IsHexDigit(t[1]) && IsHexDigit(t[2]) then
      [(HexValue(t[1]) * 16 + HexValue(t[2])) as char] + RawUrlDecode(t[3..])
    else [t[0]] + RawUrlDecode(t[1..])
  }

  lemma DecodeEncodedByte(c: char, rest: string)
    requires c as int < 256
    ensures RawUrlDecode(EncodeByte(c) + rest) == [c] + RawUrlDecode(rest)
  {
    var t := EncodeByte(c) + rest;
    if IsUnreserved(c) {
      assert t[0] == c && t[1..] == rest;
    } else {
      var hi, lo := c as int / 16, c as int % 16;
      HexDigitValue(hi);
      HexDigitValue(lo);
      assert t[0] == '%' && t[1] == UpperHex[hi] && t[2] == UpperHex[lo] && t[3..] == rest;
      assert (hi * 16 + lo) as char == c;
    }
  }

  /** Decoding undoes encoding: the server reads back exactly the name the client sent. */
  lemma {:induction false} DecodeEncode(s: string)
    requires IsByteString(s)
    ensures RawUrlDecode(RawUrlEncode(s)) == s
  {
    if s != [] {
      DecodeEncodedByte(s[0], RawUrlEncode(s[1..]));
      DecodeEncode(s[1..]);
      assert s == [s[0]] + s[1..];
    }
  }

  /** Encoding changes a string exactly when some byte of it is outside the unreserved set. */
  lemma {:induction false} EncodeIdentity(s: string)
    requires IsByteString(s)
    ensures RawUrlEncode(s) == s <==> forall i :: 0 <= i < |s| ==> IsUnreserved(s[i])
  {
    if s != [] {
      EncodeIdentity(s[1..]);
      assert s == [s[0]] + s[1..];
      if !IsUnreserved(s[0]) {
        assert |RawUrlEncode(s)| == 3 + |RawUrlEncode(s[1..])| > |s|;
      } else if forall i :: 0 <= i < |s[1..]| ==> IsUnreserved(s[1..][i]) {
        assert forall i :: 0 <= i < |s| ==> IsUnreserved(s[i]) by {
          forall i | 0 <= i < |s| ensures IsUnreserved(s[i]) {
            if i > 0 { assert s[i] == s[1..][i - 1]; }
          }
        }
      } else {
        var j :| 0 <= j < |s[1..]| && !IsUnreserved(s[1..][j]);
        assert !IsUnreserved(s[j + 1]);
        assert RawUrlEncode(s)[1..] == RawUrlEncode(s[1..]);
      }
    }
  }
}
