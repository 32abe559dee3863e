/**
 * A concrete percent-encoder standing in for `urlencoding::encode`, which
 * the handlers otherwise take as a parameter. Every character is written
 * as its UTF-8 bytes; each byte outside the unreserved set of section 2.3
 * of RFC 3986 (ASCII letters, digits, `-`, `.`, `_`, `~`) becomes `%`
 * followed by two upper-case hexadecimal digits (section 2.1 of RFC 3986).
 */
module UrlEncoding {

  predicate IsUnreserved(c: char) {
    ('A' <= c <= 'Z') || ('a' <= c <= 'z') || ('0' <= c <= '9')
    || c == '-' || c == '.' || c == '_' || c == '~'
  }

  predicate AllUnreserved(s: string) {
    forall i :: 0 <= i < |s| ==> IsUnreserved(s[i])
  }

  /** The UTF-8 encoding of one Unicode scalar value. */
  function Utf8(c: char): (bytes: seq<nat>)
    ensures 1 <= |bytes| <= 4
    ensures forall i :: 0 <= i < |bytes| ==> bytes[i] < 256
    ensures c as int < 0x80 ==> bytes == [c as int]
  {
    var n := c as int;
    if n < 0x80 then [n]
    else if n < 0x800 then [0xC0 + n / 0x40, 0x80 + n % 0x40]
    else if n < 0x10000 then [0xE0 + n / 0x1000, 0x80 + (n / 0x40) % 0x40, 0x80 + n % 0x40]
    else [0xF0 + n / 0x40000, 0x80 + (n / 0x1000) % 0x40, 0x80 + (n / 0x40) % 0x40, 0x80 + n % 0x40]
  }

  function HexDigit(n: nat): (c: char)
    requires n < 16
    ensures IsUnreserved(c)
  {
    if n < 10 then ('0' as int + n) as char else ('A' as int + n - 10) as char
  }

  /** `%XX` for each byte. */
  function PercentBytes(bytes: seq<nat>): (r: string)
    requires forall i :: 0 <= i < |bytes| ==> bytes[i] < 256
    ensures |r| == 3 * |bytes|
    ensures forall i :: 0 <= i < |r| ==> r[i] == '%' || IsUnreserved(r[i])
  {
    if bytes == [] then []
    else ['%', HexDigit(bytes[0] / 16), HexDigit(bytes[0] % 16)] + PercentBytes(bytes[1..])
  }

  function EncodeChar(c: char): (r: string)
    ensures IsUnreserved(c) ==> r == [c]
    ensures !IsUnreserved(c) ==> r != [] && r[0] == '%'
    ensures forall i :: 0 <= i < |r| ==> r[i] == '%' || IsUnreserved(r[i])
  {
    if IsUnreserved(c) then [c] else PercentBytes(Utf8(c))
  }

  /** Percent-encodes a whole string, character by character. */
  function PercentEncode(s: string): (r: string)
    ensures |r| >= |s|
    ensures forall i :: 0 <= i < |r| ==> r[i] == '%' || IsUnreserved(r[i])
  {
    if s == [] then [] else EncodeChar(s[0]) + PercentEncode(s[1..])
  }

  /** Encoding distributes over concatenation. */
  lemma {:induction false} EncodeAppend(a: string, b: string)
    ensures PercentEncode(a + b) == PercentEncode(a) + PercentEncode(b)
  {
    if a == [] {
      assert a + b == b;
    } else {
      assert (a + b)[1..] == a[1..] + b;
      EncodeAppend(a[1..], b);
    }
  }

  /** Text made only of unreserved characters passes through unchanged. */
  lemma {:induction false} EncodeUnreserved(s: string)
    requires AllUnreserved(s)
    ensures PercentEncode(s) == s
  {
    if s != [] {
      EncodeUnreserved(s[1..]);
    }
  }

  lemma EncodeSpace()
    ensures PercentEncode(" ") == "%20"
  {
  }

  lemma EncodeBang()
    ensures PercentEncode("!") == "%21"
  {
  }

  /** A space between two pieces becomes `%20`. */
  lemma EncodeSpaceJoin(a: string, b: string)
    ensures PercentEncode(a + " " + b) == PercentEncode(a) + "%20" + PercentEncode(b)
  {
    EncodeAppend(a + " ", b);
    EncodeAppend(a, " ");
    EncodeSpace();
  }

  /** A leading `!` becomes `%21`. */
  lemma EncodeAfterBang(s: string)
    ensures PercentEncode("!" + s) == "%21" + PercentEncode(s)
  {
    EncodeAppend("!", s);
    EncodeBang();
  }

  /** Two unreserved words joined by a space encode to the words joined by `%20`. */
  lemma EncodeWords(a: string, b: string)
    requires AllUnreserved(a) && AllUnreserved(b)
    ensures PercentEncode(a + " " + b) == a + "%20" + b
  {
    EncodeSpaceJoin(a, b);
    EncodeUnreserved(a);
    EncodeUnreserved(b);
  }
}
