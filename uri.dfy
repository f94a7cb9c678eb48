/**
 * ECMAScript's `encodeURIComponent` (section 19.2.6.5 of ECMA-262): every
 * character outside the unreserved set is written as the UTF-8 bytes of its
 * code point, each as `%` and two upper-case hexadecimal digits.
 */
module Uri {
  import opened Wrappers

  type Byte = b: int | 0 <= b < 256

  /** Letters, digits and `-_.!~*'()`, which `encodeURIComponent` leaves as they are. */
  predicate Unreserved(c: char)
  {
    || 'A' <= c <= 'Z' || 'a' <= c <= 'z' || '0' <= c <= '9'
    || c == '-' || c == '_' || c == '.' || c == '!' || c == '~' || c == '*' || c == '\'' || c == '(' || c == ')'
  }

  /** The UTF-8 encoding of one code point. */
  function Utf8(c: char): (bs: seq<Byte>)
    ensures 1 <= |bs| <= 4
    ensures (|bs| == 1) <==> c as int < 0x80
    ensures |bs| == 1 ==> bs[0] == c as int
  {
    var cp := c as int;
    if cp < 0x80 then [cp]
    else if cp < 0x800 then [0xC0 + cp / 64, 0x80 + cp % 64]
    else if cp < 0x1_0000 then [0xE0 + cp / 4096, 0x80 + cp / 64 % 64, 0x80 + cp % 64]
    else [0xF0 + cp / 262144 % 8, 0x80 + cp / 4096 % 64, 0x80 + cp / 64 % 64, 0x80 + cp % 64]
  }

  function Utf8Text(s: string): seq<Byte>
    decreases |s|
  {
    if s == [] then [] else Utf8(s[0]) + Utf8Text(s[1..])
  }

  function HexDigit(d: int): (c: char)
    requires 0 <= d < 16
    ensures Unreserved(c)
  {
    "0123456789ABCDEF"[d]
  }

  predicate IsHexDigit(c: char)
  {
    '0' <= c <= '9' || 'A' <= c <= 'F'
  }

  function HexValue(c: char): (d: int)
    requires IsHexDigit(c)
    ensures 0 <= d < 16
  {
    if c <= '9' then c as int - '0' as int else c as int - 'A' as int + 10
  }

  /** `%XY` for each byte. */
  function PercentBytes(bs: seq<Byte>): (s: string)
    ensures forall i :: 0 <= i < |s| ==> Unreserved(s[i]) || s[i] == '%'
    decreases |bs|
  {
    if bs == [] then "" else ['%', HexDigit(bs[0] / 16), HexDigit(bs[0] % 16)] + PercentBytes(bs[1..])
  }

  function EncodeChar(c: char): (s: string)
    ensures forall i :: 0 <= i < |s| ==> Unreserved(s[i]) || s[i] == '%'
  {
    if Unreserved(c) then [c] else PercentBytes(Utf8(c))
  }

  /** `encodeURIComponent(s)`. */
  function EncodeUriComponent(s: string): string
    decreases |s|
  {
    if s == [] then "" else EncodeChar(s[0]) + EncodeUriComponent(s[1..])
  }

  /** Percent-decoding to bytes (the first step of `decodeURIComponent`); None for a malformed escape or a non-ASCII character. */
  function PercentDecode(q: string): Option<seq<Byte>>
    decreases |q|
  {
    if q == [] then Some([])
    else if q[0] == '%' then
      if |q| >= 3 && IsHexDigit(q[1]) && IsHexDigit(q[2]) then
        Prepend([HexValue(q[1]) * 16 + HexValue(q[2])], PercentDecode(q[3..]))
      else None
    else if q[0] as int < 0x80 then Prepend([q[0] as int], PercentDecode(q[1..]))
    else None
  }

  function Prepend(bs: seq<Byte>, r: Option<seq<Byte>>): Option<seq<Byte>>
  {
    if r.Some? then Some(bs + r.value) else None
  }

  // ------------------------------------------------------------------ lemmas

  lemma HexRoundTrip(d: int)
    requires 0 <= d < 16
    ensures IsHexDigit(HexDigit(d)) && HexValue(HexDigit(d)) == d
  {
  }

  /** One escape decodes to its byte. */
  lemma DecodeEscape(b: Byte, tail: string)
    ensures PercentDecode(['%', HexDigit(b / 16), HexDigit(b % 16)] + tail) == Prepend([b], PercentDecode(tail))
  {
    var q := ['%', HexDigit(b / 16), HexDigit(b % 16)] + tail;
    HexRoundTrip(b / 16);
    HexRoundTrip(b % 16);
    assert q[0] == '%' && q[1] == HexDigit(b / 16) && q[2] == HexDigit(b % 16) && q[3..] == tail;
  }

  lemma PrependTwice(b: seq<Byte>, bs: seq<Byte>, r: Option<seq<Byte>>)
    ensures Prepend(b, Prepend(bs, r)) == Prepend(b + bs, r)
  {
    if r.Some? {
      assert b + (bs + r.value) == (b + bs) + r.value;
    }
  }

  lemma {:induction false} DecodePercentBytes(bs: seq<Byte>, rest: string)
    ensures PercentDecode(PercentBytes(bs) + rest) == Prepend(bs, PercentDecode(rest))
    decreases |bs|
  {
    if bs == [] {
      assert PercentBytes(bs) + rest == rest;
      var d := PercentDecode(rest);
      if d.Some? {
        assert bs + d.value == d.value;
      }
    } else {
      var b := bs[0];
      var tail := PercentBytes(bs[1..]) + rest;
      assert PercentBytes(bs) + rest == ['%', HexDigit(b / 16), HexDigit(b % 16)] + tail;
      DecodeEscape(b, tail);
      DecodePercentBytes(bs[1..], rest);
      PrependTwice([b], bs[1..], PercentDecode(rest));
      assert [b] + bs[1..] == bs;
    }
  }

  lemma DecodeChar(c: char, rest: string)
    ensures PercentDecode(EncodeChar(c) + rest) == Prepend(Utf8(c), PercentDecode(rest))
  {
    if Unreserved(c) {
      assert ([c] + rest)[1..] == rest;
    } else {
      DecodePercentBytes(Utf8(c), rest);
    }
  }

  /** The encoding holds only unreserved characters and `%`, so never `&`, `=`, `?` or `#`. */
  lemma {:induction false} EncodeIsUriSafe(s: string)
    ensures forall i :: 0 <= i < |EncodeUriComponent(s)| ==> Unreserved(EncodeUriComponent(s)[i]) || EncodeUriComponent(s)[i] == '%'
    decreases |s|
  {
    if s != [] {
      EncodeIsUriSafe(s[1..]);
      var head, tail := EncodeChar(s[0]), EncodeUriComponent(s[1..]);
      assert EncodeUriComponent(s) == head + tail;
      forall i | 0 <= i < |head + tail| ensures Unreserved((head + tail)[i]) || (head + tail)[i] == '%' {
        if i >= |head| {
          assert (head + tail)[i] == tail[i - |head|];
        }
      }
    }
  }

  /** Percent-decoding undoes `encodeURIComponent`, leaving the UTF-8 bytes of the text. */
  lemma {:induction false} EncodeRoundTrip(s: string)
    ensures PercentDecode(EncodeUriComponent(s)) == Some(Utf8Text(s))
    decreases |s|
  {
    if s != [] {
      DecodeChar(s[0], EncodeUriComponent(s[1..]));
      EncodeRoundTrip(s[1..]);
    }
  }

  /** The encoding works character by character, so it distributes over concatenation. */
  lemma {:induction false} EncodeAppend(a: string, b: string)
    ensures EncodeUriComponent(a + b) == EncodeUriComponent(a) + EncodeUriComponent(b)
    decreases |a|
  {
    if a == [] {
      assert a + b == b;
    } else {
      assert (a + b)[1..] == a[1..] + b;
      EncodeAppend(a[1..], b);
    }
  }

  /** Text made only of unreserved characters passes through unchanged. */
  lemma {:induction false} EncodeUnreservedUnchanged(s: string)
    requires forall i :: 0 <= i < |s| ==> Unreserved(s[i])
    ensures EncodeUriComponent(s) == s
    decreases |s|
  {
    if s != [] {
      EncodeUnreservedUnchanged(s[1..]);
      assert [s[0]] + s[1..] == s;
    }
  }
}
