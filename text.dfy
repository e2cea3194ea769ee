/**
 * The string operations of the JavaScript runtime that the relay relies on:
 * String.prototype.trim and trimEnd, the decimal rendering of an integer in a
 * template literal, string accumulation, and the UTF-8 byte length that
 * Buffer.byteLength reports.
 */
module Text {

  /** A code point that trim, trimStart and trimEnd remove: ECMAScript's WhiteSpace and LineTerminator. */
  predicate IsJsSpace(c: char)
  {
    || c == '\t' || c == '\n' || c == '\U{000B}' || c == '\U{000C}' || c == '\r' || c == ' '
    || c == '\U{00A0}' || c == '\U{1680}' || ('\U{2000}' <= c <= '\U{200A}')
    || c == '\U{2028}' || c == '\U{2029}' || c == '\U{202F}' || c == '\U{205F}'
    || c == '\U{3000}' || c == '\U{FEFF}'
  }

  predicate AllSpace(s: string)
  {
    forall i :: 0 <= i < |s| ==> IsJsSpace(s[i])
  }

  predicate EndsWithSlash(s: string)
  {
    s != [] && s[|s| - 1] == '/'
  }

  /** String.prototype.trimEnd: the longest prefix that does not end in white space. */
  function TrimEnd(s: string): (r: string)
    ensures r <= s
    ensures AllSpace(s[|r|..])
    ensures r == [] || !IsJsSpace(r[|r| - 1])
  {
    if s == [] || !IsJsSpace(s[|s| - 1]) then s
    else
      var r := TrimEnd(s[..|s| - 1]);
      assert s[|r|..] == s[..|s| - 1][|r|..] + [s[|s| - 1]];
      r
  }

  /** String.prototype.trimStart: the longest suffix that does not start with white space. */
  function TrimStart(s: string): (r: string)
    ensures |r| <= |s| && r == s[|s| - |r|..]
    ensures AllSpace(s[..|s| - |r|])
    ensures r == [] || !IsJsSpace(r[0])
  {
    if s == [] || !IsJsSpace(s[0]) then s
    else
      var r := TrimStart(s[1..]);
      var removed := s[..|s| - |r|];
      assert AllSpace(removed) by {
        forall i | 0 <= i < |removed|
          ensures IsJsSpace(removed[i])
        {
          if i > 0 {
            assert removed[i] == s[1..][..|s| - 1 - |r|][i - 1];
          }
        }
      }
      r
  }

  /** r is a slice of s with nothing but white space before it and after it. */
  predicate TrimmedFrom(s: string, r: string)
  {
    exists k :: 0 <= k <= |s| - |r| && r == s[k..][..|r|] && AllSpace(s[..k]) && AllSpace(s[k + |r|..])
  }

  /**
   * If t is s without white space at its end, and r is t without white space
   * at its start, then r is a middle slice of s with only white space around it.
   */
  lemma TrimWitness(s: string, t: string, r: string)
    requires t <= s && AllSpace(s[|t|..])
    requires |r| <= |t| && r == t[|t| - |r|..] && AllSpace(t[..|t| - |r|])
    ensures TrimmedFrom(s, r)
  {
    var k := |t| - |r|;
    assert s[..k] == t[..k];
    assert s[k + |r|..] == s[|t|..];
    assert r == s[k..][..|r|] by {
      assert forall i :: 0 <= i < |r| ==> r[i] == t[k + i] == s[k + i];
    }
    assert 0 <= k <= |s| - |r| && r == s[k..][..|r|] && AllSpace(s[..k]) && AllSpace(s[k + |r|..]);
  }

  /** A non-empty suffix of t ends where t ends. */
  lemma SuffixEnd(t: string, r: string)
    requires |r| <= |t| && r == t[|t| - |r|..] && (t == [] || !IsJsSpace(t[|t| - 1]))
    ensures r == [] || !IsJsSpace(r[|r| - 1])
  {
    assert r != [] ==> r[|r| - 1] == t[|t| - 1];
  }

  /** String.prototype.trim: white space is removed from both ends. */
  function Trim(s: string): (r: string)
    ensures |r| <= |s|
    ensures r == [] || (!IsJsSpace(r[0]) && !IsJsSpace(r[|r| - 1]))
    ensures TrimmedFrom(s, r)
  {
    var t := TrimEnd(s);
    var r := TrimStart(t);
    SuffixEnd(t, r);
    TrimWitness(s, t, r);
    r
  }

  /** A string trims to nothing exactly when every one of its characters is white space. */
  lemma TrimEmptyIffAllSpace(s: string)
    ensures Trim(s) == [] <==> AllSpace(s)
  {
    if Trim(s) == [] {
      var k :| 0 <= k <= |s| && AllSpace(s[..k]) && AllSpace(s[k..]);
      forall i | 0 <= i < |s|
        ensures IsJsSpace(s[i])
      {
        if i < k {
          assert s[i] == s[..k][i];
        } else {
          assert s[i] == s[k..][i - k];
        }
      }
    }
    if AllSpace(s) {
      TrimEndOfAllSpace(s);
    }
  }

  /** trimEnd of an all-space string is empty. */
  lemma TrimEndOfAllSpace(s: string)
    requires AllSpace(s)
    ensures TrimEnd(s) == []
  {
  }

  /** trimEnd removes nothing more the second time. */
  lemma TrimEndIdempotent(s: string)
    ensures TrimEnd(TrimEnd(s)) == TrimEnd(s)
  {
  }

  /** The string the chunks make when appended in order, as `data += chunk` builds it. */
  function Concat(chunks: seq<string>): (r: string)
    ensures |chunks| == 1 ==> r == chunks[0]
  {
    if chunks == [] then "" else Concat(chunks[..|chunks| - 1]) + chunks[|chunks| - 1]
  }

  /** Splitting the chunk list anywhere splits the text at the same place. */
  lemma {:induction false} ConcatAppend(a: seq<string>, b: seq<string>)
    ensures Concat(a + b) == Concat(a) + Concat(b)
    decreases |b|
  {
    if b == [] {
      assert a + b == a;
    } else {
      var n := |b|;
      assert (a + b)[..|a + b| - 1] == a + b[..n - 1];
      assert (a + b)[|a + b| - 1] == b[n - 1];
      ConcatAppend(a, b[..n - 1]);
    }
  }

  predicate IsDigits(s: string)
  {
    forall i :: 0 <= i < |s| ==> '0' <= s[i] <= '9'
  }

  function DigitChar(d: nat): (c: char)
    requires d < 10
    ensures '0' <= c <= '9' && c as int - '0' as int == d
  {
    (d + '0' as int) as char
  }

  /** The decimal digits JavaScript prints for a non-negative integer. */
  function NatToDecimal(n: nat): (r: string)
    ensures |r| >= 1 && IsDigits(r)
    ensures r[0] == '0' ==> n == 0
  {
    if n < 10 then [DigitChar(n)] else NatToDecimal(n / 10) + [DigitChar(n % 10)]
  }

  /** `${n}` for an integer n (exponent notation, used from 1e21 on, is not modelled). */
  function IntToDecimal(n: int): string
  {
    if n < 0 then "-" + NatToDecimal(-n) else NatToDecimal(n)
  }

  function DecimalValue(s: string): nat
    requires IsDigits(s)
  {
    if s == [] then 0 else 10 * DecimalValue(s[..|s| - 1]) + (s[|s| - 1] as int - '0' as int)
  }

  /** The decimal text of a number reads back as that number. */
  lemma {:induction false} DecimalRoundTrip(n: nat)
    ensures DecimalValue(NatToDecimal(n)) == n
  {
    if n >= 10 {
      DecimalRoundTrip(n / 10);
      var r := NatToDecimal(n);
      assert r[..|r| - 1] == NatToDecimal(n / 10);
    }
  }

  type byte = x: int | 0 <= x < 256

  /** The number of bytes UTF-8 uses for one code point. */
  function Utf8Width(c: char): nat
  {
    var v := c as int;
    if v < 0x80 then 1 else if v < 0x800 then 2 else if v < 0x1_0000 then 3 else 4
  }

  /** Buffer.byteLength(s): the length of the UTF-8 encoding of s, counted code point by code point. */
  function Utf8Length(s: string): (n: nat)
    ensures |s| <= n <= 4 * |s|
  {
    if s == [] then 0 else Utf8Length(s[..|s| - 1]) + Utf8Width(s[|s| - 1])
  }

  /** The UTF-8 encoding of one code point (RFC 3629, section 3). */
  function EncodeChar(c: char): seq<byte>
  {
    var v := c as int;
    if v < 0x80 then [v]
    else if v < 0x800 then [0xC0 + v / 0x40, 0x80 + v % 0x40]
    else if v < 0x1_0000 then [0xE0 + v / 0x1000, 0x80 + (v / 0x40) % 0x40, 0x80 + v % 0x40]
    else [0xF0 + v / 0x4_0000, 0x80 + (v / 0x1000) % 0x40, 0x80 + (v / 0x40) % 0x40, 0x80 + v % 0x40]
  }

  /** The bytes that go on the wire when a string is written to a socket. */
  function Utf8Encode(s: string): seq<byte>
  {
    if s == [] then [] else Utf8Encode(s[..|s| - 1]) + EncodeChar(s[|s| - 1])
  }

  /** The counted byte length is the length of the actual encoding. */
  lemma {:induction false} Utf8LengthIsEncodedLength(s: string)
    ensures |Utf8Encode(s)| == Utf8Length(s)
  {
    if s != [] {
      Utf8LengthIsEncodedLength(s[..|s| - 1]);
    }
  }

  /** For ASCII text the byte length is the character count. */
  lemma {:induction false} AsciiUtf8Length(s: string)
    requires forall i :: 0 <= i < |s| ==> s[i] as int < 0x80
    ensures Utf8Length(s) == |s|
  {
    if s != [] {
      AsciiUtf8Length(s[..|s| - 1]);
    }
  }
}
