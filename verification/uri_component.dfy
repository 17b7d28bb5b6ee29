/** `encodeURIComponent` as section 19.2.6 of ECMA-262 defines it, and the
    matching decoder (`decodeURIComponent`, which is the standard's Decode
    with an empty reserved set). Every character outside
    `A-Z a-z 0-9 - _ . ! ~ * ' ( )` is written as the `%XY` escapes of its
    UTF-8 octets, as in section 2.1 of RFC 3986. Strings are sequences of
    Unicode scalar values, so the lone surrogates on which the real
    function throws cannot occur. */
module UriComponent {
  import opened Wrappers

  type Octet = b: int | 0 <= b < 256

  /** The characters `encodeURIComponent` copies unchanged: uriAlpha,
      DecimalDigit and uriMark. */
  predicate Unreserved(c: char) {
    || ('A' <= c <= 'Z') || ('a' <= c <= 'z') || ('0' <= c <= '9')
    || c == '-' || c == '_' || c == '.' || c == '!' || c == '~'
    || c == '*' || c == '\'' || c == '(' || c == ')'
  }

  /** A hexadecimal digit as the decoder accepts it, in either case. */
  predicate IsHex(c: char) {
    ('0' <= c <= '9') || ('A' <= c <= 'F') || ('a' <= c <= 'f')
  }

  /** A hexadecimal digit as the encoder writes it: upper case. */
  predicate IsUpperHex(c: char) {
    ('0' <= c <= '9') || ('A' <= c <= 'F')
  }

  function HexValue(c: char): (v: int)
    requires IsHex(c)
    ensures 0 <= v < 16
  {
    if '0' <= c <= '9' then c as int - '0' as int
    else if 'A' <= c <= 'F' then c as int - 'A' as int + 10
    else c as int - 'a' as int + 10
  }

  function HexDigit(d: int): (c: char)
    requires 0 <= d < 16
    ensures IsUpperHex(c) && IsHex(c) && HexValue(c) == d
  {
    if d < 10 then ('0' as int + d) as char else ('A' as int + d - 10) as char
  }

  /** The UTF-8 octets of one code point (RFC 3629). */
  function Utf8(c: char): (os: seq<Octet>)
    ensures 1 <= |os| <= 4
    ensures (|os| == 1) <==> c as int < 0x80
  {
    var cp := c as int;
    var q1 := cp / 64;
    var q2 := q1 / 64;
    if cp < 0x80 then [cp]
    else if cp < 0x800 then [0xC0 + q1, 0x80 + cp % 64]
    else if cp < 0x10000 then [0xE0 + q2, 0x80 + q1 % 64, 0x80 + cp % 64]
    else [0xF0 + q2 / 64, 0x80 + q2 % 64, 0x80 + q1 % 64, 0x80 + cp % 64]
  }

  /** `%XY` for one octet, with upper-case hexadecimal digits. */
  function EscapeOctet(b: Octet): (e: string)
    ensures |e| == 3 && e[0] == '%' && IsUpperHex(e[1]) && IsUpperHex(e[2])
  {
    ['%', HexDigit(b / 16), HexDigit(b % 16)]
  }

  function Escapes(os: seq<Octet>): (e: string)
    ensures |e| == 3 * |os|
    ensures forall k :: 0 <= k < |e| ==> e[k] == '%' || IsUpperHex(e[k])
  {
    if os == [] then [] else EscapeOctet(os[0]) + Escapes(os[1..])
  }

  /** How one character is written into the encoded text. */
  function EncodeChar(c: char): (e: string)
    ensures Unreserved(c) ==> e == [c]
    ensures !Unreserved(c) ==> 3 <= |e| <= 12 && e[0] == '%'
  {
    if Unreserved(c) then [c] else Escapes(Utf8(c))
  }

  /** A character the encoded text may contain. */
  predicate UriSafe(c: char) {
    Unreserved(c) || c == '%' || IsUpperHex(c)
  }

  /** `encodeURIComponent`. */
  function Encode(s: string): (e: string)
    ensures |e| >= |s|
    ensures forall k :: 0 <= k < |e| ==> UriSafe(e[k])
  {
    if s == [] then [] else EncodeChar(s[0]) + Encode(s[1..])
  }

  // ---------------------------------------------------------------------
  // Decoding

  /** The octet written by a `%XY` escape at the start of `s`, if there is one. */
  function OctetAt(s: string): (r: Option<Octet>)
    ensures r.Some? ==> |s| >= 3
  {
    if |s| >= 3 && s[0] == '%' && IsHex(s[1]) && IsHex(s[2])
    then Some(16 * HexValue(s[1]) + HexValue(s[2]))
    else None
  }

  /** A continuation octet (`10xxxxxx`) escaped at the start of `t`: its six
      payload bits and the text after it. */
  function Continuation(t: string): (r: Option<(int, string)>)
    ensures r.Some? ==> 0 <= r.value.0 < 64 && |r.value.1| == |t| - 3
  {
    match OctetAt(t)
    case None => None
    case Some(b) => if 0x80 <= b < 0xC0 then Some((b - 0x80, t[3..])) else None
  }

  /** Completes a multi-octet sequence whose lead octet `b0` has been read:
      reads the continuation octets from `t` and rejects anything that is not
      the shortest UTF-8 form of a Unicode scalar value. */
  function DecodeMultiOctet(b0: Octet, t: string): (r: Option<(char, string)>)
    ensures r.Some? ==> |r.value.1| <= |t| - 3
  {
    if 0xC0 <= b0 < 0xE0 then
      match Continuation(t)
      case None => None
      case Some((x1, t1)) =>
        var cp := (b0 - 0xC0) * 64 + x1;
        if cp < 0x80 then None else Some((cp as char, t1))
    else if 0xE0 <= b0 < 0xF0 then
      match Continuation(t)
      case None => None
      case Some((x1, t1)) =>
        match Continuation(t1)
        case None => None
        case Some((x2, t2)) =>
          var cp := (b0 - 0xE0) * 4096 + x1 * 64 + x2;
          if cp < 0x800 || 0xD800 <= cp < 0xE000 then None else Some((cp as char, t2))
    else if 0xF0 <= b0 < 0xF8 then
      match Continuation(t)
      case None => None
      case Some((x1, t1)) =>
        match Continuation(t1)
        case None => None
        case Some((x2, t2)) =>
          match Continuation(t2)
          case None => None
          case Some((x3, t3)) =>
            var cp := (b0 - 0xF0) * 262144 + x1 * 4096 + x2 * 64 + x3;
            if cp < 0x10000 || cp > 0x10FFFF then None else Some((cp as char, t3))
    else None
  }

  /** Prepends one decoded character to the decoding of the rest. */
  function Cons(c: char, rest: Option<string>): (r: Option<string>)
    ensures r.Some? <==> rest.Some?
    ensures r.Some? ==> r.value == [c] + rest.value
  {
    match rest
    case None => None
    case Some(t) => Some([c] + t)
  }

  /** `decodeURIComponent`: characters other than `%` are copied; each `%XY`
      escape, or run of escapes forming one UTF-8 sequence, becomes one
      character. A malformed escape or invalid UTF-8 gives `None` where the
      real function throws `URIError`. */
  function Decode(s: string): (r: Option<string>)
    ensures r.Some? ==> |r.value| <= |s|
    decreases |s|
  {
    if s == [] then Some([])
    else if s[0] != '%' then Cons(s[0], Decode(s[1..]))
    else
      match OctetAt(s)
      case None => None
      case Some(b0) =>
        if b0 < 0x80 then Cons(b0 as char, Decode(s[3..]))
        else
          match DecodeMultiOctet(b0, s[3..])
          case None => None
          case Some((c, rest)) => Cons(c, Decode(rest))
  }

  // ---------------------------------------------------------------------
  // Round trip

  /** An escape reads back as its octet, and what follows it is untouched. */
  lemma OctetAtEscape(b: Octet, t: string)
    ensures OctetAt(EscapeOctet(b) + t) == Some(b)
    ensures (EscapeOctet(b) + t)[3..] == t
  {
    var s := EscapeOctet(b) + t;
    assert s[1] == HexDigit(b / 16) && s[2] == HexDigit(b % 16);
  }

  /** A continuation octet's escape reads back as its payload bits. */
  lemma ContinuationEscape(x: int, t: string)
    requires 0 <= x < 64
    ensures Continuation(EscapeOctet(0x80 + x) + t) == Some((x, t))
  {
    OctetAtEscape(0x80 + x, t);
  }

  /** Escapes of several octets are the first octet's escape followed by the
      rest's. */
  lemma EscapesCons(os: seq<Octet>, t: string)
    requires |os| >= 1
    ensures Escapes(os) + t == EscapeOctet(os[0]) + (Escapes(os[1..]) + t)
  {
    var a, b := EscapeOctet(os[0]), Escapes(os[1..]);
    assert Escapes(os) == a + b;
    ConcatAssoc(a, b, t);
  }

  /** Concatenation regroups; stated on its own so that the solver meets it
      as a fact rather than searching for it inside `EscapesCons`. */
  lemma ConcatAssoc(a: string, b: string, c: string)
    ensures (a + b) + c == a + (b + c)
  {
  }

  /** The two-octet form reads back as its character. */
  lemma DecodeTwoOctets(c: char, t: string)
    requires 0x80 <= c as int < 0x800
    ensures DecodeMultiOctet(Utf8(c)[0], Escapes(Utf8(c)[1..]) + t) == Some((c, t))
  {
    var cp := c as int;
    var os := Utf8(c);
    assert os[1..] == [0x80 + cp % 64];
    assert Escapes(os[1..]) + t == EscapeOctet(0x80 + cp % 64) + t;
    ContinuationEscape(cp % 64, t);
  }

  /** The three-octet form reads back as its character. */
  lemma DecodeThreeOctets(c: char, t: string)
    requires 0x800 <= c as int < 0x10000
    ensures DecodeMultiOctet(Utf8(c)[0], Escapes(Utf8(c)[1..]) + t) == Some((c, t))
  {
    var cp := c as int;
    var os := Utf8(c);
    var x1, x2 := (cp / 64) % 64, cp % 64;
    assert os[1..] == [0x80 + x1, 0x80 + x2];
    assert os[0] == 0xE0 + cp / 64 / 64;
    var t1 := EscapeOctet(0x80 + x2) + t;
    assert Escapes(os[1..]) + t == EscapeOctet(0x80 + x1) + t1;
    ContinuationEscape(x1, t1);
    ContinuationEscape(x2, t);
    assert cp / 64 / 64 * 4096 + x1 * 64 + x2 == cp;
  }

  /** The escapes of three octets, spelled out one by one. */
  lemma EscapesThree(os: seq<Octet>, t: string)
    requires |os| == 3
    ensures Escapes(os) + t == EscapeOctet(os[0]) + (EscapeOctet(os[1]) + (EscapeOctet(os[2]) + t))
  {
    EscapesCons(os, t);
    EscapesCons(os[1..], t);
    EscapesCons(os[1..][1..], t);
    assert os[1..][1..][1..] == [];
  }

  /** A four-octet sequence with the right lead octet and a value in the
      supplementary planes decodes to that value. */
  lemma DecodeFourPayload(b0: Octet, x1: int, x2: int, x3: int, t: string)
    requires 0xF0 <= b0 < 0xF8 && 0 <= x1 < 64 && 0 <= x2 < 64 && 0 <= x3 < 64
    requires 0x10000 <= (b0 - 0xF0) * 262144 + x1 * 4096 + x2 * 64 + x3 <= 0x10FFFF
    ensures DecodeMultiOctet(b0, EscapeOctet(0x80 + x1) + (EscapeOctet(0x80 + x2) + (EscapeOctet(0x80 + x3) + t)))
         == Some((((b0 - 0xF0) * 262144 + x1 * 4096 + x2 * 64 + x3) as char, t))
  {
    var t2 := EscapeOctet(0x80 + x3) + t;
    var t1 := EscapeOctet(0x80 + x2) + t2;
    ContinuationEscape(x1, t1);
    ContinuationEscape(x2, t2);
    ContinuationEscape(x3, t);
  }

  /** The four-octet form reads back as its character. */
  lemma DecodeFourOctets(c: char, t: string)
    requires 0x10000 <= c as int
    ensures DecodeMultiOctet(Utf8(c)[0], Escapes(Utf8(c)[1..]) + t) == Some((c, t))
  {
    var cp := c as int;
    var os := Utf8(c);
    var x1, x2, x3 := (cp / 64 / 64) % 64, (cp / 64) % 64, cp % 64;
    assert os[1..] == [0x80 + x1, 0x80 + x2, 0x80 + x3];
    assert os[0] == 0xF0 + cp / 64 / 64 / 64;
    FourOctetDigits(cp);
    EscapesThree(os[1..], t);
    DecodeFourPayload(os[0], x1, x2, x3, t);
  }

  /** A code point is its base-64 digits put back together. */
  lemma FourOctetDigits(cp: int)
    requires 0 <= cp
    ensures cp / 64 / 64 / 64 * 262144 + (cp / 64 / 64) % 64 * 4096 + (cp / 64) % 64 * 64 + cp % 64 == cp
  {
    var q1 := cp / 64;
    var q2 := q1 / 64;
    assert q2 == q2 / 64 * 64 + q2 % 64;
    assert q1 == q2 * 64 + q1 % 64;
  }

  /** Decoding one encoded character followed by anything yields that
      character followed by the decoding of the rest. */
  lemma DecodeEncodeChar(c: char, t: string)
    ensures Decode(EncodeChar(c) + t) == Cons(c, Decode(t))
  {
    var s := EncodeChar(c) + t;
    if Unreserved(c) {
      assert s[0] == c && s[1..] == t;
    } else {
      var os := Utf8(c);
      EscapesCons(os, t);
      var tail := Escapes(os[1..]) + t;
      OctetAtEscape(os[0], tail);
      if c as int < 0x80 {
        assert tail == t;
      } else if c as int < 0x800 {
        DecodeTwoOctets(c, t);
      } else if c as int < 0x10000 {
        DecodeThreeOctets(c, t);
      } else {
        DecodeFourOctets(c, t);
      }
    }
  }

  /** Decoding the encoding gives back the original string. */
  lemma {:induction false} DecodeEncode(s: string)
    ensures Decode(Encode(s)) == Some(s)
    decreases |s|
  {
    if s != [] {
      DecodeEncodeChar(s[0], Encode(s[1..]));
      DecodeEncode(s[1..]);
      assert [s[0]] + s[1..] == s;
    }
  }

  /** The encoding leaves a string unchanged exactly when every character
      is unreserved. */
  lemma {:induction false} EncodeIdentityIff(s: string)
    ensures Encode(s) == s <==> forall k :: 0 <= k < |s| ==> Unreserved(s[k])
    decreases |s|
  {
    if s != [] {
      EncodeIdentityIff(s[1..]);
      if Unreserved(s[0]) {
        assert Encode(s) == [s[0]] + Encode(s[1..]);
        if Encode(s) == s {
          assert Encode(s[1..]) == Encode(s)[1..];
        }
        assert forall k :: 1 <= k < |s| ==> s[k] == s[1..][k - 1];
      } else {
        assert |Encode(s)| > |s|;
      }
    }
  }

  /** Sample encodings: a space, a line feed, an `@` and a two-octet
      character. */
  lemma SampleEncodings()
    ensures EncodeChar(' ') == "%20"
    ensures EncodeChar('\n') == "%0A"
    ensures EncodeChar('@') == "%40"
    ensures EncodeChar('\U{00E9}') == "%C3%A9"
  {
  }
}
