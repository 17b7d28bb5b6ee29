/** The JavaScript string primitives the page script relies on:
    white space as ECMA-262 defines it, `String.prototype.trim`, the
    character classes of the validation patterns, the UTF-16 `length`,
    the `capitalize` helper, and splitting a message into lines. */
module JsText {

  /** The WhiteSpace and LineTerminator code points of ECMA-262. This one set
      is what `trim` strips and what the regular-expression class `\s` matches. */
  predicate IsJsSpace(c: char) {
    || c == '\t' || c == '\n' || c == '\U{000B}' || c == '\U{000C}' || c == '\r'
    || c == ' ' || c == '\U{00A0}' || c == '\U{1680}'
    || ('\U{2000}' <= c <= '\U{200A}')
    || c == '\U{2028}' || c == '\U{2029}' || c == '\U{202F}' || c == '\U{205F}'
    || c == '\U{3000}' || c == '\U{FEFF}'
  }

  /** `[0-9]`, which is also `\d` in a pattern without the `u` flag. */
  predicate IsAsciiDigit(c: char) {
    '0' <= c <= '9'
  }

  /** `[a-zA-Z]`. */
  predicate IsAsciiLetter(c: char) {
    ('a' <= c <= 'z') || ('A' <= c <= 'Z')
  }

  predicate AllDigits(s: string) {
    forall k :: 0 <= k < |s| ==> IsAsciiDigit(s[k])
  }

  predicate AllSpace(s: string) {
    forall k :: 0 <= k < |s| ==> IsJsSpace(s[k])
  }

  /** Neither end of `s` is white space. */
  predicate NoEdgeSpace(s: string) {
    s != [] ==> !IsJsSpace(s[0]) && !IsJsSpace(s[|s| - 1])
  }

  /** Number of white-space characters at the start of `s`. */
  function LeadingSpace(s: string): (n: nat)
    ensures n <= |s|
  {
    if s == [] || !IsJsSpace(s[0]) then 0 else 1 + LeadingSpace(s[1..])
  }

  /** `LeadingSpace` counts exactly the white-space prefix. */
  lemma {:induction false} LeadingSpaceSpec(s: string)
    ensures forall k :: 0 <= k < LeadingSpace(s) ==> IsJsSpace(s[k])
    ensures LeadingSpace(s) < |s| ==> !IsJsSpace(s[LeadingSpace(s)])
    decreases |s|
  {
    if s != [] && IsJsSpace(s[0]) {
      LeadingSpaceSpec(s[1..]);
      forall k | 0 < k < LeadingSpace(s)
        ensures IsJsSpace(s[k])
      {
        assert s[k] == s[1..][k - 1];
      }
    }
  }

  /** Number of white-space characters at the end of `s`. */
  function TrailingSpace(s: string): (n: nat)
    ensures n <= |s|
  {
    if s == [] || !IsJsSpace(s[|s| - 1]) then 0 else 1 + TrailingSpace(s[..|s| - 1])
  }

  /** `TrailingSpace` counts exactly the white-space suffix. */
  lemma {:induction false} TrailingSpaceSpec(s: string)
    ensures forall k :: |s| - TrailingSpace(s) <= k < |s| ==> IsJsSpace(s[k])
    ensures TrailingSpace(s) < |s| ==> !IsJsSpace(s[|s| - 1 - TrailingSpace(s)])
    decreases |s|
  {
    if s != [] && IsJsSpace(s[|s| - 1]) {
      var init := s[..|s| - 1];
      TrailingSpaceSpec(init);
      forall k | |s| - TrailingSpace(s) <= k < |s| - 1
        ensures IsJsSpace(s[k])
      {
        assert s[k] == init[k];
      }
      if TrailingSpace(s) < |s| {
        assert s[|s| - 1 - TrailingSpace(s)] == init[|init| - 1 - TrailingSpace(init)];
      }
    }
  }

  /** `String.prototype.trim`: the slice of `s` left after removing white space
      from both ends. */
  function Trim(s: string): (r: string)
    ensures |r| <= |s|
  {
    var i := LeadingSpace(s);
    var a := s[i..];
    a[..|a| - TrailingSpace(a)]
  }

  /** What `trim` leaves has no white space at either end, and is empty
      exactly when the whole string was white space. */
  lemma TrimSpec(s: string)
    ensures NoEdgeSpace(Trim(s))
    ensures Trim(s) == [] <==> AllSpace(s)
  {
    var i := LeadingSpace(s);
    var a := s[i..];
    var r := Trim(s);
    LeadingSpaceSpec(s);
    TrailingSpaceSpec(a);
    if r != [] {
      assert r[0] == a[0] == s[i];
      assert r[|r| - 1] == a[|a| - 1 - TrailingSpace(a)];
    }
  }

  /** What `trim` removes is white space at either end, and nothing else. */
  lemma TrimIsSlice(s: string)
    ensures exists i :: 0 <= i <= |s| - |Trim(s)| && Trim(s) == s[i..i + |Trim(s)|]
                        && AllSpace(s[..i]) && AllSpace(s[i + |Trim(s)|..])
  {
    var i := LeadingSpace(s);
    var a := s[i..];
    var r := Trim(s);
    LeadingSpaceSpec(s);
    TrailingSpaceSpec(a);
    assert r == s[i..i + |r|];
    assert AllSpace(s[..i]);
    assert AllSpace(s[i + |r|..]) by {
      forall k | i + |r| <= k < |s|
        ensures IsJsSpace(s[k])
      {
        assert s[k] == a[k - i];
      }
    }
  }

  /** A string without white space at its ends is its own trim. */
  lemma TrimOfUntrimmable(s: string)
    requires NoEdgeSpace(s)
    ensures Trim(s) == s
  {
  }

  /** `trim` is idempotent. */
  lemma TrimIdempotent(s: string)
    ensures Trim(Trim(s)) == Trim(s)
  {
    TrimSpec(s);
    TrimOfUntrimmable(Trim(s));
  }

  /** The UTF-16 code unit count of `s`, which is what JavaScript's `length`
      reports: characters outside the Basic Multilingual Plane take two. */
  function Utf16Length(s: string): (n: nat)
    ensures |s| <= n <= 2 * |s|
  {
    if s == [] then 0
    else (if s[0] as int < 0x10000 then 1 else 2) + Utf16Length(s[1..])
  }

  /** The UTF-16 length equals the character count exactly when every
      character lies in the Basic Multilingual Plane. */
  lemma {:induction false} Utf16LengthBmp(s: string)
    ensures Utf16Length(s) == |s| <==> forall k :: 0 <= k < |s| ==> s[k] as int < 0x10000
    decreases |s|
  {
    if s != [] {
      Utf16LengthBmp(s[1..]);
      assert forall k :: 1 <= k < |s| ==> s[k] == s[1..][k - 1];
    }
  }

  /** `toUpperCase` restricted to the ASCII letters. */
  function AsciiUpper(c: char): char {
    if 'a' <= c <= 'z' then (c as int - 32) as char else c
  }

  /** `capitalize`: the first character upper-cased, the rest unchanged. */
  function Capitalize(s: string): string {
    if s == [] then [] else [AsciiUpper(s[0])] + s[1..]
  }

  /** `capitalize` keeps the length and every character after the first, and
      turns a leading lower-case letter into its upper-case partner. */
  lemma CapitalizeShape(s: string)
    ensures |Capitalize(s)| == |s|
    ensures s != [] ==> Capitalize(s)[1..] == s[1..]
    ensures s != [] && 'a' <= s[0] <= 'z' ==>
      'A' <= Capitalize(s)[0] <= 'Z' && Capitalize(s)[0] as int + 32 == s[0] as int
    ensures s != [] && !('a' <= s[0] <= 'z') ==> Capitalize(s)[0] == s[0]
  {
  }

  predicate NoNewline(s: string) {
    forall k :: 0 <= k < |s| ==> s[k] != '\n'
  }

  /** Splits `s` at every line feed; there is always at least one line. */
  function Lines(s: string): (ls: seq<string>)
    ensures |ls| >= 1
    ensures forall i :: 0 <= i < |ls| ==> NoNewline(ls[i])
  {
    if s == [] then [""]
    else
      var rest := Lines(s[1..]);
      if s[0] == '\n' then [""] + rest
      else [[s[0]] + rest[0]] + rest[1..]
  }

  /** Joins lines with a line feed between consecutive ones. */
  function JoinLines(ls: seq<string>): string
    requires |ls| >= 1
  {
    if |ls| == 1 then ls[0] else ls[0] + "\n" + JoinLines(ls[1..])
  }

  /** A line without a line feed, followed by a line feed, is split off whole. */
  lemma {:induction false} LinesCons(a: string, b: string)
    requires NoNewline(a)
    ensures Lines(a + "\n" + b) == [a] + Lines(b)
    decreases |a|
  {
    if a == [] {
      assert a + "\n" + b == ['\n'] + b;
      assert (['\n'] + b)[1..] == b;
    } else {
      assert (a + "\n" + b)[1..] == a[1..] + "\n" + b;
      LinesCons(a[1..], b);
      assert [a[0]] + a[1..] == a;
    }
  }

  /** A string without line feeds is one line. */
  lemma {:induction false} LinesSingle(a: string)
    requires NoNewline(a)
    ensures Lines(a) == [a]
    decreases |a|
  {
    if a != [] {
      LinesSingle(a[1..]);
      assert [a[0]] + a[1..] == a;
    }
  }

  /** Splitting undoes joining, as long as no line holds a line feed. */
  lemma {:induction false} LinesOfJoin(ls: seq<string>)
    requires |ls| >= 1
    requires forall i :: 0 <= i < |ls| ==> NoNewline(ls[i])
    ensures Lines(JoinLines(ls)) == ls
    decreases |ls|
  {
    if |ls| == 1 {
      LinesSingle(ls[0]);
    } else {
      LinesCons(ls[0], JoinLines(ls[1..]));
      LinesOfJoin(ls[1..]);
    }
  }
}
