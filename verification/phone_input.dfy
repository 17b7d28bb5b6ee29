/** `PhoneFormatter`: what the telephone inputs keep of what is typed. */
module PhoneInput {
  import opened JsText
  import Validation

  /** `value.replace(/\D/g, '')`: the ASCII digits of `s`, in order. */
  function DigitsOf(s: string): (r: string)
    ensures AllDigits(r)
    ensures |r| <= |s|
  {
    if s == [] then []
    else if IsAsciiDigit(s[0]) then [s[0]] + DigitsOf(s[1..])
    else DigitsOf(s[1..])
  }

  /** The input handler: keep the digits, then cut to at most ten. */
  function Sanitize(s: string): (r: string)
    ensures AllDigits(r)
    ensures |r| == if |DigitsOf(s)| < 10 then |DigitsOf(s)| else 10
    ensures r == DigitsOf(s)[..|r|]
  {
    var value := DigitsOf(s);
    if |value| > 10 then value[..10] else value
  }

  /** The keypress filter: a key is let through iff its name holds a digit
      (`/\d/.test(key)`) or it is Backspace or Delete. */
  predicate KeyAdmitted(key: string) {
    (exists k :: 0 <= k < |key| && IsAsciiDigit(key[k])) || key == "Backspace" || key == "Delete"
  }

  /** Filtering a string of digits keeps all of it. */
  lemma {:induction false} DigitsOfDigits(s: string)
    requires AllDigits(s)
    ensures DigitsOf(s) == s
    decreases |s|
  {
    if s != [] {
      DigitsOfDigits(s[1..]);
      assert [s[0]] + s[1..] == s;
    }
  }

  /** Filtering digits distributes over concatenation. */
  lemma {:induction false} DigitsOfAppend(a: string, b: string)
    ensures DigitsOf(a + b) == DigitsOf(a) + DigitsOf(b)
    decreases |a|
  {
    if a == [] {
      assert a + b == b;
    } else {
      assert (a + b)[0] == a[0];
      assert (a + b)[1..] == a[1..] + b;
      DigitsOfAppend(a[1..], b);
    }
  }

  /** The filter's result is exactly the input when the input is all
      digits, and shorter otherwise. */
  lemma {:induction false} DigitsOfIsIdentityIff(s: string)
    ensures DigitsOf(s) == s <==> AllDigits(s)
    decreases |s|
  {
    if AllDigits(s) {
      DigitsOfDigits(s);
    }
    if s != [] && !IsAsciiDigit(s[0]) {
      assert |DigitsOf(s)| < |s|;
    } else if s != [] {
      DigitsOfIsIdentityIff(s[1..]);
      if DigitsOf(s) == s {
        assert DigitsOf(s[1..]) == s[1..];
      }
    }
  }

  /** Sanitising an already sanitised value changes nothing, so the handler
      firing again on its own output is harmless. */
  lemma SanitizeIdempotent(s: string)
    ensures Sanitize(Sanitize(s)) == Sanitize(s)
  {
    DigitsOfDigits(Sanitize(s));
  }

  /** A sanitised value of ten digits passes the `mobile` rule. */
  lemma SanitizedTenDigitsAccepted(s: string, id: string)
    requires |Sanitize(s)| == 10
    ensures Validation.ValidateField(Validation.Field("mobile", id, Sanitize(s))) == Validation.Valid
  {
    var r := Sanitize(s);
    assert !IsJsSpace(r[0]) && !IsJsSpace(r[9]);
    TrimOfUntrimmable(r);
    Validation.MobileFieldAcceptance(Validation.Field("mobile", id, r));
  }

  /** For a key that produces one character, the keypress filter and the
      input handler agree: the key is let through iff the handler would keep
      its character. */
  lemma KeyFilterAgreesWithSanitizer(c: char)
    ensures KeyAdmitted([c]) <==> DigitsOf([c]) == [c]
  {
    if IsAsciiDigit(c) {
      assert [c][0] == c;
    }
  }

  /** Sample keys: digits and the two editing keys pass, a letter and Enter
      do not. */
  lemma SampleKeys()
    ensures KeyAdmitted("7") && KeyAdmitted("Backspace") && KeyAdmitted("Delete")
    ensures !KeyAdmitted("a") && !KeyAdmitted("Enter")
  {
    assert IsAsciiDigit("7"[0]);
  }
}
