/** `FormValidator`: a three-entry rule table (`name`, `mobile`, `email`),
    the per-field check `validateField` and the form-wide `validateForm`. */
module Validation {
  import opened Wrappers
  import opened JsText

  /** The three regular expressions of the rule table, each modelled by a
      hand-written predicate (see `Matches`). */
  datatype Pattern =
    | LettersAndSpaces   // /^[a-zA-Z\s]+$/
    | TenDigits          // /^[0-9]{10}$/
    | EmailAddress       // /^[^\s@]+@[^\s@]+\.[^\s@]+$/

  /** One rule; a `minLength` of 0 stands for an absent one (0 is falsy in
      JavaScript, so the two behave alike). */
  datatype Rule = Rule(required: bool, minLength: nat, pattern: Pattern, message: string)

  /** An input element as the validator sees it: its `name` and `id`
      attributes and its current `value`. */
  datatype Field = Field(name: string, id: string, value: string)

  /** The `{ isValid, message }` object `validateField` returns. */
  datatype Verdict = Valid | Invalid(message: string)

  /** The visible marking `validateForm` leaves on an input: the error class
      plus an error message, or the success class. */
  datatype Mark = ErrorMark(message: string) | SuccessMark

  const NameMessage := "Please enter a valid name (letters only, min 2 characters)"
  const MobileMessage := "Please enter a valid 10-digit mobile number"
  const EmailMessage := "Please enter a valid email address"

  /** The rule table, looked up by field key. */
  function RuleFor(key: string): Option<Rule> {
    if key == "name" then Some(Rule(true, 2, LettersAndSpaces, NameMessage))
    else if key == "mobile" then Some(Rule(true, 0, TenDigits, MobileMessage))
    else if key == "email" then Some(Rule(false, 0, EmailAddress, EmailMessage))
    else None
  }

  /** `input.name || input.id`: the name attribute unless it is empty. */
  function FieldKey(f: Field): string {
    if f.name != "" then f.name else f.id
  }

  /** A character `[^\s@]` admits. */
  predicate EmailChar(c: char) {
    !IsJsSpace(c) && c != '@'
  }

  predicate NameText(s: string) {
    |s| >= 1 && forall k :: 0 <= k < |s| ==> IsAsciiLetter(s[k]) || IsJsSpace(s[k])
  }

  predicate MobileText(s: string) {
    |s| == 10 && AllDigits(s)
  }

  /** The e-mail pattern by positions: one `@` after a non-empty local part, a
      `.` with at least one character on each side after it, and no white
      space or other `@` anywhere. */
  predicate EmailText(s: string) {
    exists i, j | 0 < i && i + 1 < j && j + 1 < |s| ::
      && s[i] == '@' && s[j] == '.'
      && forall k | 0 <= k < |s| && k != i :: EmailChar(s[k])
  }

  /** One `[^\s@]+` run of the e-mail pattern. */
  ghost predicate EmailPart(x: string) {
    |x| > 0 && forall k :: 0 <= k < |x| ==> EmailChar(x[k])
  }

  /** The e-mail pattern read as its concatenation: `local@d1.d2`, each part
      a non-empty run of `[^\s@]`. This is the reference `EmailText` is proved
      against. */
  ghost predicate EmailShape(s: string) {
    exists l, d1, d2 :: EmailPart(l) && EmailPart(d1) && EmailPart(d2) && s == l + "@" + d1 + "." + d2
  }

  /** `pattern.test(value)`. */
  predicate Matches(p: Pattern, s: string) {
    match p
    case LettersAndSpaces => NameText(s)
    case TenDigits => MobileText(s)
    case EmailAddress => EmailText(s)
  }

  /** `validateField`: look up the rule for the field's key and check the
      trimmed value against it, in the source's order: no rule, required and
      empty, optional and empty, minimum length, pattern. */
  function ValidateField(f: Field): (v: Verdict)
    ensures RuleFor(FieldKey(f)).None? ==> v == Valid
    ensures v.Invalid? ==>
      && RuleFor(FieldKey(f)).Some?
      && (|| v.message == Capitalize(FieldKey(f)) + " is required"
          || v.message == RuleFor(FieldKey(f)).value.message)
    ensures Trim(f.value) == [] ==>
      (v.Valid? <==> RuleFor(FieldKey(f)).None? || !RuleFor(FieldKey(f)).value.required)
    ensures v.Valid? && RuleFor(FieldKey(f)).Some? && Trim(f.value) != [] ==>
      Matches(RuleFor(FieldKey(f)).value.pattern, Trim(f.value))
  {
    var key := FieldKey(f);
    var value := Trim(f.value);
    match RuleFor(key)
    case None => Valid
    case Some(rule) =>
      if rule.required && value == [] then Invalid(Capitalize(key) + " is required")
      else if !rule.required && value == [] then Valid
      else if rule.minLength > 0 && Utf16Length(value) < rule.minLength then Invalid(rule.message)
      else if !Matches(rule.pattern, value) then Invalid(rule.message)
      else Valid
  }

  /** The marking `validateForm` gives one input: `showError` with the
      verdict's message, or `clearError`. */
  function MarkFor(v: Verdict): (m: Mark)
    ensures m.SuccessMark? <==> v.Valid?
    ensures v.Invalid? ==> m == ErrorMark(v.message)
  {
    match v
    case Valid => SuccessMark
    case Invalid(m) => ErrorMark(m)
  }

  /** The body of `validateForm`'s `forEach`: walk the inputs' verdicts in
      order, mark each input, and clear the running `isValid` flag at the
      first invalid one. */
  method MarkAll(verdicts: seq<Verdict>) returns (ok: bool, marks: seq<Mark>)
    ensures |marks| == |verdicts|
    ensures ok <==> forall i :: 0 <= i < |verdicts| ==> verdicts[i].Valid?
    ensures forall i :: 0 <= i < |verdicts| ==> marks[i] == MarkFor(verdicts[i])
  {
    ok := true;
    marks := [];
    var n := 0;
    while n < |verdicts|
      invariant 0 <= n <= |verdicts|
      invariant |marks| == n
      invariant ok <==> forall i :: 0 <= i < n ==> marks[i].SuccessMark?
      invariant forall i :: 0 <= i < n ==> marks[i] == MarkFor(verdicts[i])
    {
      var m := MarkFor(verdicts[n]);
      ok := ok && m.SuccessMark?;
      assert forall i :: 0 <= i < n ==> (marks + [m])[i] == marks[i];
      assert (marks + [m])[n] == m;
      marks := marks + [m];
      n := n + 1;
    }
  }

  /** `validateForm` over the inputs the form's selector returns: every input
      is validated and receives exactly one marking, error or success, and
      the form is valid iff every input is. */
  method ValidateForm(fields: seq<Field>) returns (ok: bool, marks: seq<Mark>)
    ensures |marks| == |fields|
    ensures ok <==> forall i :: 0 <= i < |fields| ==> ValidateField(fields[i]).Valid?
    ensures forall i :: 0 <= i < |fields| ==>
      (marks[i].SuccessMark? <==> ValidateField(fields[i]).Valid?)
    ensures forall i :: 0 <= i < |fields| && ValidateField(fields[i]).Invalid? ==>
      marks[i] == ErrorMark(ValidateField(fields[i]).message)
  {
    var verdicts := seq(|fields|, i requires 0 <= i < |fields| => ValidateField(fields[i]));
    assert forall i :: 0 <= i < |fields| ==> verdicts[i] == ValidateField(fields[i]);
    ok, marks := MarkAll(verdicts);
  }

  // ---------------------------------------------------------------------
  // The e-mail pattern: positional form against concatenation form

  lemma EmailTextFromShape(s: string, l: string, d1: string, d2: string)
    requires EmailPart(l) && EmailPart(d1) && EmailPart(d2)
    requires s == l + "@" + d1 + "." + d2
    ensures EmailText(s)
  {
    var i := |l|;
    var j := |l| + 1 + |d1|;
    assert s[i] == '@' && s[j] == '.';
    forall k | 0 <= k < |s| && k != i
      ensures EmailChar(s[k])
    {
      if k < i { assert s[k] == l[k]; }
      else if k < j { assert s[k] == d1[k - i - 1]; }
      else if k == j { }
      else { assert s[k] == d2[k - j - 1]; }
    }
  }

  lemma EmailShapeFromText(s: string)
    requires EmailText(s)
    ensures EmailShape(s)
  {
    var i, j :| 0 < i && i + 1 < j && j + 1 < |s| && s[i] == '@' && s[j] == '.'
      && forall k | 0 <= k < |s| && k != i :: EmailChar(s[k]);
    var l, d1, d2 := s[..i], s[i + 1..j], s[j + 1..];
    assert EmailPart(l) by {
      forall k | 0 <= k < |l| ensures EmailChar(l[k]) { assert l[k] == s[k]; }
    }
    assert EmailPart(d1) by {
      forall k | 0 <= k < |d1| ensures EmailChar(d1[k]) { assert d1[k] == s[i + 1 + k]; }
    }
    assert EmailPart(d2) by {
      forall k | 0 <= k < |d2| ensures EmailChar(d2[k]) { assert d2[k] == s[j + 1 + k]; }
    }
    assert s == l + "@" + d1 + "." + d2;
  }

  /** The positional e-mail check accepts exactly the strings of the form
      `local@d1.d2` with no white space or `@` in any part. */
  lemma EmailTextIff(s: string)
    ensures EmailText(s) <==> EmailShape(s)
  {
    if EmailText(s) {
      EmailShapeFromText(s);
    }
    if EmailShape(s) {
      var l, d1, d2 :| EmailPart(l) && EmailPart(d1) && EmailPart(d2) && s == l + "@" + d1 + "." + d2;
      EmailTextFromShape(s, l, d1, d2);
    }
  }

  // ---------------------------------------------------------------------
  // Per-field acceptance

  /** A name is accepted iff, after trimming, it has at least two characters
      and all of them are ASCII letters or white space; an empty one is
      reported as required, any other failure with the rule's message. */
  lemma NameFieldAcceptance(f: Field)
    requires FieldKey(f) == "name"
    ensures ValidateField(f).Valid? <==>
      |Trim(f.value)| >= 2 && forall k :: 0 <= k < |Trim(f.value)| ==>
        IsAsciiLetter(Trim(f.value)[k]) || IsJsSpace(Trim(f.value)[k])
    ensures Trim(f.value) == [] ==> ValidateField(f) == Invalid("Name is required")
    ensures Trim(f.value) != [] && ValidateField(f).Invalid? ==> ValidateField(f) == Invalid(NameMessage)
  {
    var t := Trim(f.value);
    NameRule();
    if NameText(t) {
      NameTextLength(t);
    }
  }

  /** The rule and the required message of the `name` key. */
  lemma NameRule()
    ensures RuleFor("name") == Some(Rule(true, 2, LettersAndSpaces, NameMessage))
    ensures Capitalize("name") + " is required" == "Name is required"
  {
    assert Capitalize("name") == "Name";
  }

  /** Letters and white space all lie in the Basic Multilingual Plane, so a
      name's UTF-16 length is its length in characters. */
  lemma NameTextLength(t: string)
    requires NameText(t)
    ensures Utf16Length(t) == |t|
  {
    assert forall k :: 0 <= k < |t| ==> t[k] as int < 0x10000;
    Utf16LengthBmp(t);
  }

  /** A mobile number is accepted iff, after trimming, it is exactly ten
      ASCII digits. */
  lemma MobileFieldAcceptance(f: Field)
    requires FieldKey(f) == "mobile"
    ensures ValidateField(f).Valid? <==> MobileText(Trim(f.value))
    ensures Trim(f.value) == [] ==> ValidateField(f) == Invalid("Mobile is required")
    ensures Trim(f.value) != [] && ValidateField(f).Invalid? ==> ValidateField(f) == Invalid(MobileMessage)
  {
    assert Capitalize("mobile") == "Mobile";
  }

  /** An e-mail address is optional: an empty (after trimming) one is
      accepted even though the pattern rejects the empty string; a non-empty
      one is accepted iff it has the shape `local@d1.d2`. */
  lemma EmailFieldAcceptance(f: Field)
    requires FieldKey(f) == "email"
    ensures ValidateField(f).Valid? <==> Trim(f.value) == [] || EmailShape(Trim(f.value))
    ensures ValidateField(f).Invalid? ==> ValidateField(f) == Invalid(EmailMessage)
    ensures !Matches(EmailAddress, [])
  {
    EmailTextIff(Trim(f.value));
  }

  /** A five-digit mobile number is rejected with the rule's message. */
  lemma ShortMobileRejected()
    ensures ValidateField(Field("mobile", "", "12345")) == Invalid(MobileMessage)
  {
    TrimOfUntrimmable("12345");
  }

  /** A ten-digit mobile number is accepted. */
  lemma TenDigitMobileAccepted()
    ensures ValidateField(Field("mobile", "", "9876543210")) == Valid
  {
    var s := "9876543210";
    TrimOfUntrimmable(s);
    assert MobileText(s);
    MobileFieldAcceptance(Field("mobile", "", s));
  }

  /** A blank mobile number is reported as required. */
  lemma BlankMobileRequired()
    ensures ValidateField(Field("mobile", "", "  ")) == Invalid("Mobile is required")
  {
    assert AllSpace("  ");
    TrimSpec("  ");
    MobileFieldAcceptance(Field("mobile", "", "  "));
  }

  /** An empty e-mail field, keyed by its id, is accepted. */
  lemma EmptyEmailAccepted()
    ensures ValidateField(Field("", "email", "")) == Valid
  {
  }

  /** `a@b` has no dot after the `@` and is rejected. */
  lemma DotlessEmailRejected()
    ensures ValidateField(Field("email", "", "a@b")) == Invalid(EmailMessage)
  {
    TrimOfUntrimmable("a@b");
  }

  /** `a@b.com` is accepted. */
  lemma DottedEmailAccepted()
    ensures ValidateField(Field("email", "", "a@b.com")) == Valid
  {
    var s := "a@b.com";
    TrimOfUntrimmable(s);
    assert EmailPart("a") && EmailPart("b") && EmailPart("com");
    assert s == "a" + "@" + "b" + "." + "com";
    EmailFieldAcceptance(Field("email", "", s));
  }
}
