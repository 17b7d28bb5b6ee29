/** Lead capture: the records the submit handlers build from form values,
    the fixed message templates, and the `wa.me` deep link each message is
    sent through (`ModalManager.openWhatsApp`, `submitToWhatsApp`, the
    submit handlers and the pre-registration handler). */
module Leads {
  import opened Wrappers
  import opened JsText
  import opened UriComponent
  import Validation
  import PageState

  /** The destination number of every deep link. */
  const WhatsAppNumber := "918857090799"

  /** The message `openWhatsApp` falls back to for an unknown request type. */
  const DefaultMessage := "Hello! " + "I am interested in Runwal The Central Park. " + "Please provide more details."

  const LinkBase := "https://wa.me/"
  const TextQuery := "?text="

  /** `https://wa.me/${number}?text=${encodeURIComponent(message)}`. */
  function DeepLink(number: string, message: string): string {
    LinkBase + number + TextQuery + Encode(message)
  }

  /** The first position of `c` in `s`, if any. */
  function IndexOf(s: string, c: char): (r: Option<nat>)
    ensures r.Some? ==> r.value < |s| && s[r.value] == c && forall k :: 0 <= k < r.value ==> s[k] != c
    ensures r.None? ==> forall k :: 0 <= k < |s| ==> s[k] != c
  {
    if s == [] then None
    else if s[0] == c then Some(0)
    else match IndexOf(s[1..], c)
      case None => None
      case Some(i) => Some(i + 1)
  }

  /** What the messaging service reads from a deep link: the number in the
      path and the decoded `text` parameter. */
  function ParseDeepLink(url: string): Option<(string, string)> {
    if |url| >= |LinkBase| && url[..|LinkBase|] == LinkBase then
      var rest := url[|LinkBase|..];
      match IndexOf(rest, '?')
      case None => None
      case Some(q) =>
        var query := rest[q..];
        if |query| >= |TextQuery| && query[..|TextQuery|] == TextQuery then
          match Decode(query[|TextQuery|..])
          case None => None
          case Some(m) => Some((rest[..q], m))
        else None
    else None
  }

  /** A number without `?` and any message are read back exactly from the
      deep link built from them. */
  lemma DeepLinkRoundTrip(number: string, message: string)
    requires forall k :: 0 <= k < |number| ==> number[k] != '?'
    ensures ParseDeepLink(DeepLink(number, message)) == Some((number, message))
  {
    var query := TextQuery + Encode(message);
    var rest := number + query;
    DeepLinkParts(number, message);
    FirstQueryMark(number, query);
    assert rest[|number|..] == query;
    assert rest[..|number|] == number;
    assert query[..|TextQuery|] == TextQuery;
    assert query[|TextQuery|..] == Encode(message);
    DecodeEncode(message);
  }

  /** A deep link is the base followed by the number and the query. */
  lemma DeepLinkParts(number: string, message: string)
    ensures |DeepLink(number, message)| >= |LinkBase|
    ensures DeepLink(number, message)[..|LinkBase|] == LinkBase
    ensures DeepLink(number, message)[|LinkBase|..] == number + (TextQuery + Encode(message))
  {
    var url := DeepLink(number, message);
    assert url == LinkBase + (number + (TextQuery + Encode(message)));
  }

  /** The first `?` after a `?`-free number is the one that follows it. */
  lemma FirstQueryMark(number: string, query: string)
    requires forall k :: 0 <= k < |number| ==> number[k] != '?'
    requires |query| > 0 && query[0] == '?'
    ensures IndexOf(number + query, '?') == Some(|number|)
  {
    var rest := number + query;
    assert rest[|number|] == '?';
    assert forall k :: 0 <= k < |number| ==> rest[k] == number[k];
  }

  // ---------------------------------------------------------------------
  // openWhatsApp

  /** The request types `openWhatsApp` has a template for. */
  datatype RequestType =
    PaymentSchedule | ViewSkyClub | VisitSchedule | Enquiry | CostSheet | EBrochure | FloorPlans | DiscountCode

  /** The `case` label of each request type. */
  function RequestName(r: RequestType): string {
    match r
    case PaymentSchedule => "payment"
    case ViewSkyClub => "viewSky"
    case VisitSchedule => "schedule"
    case Enquiry => "enquire"
    case CostSheet => "costSheet"
    case EBrochure => "brochure"
    case FloorPlans => "floorplans"
    case DiscountCode => "token"
  }

  /** The request type whose `case` label is `kind`, if any. */
  function RequestNamed(kind: string): (r: Option<RequestType>)
    ensures r.Some? ==> RequestName(r.value) == kind
    ensures r.None? ==> forall t: RequestType :: RequestName(t) != kind
  {
    if kind == "payment" then Some(PaymentSchedule)
    else if kind == "viewSky" then Some(ViewSkyClub)
    else if kind == "schedule" then Some(VisitSchedule)
    else if kind == "enquire" then Some(Enquiry)
    else if kind == "costSheet" then Some(CostSheet)
    else if kind == "brochure" then Some(EBrochure)
    else if kind == "floorplans" then Some(FloorPlans)
    else if kind == "token" then Some(DiscountCode)
    else None
  }

  /** A request message: a bold heading, a blank line, and the request. */
  function Request(heading: string, body: string): (m: string)
    ensures |m| > 0 && m[0] == '*'
  {
    "*" + heading + "*\n\n" + body
  }

  /** The request sentence of each template. */
  const PaymentScheduleText := "I would like to receive the payment schedule details for Runwal The Central Park."
  const ViewSkyClubText := "I would like to receive the View Sky Club plan for Runwal The Central Park."
  const VisitScheduleText := "I would like to schedule visit for Runwal The Central Park."
  const EnquiryText := "I would like to enquire details for Runwal The Central Park."
  const CostSheetText := "I would like to receive the cost sheet details for Runwal The Central Park."
  const EBrochureText := "I would like to receive the e-brochure for Runwal The Central Park."
  const FloorPlansText := "I would like to receive detailed floor plans including Master Plan, Floor Plans, "
    + "Refuge Plans, and Unit Plans with dimensions for Runwal The Central Park."
  const DiscountCodeText := "I would like to receive the discount code for Runwal The Central Park."

  /** The fixed message of each request type. */
  function RequestTemplate(r: RequestType): (m: string)
    ensures |m| > 0 && m[0] == '*'
  {
    match r
    case PaymentSchedule => Request("Payment Schedule Request", PaymentScheduleText)
    case ViewSkyClub => Request("View Sky Club  Request", ViewSkyClubText)
    case VisitSchedule => Request("Schedule Request", VisitScheduleText)
    case Enquiry => Request("Enquire  Request", EnquiryText)
    case CostSheet => Request("Cost Sheet Request", CostSheetText)
    case EBrochure => Request("E-Brochure Request", EBrochureText)
    case FloorPlans => Request("Floor Plans Request", FloorPlansText)
    case DiscountCode => Request("Discount Code Request", DiscountCodeText)
  }

  /** The `switch` of `openWhatsApp`: the request type's template, or the
      default greeting for a type without one. */
  function RequestMessage(kind: string): string {
    match RequestNamed(kind)
    case Some(r) => RequestTemplate(r)
    case None => DefaultMessage
  }

  /** `openWhatsApp(type)`: the URL handed to `window.open`. The recipient
      reads back the configured number and the request type's message, which
      is the default greeting exactly for the types without a template. */
  function OpenWhatsApp(kind: string): (url: string)
    ensures ParseDeepLink(url) == Some((WhatsAppNumber, RequestMessage(kind)))
    ensures RequestNamed(kind).None? ==> ParseDeepLink(url) == Some((WhatsAppNumber, DefaultMessage))
    ensures RequestNamed(kind).Some? ==>
      ParseDeepLink(url) == Some((WhatsAppNumber, RequestTemplate(RequestNamed(kind).value)))
      && ParseDeepLink(url).value.1 != DefaultMessage
  {
    DefaultOnlyForUnknownTypes(kind);
    DeepLinkRoundTrip(WhatsAppNumber, RequestMessage(kind));
    DeepLink(WhatsAppNumber, RequestMessage(kind))
  }

  /** The default greeting is sent exactly for the types without a template:
      every template opens with a bold heading, the greeting with `Hello!`. */
  lemma DefaultOnlyForUnknownTypes(kind: string)
    ensures RequestMessage(kind) == DefaultMessage <==> RequestNamed(kind).None?
  {
    match RequestNamed(kind)
    case Some(r) =>
      GreetingOpensWithHello();
      assert RequestTemplate(r)[0] != DefaultMessage[0];
    case None =>
  }

  /** The default greeting opens with `Hello!`. */
  lemma GreetingOpensWithHello()
    ensures |DefaultMessage| > 0 && DefaultMessage[0] == 'H'
  {
  }

  // ---------------------------------------------------------------------
  // Lead records

  /** The `type` of a lead record. */
  datatype LeadKind = ScheduleVisit | CostSheetRequest | GeneralEnquiry | PreRegistration

  /** The `data` object a submit handler builds (its timestamp is left out). */
  datatype Lead = Lead(
    kind: LeadKind,
    name: string,
    mobile: string,
    email: string,
    date: string,
    requirements: string,
    message: string)

  /** `value || fallback` on strings: the empty string is falsy. */
  function OrDefault(value: string, fallback: string): (r: string)
    ensures value != "" ==> r == value
    ensures value == "" ==> r == fallback
  {
    if value != "" then value else fallback
  }

  /** The record of the site-visit form: a missing e-mail reads
      `Not provided` and missing requirements read `None`. Values are taken
      as typed, untrimmed. */
  function ScheduleLead(name: string, mobile: string, email: string, date: string, requirements: string): (r: Lead)
    ensures r.kind == ScheduleVisit && r.name == name && r.mobile == mobile && r.date == date
    ensures r.email != "" && r.requirements != "" && r.message == ""
    ensures email != "" ==> r.email == email
    ensures email == "" ==> r.email == "Not provided"
    ensures requirements != "" ==> r.requirements == requirements
    ensures requirements == "" ==> r.requirements == "None"
  {
    Lead(ScheduleVisit, name, mobile, OrDefault(email, "Not provided"), date, OrDefault(requirements, "None"), "")
  }

  /** The record of the cost-sheet form: the e-mail is kept as typed, even
      when empty, and there is no date, requirement or message. */
  function CostSheetLead(name: string, mobile: string, email: string): (r: Lead)
    ensures r.kind == CostSheetRequest && r.name == name && r.mobile == mobile && r.email == email
    ensures r.date == "" && r.requirements == "" && r.message == ""
  {
    Lead(CostSheetRequest, name, mobile, email, "", "", "")
  }

  /** The record of the enquiry form: a missing e-mail reads `Not provided`;
      the free-text message is kept. */
  function EnquiryLead(name: string, mobile: string, email: string, message: string): (r: Lead)
    ensures r.kind == GeneralEnquiry && r.name == name && r.mobile == mobile && r.message == message
    ensures r.email != "" && (email != "" ==> r.email == email)
    ensures email == "" ==> r.email == "Not provided"
    ensures r.date == "" && r.requirements == ""
  {
    Lead(GeneralEnquiry, name, mobile, OrDefault(email, "Not provided"), "", "", message)
  }

  /** The record of the pre-registration form: only a name and a number. */
  function PreRegistrationLead(name: string, mobile: string): (r: Lead)
    ensures r.kind == PreRegistration && r.name == name && r.mobile == mobile
    ensures r.email == "" && r.date == "" && r.requirements == "" && r.message == ""
  {
    Lead(PreRegistration, name, mobile, "", "", "", "")
  }

  // ---------------------------------------------------------------------
  // Message templates

  /** The lines of the message `submitToWhatsApp` builds for a dialog type:
      a heading, a blank line, and one labelled line per field. A type the
      `switch` does not list leaves the message empty, a single empty line. */
  function TemplateLines(d: Lead, kind: string): (ls: seq<string>)
    ensures |ls| >= 1
  {
    if kind == "schedule" then
      ["*Site Visit Request*", "", "Name: " + d.name, "Mobile: " + d.mobile, "Email: " + d.email,
       "Preferred Date: " + d.date, "Requirements: " + d.requirements]
    else if kind == "costSheet" then
      ["*Cost Sheet Request*", "", "Name: " + d.name, "Mobile: " + d.mobile, "Email: " + d.email]
    else if kind == "enquire" then
      ["*General Enquiry*", "", "Name: " + d.name, "Mobile: " + d.mobile, "Email: " + d.email,
       "Message: " + d.message]
    else [""]
  }

  /** The message `submitToWhatsApp` builds: the template's lines joined by
      line feeds, as the template literal writes them. */
  function SubmitMessage(d: Lead, kind: string): string {
    JoinLines(TemplateLines(d, kind))
  }

  /** The closing line of the pre-registration message. */
  const PreRegistrationRequest := "I would like to pre-register for a 1 Lakh " + "discount on Runwal The Central Park."

  /** The closing line holds no line feed. */
  lemma PreRegistrationRequestSingleLine()
    ensures NoNewline(PreRegistrationRequest)
  {
    var a, b := "I would like to pre-register for a 1 Lakh ", "discount on Runwal The Central Park.";
    assert '\n' !in a && '\n' !in b;
    NoNewlineConcat(a, b);
  }

  /** The lines of the pre-registration handler's message. */
  function PreRegistrationLines(d: Lead): seq<string> {
    ["*Pre-Registration Request*", "", "Name: " + d.name, "Mobile: " + d.mobile, "", PreRegistrationRequest]
  }

  /** The message the pre-registration handler builds. */
  function PreRegistrationMessage(d: Lead): string {
    JoinLines(PreRegistrationLines(d))
  }

  /** The fields a template interpolates hold no line feed. */
  predicate SingleLineFields(d: Lead) {
    NoNewline(d.name) && NoNewline(d.mobile) && NoNewline(d.email) && NoNewline(d.date)
    && NoNewline(d.requirements) && NoNewline(d.message)
  }

  lemma NoNewlineConcat(a: string, b: string)
    requires NoNewline(a) && NoNewline(b)
    ensures NoNewline(a + b)
  {
    assert forall k :: |a| <= k < |a + b| ==> (a + b)[k] == b[k - |a|];
  }

  /** When no field holds a line feed, splitting a sent message at line
      feeds gives back the template's lines, so each field value stands
      verbatim after its label on a line of its own. */
  lemma SubmitMessageLines(d: Lead, kind: string)
    requires SingleLineFields(d)
    ensures Lines(SubmitMessage(d, kind)) == TemplateLines(d, kind)
    ensures kind !in {"schedule", "costSheet", "enquire"} ==> SubmitMessage(d, kind) == ""
  {
    NoNewlineConcat("Name: ", d.name);
    NoNewlineConcat("Mobile: ", d.mobile);
    NoNewlineConcat("Email: ", d.email);
    NoNewlineConcat("Preferred Date: ", d.date);
    NoNewlineConcat("Requirements: ", d.requirements);
    NoNewlineConcat("Message: ", d.message);
    LinesOfJoin(TemplateLines(d, kind));
  }

  /** The same for the pre-registration message, which needs only the name
      and the number to be single lines. */
  lemma PreRegistrationMessageLines(d: Lead)
    requires NoNewline(d.name) && NoNewline(d.mobile)
    ensures Lines(PreRegistrationMessage(d)) == PreRegistrationLines(d)
  {
    NoNewlineConcat("Name: ", d.name);
    NoNewlineConcat("Mobile: ", d.mobile);
    PreRegistrationRequestSingleLine();
    LinesOfJoin(PreRegistrationLines(d));
  }

  // ---------------------------------------------------------------------
  // Sending

  /** `submitToWhatsApp(data, type)`: the URL handed to `window.open` and the
      page after the trailing `closeAll`. The recipient reads back the
      message for the type, which is empty for a type the switch does not
      list; every dialog ends up closed either way. */
  function SubmitToWhatsApp(p: PageState.Page, d: Lead, kind: string): (r: (string, PageState.Page))
    ensures ParseDeepLink(r.0) == Some((WhatsAppNumber, SubmitMessage(d, kind)))
    ensures kind !in {"schedule", "costSheet", "enquire"} ==> ParseDeepLink(r.0) == Some((WhatsAppNumber, ""))
    ensures r.1.activeModals == {} && !r.1.modalOverlay && !r.1.scrollLocked
    ensures PageState.SameSidebar(p, r.1)
  {
    DeepLinkRoundTrip(WhatsAppNumber, SubmitMessage(d, kind));
    (DeepLink(WhatsAppNumber, SubmitMessage(d, kind)), PageState.CloseAll(p))
  }

  /** The deep link of the pre-registration handler; the recipient reads
      back the pre-registration message. */
  function PreRegistrationLink(d: Lead): (url: string)
    ensures ParseDeepLink(url) == Some((WhatsAppNumber, PreRegistrationMessage(d)))
  {
    DeepLinkRoundTrip(WhatsAppNumber, PreRegistrationMessage(d));
    DeepLink(WhatsAppNumber, PreRegistrationMessage(d))
  }

  /** A dialog form's submit handler: nothing is sent and nothing changes
      unless every input validates; otherwise the record's message goes out
      through the deep link and every dialog is closed. The spreadsheet
      call never influences the outcome. */
  method SubmitDialogForm(p: PageState.Page, fields: seq<Validation.Field>, d: Lead, kind: string)
    returns (url: Option<string>, q: PageState.Page, marks: seq<Validation.Mark>)
    ensures |marks| == |fields|
    ensures url.Some? <==> forall i :: 0 <= i < |fields| ==> Validation.ValidateField(fields[i]).Valid?
    ensures url.None? ==> q == p
    ensures url.Some? ==>
      && url.value == DeepLink(WhatsAppNumber, SubmitMessage(d, kind))
      && ParseDeepLink(url.value) == Some((WhatsAppNumber, SubmitMessage(d, kind)))
      && q == PageState.CloseAll(p)
  {
    var ok;
    ok, marks := Validation.ValidateForm(fields);
    if !ok {
      return None, p, marks;
    }
    var sent := SubmitToWhatsApp(p, d, kind);
    url, q := Some(sent.0), sent.1;
  }

  /** The pre-registration submit handler: the link goes out iff every input
      validates. */
  method SubmitPreRegistration(fields: seq<Validation.Field>, name: string, mobile: string)
    returns (url: Option<string>, marks: seq<Validation.Mark>)
    ensures |marks| == |fields|
    ensures url.Some? <==> forall i :: 0 <= i < |fields| ==> Validation.ValidateField(fields[i]).Valid?
    ensures url.Some? ==>
      && url.value == DeepLink(WhatsAppNumber, PreRegistrationMessage(PreRegistrationLead(name, mobile)))
      && ParseDeepLink(url.value) == Some((WhatsAppNumber, PreRegistrationMessage(PreRegistrationLead(name, mobile))))
  {
    var ok;
    ok, marks := Validation.ValidateForm(fields);
    if !ok {
      return None, marks;
    }
    url := Some(PreRegistrationLink(PreRegistrationLead(name, mobile)));
  }

  // ---------------------------------------------------------------------
  // The four submit handlers, from form values to the message read back

  /** The site-visit message as script.js:560 writes it for the form's
      values, with the record's defaults spelled out. */
  function SiteVisitLines(name: string, mobile: string, email: string, date: string, requirements: string)
    : seq<string>
  {
    ["*Site Visit Request*", "", "Name: " + name, "Mobile: " + mobile,
     if email == "" then "Email: Not provided" else "Email: " + email,
     "Preferred Date: " + date,
     if requirements == "" then "Requirements: None" else "Requirements: " + requirements]
  }

  /** The cost-sheet message for the form's values; the e-mail is as typed. */
  function CostSheetLines(name: string, mobile: string, email: string): seq<string> {
    ["*Cost Sheet Request*", "", "Name: " + name, "Mobile: " + mobile, "Email: " + email]
  }

  /** The enquiry message for the form's values, with the e-mail default
      spelled out. */
  function EnquiryLines(name: string, mobile: string, email: string, message: string): seq<string> {
    ["*General Enquiry*", "", "Name: " + name, "Mobile: " + mobile,
     if email == "" then "Email: Not provided" else "Email: " + email,
     "Message: " + message]
  }

  /** The pre-registration message for the form's values. */
  function PreRegistrationFormLines(name: string, mobile: string): seq<string> {
    ["*Pre-Registration Request*", "", "Name: " + name, "Mobile: " + mobile, "", PreRegistrationRequest]
  }

  /** What the recipient of the site-visit handler's link reads, for any
      form values: the heading, then name, number, e-mail (`Not provided`
      when empty), date and requirements (`None` when empty), one per line.
      When no value holds a line feed, the lines split back exactly. */
  lemma ScheduleVisitMessage(p: PageState.Page, name: string, mobile: string, email: string,
                             date: string, requirements: string)
    ensures var ls := SiteVisitLines(name, mobile, email, date, requirements);
      var sent := ParseDeepLink(SubmitToWhatsApp(p, ScheduleLead(name, mobile, email, date, requirements), "schedule").0);
      && sent == Some((WhatsAppNumber, JoinLines(ls)))
      && (NoNewline(name) && NoNewline(mobile) && NoNewline(email) && NoNewline(date) && NoNewline(requirements)
          ==> Lines(sent.value.1) == ls)
      && ls[4] == (if email == "" then "Email: Not provided" else "Email: " + email)
      && ls[6] == (if requirements == "" then "Requirements: None" else "Requirements: " + requirements)
  {
    var d := ScheduleLead(name, mobile, email, date, requirements);
    DefaultsSingleLine();
    assert TemplateLines(d, "schedule") == SiteVisitLines(name, mobile, email, date, requirements);
    if NoNewline(name) && NoNewline(mobile) && NoNewline(email) && NoNewline(date) && NoNewline(requirements) {
      SubmitMessageLines(d, "schedule");
    }
  }

  /** What the recipient of the cost-sheet handler's link reads: the heading,
      then name, number and the e-mail as typed, so an empty one leaves the
      line `Email: ` with nothing after it. */
  lemma CostSheetMessage(p: PageState.Page, name: string, mobile: string, email: string)
    ensures var ls := CostSheetLines(name, mobile, email);
      var sent := ParseDeepLink(SubmitToWhatsApp(p, CostSheetLead(name, mobile, email), "costSheet").0);
      && sent == Some((WhatsAppNumber, JoinLines(ls)))
      && (NoNewline(name) && NoNewline(mobile) && NoNewline(email) ==> Lines(sent.value.1) == ls)
      && (email == "" ==> ls[4] == "Email: ")
  {
    var d := CostSheetLead(name, mobile, email);
    if NoNewline(name) && NoNewline(mobile) && NoNewline(email) {
      SubmitMessageLines(d, "costSheet");
    }
  }

  /** What the recipient of the enquiry handler's link reads: the heading,
      then name, number, e-mail (`Not provided` when empty) and the
      free-text message. */
  lemma EnquiryMessage(p: PageState.Page, name: string, mobile: string, email: string, message: string)
    ensures var ls := EnquiryLines(name, mobile, email, message);
      var sent := ParseDeepLink(SubmitToWhatsApp(p, EnquiryLead(name, mobile, email, message), "enquire").0);
      && sent == Some((WhatsAppNumber, JoinLines(ls)))
      && (NoNewline(name) && NoNewline(mobile) && NoNewline(email) && NoNewline(message)
          ==> Lines(sent.value.1) == ls)
      && ls[4] == (if email == "" then "Email: Not provided" else "Email: " + email)
  {
    var d := EnquiryLead(name, mobile, email, message);
    DefaultsSingleLine();
    assert TemplateLines(d, "enquire") == EnquiryLines(name, mobile, email, message);
    if NoNewline(name) && NoNewline(mobile) && NoNewline(email) && NoNewline(message) {
      SubmitMessageLines(d, "enquire");
    }
  }

  /** What the recipient of the pre-registration handler's link reads: the
      heading, name and number, a blank line and the closing request. */
  lemma PreRegistrationHandlerMessage(name: string, mobile: string)
    ensures var ls := PreRegistrationFormLines(name, mobile);
      var sent := ParseDeepLink(PreRegistrationLink(PreRegistrationLead(name, mobile)));
      && sent == Some((WhatsAppNumber, JoinLines(ls)))
      && (NoNewline(name) && NoNewline(mobile) ==> Lines(sent.value.1) == ls)
  {
    if NoNewline(name) && NoNewline(mobile) {
      PreRegistrationMessageLines(PreRegistrationLead(name, mobile));
    }
  }

  /** The two default values hold no line feed, and their labelled lines
      read as one literal each. */
  lemma DefaultsSingleLine()
    ensures NoNewline("Not provided") && NoNewline("None")
    ensures "Email: " + "Not provided" == "Email: Not provided"
    ensures "Requirements: " + "None" == "Requirements: None"
  {
    assert '\n' !in "Not provided" && '\n' !in "None";
  }

  /** `handleScheduleSubmit`: nothing is sent unless the form validates;
      otherwise the site-visit record of the form's values goes out with the
      `schedule` template and every dialog is closed. */
  method HandleScheduleSubmit(p: PageState.Page, fields: seq<Validation.Field>, name: string, mobile: string,
                              email: string, date: string, requirements: string)
    returns (url: Option<string>, q: PageState.Page, marks: seq<Validation.Mark>)
    ensures |marks| == |fields|
    ensures url.Some? <==> forall i :: 0 <= i < |fields| ==> Validation.ValidateField(fields[i]).Valid?
    ensures url.None? ==> q == p
    ensures url.Some? ==>
      && q == PageState.CloseAll(p)
      && url.value == DeepLink(WhatsAppNumber, JoinLines(SiteVisitLines(name, mobile, email, date, requirements)))
      && ParseDeepLink(url.value) == Some((WhatsAppNumber, JoinLines(SiteVisitLines(name, mobile, email, date, requirements))))
  {
    url, q, marks := SubmitDialogForm(p, fields, ScheduleLead(name, mobile, email, date, requirements), "schedule");
    ScheduleVisitMessage(p, name, mobile, email, date, requirements);
  }

  /** `handleCostSheetSubmit`: the same, with the cost-sheet record and
      template. */
  method HandleCostSheetSubmit(p: PageState.Page, fields: seq<Validation.Field>, name: string, mobile: string,
                               email: string)
    returns (url: Option<string>, q: PageState.Page, marks: seq<Validation.Mark>)
    ensures |marks| == |fields|
    ensures url.Some? <==> forall i :: 0 <= i < |fields| ==> Validation.ValidateField(fields[i]).Valid?
    ensures url.None? ==> q == p
    ensures url.Some? ==>
      && q == PageState.CloseAll(p)
      && url.value == DeepLink(WhatsAppNumber, JoinLines(CostSheetLines(name, mobile, email)))
      && ParseDeepLink(url.value) == Some((WhatsAppNumber, JoinLines(CostSheetLines(name, mobile, email))))
  {
    url, q, marks := SubmitDialogForm(p, fields, CostSheetLead(name, mobile, email), "costSheet");
    CostSheetMessage(p, name, mobile, email);
  }

  /** `handleEnquireSubmit`: the same, with the enquiry record and template. */
  method HandleEnquireSubmit(p: PageState.Page, fields: seq<Validation.Field>, name: string, mobile: string,
                             email: string, message: string)
    returns (url: Option<string>, q: PageState.Page, marks: seq<Validation.Mark>)
    ensures |marks| == |fields|
    ensures url.Some? <==> forall i :: 0 <= i < |fields| ==> Validation.ValidateField(fields[i]).Valid?
    ensures url.None? ==> q == p
    ensures url.Some? ==>
      && q == PageState.CloseAll(p)
      && url.value == DeepLink(WhatsAppNumber, JoinLines(EnquiryLines(name, mobile, email, message)))
      && ParseDeepLink(url.value) == Some((WhatsAppNumber, JoinLines(EnquiryLines(name, mobile, email, message))))
  {
    url, q, marks := SubmitDialogForm(p, fields, EnquiryLead(name, mobile, email, message), "enquire");
    EnquiryMessage(p, name, mobile, email, message);
  }

  /** The sample site visit: name `Asha`, number `9876543210`, date
      `2024-05-01`, no e-mail and no requirements. */
  function SampleVisit(): Lead {
    ScheduleLead("Asha", "9876543210", "", "2024-05-01", "")
  }

  /** The sample's record has the defaults filled in, and it is single-line. */
  lemma SampleVisitRecord()
    ensures SampleVisit() == Lead(ScheduleVisit, "Asha", "9876543210", "Not provided", "2024-05-01", "None", "")
    ensures SingleLineFields(SampleVisit())
  {
    var d := SampleVisit();
    assert '\n' !in d.name && '\n' !in d.mobile && '\n' !in d.email;
    assert '\n' !in d.date && '\n' !in d.requirements && '\n' !in d.message;
  }

  /** The recipient of the sample's link reads each value verbatim on its
      own line. */
  lemma SampleSiteVisit()
    ensures Lines(SubmitMessage(SampleVisit(), "schedule")) ==
      ["*Site Visit Request*", "", "Name: Asha", "Mobile: 9876543210",
       "Email: Not provided", "Preferred Date: 2024-05-01", "Requirements: None"]
  {
    SampleVisitRecord();
    SubmitMessageLines(SampleVisit(), "schedule");
    SampleVisitLabels();
  }

  /** The labelled lines of the sample. */
  lemma SampleVisitLabels()
    ensures "Name: " + "Asha" == "Name: Asha"
    ensures "Mobile: " + "9876543210" == "Mobile: 9876543210"
    ensures "Email: " + "Not provided" == "Email: Not provided"
    ensures "Preferred Date: " + "2024-05-01" == "Preferred Date: 2024-05-01"
    ensures "Requirements: " + "None" == "Requirements: None"
  {
  }
}
