# The Central Park landing page, modelled in Dafny

`script.js` drives the landing page of the Runwal The Central Park housing
project. This project models the logic behind that page:

- **Validation.** `FormValidator` holds a three-entry rule table (`name`,
  `mobile`, `email`). `validateField` checks one input against it, and
  `validateForm` checks the whole form and marks each input.
- **Page state.** `ModalManager` opens and closes the three dialogs
  (`open`, `close`, `closeAll`). `SidebarMenu` toggles and closes the mobile
  sidebar. Both write the body's `overflow` style, which is modelled as one
  shared scroll-lock flag.
- **Scroll spy.** `SmoothScroll.updateActiveLink` chooses the section under
  a probe line and highlights the links that point at it.
- **Phone input.** `PhoneFormatter` keeps the digits of what is typed (at
  most ten) and filters key presses.
- **WhatsApp links.** `openWhatsApp`, `submitToWhatsApp` and the
  pre-registration handler build a `https://wa.me/<number>?text=<message>`
  deep link. The message is encoded with `encodeURIComponent`. The model
  defines that encoding as section 19.2.6 of ECMA-262 and section 2.1 of
  RFC 3986 describe it, together with its decoder. A recipient's reading of
  a link is the decoder applied to the `text` parameter, so every statement
  about a sent message is a round trip: what the recipient reads back is
  exactly the template filled with the record.
- **Lead records.** Each submit handler builds its own record, and the
  defaults differ between them:
  - the site-visit handler turns an empty e-mail into `Not provided` and empty
    requirements into `None`;
  - the cost-sheet handler keeps the e-mail as typed, even when it is empty,
    and leaves the requirements empty;
  - the enquiry handler defaults only the e-mail, to `Not provided`;
  - the pre-registration handler leaves the e-mail empty, and its message
    has no e-mail line.

The modules are:

- `JsText`: JavaScript string behaviour (`trim`, `\s`, UTF-16 `length`,
  `capitalize`, splitting at line feeds).
- `Validation`
- `PageState`
- `ScrollSpy`
- `PhoneInput`
- `UriComponent`
- `Leads`
- `Wrappers`: `Option`.

## Model

| member | source | states |
|---|---|---|
| JsText.TrimSpec | script.js:159 | `trim` leaves no JavaScript white space (WhiteSpace or LineTerminator) at either end, and its result is empty exactly when the value was all white space. |
| JsText.TrimIsSlice | script.js:159 | `trim` removes only white space, and only from the two ends: its result is a contiguous slice of the value with white space on both sides. |
| JsText.TrimIdempotent | script.js:159 | Trimming twice gives the same result as trimming once. |
| JsText.Utf16LengthBmp | script.js:175 | `value.length` equals the number of characters exactly when every character lies in the Basic Multilingual Plane. |
| JsText.CapitalizeShape | script.js:234-236 | `capitalize` keeps the length and every character after the first, and upper-cases a leading lower-case letter. |
| JsText.LinesOfJoin | script.js:560 | Lines free of line feeds, joined by line feeds, split back into exactly the same lines. |
| Validation.ValidateField | script.js:157-190 | A key with no rule is valid. A failure carries either `<Key> is required` or the rule's message. An empty trimmed value is valid iff there is no rule or the rule is optional. A valid non-empty value matches the rule's pattern. |
| Validation.NameFieldAcceptance | script.js:137-190 | A name is accepted iff its trimmed value has at least two characters, all ASCII letters or white space. An empty name reads `Name is required`; any other failure carries the name rule's message. |
| Validation.MobileFieldAcceptance | script.js:137-190 | A mobile number is accepted iff its trimmed value is exactly ten ASCII digits. An empty one reads `Mobile is required`; any other failure carries the mobile rule's message. |
| Validation.EmailFieldAcceptance | script.js:137-190 | An e-mail address is optional: an empty trimmed value is accepted, although the pattern itself rejects the empty string. A non-empty one is accepted iff it has the shape `local@d1.d2`. |
| Validation.EmailTextIff | script.js:151 | The positional reading of `/^[^\s@]+@[^\s@]+\.[^\s@]+$/` agrees with its concatenation reading, in both directions. |
| Validation.MarkAll | script.js:194-206 | Every input gets exactly the marking for its verdict, and the running flag ends true iff every verdict is valid. |
| Validation.ValidateForm | script.js:192-207 | The form is valid iff every input validates. Each input is marked success iff it validates, and otherwise carries its own error message. |
| Validation.ShortMobileRejected | script.js:144-147 | A five-digit number is rejected with the mobile rule's message. |
| Validation.TenDigitMobileAccepted | script.js:144-147 | A ten-digit number is accepted. |
| Validation.BlankMobileRequired | script.js:164-169 | A blank mobile number is reported as `Mobile is required`. |
| Validation.EmptyEmailAccepted | script.js:171-173 | An empty e-mail input, keyed by its `id` because its `name` is empty, is accepted. |
| Validation.DotlessEmailRejected | script.js:149-153 | An address without a dot after the `@` is rejected with the e-mail rule's message. |
| Validation.DottedEmailAccepted | script.js:149-153 | `a@b.com` is accepted. |
| PageState.ModalNamed | script.js:293-297 | A name finds a dialog only if that dialog is stored under it; a name that finds nothing belongs to no dialog. |
| PageState.ModalNamedInverse | script.js:293-297 | Every dialog is found under its own key. |
| PageState.CloseAll | script.js:382-388 | Every dialog is closed, the overlay is hidden and scrolling is unlocked; the sidebar is unchanged. |
| PageState.Open | script.js:363-371 | For one of the three dialog keys, exactly that dialog is open, with the overlay and the scroll lock; any other name changes nothing (an inherited object key is the exception listed under Left out). Open keeps at most one dialog open. |
| PageState.Close | script.js:373-380 | For a known name, only that dialog closes; the overlay is hidden and scrolling is unlocked regardless of the others. An unknown name changes nothing. |
| PageState.ModalOperationsCoherent | script.js:363-388 | `open` and `closeAll` keep "overlay shown iff a dialog is open, and at most one is". `close` keeps it exactly when it closes the open dialog or none is open. |
| PageState.OpenSwitchesDialog | script.js:363-371 | Opening the enquiry dialog over the visit dialog leaves only the enquiry dialog open. |
| PageState.SidebarToggle | script.js:56-61 | `toggle` flips the sidebar and forces its overlay, the hamburger and the scroll lock to the new value; the dialogs are untouched. |
| PageState.SidebarClose | script.js:63-68 | `close` switches the sidebar, its overlay and the hamburger off and unlocks scrolling; the dialogs are untouched. |
| PageState.ToggleTwice | script.js:56-61 | Toggling twice restores the page iff its sidebar flags were mirrored. |
| PageState.SidebarCloseIdempotent | script.js:63-68 | Closing the sidebar twice is the same as closing it once. |
| PageState.SidebarOpsMirrored | script.js:56-68 | Any sequence of sidebar operations keeps the overlay, hamburger and scroll lock equal to the sidebar's own flag. |
| PageState.ScrollLockLastWriterWins | script.js:56-68 | The scroll lock is shared: closing or toggling shut the sidebar unlocks scrolling while a dialog stays open, and closing a dialog unlocks it while the sidebar stays open. |
| ScrollSpy.LastCovering | script.js:113-120 | The index found is of a section that covers the probe line (top included, bottom excluded) and is followed by no other covering section. No index is found iff no section covers it. |
| ScrollSpy.CurrentIsLastCovering | script.js:113-120 | The chosen id is empty when nothing covers the probe line, and otherwise is the id of the last covering section. |
| ScrollSpy.CurrentAppend | script.js:113-120 | A later section that covers the probe line overrides the choice; one that does not leaves the choice alone. |
| ScrollSpy.UniqueCoveringChosen | script.js:113-120 | When exactly one section covers the probe line, its id is chosen. |
| ScrollSpy.ChooseSection | script.js:110-120 | The `forEach` over the sections ends with the id of the last covering section, or with the empty string. |
| ScrollSpy.Highlight | script.js:122-127 | A link is highlighted iff its `href` is `#` followed by the chosen id. |
| ScrollSpy.UpdateActiveLink | script.js:109-128 | The handler chooses the last covering section and highlights exactly the links that target it. |
| ScrollSpy.HighlightWhenNothingCovers | script.js:122-127 | When no section covers the probe line, exactly the links whose `href` is a bare `#` are highlighted. |
| PhoneInput.DigitsOf | script.js:956 | `replace(/\D/g, '')` leaves only ASCII digits and never lengthens the value. |
| PhoneInput.DigitsOfAppend | script.js:956 | Removing non-digits distributes over concatenation. |
| PhoneInput.DigitsOfIsIdentityIff | script.js:956 | Removing non-digits changes nothing iff the value is all digits. |
| PhoneInput.Sanitize | script.js:956-960 | The input keeps the first `min(10, n)` of the value's `n` digits, in order. |
| PhoneInput.SanitizeIdempotent | script.js:956-960 | Sanitising a sanitised value changes nothing. |
| PhoneInput.SanitizedTenDigitsAccepted | script.js:956-960 | A sanitised value of ten digits passes the mobile rule. |
| PhoneInput.KeyFilterAgreesWithSanitizer | script.js:964 | A one-character key passes the keypress filter iff the input handler would keep its character. |
| PhoneInput.SampleKeys | script.js:964 | `7`, Backspace and Delete pass the filter; `a` and Enter are blocked. |
| UriComponent.Encode | script.js:422 | The encoding is never shorter than the text, and uses only unreserved characters, `%` and upper-case hex digits. |
| UriComponent.DecodeEncode | script.js:422 | Decoding the encoding of any text gives the text back. |
| UriComponent.EncodeIdentityIff | script.js:422 | The encoding leaves a text unchanged iff every character is unreserved. |
| UriComponent.SampleEncodings | script.js:422 | A space, a line feed, `@` and `é` encode as `%20`, `%0A`, `%40` and `%C3%A9`. |
| Leads.DeepLinkRoundTrip | script.js:422 | For a number without `?`, the recipient reads back exactly the number and the message the link was built from. |
| Leads.RequestNamed | script.js:393-417 | A request type is found only under its own `case` label, and an unknown label names no type. |
| Leads.RequestTemplate | script.js:394-417 | Every template opens with a bold heading. |
| Leads.OpenWhatsApp | script.js:390-424 | The recipient reads the configured number and the type's template. For an unknown type they read the default greeting; for a known type, something other than the greeting. |
| Leads.DefaultOnlyForUnknownTypes | script.js:393-420 | The default greeting is sent iff the request type has no template. |
| Leads.ScheduleLead | script.js:439-448 | A site-visit record keeps the name, number and date. An empty e-mail becomes `Not provided` and empty requirements become `None`; given values are kept. |
| Leads.EnquiryLead | script.js:525-534 | An enquiry record keeps the name, number and message. An empty e-mail becomes `Not provided`; a given one is kept. The requirements stay empty. |
| Leads.ScheduleVisitMessage | script.js:439-448 | For any form values, the site-visit link reads back as the heading, a blank line, name, number, e-mail, date and requirements. The e-mail line is `Email: Not provided` when the e-mail field was empty, and the requirements line is `Requirements: None` when the requirements field was empty. When no value holds a line feed the lines split back exactly. |
| Leads.CostSheetMessage | script.js:482-491 | For any form values, the cost-sheet link reads back as heading, name, number and the e-mail as typed, so an empty e-mail leaves the line `Email: ` with nothing after it. |
| Leads.EnquiryMessage | script.js:525-534 | For any form values, the enquiry link reads back as heading, name, number, e-mail (`Email: Not provided` when empty) and `Message: ` followed by the message. |
| Leads.PreRegistrationHandlerMessage | script.js:683-692 | For any name and number, the pre-registration link reads back as heading, name, number, a blank line and the closing request; no e-mail line appears, although the record's e-mail is empty. |
| Leads.SubmitMessageLines | script.js:558-568 | When no field holds a line feed, the sent message splits back into the template's lines, each field on its own line. A type the switch does not list sends the empty message. |
| Leads.PreRegistrationMessageLines | script.js:709 | The pre-registration message splits back into its heading, the name, the number and the closing request. |
| Leads.SubmitToWhatsApp | script.js:555-574 | The recipient reads back the type's message (empty for an unlisted type). Every dialog ends up closed and scrolling unlocked; the sidebar is unchanged. |
| Leads.PreRegistrationLink | script.js:709-711 | The recipient reads back the pre-registration message. |
| Leads.SubmitDialogForm | script.js:426-467 | A dialog form sends a link iff every input validates. When it does not send, the page is unchanged; when it does, every dialog is closed and the link is exactly `https://wa.me/` + number + `?text=` + the encoded message, which the recipient reads back as the record's message. |
| Leads.HandleScheduleSubmit | script.js:426-467 | The visit form sends iff every input validates. An invalid form leaves the page unchanged. A valid one closes every dialog and sends exactly the `https://wa.me/` link of the encoded site-visit lines of the typed values, with the defaults filled in. |
| Leads.HandleCostSheetSubmit | script.js:469-510 | The cost-sheet form sends iff every input validates. An invalid form leaves the page unchanged. A valid one closes every dialog and sends exactly the `https://wa.me/` link of the encoded cost-sheet lines, with the e-mail as typed. |
| Leads.HandleEnquireSubmit | script.js:512-553 | The enquiry form sends iff every input validates. An invalid form leaves the page unchanged. A valid one closes every dialog and sends exactly the `https://wa.me/` link of the encoded enquiry lines, with the e-mail default filled in. |
| Leads.SubmitPreRegistration | script.js:671-715 | The pre-registration form sends a link iff every input validates, and the link is exactly the `https://wa.me/` link of the encoded pre-registration message, which the recipient reads back. |
| Leads.SampleVisitRecord | script.js:439-448 | A site visit with no e-mail and no requirements records `Not provided` and `None`. |
| Leads.SampleSiteVisit | script.js:559-560 | The sample site visit's message reads line by line as heading, blank line, name, number, `Email: Not provided`, date and `Requirements: None`. |

## Left out

- DOM plumbing is not modelled: element lookup, event listeners, class-list calls, error `div`s, button text, `form.reset()` and the success toasts. The marking an input receives is modelled as a value.
- The Google Sheets `fetch` (script.js:243-285) is not modelled. Its result never influences what the handlers do next.
- The timers are not modelled: `debounce`, and the 500 ms `setTimeout` around each send. Every handler is modelled as running to completion at once.
- The `timestamp` field (script.js:447) depends on the clock and is left out of the records.
- `window.open` itself is not modelled. A send is the URL it would be given, read back through the decoder.
- `handleClick`'s smooth scrolling is not modelled.
- The IntersectionObserver animations, the counters, the gallery and the other visual effects are not modelled.
- `ScrollSpy.ScrollPosition`: all measures are integers. `pageYOffset` can be fractional on zoomed pages, and the bars' height is measured once in the constructor (script.js:81); both are taken as parameters.
- `JsText.Capitalize`: upper-cases ASCII letters only. It is only ever applied to the rule keys `name`, `mobile` and `email`.
- Strings throughout the model are sequences of Unicode scalar values, so a lone UTF-16 surrogate cannot be written. In the source one can reach a handler: it passes the e-mail pattern's `[^\s@]`, and `encodeURIComponent` then throws a `URIError` (script.js:570) before `closeAll` (script.js:573). A form that validated would send nothing and leave its dialog open, whereas `Leads.SubmitDialogForm` always sends.
- `PageState.Open`: looks a name up among the three own keys of `this.modals` only. A name inherited from `Object.prototype`, such as `constructor` or `toString`, finds a value that is not a dialog. In the source, `open` then runs `closeAll` (script.js:366) and throws a `TypeError` at script.js:367, so every dialog is already closed. The model leaves the page unchanged. No call site (script.js:306-336) passes such a name. For the same name, `close` throws at script.js:375 before changing anything, which the model's unchanged page matches.
- `Validation.ValidateField`: looks rules up in the three-key table only. In the source, a key such as `constructor` also finds an inherited object property. For that key `!rule` is false, and the later checks read `undefined` fields and return valid. The model returns valid at the first check instead, so the verdict is the same.
- `Validation.ValidateForm`: takes the inputs that `querySelectorAll('input[required], input[name], input[id]')` returns as a sequence. The selector itself is not modelled.
- The three regular expressions of the rule table are modelled as hand-written predicates, not by a regular-expression engine.
- The page's scroll lock is not tied to any one component. The sidebar and the dialogs overwrite the same `overflow` style, and the model keeps that single shared flag (`PageState.ScrollLockLastWriterWins`).
