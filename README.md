# KUB AUTO form backend: field cleaning, validation and message composition

This project models the request-handling core of the KUB AUTO backend
(`index.js`): the two field cleaners `safe` and `normalizePhone`, the phone
pattern `E164`, the contact email pattern, and the two form endpoints
`POST /api/preorder` and `POST /api/contact`. Each endpoint is modelled as a
pure decision:

- a silent accept for the `companyWebsite` honeypot;
- a 400 rejection with its fixed reason;
- or exactly one outbound message.

A second function, `Respond`, turns the decision into the reply the client
gets. The reply depends on whether the email provider's `send` resolved or
threw.

Modules, one per file:

- `JsText` (`jstext.dfy`): the JavaScript string operations the handlers use.
  - The whitespace set shared by `\s` and `String.prototype.trim`.
  - A global character-class `replace(..., "")`.
  - `slice(0, n)`, `trimStart`, `trimEnd` and `trim`.
  - Lemmas that characterise the result exactly: filtering distributes over
    concatenation; trimming a whitespace-framed trimmed string gives it back;
    every string is its trim framed by whitespace.
- `JsValue` (`jsvalue.dfy`): the JSON values a request field can hold.
  - Their truthiness.
  - `String(v)`, including decimal printing of integers, proved to read back
    as the same number.
  - The `??` and `||` fallbacks, and exactly where the two differ.
- `Fields` (`fields.dfy`): `safe` and `normalizePhone`.
- `Patterns` (`patterns.dfy`): recognisers for the phone and email regular
  expressions. Each is proved to accept exactly the strings that a direct
  description of its pattern accepts.
- `Handlers` (`handlers.dfy`): request bodies, decisions, replies and both
  endpoints.
- `Scenarios` (`scenarios.dfy`): concrete requests and what the model
  answers to them.

Strings hold characters of the Basic Multilingual Plane outside the
surrogate range. For those, one character is one UTF-16 code unit, the unit
that `.length` and `.slice` count.

The provider's `send` becomes an input: `Resolved` or `Threw`. The handlers
await the promise and ignore its value. A send that resolves with an error
object, rather than throwing, is therefore still answered 200 `{ ok: true }`.
The model keeps that behaviour: `Respond` looks only at how the send ended.

The recipient `TO_EMAIL` (`index.js:10`) is a parameter `to` of both
handlers, because it comes from the process environment.

## Model

| member | source | states |
|---|---|---|
| JsText.IsWhitespace | index.js:50-52 | the ECMAScript WhiteSpace and LineTerminator set used by `\s` and `trim`; its uses are stated by `JsText.TrimStart`, `JsText.TrimEnd` and `Fields.NormalizePhone` |
| JsText.Filter | index.js:50-52 | a global class removal keeps only characters the class does not match, and never lengthens the string |
| JsText.FilterMembership | index.js:50 | a character is in the result exactly when it is in the input and not matched by the class |
| JsText.FilterKeepsAll | index.js:52 | removing a class from a string with no character in it changes nothing |
| JsText.FilterAppend | index.js:50 | removing a class from `a + b` is removing it from `a` and from `b` and joining |
| JsText.FilterIgnoresTrim | index.js:50 | when the removed class contains all whitespace, trimming first makes no difference |
| JsText.Take | index.js:52 | `slice(0, n)` is the prefix of length `min(n, length)` |
| JsText.TrimStart | index.js:52 | `trimStart` drops exactly the leading whitespace run and leaves a suffix that starts with non-whitespace |
| JsText.TrimEnd | index.js:52 | `trimEnd` drops exactly the trailing whitespace run and leaves a prefix that ends with non-whitespace |
| JsText.Trim | index.js:52 | `trim` gives a string with no whitespace at either end, no longer than the input, with no new characters |
| JsText.TrimExact | index.js:85 | trimming `a + t + b`, where `a` and `b` are all whitespace and `t` has none at its ends, gives exactly `t` |
| JsText.TrimDecomposes | index.js:52 | every string is its trim with a whitespace run before and after |
| JsText.TrimTrimmed | index.js:52 | trimming a string with no whitespace at its ends changes nothing |
| JsText.TrimPrefix | index.js:52 | the trim of a prefix is a prefix of the trim |
| JsValue.Truthy | index.js:50 | JavaScript truthiness of a field value; stated by `JsValue.NullishVersusOrElse` and `Handlers.HoneypotSilences` |
| JsValue.Nullish | index.js:52 | `v ?? d`; `JsValue.NullishVersusOrElse` states where it differs from `\|\|`, and `Fields.Safe` states the empty result for `undefined` and `null` |
| JsValue.OrElse | index.js:50 | `v \|\| d`; stated by `JsValue.NullishVersusOrElse` and by `Fields.NormalizePhone` (a falsy value gives "") |
| JsValue.Digits | index.js:52 | the decimal digits of a natural number: non-empty, ASCII digits only, with a leading zero only for 0 |
| JsValue.DigitsValue | index.js:52 | the printed digits read back as the same number |
| JsValue.ToJsString | index.js:52 | `String(v)` returns a string unchanged and prints an integer as its digits, with a `-` sign when negative |
| JsValue.NullishVersusOrElse | index.js:50-52 | `v ?? ""` and `v \|\| ""` differ exactly for `false` and `0` |
| Fields.NotPhoneSeparator | index.js:50 | the characters `[()\s-]` does not match; `Fields.NormalizePhone` states that none of the matched characters remains |
| Fields.Safe | index.js:52 | `safe(v, max)` fits the limit, holds no carriage return, has no whitespace at either end, and is empty for `undefined` and `null` |
| Fields.SafeKeepsClean | index.js:52 | a string that is already clean and within the limit passes through `safe` unchanged |
| Fields.SafeIdempotent | index.js:52 | applying `safe` twice with the same limit is applying it once |
| Fields.SafeWiderLimitExtends | index.js:65-71 | with a smaller limit, `safe` returns a prefix of what a larger limit returns (the subject's make is a prefix of the body's) |
| Fields.SafePrints | index.js:52 | any defined, non-null value is cleaned as the string `String` prints for it |
| Fields.NormalizePhone | index.js:50 | `normalizePhone` leaves no `(`, `)`, `-` or whitespace; it is the separator removal on `String(v \|\| "")` with the trim making no difference; a falsy value gives "" |
| Fields.NormalizePhoneOfText | index.js:50 | a string phone field is normalised by removing the separators from its own text |
| Fields.DefaultsDiffer | index.js:50-52 | `0` and `false` are dropped by `normalizePhone` but printed by `safe` |
| Patterns.IsE164 | index.js:51 | the phone recogniser; `Patterns.E164MatchesPattern` proves it accepts exactly what the pattern matches |
| Patterns.E164MatchesPattern | index.js:51 | the phone recogniser accepts exactly the strings matched by `^\+?[1-9]\d{7,14}$` |
| Patterns.IndexOf | index.js:113 | the position of the first occurrence of a character, or the length when there is none |
| Patterns.IsEmailShape | index.js:113 | the email recogniser; `Patterns.EmailShapeMatchesPattern` proves it accepts exactly what the pattern matches |
| Patterns.EmailShapeMatchesPattern | index.js:113 | the email recogniser accepts exactly the strings matched by `^[^\s@]+@[^\s@]+\.[^\s@]+$` |
| Handlers.BodyOf | index.js:57 | `req.body \|\| {}` (also index.js:104); a missing body reads every field as `undefined`, which `Fields.Safe` and `Fields.NormalizePhone` turn into "" |
| Handlers.Respond | index.js:87-99 | one send attempt exactly for a dispatch; 200 `{ok:true}` for a silent accept or a resolved send; 400 with the reason for a rejection; 500 "Failed to send email" when the send threw |
| Handlers.PreorderSubject | index.js:65 | the pre-order subject starts with `KUB AUTO Pre-Order: `, holds no carriage return and is at most 194 characters |
| Handlers.PreorderSubjectFields | index.js:65-73 | the subject is the prefix, then make and model cut to 80 and year cut to 10 by `safe`, each a prefix of the same field in the body text |
| Handlers.CleanPreorder | index.js:71-84 | every pre-order field the body template reads is clean and within its own limit |
| Handlers.PreorderLines | index.js:67-84 | the labelled pre-order lines are non-empty and have no whitespace at their ends |
| Handlers.PreorderTextShape | index.js:67-85 | the trimmed pre-order text is the labelled lines, then a space and the email, or ends at `- Email:` when the email is empty |
| Handlers.FramedTrim | index.js:67-85 | the trim removes only the template's opening newline and closing space and newline |
| Handlers.PreorderText | index.js:67-85 | the pre-order template, then `trim`; its value is stated by `Handlers.PreorderTextShape` |
| Handlers.DecidePreorder | index.js:60-93 | honeypot, then phone check, then one message; stated by `Handlers.PreorderPhoneGate`, `Handlers.PreorderDispatched` and `Handlers.HoneypotSilences` |
| Handlers.HandlePreorder | index.js:55-100 | `POST /api/preorder`; stated by `Handlers.PreorderPhoneGate`, `Handlers.PreorderMessage`, `Handlers.HoneypotSilences` and `Handlers.ProviderFailureIsServerError` |
| Handlers.PreorderPhoneGate | index.js:62-63 | without the honeypot, a pre-order is answered 400 "Invalid phone format" and sends nothing exactly when the normalised phone fails the phone pattern; otherwise one message goes out |
| Handlers.PreorderDispatched | index.js:57-93 | a pre-order that sends anything passed the honeypot and phone checks, and sends the composed message |
| Handlers.PreorderMessage | index.js:87-93 | a sent pre-order message has the fixed sender, the configured recipient, the raw email as reply-to when truthy, the subject, and the labelled text carrying the normalised phone, which matches the phone pattern |
| Handlers.CleanContact | index.js:108-110 | name, email and message are clean and within 140, 200 and 3000 characters |
| Handlers.ContactLetter | index.js:118-126 | the labelled contact text without the framing newlines; stated by `Handlers.ContactLetterEndsWithMessage` |
| Handlers.ContactText | index.js:118-127 | the contact template, then `trim`; stated by `Handlers.ContactTextShape` |
| Handlers.ContactTextShape | index.js:118-127 | when the message has no whitespace at its ends, the trim removes only the framing newlines |
| Handlers.ContactLetterEndsWithMessage | index.js:125-126 | the contact letter ends with the whole sanitised message |
| Handlers.ContactSubject | index.js:116 | the contact subject is `KUB AUTO Contact: ` followed by exactly the name (from position 18 on), and holds a carriage return only if the name does |
| Handlers.CheckContact | index.js:112-135 | the ordered contact checks and the composed message; stated by `Handlers.ContactFirstFailureWins` and `Handlers.ContactMessage` |
| Handlers.DecideContact | index.js:106-135 | honeypot, then the ordered checks; stated by `Handlers.ContactRequest` and `Handlers.HoneypotSilences` |
| Handlers.HandleContact | index.js:102-142 | `POST /api/contact`; stated by `Handlers.ContactRequest`, `Handlers.HoneypotSilences` and `Handlers.ProviderFailureIsServerError` |
| Handlers.ContactFirstFailureWins | index.js:112-114 | the contact checks run in order and the first failure wins; a message is composed exactly when the name is non-empty, the email matches the pattern and the message has at least 10 characters |
| Handlers.ContactMessage | index.js:116-135 | a composed contact message has the fixed sender, the configured recipient, the sanitised email as reply-to, the subject and the untrimmed letter |
| Handlers.ContactRequest | index.js:104-114 | without the honeypot, only the sanitised fields decide, and a message is sent exactly when all three checks pass |
| Handlers.HoneypotSilences | index.js:57-60 | a truthy `companyWebsite` is answered 200 `{ok:true}` by both endpoints (index.js:106 for contact), with nothing sent |
| Handlers.ProviderFailureIsServerError | index.js:96-99 | a send that throws after the checks pass is answered 500 "Failed to send email" after exactly one attempt, on both endpoints |
| Scenarios.FormattedPhoneDigits | index.js:50 | removing the separators from `+1 (234) 567-8901` leaves `+12345678901` |
| Scenarios.InternationalNumberMatches | index.js:51 | `+12345678901` matches the phone pattern |
| Scenarios.FormattedPhoneAccepted | index.js:50-51 | `+1 (234) 567-8901` normalises to `+12345678901`, which matches the phone pattern |
| Scenarios.FormattedPhoneOrderSent | index.js:62-93 | a pre-order with phone `+1 (234) 567-8901` and no honeypot sends exactly one message |
| Scenarios.ShortNumber | index.js:50-51 | `12345` has no separators and does not match the phone pattern |
| Scenarios.ShortPhoneRejected | index.js:62-63 | a pre-order with phone `12345` is answered 400 "Invalid phone format" and sends nothing |
| Scenarios.EmptyNameRejected | index.js:108-112 | a contact with an empty name is answered 400 "Name required" and sends nothing |
| Scenarios.ShortText | index.js:110 | `short` passes through `safe` unchanged and is shorter than 10 characters |
| Scenarios.ShortMessageRejected | index.js:110-114 | a contact with a valid name and email and the message `short` is answered 400 "Message too short" and sends nothing |

## Left out

- Express setup is not modelled: CORS and its origin list, the JSON body parser with its 1 MB limit, `/health`, `app.listen`, and the port. These are configuration and I/O, not request logic.
- The `RESEND_API_KEY` warning and all `console` logging are left out. They are output only.
- `TO_EMAIL` and its default address are not modelled. Environment reads are outside a pure model, so the recipient is a parameter.
- The Resend client is not modelled. `SendResult` stands for how the awaited call ended, and the value it resolves with is not modelled because the handlers ignore it.
- Body values are `undefined`, `null`, booleans, safe integers and strings only. Objects, arrays, fractional numbers, `-0` and numbers outside the safe-integer range are left out, so are their `String` renderings ("[object Object]", comma-joined arrays, exponent forms) and the fact that an object is always truthy. A body parsed as a top-level JSON array is also left out.
- Characters outside the Basic Multilingual Plane (emoji, for example) and lone surrogates are not represented. JavaScript counts such a character as two code units, so the model does not cover length checks or `slice` limits on such text. For example, the 10-unit message of five emoji passes the contact length check in the source, but the model cannot express it.
- The default `max = 5000` of `safe` is not modelled because every call site passes a limit.
- An exception thrown while building a message (for example a throwing `toString`) cannot occur for the modelled values, so the 500 reply appears only when the send throws.
- Handlers.PreorderSubject: only `\r` is removed, so the subject may still contain `\n`. The contract states no line-break-free subject, because the source does not promise one.
- Handlers.ContactSubject: the same applies; a name containing `\n` puts `\n` into the subject.
