/**
 * The bodies of the two form endpoints, `POST /api/preorder` (index.js:55-100)
 * and `POST /api/contact` (index.js:102-142), as pure functions. A handler
 * first decides (silent accept, rejection with a reason, or one message to
 * send), then answers according to what the email provider's `send` did:
 * the awaited promise either resolved (its value is ignored) or threw.
 */
module Handlers {
  import opened JsText
  import opened JsValue
  import opened Fields
  import opened Patterns

  /** A parsed JSON request body: property name to value. */
  type Body = map<string, Value>

  /** `req.body`: absent (no JSON body was parsed) or an object. */
  datatype RequestBody = NoBody | Object(props: Body)

  /** `req.body || {}`. */
  function BodyOf(r: RequestBody): Body {
    if r.Object? then r.props else map[]
  }

  /** `b.key`: a missing property reads as `undefined`. */
  function Field(b: Body, key: string): Value {
    if key in b then b[key] else Undefined
  }

  const Sender := "KUB AUTO <onboarding@resend.dev>"
  const PhoneRejected := "Invalid phone format"
  const NameRejected := "Name required"
  const EmailRejected := "Valid email required"
  const MessageRejected := "Message too short"
  const SendFailed := "Failed to send email"

  /** The argument of `resend.emails.send`; `replyTo` is `Undefined` when none is given. */
  datatype Outbound = Outbound(from: string, to: string, replyTo: Value, subject: string, text: string)

  /** What the handler decides before anything is sent. */
  datatype Decision =
    | SilentAccept
    | Reject(reason: string)
    | Dispatch(mail: Outbound)

  /** How the awaited `resend.emails.send(...)` ended. */
  datatype SendResult = Resolved | Threw

  /** `res.json({ ok: true })` or `res.status(code).send(text)`. */
  datatype ReplyBody = OkTrue | PlainText(text: string)
  datatype Reply = Reply(status: nat, body: ReplyBody)

  /** The messages handed to the provider (in order) and the reply sent to the client. */
  datatype Exchange = Exchange(sent: seq<Outbound>, reply: Reply)

  const Ok := Reply(200, OkTrue)

  /**
   * Carrying out a decision: a message is handed to the provider exactly
   * once, and only for a `Dispatch`; the reply is 200 `{ok:true}` for a
   * silent accept or a send that resolved, 400 with the reason for a
   * rejection, and 500 "Failed to send email" when the send threw. There is
   * no retry.
   */
  function Respond(d: Decision, send: SendResult): (x: Exchange)
    ensures |x.sent| <= 1
    ensures x.sent != [] <==> d.Dispatch?
    ensures d.Dispatch? ==> x.sent == [d.mail]
    ensures x.reply == Ok <==> d.SilentAccept? || (d.Dispatch? && send.Resolved?)
    ensures x.reply.status == 400 <==> d.Reject?
    ensures x.reply.status == 500 <==> d.Dispatch? && send.Threw?
    ensures d.Reject? ==> x.reply.body == PlainText(d.reason)
    ensures x.reply.status == 500 ==> x.reply.body == PlainText(SendFailed)
  {
    match d
    case SilentAccept => Exchange([], Ok)
    case Reject(reason) => Exchange([], Reply(400, PlainText(reason)))
    case Dispatch(mail) =>
      Exchange([mail], if send.Resolved? then Ok else Reply(500, PlainText(SendFailed)))
  }

  // ---------------------------------------------------------------- pre-order

  /** `KUB AUTO Pre-Order: {make} {model} ({year})` with make and model cut to 80 and year to 10 characters. */
  function PreorderSubject(b: Body): (s: string)
    ensures |s| <= 194
    ensures '\r' !in s
    ensures "KUB AUTO Pre-Order: " <= s
  {
    var make, model, year := Safe(Field(b, "make"), 80), Safe(Field(b, "model"), 80), Safe(Field(b, "year"), 10);
    SubjectParts(make, model, year);
    "KUB AUTO Pre-Order: " + (make + " " + model + " (" + year + ")")
  }

  lemma SubjectParts(make: string, model: string, year: string)
    requires |make| <= 80 && |model| <= 80 && |year| <= 10
    requires '\r' !in make && '\r' !in model && '\r' !in year
    ensures var s := "KUB AUTO Pre-Order: " + (make + " " + model + " (" + year + ")");
      |s| <= 194 && '\r' !in s && "KUB AUTO Pre-Order: " <= s
  {
  }

  /**
   * The subject carries make, model and year through `safe` with limits 80,
   * 80 and 10, and each is a prefix of the same field as the body template
   * shows it with its wider limit.
   */
  lemma PreorderSubjectFields(b: Body)
    ensures var make, model, year := Safe(Field(b, "make"), 80), Safe(Field(b, "model"), 80), Safe(Field(b, "year"), 10);
      && PreorderSubject(b) == "KUB AUTO Pre-Order: " + (make + " " + model + " (" + year + ")")
      && make <= CleanPreorder(b).make
      && model <= CleanPreorder(b).model
      && year <= CleanPreorder(b).year
  {
    SafeWiderLimitExtends(Field(b, "make"), 80, 120);
    SafeWiderLimitExtends(Field(b, "model"), 80, 120);
    SafeWiderLimitExtends(Field(b, "year"), 10, 20);
  }

  /**
   * The pre-order body fields as the text template reads them, each through
   * `safe` with its own limit; the subject reads make, model and year again
   * with smaller limits.
   */
  datatype PreorderForm = PreorderForm(
    make: string, model: string, year: string, mileage: string, fuelType: string,
    bodyType: string, preferences: string, buyerType: string, buyerName: string,
    address: string, email: string)

  /** A field value as `safe(v, max)` leaves it. */
  predicate Clean(s: string, max: nat) {
    |s| <= max && '\r' !in s && Trimmed(s)
  }

  function CleanPreorder(b: Body): (f: PreorderForm)
    ensures Clean(f.make, 120) && Clean(f.model, 120) && Clean(f.year, 20)
    ensures Clean(f.mileage, 40) && Clean(f.fuelType, 40) && Clean(f.bodyType, 40)
    ensures Clean(f.preferences, 2000) && Clean(f.buyerType, 40) && Clean(f.buyerName, 200)
    ensures Clean(f.address, 400) && Clean(f.email, 200)
  {
    PreorderForm(
      Safe(Field(b, "make"), 120), Safe(Field(b, "model"), 120), Safe(Field(b, "year"), 20),
      Safe(Field(b, "mileage"), 40), Safe(Field(b, "fuelType"), 40), Safe(Field(b, "bodyType"), 40),
      Safe(Field(b, "preferences"), 2000), Safe(Field(b, "buyerType"), 40),
      Safe(Field(b, "buyerName"), 200), Safe(Field(b, "address"), 400), Safe(Field(b, "email"), 200))
  }

  /** The labelled pre-order lines up to and including `- Email:`. */
  function PreorderLines(f: PreorderForm, phone: string): (r: string)
    ensures r != [] && Trimmed(r)
  {
    var r := "PRE-ORDER REQUEST\n\nVehicle:\n- Make: " + (f.make
      + "\n- Model: " + f.model
      + "\n- Year: " + f.year
      + "\n- Mileage: " + f.mileage
      + "\n- Fuel: " + f.fuelType
      + "\n- Body: " + f.bodyType
      + "\n- Preferences: " + f.preferences
      + "\n\nBuyer:\n- Type: " + f.buyerType
      + "\n- Name / Company: " + f.buyerName
      + "\n- Address: " + f.address
      + "\n- Phone: " + phone
      + "\n- Email:");
    assert r[0] == 'P' && r[|r| - 1] == ':';
    r
  }

  /** The pre-order template literal (it opens and closes with a newline), then `.trim()`. */
  function PreorderText(f: PreorderForm, phone: string): string {
    Trim("\n" + PreorderLines(f, phone) + " " + f.email + "\n")
  }

  /**
   * The trim removes only the template's own framing: the text is the
   * labelled lines followed by a space and the sanitised email, or ends at
   * `- Email:` when that email is empty.
   */
  lemma PreorderTextShape(f: PreorderForm, phone: string)
    requires Trimmed(f.email)
    ensures PreorderText(f, phone) == PreorderLines(f, phone) + (if f.email == [] then "" else " " + f.email)
  {
    FramedTrim(PreorderLines(f, phone), f.email);
  }

  /** Trimming `"\n" + lines + " " + e + "\n"` when `lines` and `e` have no whitespace at their ends. */
  lemma FramedTrim(lines: string, e: string)
    requires lines != [] && Trimmed(lines) && Trimmed(e)
    ensures Trim("\n" + lines + " " + e + "\n") == lines + (if e == [] then "" else " " + e)
  {
    var t := lines + (if e == [] then "" else " " + e);
    var tail := if e == [] then " \n" else "\n";
    assert "\n" + lines + " " + e + "\n" == "\n" + t + tail;
    assert t[0] == lines[0];
    assert AllWhitespace("\n") && AllWhitespace(tail);
    TrimExact("\n", t, tail);
  }

  /** The pre-order decision: honeypot, then the phone check, then one message. */
  function DecidePreorder(b: Body, to: string): Decision {
    if Truthy(Field(b, "companyWebsite")) then SilentAccept
    else
      var phone := NormalizePhone(Field(b, "phone"));
      if !IsE164(phone) then Reject(PhoneRejected)
      else Dispatch(Outbound(Sender, to, OrElse(Field(b, "email"), Undefined),
                             PreorderSubject(b), PreorderText(CleanPreorder(b), phone)))
  }

  /** `POST /api/preorder`. */
  function HandlePreorder(r: RequestBody, to: string, send: SendResult): Exchange {
    Respond(DecidePreorder(BodyOf(r), to), send)
  }

  /**
   * Without the honeypot, the pre-order is rejected with 400 "Invalid phone
   * format" exactly when the normalised phone fails the phone pattern, and
   * nothing is sent then; otherwise exactly one message goes out.
   */
  lemma PreorderPhoneGate(r: RequestBody, to: string, send: SendResult)
    requires !Truthy(Field(BodyOf(r), "companyWebsite"))
    ensures var x := HandlePreorder(r, to, send);
      var phone := NormalizePhone(Field(BodyOf(r), "phone"));
      && (x.reply == Reply(400, PlainText(PhoneRejected)) <==> !PhonePattern(phone))
      && (x.sent == [] <==> !PhonePattern(phone))
      && (PhonePattern(phone) ==> |x.sent| == 1)
  {
    E164MatchesPattern(NormalizePhone(Field(BodyOf(r), "phone")));
  }

  /**
   * The message a pre-order sends: fixed sender, the configured recipient,
   * the raw `email` field as reply-to when it is truthy (it is neither
   * sanitised nor checked), the subject template, and the labelled lines
   * whose Phone line carries the normalised phone, which passes the phone
   * pattern.
   */
  lemma PreorderMessage(r: RequestBody, to: string, send: SendResult)
    requires HandlePreorder(r, to, send).sent != []
    ensures var b := BodyOf(r);
      var f := CleanPreorder(b);
      var phone := NormalizePhone(Field(b, "phone"));
      && HandlePreorder(r, to, send).sent
        == [Outbound(Sender, to, if Truthy(Field(b, "email")) then Field(b, "email") else Undefined,
                     PreorderSubject(b),
                     PreorderLines(f, phone) + (if f.email == [] then "" else " " + f.email))]
      && PhonePattern(phone)
      && !Truthy(Field(b, "companyWebsite"))
  {
    var b := BodyOf(r);
    var phone := NormalizePhone(Field(b, "phone"));
    PreorderDispatched(r, to, send);
    PreorderTextShape(CleanPreorder(b), phone);
    E164MatchesPattern(phone);
  }

  /** A pre-order that sends anything passed both gates and sends the composed message. */
  lemma PreorderDispatched(r: RequestBody, to: string, send: SendResult)
    requires HandlePreorder(r, to, send).sent != []
    ensures var b := BodyOf(r);
      var phone := NormalizePhone(Field(b, "phone"));
      && !Truthy(Field(b, "companyWebsite"))
      && IsE164(phone)
      && HandlePreorder(r, to, send).sent
        == [Outbound(Sender, to, OrElse(Field(b, "email"), Undefined),
                     PreorderSubject(b), PreorderText(CleanPreorder(b), phone))]
  {
  }

  // ------------------------------------------------------------------ contact

  /** The three contact fields after `safe` (index.js:108-110). */
  datatype ContactForm = ContactForm(name: string, email: string, message: string)

  function CleanContact(b: Body): (f: ContactForm)
    ensures Clean(f.name, 140) && Clean(f.email, 200) && Clean(f.message, 3000)
  {
    ContactForm(Safe(Field(b, "name"), 140), Safe(Field(b, "email"), 200), Safe(Field(b, "message"), 3000))
  }

  /** The labelled contact text, without the template's framing newlines. */
  function ContactLetter(f: ContactForm): string {
    "CONTACT MESSAGE\n\nFrom:\n- Name: " + (f.name + "\n- Email: " + f.email + "\n\nMessage:\n" + f.message)
  }

  /** The contact template literal, then `.trim()`. */
  function ContactText(f: ContactForm): string {
    Trim("\n" + ContactLetter(f) + "\n")
  }

  /** When the message ends in a non-space character the trim removes only the framing newlines. */
  lemma ContactTextShape(f: ContactForm)
    requires f.message != [] && Trimmed(f.message)
    ensures ContactText(f) == ContactLetter(f)
  {
    var t := ContactLetter(f);
    assert t[0] == 'C';
    ContactLetterEndsWithMessage(f);
    TrimExact("\n", t, "\n");
  }

  /** The letter ends with the sanitised message, unchanged. */
  lemma ContactLetterEndsWithMessage(f: ContactForm)
    ensures |ContactLetter(f)| >= |f.message|
    ensures ContactLetter(f)[|ContactLetter(f)| - |f.message|..] == f.message
  {
    var p := "CONTACT MESSAGE\n\nFrom:\n- Name: " + (f.name + "\n- Email: " + f.email + "\n\nMessage:\n");
    assert (p + f.message)[|p + f.message| - |f.message|..] == f.message;
  }

  /** The contact checks in source order, on the sanitised fields; the first failure wins. */
  function CheckContact(f: ContactForm, to: string): Decision {
    if f.name == [] then Reject(NameRejected)
    else if f.email == [] || !IsEmailShape(f.email) then Reject(EmailRejected)
    else if |f.message| < 10 then Reject(MessageRejected)
    else Dispatch(Outbound(Sender, to, Str(f.email), ContactSubject(f.name), ContactText(f)))
  }

  /** The contact decision: honeypot, then the ordered checks on the sanitised fields. */
  function DecideContact(b: Body, to: string): Decision {
    if Truthy(Field(b, "companyWebsite")) then SilentAccept
    else CheckContact(CleanContact(b), to)
  }

  /** `POST /api/contact`. */
  function HandleContact(r: RequestBody, to: string, send: SendResult): Exchange {
    Respond(DecideContact(BodyOf(r), to), send)
  }

  /** `KUB AUTO Contact: {name}`: 18 characters of prefix, then the name; carriage return free when the name is. */
  function ContactSubject(name: string): (s: string)
    ensures |s| == 18 + |name|
    ensures "KUB AUTO Contact: " <= s
    ensures s[18..] == name
    ensures '\r' in s <==> '\r' in name
  {
    "KUB AUTO Contact: " + name
  }

  /**
   * Contact validation is ordered and the first failure wins: an empty name,
   * then an email that does not match the email pattern (the separate
   * emptiness test adds nothing), then a message under 10 characters.
   */
  lemma ContactFirstFailureWins(f: ContactForm, to: string)
    ensures f.name == [] ==> CheckContact(f, to) == Reject(NameRejected)
    ensures f.name != [] && !EmailPattern(f.email) ==> CheckContact(f, to) == Reject(EmailRejected)
    ensures f.name != [] && EmailPattern(f.email) && |f.message| < 10
      ==> CheckContact(f, to) == Reject(MessageRejected)
    ensures CheckContact(f, to).Dispatch? <==> f.name != [] && EmailPattern(f.email) && |f.message| >= 10
  {
    EmailShapeMatchesPattern(f.email);
  }

  /**
   * Only when all three checks pass is a message composed: reply-to is the
   * sanitised email, the subject is `KUB AUTO Contact: {name}`, and the
   * text is the labelled letter ending with the whole message.
   */
  lemma ContactMessage(f: ContactForm, to: string)
    requires Clean(f.name, 140) && Clean(f.email, 200) && Clean(f.message, 3000)
    requires CheckContact(f, to).Dispatch?
    ensures CheckContact(f, to).mail
      == Outbound(Sender, to, Str(f.email), ContactSubject(f.name), ContactLetter(f))
    ensures EmailPattern(f.email) && |f.message| >= 10
  {
    ContactFirstFailureWins(f, to);
    ContactTextShape(f);
  }

  /** At the request level: no honeypot, the sanitised fields decide alone, and nothing is sent on a rejection. */
  lemma ContactRequest(r: RequestBody, to: string, send: SendResult)
    requires !Truthy(Field(BodyOf(r), "companyWebsite"))
    ensures var f := CleanContact(BodyOf(r));
      && HandleContact(r, to, send) == Respond(CheckContact(f, to), send)
      && (HandleContact(r, to, send).sent != [] <==> f.name != [] && EmailPattern(f.email) && |f.message| >= 10)
  {
    ContactFirstFailureWins(CleanContact(BodyOf(r)), to);
  }

  // ------------------------------------------------------------- both routes

  /** A truthy honeypot field answers 200 `{ok:true}` and sends nothing, whatever else the body holds. */
  lemma HoneypotSilences(r: RequestBody, to: string, send: SendResult)
    requires Truthy(Field(BodyOf(r), "companyWebsite"))
    ensures HandlePreorder(r, to, send) == Exchange([], Ok)
    ensures HandleContact(r, to, send) == Exchange([], Ok)
  {
  }

  /** A provider failure after all checks pass answers 500 "Failed to send email" after one attempt. */
  lemma ProviderFailureIsServerError(r: RequestBody, to: string)
    ensures var x := HandlePreorder(r, to, Threw);
      x.sent != [] ==> |x.sent| == 1 && x.reply == Reply(500, PlainText(SendFailed))
    ensures var x := HandleContact(r, to, Threw);
      x.sent != [] ==> |x.sent| == 1 && x.reply == Reply(500, PlainText(SendFailed))
  {
  }
}
