/**
 * Worked requests for the two endpoints: concrete inputs and the exchange
 * each one produces, derived from the general model.
 */
module Scenarios {
  import opened JsText
  import opened JsValue
  import opened Fields
  import opened Patterns
  import opened Handlers

  /** `+1 (234) 567-8901` cut into four pieces, each with the separators it loses. */
  lemma FormattedPhonePieces(s: string) returns (a: string, b: string, c: string, d: string)
    requires s == "+1 (234) 567-8901"
    ensures s == a + b + c + d
    ensures Filter(NotPhoneSeparator, a) == "+1" && Filter(NotPhoneSeparator, b) == "234"
    ensures Filter(NotPhoneSeparator, c) == "567" && Filter(NotPhoneSeparator, d) == "8901"
  {
    a, b, c, d := "+1 (", "234)", " 567", "-8901";
    PlusOne(a);
    AreaCode(b);
    ExchangeCode(c);
    Subscriber(d);
  }

  lemma PlusOne(a: string)
    requires a == "+1 ("
    ensures Filter(NotPhoneSeparator, a) == "+1"
  {
    assert Filter(NotPhoneSeparator, "+1 (") == "+1";
  }

  lemma AreaCode(b: string)
    requires b == "234)"
    ensures Filter(NotPhoneSeparator, b) == "234"
  {
    assert Filter(NotPhoneSeparator, "234)") == "234";
  }

  lemma ExchangeCode(c: string)
    requires c == " 567"
    ensures Filter(NotPhoneSeparator, c) == "567"
  {
    assert Filter(NotPhoneSeparator, " 567") == "567";
  }

  lemma Subscriber(d: string)
    requires d == "-8901"
    ensures Filter(NotPhoneSeparator, d) == "8901"
  {
    assert Filter(NotPhoneSeparator, "-8901") == "8901";
  }

  /** Separator removal over four consecutive pieces is the four removals joined. */
  lemma FilterPieces(a: string, b: string, c: string, d: string)
    ensures Filter(NotPhoneSeparator, a + b + c + d)
      == Filter(NotPhoneSeparator, a) + Filter(NotPhoneSeparator, b)
         + Filter(NotPhoneSeparator, c) + Filter(NotPhoneSeparator, d)
  {
    FilterAppend(NotPhoneSeparator, a + b + c, d);
    FilterAppend(NotPhoneSeparator, a + b, c);
    FilterAppend(NotPhoneSeparator, a, b);
  }

  /** Removing the separators from `+1 (234) 567-8901` leaves `+12345678901`. */
  lemma FormattedPhoneDigits(s: string)
    requires s == "+1 (234) 567-8901"
    ensures Filter(NotPhoneSeparator, s) == "+12345678901"
  {
    var a, b, c, d := FormattedPhonePieces(s);
    FilterPieces(a, b, c, d);
    assert "+1" + "234" + "567" + "8901" == "+12345678901";
  }

  /** `+12345678901` passes the phone pattern. */
  lemma InternationalNumberMatches(t: string)
    requires t == "+12345678901"
    ensures PhonePattern(t)
  {
    assert IsE164(t);
    E164MatchesPattern(t);
  }

  /** `+1 (234) 567-8901` normalises to `+12345678901`, which passes the phone pattern. */
  lemma FormattedPhoneAccepted(s: string)
    requires s == "+1 (234) 567-8901"
    ensures NormalizePhone(Str(s)) == "+12345678901"
    ensures PhonePattern(NormalizePhone(Str(s)))
  {
    FormattedPhoneDigits(s);
    NormalizePhoneOfText(s);
    InternationalNumberMatches(NormalizePhone(Str(s)));
  }

  /** A pre-order whose phone is `+1 (234) 567-8901` sends exactly one mail, whatever the other fields hold. */
  lemma FormattedPhoneOrderSent(r: RequestBody, to: string, send: SendResult, s: string)
    requires !Truthy(Field(BodyOf(r), "companyWebsite"))
    requires Field(BodyOf(r), "phone") == Str(s) && s == "+1 (234) 567-8901"
    ensures |HandlePreorder(r, to, send).sent| == 1
  {
    FormattedPhoneAccepted(s);
    PreorderPhoneGate(r, to, send);
  }

  /** A pre-order whose phone is `12345` is answered 400 "Invalid phone format" and sends nothing. */
  lemma ShortPhoneRejected(r: RequestBody, to: string, send: SendResult, s: string)
    requires !Truthy(Field(BodyOf(r), "companyWebsite"))
    requires Field(BodyOf(r), "phone") == Str(s) && s == "12345"
    ensures HandlePreorder(r, to, send) == Exchange([], Reply(400, PlainText(PhoneRejected)))
  {
    ShortNumber(s);
    NormalizePhoneOfText(s);
    E164MatchesPattern(s);
  }

  /** `12345` has no separators to remove and is too short for the phone pattern. */
  lemma ShortNumber(s: string)
    requires s == "12345"
    ensures Filter(NotPhoneSeparator, s) == s && !IsE164(s)
  {
    FilterKeepsAll(NotPhoneSeparator, s);
  }

  /** A contact whose name is empty is answered 400 "Name required", whatever the other fields hold. */
  lemma EmptyNameRejected(r: RequestBody, to: string, send: SendResult, s: string)
    requires !Truthy(Field(BodyOf(r), "companyWebsite"))
    requires Field(BodyOf(r), "name") == Str(s) && s == ""
    ensures HandleContact(r, to, send) == Exchange([], Reply(400, PlainText(NameRejected)))
  {
    SafeKeepsClean(s, 140);
  }

  /** A contact with a valid name and email and the message `short` is answered 400 "Message too short". */
  lemma ShortMessageRejected(r: RequestBody, to: string, send: SendResult, s: string)
    requires !Truthy(Field(BodyOf(r), "companyWebsite"))
    requires CleanContact(BodyOf(r)).name != [] && EmailPattern(CleanContact(BodyOf(r)).email)
    requires Field(BodyOf(r), "message") == Str(s) && s == "short"
    ensures HandleContact(r, to, send) == Exchange([], Reply(400, PlainText(MessageRejected)))
  {
    var f := CleanContact(BodyOf(r));
    ShortText(s);
    ContactFirstFailureWins(f, to);
  }

  /** `short` passes through the contact message cleaning unchanged and is under ten characters. */
  lemma ShortText(s: string)
    requires s == "short"
    ensures Safe(Str(s), 3000) == s && |s| < 10
  {
    assert '\r' !in s && Trimmed(s);
    SafeKeepsClean(s, 3000);
  }
}
