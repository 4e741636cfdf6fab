/** The Netlify function frontend/netlify/functions/contact-log.js: the same
    method dispatch and validation as the mailing handlers, but a valid
    submission is only logged and acknowledged. The parse sits inside the one
    try, so a body that is not JSON ends in the 500 answer, not a 400. */
module ContactLog {
  import opened JsBase
  import opened Validation
  import opened Netlify

  const ReceivedText :=
    "Thank you for your message! I have received it and will get back to you soon. (Currently logged to system for manual review)"
  const ProcessingFailedText :=
    "Failed to process your message. Please try again or contact me directly at hardikcp5@gmail.com"

  const IdPrefix := "contact_"

  /** `contact_${Date.now()}_${tag}`, where `tag` stands for
      `Math.random().toString(36).substr(2, 9)`. */
  function ContactId(nowMs: nat, tag: string): string {
    IdPrefix + Decimal(nowMs) + "_" + tag
  }

  /** The longest run of decimal digits at the start of s. */
  function LeadingDigits(s: string): (d: string)
    ensures |d| <= |s| && d == s[..|d|] && AllDigits(d)
    ensures |d| < |s| ==> !('0' <= s[|d|] <= '9')
  {
    if s != [] && '0' <= s[0] <= '9' then [s[0]] + LeadingDigits(s[1..]) else ""
  }

  lemma {:induction false} LeadingDigitsOfNumber(digits: string, rest: string)
    requires AllDigits(digits)
    requires rest != [] && !('0' <= rest[0] <= '9')
    ensures LeadingDigits(digits + rest) == digits
  {
    if digits != [] {
      assert (digits + rest)[1..] == digits[1..] + rest;
      LeadingDigitsOfNumber(digits[1..], rest);
    } else {
      assert digits + rest == rest;
    }
  }

  /** The identifier gives back the time it was made at: after the prefix,
      its leading digits read as `Date.now()`, whatever the random tag is. */
  lemma ContactIdReadsBack(nowMs: nat, tag: string)
    ensures var id := ContactId(nowMs, tag);
            |id| > |IdPrefix| && id[..|IdPrefix|] == IdPrefix
            && DecimalValue(LeadingDigits(id[|IdPrefix|..])) == nowMs
  {
    var id := ContactId(nowMs, tag);
    assert id[|IdPrefix|..] == Decimal(nowMs) + ("_" + tag);
    LeadingDigitsOfNumber(Decimal(nowMs), "_" + tag);
    DecimalRoundTrip(nowMs);
  }

  /** The catch block's answer, whatever was thrown. */
  function ProcessingFailure(isoNow: string): Response {
    Respond(500, Payload(false, ProcessingFailedText,
                         [("error_code", Str("PROCESSING_ERROR")), ("timestamp", Str(isoNow))]))
  }

  /** The handler, given `new Date().toISOString()`, `Date.now()` and the random
      tag of the identifier. No mail library is involved. */
  function LogRun(e: Event, parse: Parser, isoNow: string, nowMs: nat, tag: string): (r: Response)
    ensures r.headers == CorsHeaders
    ensures e.httpMethod != "POST" ==> r == Preflight(e.httpMethod).value
    ensures e.httpMethod == "POST" ==>
              (r.statusCode == 500 <==> parse(BodyText(e.body)).SyntaxError? || parse(BodyText(e.body)) == Value(JNull))
    ensures e.httpMethod == "POST" && r.statusCode == 500 ==> r == ProcessingFailure(isoNow)
    ensures r.statusCode == 400 <==>
              e.httpMethod == "POST" && parse(BodyText(e.body)).Value?
              && Destructure(parse(BodyText(e.body)).json, "JSON.parse(...)").Props?
              && Validate(Destructure(parse(BodyText(e.body)).json, "JSON.parse(...)").fields).Rejected?
    ensures r.statusCode == 400 ==>
              r.body == Payload(false, RejectionText(
                Validate(Destructure(parse(BodyText(e.body)).json, "JSON.parse(...)").fields).reason), [])
    ensures e.httpMethod == "POST" && r.statusCode == 200 ==>
              r.body == Payload(true, ReceivedText, [("timestamp", Str(isoNow)), ("contact_id", Str(ContactId(nowMs, tag)))])
  {
    match Preflight(e.httpMethod)
    case Some(answer) => answer
    case None =>
      match parse(BodyText(e.body))
      case SyntaxError(_) => ProcessingFailure(isoNow)
      case Value(j) =>
        match Destructure(j, "JSON.parse(...)")
        case Threw(_) => ProcessingFailure(isoNow)
        case Props(f) =>
          match Validate(f)
          case Rejected(why) => Respond(400, Payload(false, RejectionText(why), []))
          case Accepted(_) =>
            Respond(200, Payload(true, ReceivedText,
                                 [("timestamp", Str(isoNow)), ("contact_id", Str(ContactId(nowMs, tag)))]))
  }

  /** A POST is acknowledged exactly when the submission passes the same
      field and e-mail checks the mailing handlers apply. */
  lemma LogAcceptsValid(e: Event, parse: Parser, isoNow: string, nowMs: nat, tag: string)
    requires e.httpMethod == "POST"
    ensures LogRun(e, parse, isoNow, nowMs, tag).statusCode == 200 <==>
              parse(BodyText(e.body)).Value?
              && Destructure(parse(BodyText(e.body)).json, "JSON.parse(...)").Props?
              && Validate(Destructure(parse(BodyText(e.body)).json, "JSON.parse(...)").fields).Accepted?
  {
  }
}
