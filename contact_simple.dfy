/** The Netlify function frontend/netlify/functions/contact-simple.js: a missing
    or empty body stands for `'{}'`, only the required-field check is made, and
    a valid submission is echoed back without any mail being sent. */
module ContactSimple {
  import opened JsBase
  import opened Validation
  import opened Netlify

  const LoggedText :=
    "Message received successfully! Email functionality is being configured. Your message has been logged."
  const InternalErrorText := "Internal server error. Please try again later."

  /** `event.body || '{}'`: null and the empty string are both falsy. */
  function DefaultedBody(body: Option<string>): (t: string)
    ensures t == "{}" <==> body.None? || body == Some("") || body == Some("{}")
    ensures body.Some? && body.value != "" ==> t == body.value
  {
    if body.None? || body == Some("") then "{}" else body.value
  }

  /** The catch block's answer, carrying the thrown error's message. */
  function Crash(e: Thrown, isoNow: string): Response {
    Respond(500, Payload(false, InternalErrorText, [("error", Str(e.message)), ("timestamp", Str(isoNow))]))
  }

  /** The `debug` object of the success answer. */
  function Echo(s: Submission): JsonOut {
    Obj([("name", Str(s.name)), ("email", Str(s.email)), ("subject", Str(s.subject)),
         ("messageLength", Num(Utf16Length(s.message)))])
  }

  /** The handler, given `new Date().toISOString()`. */
  function SimpleRun(e: Event, parse: Parser, isoNow: string): (r: Response)
    ensures r.headers == CorsHeaders
    ensures e.httpMethod != "POST" ==> r == Preflight(e.httpMethod).value
    ensures e.httpMethod == "POST" && parse(DefaultedBody(e.body)).SyntaxError? ==>
              r == Crash(Thrown(None, parse(DefaultedBody(e.body)).message), isoNow)
    ensures e.httpMethod == "POST" && parse(DefaultedBody(e.body)) == Value(JNull) ==>
              r == Crash(Thrown(None, NullDestructureMessage("JSON.parse(...)")), isoNow)
    ensures r.statusCode == 400 <==>
              e.httpMethod == "POST" && parse(DefaultedBody(e.body)).Value?
              && parse(DefaultedBody(e.body)).json != JNull
              && !AllPresent(Destructure(parse(DefaultedBody(e.body)).json, "JSON.parse(...)").fields)
    ensures r.statusCode == 400 ==> r.body == Payload(false, RejectionText(MissingField), [])
    ensures e.httpMethod == "POST" && parse(DefaultedBody(e.body)).Value? && parse(DefaultedBody(e.body)).json != JNull
            && AllPresent(Destructure(parse(DefaultedBody(e.body)).json, "JSON.parse(...)").fields) ==>
              r.statusCode == 200
    ensures e.httpMethod == "POST" && r.statusCode == 200 ==>
              var f := Destructure(parse(DefaultedBody(e.body)).json, "JSON.parse(...)").fields;
              AllPresent(f)
              && r.body == Payload(true, LoggedText, [("timestamp", Str(isoNow)), ("debug", Echo(RequireFields(f).value))])
  {
    match Preflight(e.httpMethod)
    case Some(answer) => answer
    case None =>
      match parse(DefaultedBody(e.body))
      case SyntaxError(message) => Crash(Thrown(None, message), isoNow)
      case Value(j) =>
        match Destructure(j, "JSON.parse(...)")
        case Threw(error) => Crash(error, isoNow)
        case Props(f) =>
          match RequireFields(f)
          case None => Respond(400, Payload(false, RejectionText(MissingField), []))
          case Some(s) =>
            Respond(200, Payload(true, LoggedText, [("timestamp", Str(isoNow)), ("debug", Echo(s))]))
  }

  /** The echo shows the fields as submitted, and `messageLength` counts UTF-16
      units: it equals the number of characters exactly when the message has
      none outside the Basic Multilingual Plane. */
  lemma EchoShowsSubmission(s: Submission)
    ensures Echo(s).Obj? && |Echo(s).entries| == 4
    ensures Echo(s).entries[0] == ("name", Str(s.name)) && Echo(s).entries[1] == ("email", Str(s.email))
    ensures Echo(s).entries[2] == ("subject", Str(s.subject))
    ensures Echo(s).entries[3].1.Num? && |s.message| <= Echo(s).entries[3].1.n <= 2 * |s.message|
    ensures Echo(s).entries[3].1.n == |s.message| <==> forall i | 0 <= i < |s.message| :: s.message[i] as int < 0x1_0000
  {
  }
}
