/** The Netlify function frontend/netlify/functions/contact-backup.js: a test
    responder that parses the body, validates nothing and acknowledges. */
module ContactBackup {
  import opened JsBase
  import opened Netlify

  const TestReplyText := "Message received! This is a test response. Email functionality is being configured."
  const FailedText := "Failed to process message"

  /** The catch block's answer, carrying the thrown error's message. */
  function Crash(e: Thrown): Response {
    Respond(500, Payload(false, FailedText, [("error", Str(e.message))]))
  }

  /** The handler, given `new Date().toISOString()`. */
  function BackupRun(e: Event, parse: Parser, isoNow: string): (r: Response)
    ensures r.headers == CorsHeaders
    ensures e.httpMethod != "POST" ==> r == Preflight(e.httpMethod).value
    ensures e.httpMethod == "POST" ==>
              (r.statusCode == 200 <==> parse(BodyText(e.body)).Value? && parse(BodyText(e.body)).json != JNull)
    ensures e.httpMethod == "POST" && r.statusCode == 200 ==>
              r.body == Payload(true, TestReplyText, [("timestamp", Str(isoNow))])
    ensures e.httpMethod == "POST" && parse(BodyText(e.body)).SyntaxError? ==>
              r == Crash(Thrown(None, parse(BodyText(e.body)).message))
    ensures e.httpMethod == "POST" && parse(BodyText(e.body)) == Value(JNull) ==>
              r == Crash(Thrown(None, NullDestructureMessage("JSON.parse(...)")))
    ensures r.statusCode == 200 || r.statusCode == 405 || r.statusCode == 500
  {
    match Preflight(e.httpMethod)
    case Some(answer) => answer
    case None =>
      match parse(BodyText(e.body))
      case SyntaxError(message) => Crash(Thrown(None, message))
      case Value(j) =>
        match Destructure(j, "JSON.parse(...)")
        case Threw(error) => Crash(error)
        case Props(_) => Respond(200, Payload(true, TestReplyText, [("timestamp", Str(isoNow))]))
  }
}
