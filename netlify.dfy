/** What the four Netlify function handlers share: the event they are given,
    the response they return, the CORS headers every response carries, the
    method dispatch in front of the body, and how the body is parsed and
    destructured into the four form fields. */
module Netlify {
  import opened JsBase
  import opened Validation

  /** The parts of the function event the handlers read. `body` is None when
      the platform passes `null`. */
  datatype Event = Event(httpMethod: string, body: Option<string>)

  /** A JSON value as `JSON.stringify` writes it into a response body. */
  datatype JsonOut = Str(text: string) | Num(n: nat) | Obj(entries: seq<(string, JsonOut)>)

  /** A response body: empty, or `{ success, message, ...extra }`, with the
      extra properties in the order they are written. */
  datatype Body = EmptyBody | Payload(success: bool, message: string, extra: seq<(string, JsonOut)>)

  datatype Response = Response(statusCode: int, headers: seq<(string, string)>, body: Body)

  /** The header object every handler builds first and puts on every response. */
  const CorsHeaders: seq<(string, string)> := [
    ("Access-Control-Allow-Origin", "*"),
    ("Access-Control-Allow-Headers", "Content-Type"),
    ("Access-Control-Allow-Methods", "POST, OPTIONS")
  ]

  function Respond(statusCode: int, body: Body): Response {
    Response(statusCode, CorsHeaders, body)
  }

  /** The method dispatch in front of every handler: a CORS preflight is
      answered with an empty 200, any method but POST with 405, and a POST
      goes on to the body (None). */
  function Preflight(httpMethod: string): (r: Option<Response>)
    ensures httpMethod == "OPTIONS" <==> r == Some(Respond(200, EmptyBody))
    ensures httpMethod != "OPTIONS" && httpMethod != "POST" <==>
              r == Some(Respond(405, Payload(false, "Method Not Allowed", [])))
    ensures httpMethod == "POST" <==> r.None?
  {
    if httpMethod == "OPTIONS" then Some(Respond(200, EmptyBody))
    else if httpMethod != "POST" then Some(Respond(405, Payload(false, "Method Not Allowed", [])))
    else None
  }

  // ---------------------------------------------------------------------------
  // JSON.parse and destructuring

  /** A parsed body as far as destructuring it is concerned: `null`, an object
      (its string-valued properties), or anything else (a number, a string, an
      array, a boolean), on which every field reads as undefined. */
  datatype Json = JNull | JObject(props: map<string, string>) | JOther

  datatype Parsed = SyntaxError(message: string) | Value(json: Json)

  /** `JSON.parse`, supplied from outside. */
  type Parser = string -> Parsed

  /** What the handlers rely on about `JSON.parse`: the empty text is not JSON,
      "null" is null and "{}" is the empty object. */
  predicate StandardParser(parse: Parser) {
    parse("").SyntaxError? && parse("null") == Value(JNull) && parse("{}") == Value(JObject(map[]))
  }

  /** `JSON.parse(event.body)` turns its argument into a string first, so a
      `null` body is parsed as the text "null". */
  function BodyText(body: Option<string>): string {
    if body.Some? then body.value else "null"
  }

  /** The message of the TypeError thrown by `const { name, ... } = <expr>`
      when the value is null; `expr` is how the engine shows the expression.
      It is written in short pieces so that `Drift.NullBodyIsGeneric` can show,
      piece by piece, that it holds no capital I. */
  function NullDestructureMessage(expr: string): string {
    "Cannot destructure " + "property 'name' " + "of '" + expr + "' as it is null."
  }

  datatype Destructured = Props(fields: Fields) | Threw(error: Thrown)

  function Prop(m: map<string, string>, key: string): Option<string> {
    if key in m then Some(m[key]) else None
  }

  /** `const { name, email, subject, message } = value`. */
  function Destructure(j: Json, expr: string): (r: Destructured)
    ensures r.Threw? <==> j == JNull
    ensures r.Threw? ==> r.error == Thrown(None, NullDestructureMessage(expr))
    ensures j.JObject? ==> r.fields == Fields(Prop(j.props, "name"), Prop(j.props, "email"),
                                              Prop(j.props, "subject"), Prop(j.props, "message"))
    ensures j.JOther? ==> r.fields == Fields(None, None, None, None)
  {
    match j
    case JNull => Threw(Thrown(None, NullDestructureMessage(expr)))
    case JObject(m) => Props(Fields(Prop(m, "name"), Prop(m, "email"), Prop(m, "subject"), Prop(m, "message")))
    case JOther => Props(Fields(None, None, None, None))
  }
}
