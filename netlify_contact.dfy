/** The Netlify function frontend/netlify/functions/contact.js: method
    dispatch, a JSON-parse guard answering 400, validation, then a fixed Gmail
    transporter, `verify()` under a 10 s timeout, the notification under a
    15 s timeout and a best-effort confirmation under a 10 s timeout. */
module NetlifyContact {
  import opened JsBase
  import opened Validation
  import opened Templates
  import opened Mail
  import opened Netlify

  const SentText := "Message sent successfully! I'll get back to you soon."
  const GenericFailureText := "Failed to send message. Please try again later."
  const AuthFailedText := "Email authentication failed. Please contact the site administrator."
  const ConnectFailedText := "Could not connect to email server. Please try again later."
  const LoginFailedText := "Email service configuration error. Please contact the site administrator."
  const InvalidJsonText := "Invalid JSON format"

  /** What a failed or timed-out `verify()` is turned into before it reaches the outer catch.
      The message is written in short pieces so that `UnavailableIsGeneric` can
      show, piece by piece, that it holds no capital I. */
  const Unavailable := Thrown(None, "Email service " + "temporarily " + "unavailable. " + "Please try " + "again later.")

  const VerifyLimitMs := 10000
  const NotifyLimitMs := 15000
  const ConfirmLimitMs := 10000

  /** The site owner's address, sender and recipient of the notification. */
  const OwnerAddress := "hardikcp5@gmail.com"
  const FromHeader := "\"Hardik Kannoija Portfolio\" <" + OwnerAddress + ">"

  /** The outer catch's message: the code first (EAUTH, then ECONNECTION),
      then whether the error's message mentions "Invalid login". */
  function ErrorText(e: Thrown): (m: string)
    ensures e.code == Some("EAUTH") <==> m == AuthFailedText
    ensures e.code == Some("ECONNECTION") <==> m == ConnectFailedText
    ensures m == LoginFailedText <==>
              e.code != Some("EAUTH") && e.code != Some("ECONNECTION") && Contains(e.message, "Invalid login")
    ensures m == GenericFailureText <==>
              e.code != Some("EAUTH") && e.code != Some("ECONNECTION") && !Contains(e.message, "Invalid login")
  {
    if e.code == Some("EAUTH") then AuthFailedText
    else if e.code == Some("ECONNECTION") then ConnectFailedText
    else if Contains(e.message, "Invalid login") then LoginFailedText
    else GenericFailureText
  }

  /** The 500 answer of the outer catch; the error's own message is shown as
      `debug` only when NODE_ENV is "development" (JSON.stringify drops an
      undefined property). */
  function Failure(e: Thrown, nodeEnv: Option<string>): (r: Response)
    ensures r.statusCode == 500 && r.headers == CorsHeaders
    ensures r.body.Payload? && !r.body.success && r.body.message == ErrorText(e)
    ensures nodeEnv == Some("development") <==> r.body.extra == [("debug", Str(e.message))]
    ensures nodeEnv != Some("development") <==> r.body.extra == []
  {
    Respond(500, Payload(false, ErrorText(e),
                         if nodeEnv == Some("development") then [("debug", Str(e.message))] else []))
  }

  /** How far a request gets before the mail steps. */
  datatype Intake = Answered(response: Response) | Crashed(error: Thrown) | Proceed(submission: Submission)

  /** Method dispatch, `JSON.parse` in its own try (a SyntaxError is answered
      with 400), destructuring (null throws into the outer catch), validation. */
  function Admit(e: Event, parse: Parser): (r: Intake)
    ensures e.httpMethod != "POST" ==> r == Answered(Preflight(e.httpMethod).value)
    ensures e.httpMethod == "POST" && parse(BodyText(e.body)).SyntaxError? ==>
              r == Answered(Respond(400, Payload(false, InvalidJsonText, [])))
    ensures e.httpMethod == "POST" && parse(BodyText(e.body)) == Value(JNull) ==>
              r == Crashed(Thrown(None, NullDestructureMessage("parsedBody")))
    ensures r.Proceed? <==>
              e.httpMethod == "POST" && parse(BodyText(e.body)).Value?
              && Destructure(parse(BodyText(e.body)).json, "parsedBody").Props?
              && Validate(Destructure(parse(BodyText(e.body)).json, "parsedBody").fields).Accepted?
    ensures r.Proceed? ==>
              r.submission == Validate(Destructure(parse(BodyText(e.body)).json, "parsedBody").fields).submission
    ensures e.httpMethod == "POST" && parse(BodyText(e.body)).Value?
            && Destructure(parse(BodyText(e.body)).json, "parsedBody").Props?
            && Validate(Destructure(parse(BodyText(e.body)).json, "parsedBody").fields).Rejected? ==>
              r == Answered(Respond(400, Payload(false, RejectionText(
                     Validate(Destructure(parse(BodyText(e.body)).json, "parsedBody").fields).reason), [])))
  {
    match Preflight(e.httpMethod)
    case Some(answer) => Answered(answer)
    case None =>
      match parse(BodyText(e.body))
      case SyntaxError(_) => Answered(Respond(400, Payload(false, InvalidJsonText, [])))
      case Value(j) =>
        match Destructure(j, "parsedBody")
        case Threw(error) => Crashed(error)
        case Props(f) =>
          match Validate(f)
          case Rejected(why) => Answered(Respond(400, Payload(false, RejectionText(why), [])))
          case Accepted(s) => Proceed(s)
  }

  // ---------------------------------------------------------------------------
  // Templates

  /** The text of the two bodies this function sends, both written inline. */
  const Letters := Stationery(Notification, Confirmation)

  /** The text of `emailTemplate` around its six interpolations. */
  const Notification := NotificationFrame(NotificationHead, NotificationEmailLabel, NotificationSubjectLabel,
                                          NotificationMessageLabel, NotificationFooter, NotificationTail)

  const NotificationHead := "\n"
    + "      <!DOCTYPE html>\n"
    + "      <html>\n"
    + "        <head>\n"
    + "          <style>\n"
    + "            body { font-family: Arial, sans-serif; margin: 0; padding: 0; }\n"
    + "            .container { max-width: 600px; margin: 0 auto; padding: 20px; }\n"
    + "            .header { background: linear-gradient(135deg, #667eea 0%, #764ba2 100%); color: white; padding: 20px; border-radius: 10px 10px 0 0; }\n"
    + "            .content { background: #f9f9f9; padding: 20px; border-radius: 0 0 10px 10px; }\n"
    + "            .field { margin-bottom: 15px; }\n"
    + "            .label { font-weight: bold; color: #555; }\n"
    + "            .value { background: white; padding: 10px; border-radius: 5px; margin-top: 5px; }\n"
    + "            .footer { text-align: center; margin-top: 20px; color: #666; font-size: 12px; }\n"
    + "          </style>\n"
    + "        </head>\n"
    + "        <body>\n"
    + "          <div class=\"container\">\n"
    + "            <div class=\"header\">\n"
    + "              <h2>\U{1F680} New Portfolio Contact Message</h2>\n"
    + "              <p>You've received a new message from your portfolio website!</p>\n"
    + "            </div>\n"
    + "            <div class=\"content\">\n"
    + "              <div class=\"field\">\n"
    + "                <div class=\"label\">\U{1F464} From:</div>\n"
    + "                "
  const NotificationEmailLabel := "\n"
    + "              </div>\n"
    + "              <div class=\"field\">\n"
    + "                <div class=\"label\">\U{1F4E7} Email:</div>\n"
    + "                " + ValueOpen
  const NotificationSubjectLabel := "\n"
    + "              </div>\n"
    + "              <div class=\"field\">\n"
    + "                <div class=\"label\">\U{1F4DD} Subject:</div>\n"
    + "                "
  const NotificationMessageLabel := "\n"
    + "              </div>\n"
    + "              <div class=\"field\">\n"
    + "                <div class=\"label\">\U{1F4AC} Message:</div>\n"
    + "                "
  const NotificationFooter := "\n"
    + "              </div>\n"
    + "            </div>\n"
    + "            <div class=\"footer\">\n"
    + "              <p>\U{1F4C5} "
  const NotificationTail := "\n"
    + "              <p>\U{1F310} Source: Portfolio Contact Form</p>\n"
    + "            </div>\n"
    + "          </div>\n"
    + "        </body>\n"
    + "      </html>\n"
    + "    "

  /** The text of `confirmationTemplate` around its three interpolations. */
  const Confirmation := ConfirmationFrame(ConfirmationHead, ConfirmationIntro, "\n          ", ConfirmationTail)

  const ConfirmationHead := "\n"
    + "      <div style=\"font-family: Arial, sans-serif; max-width: 600px; margin: 0 auto; padding: 20px;\">\n"
    + "        <h2 style=\"color: #667eea;\">"
  const ConfirmationIntro := "\n"
    + "        <p>I've received your message and will get back to you within 24 hours.</p>\n"
    + "        <div style=\"background: #f9f9f9; padding: 15px; border-radius: 5px; margin: 20px 0;\">\n"
    + "          <h4>Your message:</h4>\n"
    + "          "
  const ConfirmationTail := "\n"
    + "        </div>\n"
    + "        <p>Best regards,<br>Hardik Kannoija</p>\n"
    + "        <p style=\"color: #666; font-size: 12px;\">This is an automated response from my portfolio website.</p>\n"
    + "      </div>\n"
    + "    "

  // ---------------------------------------------------------------------------
  // The mail steps

  /** The transporter options: the Gmail service, the account, and no
      certificate check. */
  function GmailConfig(auth: Credentials): TransportConfig {
    ServiceConfig("gmail", auth, Some(Tls(false)))
  }

  function NotificationMail(s: Submission, receivedAt: string): MailOptions {
    MailOptions(FromHeader, Some(OwnerAddress), "Portfolio Contact: " + s.subject,
                NotificationLetter(s, receivedAt), Some(s.email))
  }

  function ConfirmationMail(s: Submission): MailOptions {
    MailOptions(FromHeader, Some(s.email), "Thank you for contacting me!", ConfirmationLetter(s), None)
  }

  /** Every call the handler makes when nothing fails, in order. */
  function Plan(auth: Credentials, s: Submission, receivedAt: string): seq<Call> {
    [Call.Build(GmailConfig(auth)), Verify, Send(NotificationMail(s, receivedAt)), Send(ConfirmationMail(s))]
  }

  /** The mail steps: the first failure (None when there is none) and the calls
      made. A verify failure or timeout surfaces as the code-less `Unavailable`,
      a notification failure or timeout as itself; the confirmation's outcome is
      never consulted. */
  function Delivery(auth: Credentials, s: Submission, receivedAt: string,
                    creation: Outcome, verify: Answer, notify: Answer): (r: Run<Option<Thrown>>)
    ensures r.calls <= Plan(auth, s, receivedAt) && |r.calls| >= 1
    ensures |r.calls| >= 2 <==> creation.Ok?
    ensures |r.calls| >= 3 <==> creation.Ok? && verify.elapsedMs < VerifyLimitMs && verify.outcome.Ok?
    ensures |r.calls| == 4 <==> |r.calls| >= 3 && notify.elapsedMs < NotifyLimitMs && notify.outcome.Ok?
    ensures r.reply.None? <==> |r.calls| == 4
    ensures |r.calls| == 1 ==> r.reply == Some(creation.error)
    ensures |r.calls| == 2 ==> r.reply == Some(Unavailable)
    ensures |r.calls| == 3 ==> r.reply == Some(Race(notify, NotifyLimitMs, "Email send timeout").error)
  {
    var plan := Plan(auth, s, receivedAt);
    if creation.Err? then Run(Some(creation.error), plan[..1])
    else if Race(verify, VerifyLimitMs, "Connection timeout").Err? then Run(Some(Unavailable), plan[..2])
    else if Race(notify, NotifyLimitMs, "Email send timeout").Err? then
      Run(Some(Race(notify, NotifyLimitMs, "Email send timeout").error), plan[..3])
    else Run(None, plan)
  }

  /** The whole handler, given what building the transporter, `verify()` and the
      notification send yield. */
  function ContactRun(e: Event, parse: Parser, auth: Credentials, nodeEnv: Option<string>, receivedAt: string,
                      creation: Outcome, verify: Answer, notify: Answer): (r: Run<Response>)
    ensures r.reply.headers == CorsHeaders
    ensures e.httpMethod == "OPTIONS" ==> r.reply == Respond(200, EmptyBody) && r.calls == []
    ensures e.httpMethod != "OPTIONS" && e.httpMethod != "POST" ==>
              r.reply.statusCode == 405 && r.calls == []
    ensures r.calls != [] <==> Admit(e, parse).Proceed?
    ensures r.calls != [] ==>
              r.calls == Delivery(auth, Admit(e, parse).submission, receivedAt, creation, verify, notify).calls
    ensures r.reply.statusCode == 200 && e.httpMethod == "POST" <==>
              Admit(e, parse).Proceed?
              && Delivery(auth, Admit(e, parse).submission, receivedAt, creation, verify, notify).reply.None?
    ensures r.reply.statusCode == 200 && e.httpMethod == "POST" ==>
              r.reply.body == Payload(true, SentText, [])
    ensures Admit(e, parse).Answered? ==> r.reply == Admit(e, parse).response
    ensures Admit(e, parse).Crashed? ==> r.reply == Failure(Admit(e, parse).error, nodeEnv)
    ensures Admit(e, parse).Proceed?
            && Delivery(auth, Admit(e, parse).submission, receivedAt, creation, verify, notify).reply.Some? ==>
              r.reply == Failure(Delivery(auth, Admit(e, parse).submission, receivedAt, creation, verify, notify)
                                   .reply.value, nodeEnv)
  {
    match Admit(e, parse)
    case Answered(answer) => Run(answer, [])
    case Crashed(error) => Run(Failure(error, nodeEnv), [])
    case Proceed(s) =>
      var d := Delivery(auth, s, receivedAt, creation, verify, notify);
      if d.reply.None? then Run(Respond(200, Payload(true, SentText, [])), d.calls)
      else Run(Failure(d.reply.value, nodeEnv), d.calls)
  }

  /** No message goes out before `verify()`, and the confirmation only after
      the notification. */
  lemma ContactRunOrdered(e: Event, parse: Parser, auth: Credentials, nodeEnv: Option<string>, receivedAt: string,
                          creation: Outcome, verify: Answer, notify: Answer)
    requires Admit(e, parse).Proceed?
    ensures var s := Admit(e, parse).submission;
            Ordered(ContactRun(e, parse, auth, nodeEnv, receivedAt, creation, verify, notify).calls,
                    NotificationMail(s, receivedAt), ConfirmationMail(s))
  {
    var s := Admit(e, parse).submission;
    PlanIsOrdered(GmailConfig(auth), NotificationMail(s, receivedAt), ConfirmationMail(s),
                  Delivery(auth, s, receivedAt, creation, verify, notify).calls);
  }

  /** The code-less error a failed `verify()` is turned into maps to the
      generic text: it does not mention "Invalid login". */
  lemma UnavailableIsGeneric()
    ensures ErrorText(Unavailable) == GenericFailureText
  {
    var a, b, c, d, f := "Email service ", "temporarily ", "unavailable. ", "Please try ", "again later.";
    assert Lacks(a, 'I') && Lacks(b, 'I') && Lacks(c, 'I') && Lacks(d, 'I') && Lacks(f, 'I');
    LacksAppend(a, b, 'I');
    LacksAppend(a + b, c, 'I');
    LacksAppend(a + b + c, d, 'I');
    LacksAppend(a + b + c + d, f, 'I');
    AbsentLead(Unavailable.message, "Invalid login");
  }

  /** A `verify()` that fails or does not settle within 10 s ends in the
      generic 500, whatever its own error said, and no message is sent. */
  lemma VerifyFailureIsGeneric(e: Event, parse: Parser, auth: Credentials, nodeEnv: Option<string>,
                               receivedAt: string, id: string, verify: Answer, notify: Answer)
    requires Admit(e, parse).Proceed?
    requires verify.outcome.Err? || verify.elapsedMs >= VerifyLimitMs
    ensures var r := ContactRun(e, parse, auth, nodeEnv, receivedAt, Ok(id), verify, notify);
            r.reply.statusCode == 500 && r.reply.body.Payload? && r.reply.body.message == GenericFailureText
            && r.calls == [Call.Build(GmailConfig(auth)), Verify]
  {
    UnavailableIsGeneric();
    var s := Admit(e, parse).submission;
    var d := Delivery(auth, s, receivedAt, Ok(id), verify, notify);
    assert d.reply == Some(Unavailable);
    assert d.calls == Plan(auth, s, receivedAt)[..2];
  }

  /** The mail steps over the mail library, each raced against its timer. */
  method Deliver(net: Relay, auth: Credentials, s: Submission, receivedAt: string) returns (failure: Option<Thrown>)
    modifies net
    ensures var d := Delivery(auth, s, receivedAt, net.script.creation, net.script.verify,
                              net.script.sends(old(net.sent)));
            failure == d.reply && net.log == old(net.log) + d.calls
            && net.sent == old(net.sent) + Sends(d.calls)
  {
    ghost var log0 := net.log;
    ghost var plan := Plan(auth, s, receivedAt);
    var created := net.Build(GmailConfig(auth));
    ExtendByStep(log0, plan, 0);
    if created.Err? {
      return Some(created.error);
    }
    var verified := net.Verify();
    ExtendByStep(log0, plan, 1);
    var checked := Race(verified, VerifyLimitMs, "Connection timeout");
    if checked.Err? {
      return Some(Unavailable);
    }
    var info := net.SendMail(NotificationMail(s, receivedAt));
    ExtendByStep(log0, plan, 2);
    var delivered := Race(info, NotifyLimitMs, "Email send timeout");
    if delivered.Err? {
      return Some(delivered.error);
    }
    // Best effort: a failure or a timeout here is logged and dropped.
    var confirmation := net.SendMail(ConfirmationMail(s));
    var confirmed := Race(confirmation, ConfirmLimitMs, "Confirmation email timeout");
    ExtendByStep(log0, plan, 3);
    assert plan[..4] == plan;
    failure := None;
  }

  /** The handler over the mail library. */
  method Handle(net: Relay, e: Event, parse: Parser, auth: Credentials, nodeEnv: Option<string>, receivedAt: string)
    returns (response: Response)
    modifies net
    ensures var run := ContactRun(e, parse, auth, nodeEnv, receivedAt, net.script.creation, net.script.verify,
                                  net.script.sends(old(net.sent)));
            response == run.reply && net.log == old(net.log) + run.calls
            && net.sent == old(net.sent) + Sends(run.calls)
  {
    var early := Preflight(e.httpMethod);
    if early.Some? {
      return early.value;
    }
    var parsedBody: Json;
    var parsed := parse(BodyText(e.body));
    if parsed.SyntaxError? {
      return Respond(400, Payload(false, InvalidJsonText, []));
    }
    parsedBody := parsed.json;
    var fields := Destructure(parsedBody, "parsedBody");
    if fields.Threw? {
      return Failure(fields.error, nodeEnv);
    }
    var verdict := Validate(fields.fields);
    if verdict.Rejected? {
      return Respond(400, Payload(false, RejectionText(verdict.reason), []));
    }
    var failure := Deliver(net, auth, verdict.submission, receivedAt);
    if failure.Some? {
      response := Failure(failure.value, nodeEnv);
    } else {
      response := Respond(200, Payload(true, SentText, []));
    }
  }

  // ---------------------------------------------------------------------------
  // The transporter factory as written

  /** frontend/netlify/functions/contact.js:66 calls `nodemailer.createTransporter`,
      which nodemailer does not export (its factory is `createTransport`): the
      call throws this TypeError before any mail step. The message is written
      in short pieces for the same reason as `Unavailable`'s. */
  const MissingFactory := Thrown(None, "nodemailer." + "createTransporter" + " is not a" + " function")

  /** The handler as written: every request that passes validation ends in the
      outer catch with the TypeError, and the mail library is never called. */
  function ContactRunAsWritten(e: Event, parse: Parser, nodeEnv: Option<string>): (r: Run<Response>)
    ensures r.calls == []
  {
    match Admit(e, parse)
    case Answered(answer) => Run(answer, [])
    case Crashed(error) => Run(Failure(error, nodeEnv), [])
    case Proceed(_) => Run(Failure(MissingFactory, nodeEnv), [])
  }

  /** The TypeError's message does not mention "Invalid login". */
  lemma MissingFactoryIsGeneric()
    ensures ErrorText(MissingFactory) == GenericFailureText
  {
    var a, b, c, d := "nodemailer.", "createTransporter", " is not a", " function";
    assert Lacks(a, 'I') && Lacks(b, 'I') && Lacks(c, 'I') && Lacks(d, 'I');
    LacksAppend(a, b, 'I');
    LacksAppend(a + b, c, 'I');
    LacksAppend(a + b + c, d, 'I');
    AbsentLead(MissingFactory.message, "Invalid login");
  }

  /** As written, no POST is ever answered with 200: a valid submission gets the
      generic 500 and no mail is sent. */
  lemma AsWrittenNeverSends(e: Event, parse: Parser, nodeEnv: Option<string>)
    ensures e.httpMethod == "POST" ==> ContactRunAsWritten(e, parse, nodeEnv).reply.statusCode != 200
    ensures Admit(e, parse).Proceed? ==>
              ContactRunAsWritten(e, parse, nodeEnv).reply.body.message == GenericFailureText
  {
    MissingFactoryIsGeneric();
  }

  /** With the factory nodemailer does have, a valid submission whose mail steps
      succeed in time is answered with 200 after exactly the four calls. */
  lemma CorrectedDelivers(e: Event, parse: Parser, auth: Credentials, nodeEnv: Option<string>, receivedAt: string,
                          id: string, verify: Answer, notify: Answer)
    requires Admit(e, parse).Proceed?
    requires verify.outcome.Ok? && verify.elapsedMs < VerifyLimitMs
    requires notify.outcome.Ok? && notify.elapsedMs < NotifyLimitMs
    ensures var r := ContactRun(e, parse, auth, nodeEnv, receivedAt, Ok(id), verify, notify);
            r.reply == Respond(200, Payload(true, SentText, []))
            && r.calls == Plan(auth, Admit(e, parse).submission, receivedAt)
  {
  }
}
