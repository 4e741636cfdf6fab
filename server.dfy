/** The Express back end, backend/server.js: the transporter options built from
    the environment, the notification template, and the `POST /api/contact`
    handler. */
module Server {
  import opened JsBase
  import opened Validation
  import opened Templates
  import opened Mail

  /** `process.env`: a variable is unset when it is not a key. */
  type Env = map<string, string>

  function Lookup(env: Env, key: string): Option<string> {
    if key in env then Some(env[key]) else None
  }

  /** A variable interpolated into a template literal: unset renders as "undefined". */
  function Rendered(env: Env, key: string): string {
    if key in env then env[key] else "undefined"
  }

  // ---------------------------------------------------------------------------
  // createTransporter

  /** The options `createTransporter` passes to nodemailer. */
  function TransporterConfig(env: Env): (c: TransportConfig)
    ensures c.HostConfig?
    ensures c.host == Lookup(env, "SMTP_HOST") && c.port == Lookup(env, "SMTP_PORT")
    ensures c.user == Lookup(env, "SMTP_USER") && c.pass == Lookup(env, "SMTP_PASS")
    ensures c.secure <==> Lookup(env, "SMTP_SECURE") == Some("true")
    ensures c.tls.Some? <==> Lookup(env, "SMTP_HOST") == Some("smtp.gmail.com")
    ensures c.tls.Some? ==> !c.tls.value.rejectUnauthorized
  {
    var config := HostConfig(Lookup(env, "SMTP_HOST"), Lookup(env, "SMTP_PORT"),
                             Lookup(env, "SMTP_SECURE") == Some("true"),
                             Lookup(env, "SMTP_USER"), Lookup(env, "SMTP_PASS"), None);
    if Lookup(env, "SMTP_HOST") == Some("smtp.gmail.com") then config.(tls := Some(Tls(false))) else config
  }

  /** `createTransporter`'s construction of its options: the object literal first,
      the Gmail TLS entry assigned afterwards. */
  method CreateTransporter(env: Env) returns (config: TransportConfig)
    ensures config == TransporterConfig(env)
  {
    config := HostConfig(Lookup(env, "SMTP_HOST"), Lookup(env, "SMTP_PORT"),
                         Lookup(env, "SMTP_SECURE") == Some("true"),
                         Lookup(env, "SMTP_USER"), Lookup(env, "SMTP_PASS"), None);
    if Lookup(env, "SMTP_HOST") == Some("smtp.gmail.com") {
      config := config.(tls := Some(Tls(false)));
    }
  }

  /** The handler's guard: host, user and password are all set and non-empty. */
  predicate SmtpConfigured(env: Env) {
    Truthy(Lookup(env, "SMTP_HOST")) && Truthy(Lookup(env, "SMTP_USER")) && Truthy(Lookup(env, "SMTP_PASS"))
  }

  // ---------------------------------------------------------------------------
  // Templates

  /** The text of the two bodies the route sends: `createEmailTemplate` and
      the confirmation written inline in the handler. */
  const Letters := Stationery(Notification, Confirmation)

  /** The text of `createEmailTemplate` around its six interpolations. */
  const Notification := NotificationFrame(NotificationHead, NotificationEmailLabel, NotificationSubjectLabel,
                                          NotificationMessageLabel, NotificationFooter, NotificationTail)

  const NotificationHead := "\n"
    + "    <!DOCTYPE html>\n"
    + "    <html>\n"
    + "    <head>\n"
    + "      <meta charset=\"utf-8\">\n"
    + "      <meta name=\"viewport\" content=\"width=device-width, initial-scale=1.0\">\n"
    + "      <title>New Contact Form Message</title>\n"
    + "      <style>\n"
    + "        body { font-family: Arial, sans-serif; line-height: 1.6; color: #333; max-width: 600px; margin: 0 auto; padding: 20px; }\n"
    + "        .header { background: linear-gradient(135deg, #667eea 0%, #764ba2 100%); color: white; padding: 20px; border-radius: 10px 10px 0 0; }\n"
    + "        .content { background: #f9f9f9; padding: 20px; border-radius: 0 0 10px 10px; }\n"
    + "        .field { margin-bottom: 15px; }\n"
    + "        .label { font-weight: bold; color: #555; }\n"
    + "        .value { background: white; padding: 10px; border-radius: 5px; margin-top: 5px; }\n"
    + "        .footer { text-align: center; margin-top: 20px; color: #666; font-size: 12px; }\n"
    + "      </style>\n"
    + "    </head>\n"
    + "    <body>\n"
    + "      <div class=\"header\">\n"
    + "        <h2>\U{1F680} New Portfolio Contact Message</h2>\n"
    + "        <p>You've received a new message from your portfolio website!</p>\n"
    + "      </div>\n"
    + "      <div class=\"content\">\n"
    + "        <div class=\"field\">\n"
    + "          <div class=\"label\">\U{1F464} From:</div>\n"
    + "          "
  const NotificationEmailLabel := "\n"
    + "        </div>\n"
    + "        <div class=\"field\">\n"
    + "          <div class=\"label\">\U{1F4E7} Email:</div>\n"
    + "          " + ValueOpen
  const NotificationSubjectLabel := "\n"
    + "        </div>\n"
    + "        <div class=\"field\">\n"
    + "          <div class=\"label\">\U{1F4DD} Subject:</div>\n"
    + "          "
  const NotificationMessageLabel := "\n"
    + "        </div>\n"
    + "        <div class=\"field\">\n"
    + "          <div class=\"label\">\U{1F4AC} Message:</div>\n"
    + "          "
  const NotificationFooter := "\n"
    + "        </div>\n"
    + "      </div>\n"
    + "      <div class=\"footer\">\n"
    + "        <p>\U{1F4C5} "
  const NotificationTail := "\n"
    + "        <p>\U{1F310} Source: Portfolio Contact Form</p>\n"
    + "      </div>\n"
    + "    </body>\n"
    + "    </html>\n"
    + "  "

  /** The text of the confirmation body around its three interpolations. */
  const Confirmation := ConfirmationFrame(ConfirmationHead, ConfirmationIntro, "\n            ", ConfirmationTail)

  const ConfirmationHead := "\n"
    + "        <div style=\"font-family: Arial, sans-serif; max-width: 600px; margin: 0 auto; padding: 20px;\">\n"
    + "          <h2 style=\"color: #667eea;\">"
  const ConfirmationIntro := "\n"
    + "          <p>I've received your message and will get back to you within 24 hours.</p>\n"
    + "          <div style=\"background: #f9f9f9; padding: 15px; border-radius: 5px; margin: 20px 0;\">\n"
    + "            <h4>Your message:</h4>\n"
    + "            "
  const ConfirmationTail := "\n"
    + "          </div>\n"
    + "          <p>Best regards,<br>Hardik Kannoija</p>\n"
    + "          <p style=\"color: #666; font-size: 12px;\">This is an automated response from my portfolio website.</p>\n"
    + "        </div>\n"
    + "      "

  // ---------------------------------------------------------------------------
  // POST /api/contact

  const NotConfiguredText := "Message received! SMTP not configured - check server logs."
  const SentText := "Message sent successfully! I'll get back to you soon."
  const InternalErrorText := "Internal server error. Please try again later."
  const AuthFailedText := "Email authentication failed. Please check SMTP credentials."
  const ConnectFailedText := "Failed to connect to email server. Please try again later."

  /** The JSON answer `res.status(status).json({ success, message })`. */
  datatype ApiReply = ApiReply(status: int, success: bool, message: string)

  /** The catch block's message for a thrown error: the code decides, the
      error's own message never shows. */
  function ErrorText(e: Thrown): (m: string)
    ensures e.code == Some("EAUTH") <==> m == AuthFailedText
    ensures e.code == Some("ECONNECTION") <==> m == ConnectFailedText
    ensures e.code != Some("EAUTH") && e.code != Some("ECONNECTION") <==> m == InternalErrorText
  {
    if e.code == Some("EAUTH") then AuthFailedText
    else if e.code == Some("ECONNECTION") then ConnectFailedText
    else InternalErrorText
  }

  /** `"${FROM_NAME}" <${FROM_EMAIL}>`. */
  function FromHeader(env: Env): string {
    "\"" + Rendered(env, "FROM_NAME") + "\" <" + Rendered(env, "FROM_EMAIL") + ">"
  }

  /** The notification to the site owner. */
  function NotificationMail(env: Env, s: Submission, receivedAt: string): MailOptions {
    MailOptions(FromHeader(env), Lookup(env, "TO_EMAIL"), "Portfolio Contact: " + s.subject,
                NotificationLetter(s, receivedAt), Some(s.email))
  }

  /** The confirmation to the sender. */
  function ConfirmationMail(env: Env, s: Submission): MailOptions {
    MailOptions(FromHeader(env), Some(s.email), "Thank you for contacting me!",
                ConfirmationLetter(s), None)
  }

  /** What the two messages carry: the notification goes to TO_EMAIL, is
      answerable to the sender and shows the message with `<br>` for its line
      feeds; the confirmation goes to the sender and shows the message as
      submitted. */
  lemma MailsCarrySubmission(st: Stationery, env: Env, s: Submission, receivedAt: string)
    ensures var n := NotificationMail(env, s, receivedAt);
            n.to == Lookup(env, "TO_EMAIL") && n.replyTo == Some(s.email)
            && n.subject == "Portfolio Contact: " + s.subject
            && Contains(Render(st, n.html), ValueOpen + NewlinesToBr(s.message) + ValueClose)
    ensures var c := ConfirmationMail(env, s);
            c.to == Some(s.email) && c.replyTo.None?
            && Contains(Render(st, c.html), MessageLabel + s.message + ParagraphClose)
  {
  }

  /** Every call the handler makes when nothing fails, in order. */
  function Plan(env: Env, s: Submission, receivedAt: string): seq<Call> {
    [Call.Build(TransporterConfig(env)), Verify,
     Send(NotificationMail(env, s, receivedAt)), Send(ConfirmationMail(env, s))]
  }

  /** The reply for an error reaching the outer catch. */
  function Failure(e: Thrown): ApiReply {
    ApiReply(500, false, ErrorText(e))
  }

  /** The mail part of the route, once the submission is valid and SMTP is
      configured: build, verify and notify, each awaited in turn, the first
      error ending the run; the confirmation's own outcome is never consulted. */
  function Delivery(env: Env, s: Submission, receivedAt: string,
                    creation: Outcome, verify: Outcome, notify: Outcome): (r: Run<ApiReply>)
    ensures r.calls <= Plan(env, s, receivedAt) && |r.calls| >= 1
    ensures |r.calls| >= 2 <==> creation.Ok?
    ensures |r.calls| >= 3 <==> creation.Ok? && verify.Ok?
    ensures |r.calls| == 4 <==> creation.Ok? && verify.Ok? && notify.Ok?
    ensures r.reply.status == 200 <==> |r.calls| == 4
    ensures |r.calls| == 4 ==> r.reply == ApiReply(200, true, SentText)
    ensures |r.calls| < 4 ==> r.reply == Failure(if creation.Err? then creation.error
                                                  else if verify.Err? then verify.error else notify.error)
  {
    var plan := Plan(env, s, receivedAt);
    if creation.Err? then Run(Failure(creation.error), plan[..1])
    else if verify.Err? then Run(Failure(verify.error), plan[..2])
    else if notify.Err? then Run(Failure(notify.error), plan[..3])
    else Run(ApiReply(200, true, SentText), plan)
  }

  /** The route for a request whose body carries `f`, given what building the
      transporter, `verify()` and the notification send yield. What the
      confirmation send yields is not an input: nothing depends on it. */
  function ServerRun(f: Fields, env: Env, receivedAt: string,
                     creation: Outcome, verify: Outcome, notify: Outcome): (r: Run<ApiReply>)
    // the reply
    ensures r.reply.success <==> r.reply.status == 200
    ensures r.reply.status == 400 <==> Validate(f).Rejected?
    ensures Validate(f).Rejected? ==> r.reply.message == RejectionText(Validate(f).reason)
    ensures r.reply.status == 200 <==>
              Validate(f).Accepted? && (!SmtpConfigured(env) || (creation.Ok? && verify.Ok? && notify.Ok?))
    ensures r.reply.status == 200 ==>
              r.reply.message == (if SmtpConfigured(env) then SentText else NotConfiguredText)
    ensures r.reply.status == 500 <==>
              Validate(f).Accepted? && SmtpConfigured(env) && (creation.Err? || verify.Err? || notify.Err?)
    ensures r.reply.status == 500 ==>
              r.reply.message == ErrorText(if creation.Err? then creation.error
                                           else if verify.Err? then verify.error else notify.error)
    // the calls on the mail library
    ensures r.calls == [] <==> Validate(f).Rejected? || !SmtpConfigured(env)
    ensures r.calls != [] ==> r.calls == Delivery(env, Validate(f).submission, receivedAt, creation, verify, notify).calls
  {
    match Validate(f)
    case Rejected(why) => Run(ApiReply(400, false, RejectionText(why)), [])
    case Accepted(s) =>
      if !SmtpConfigured(env) then Run(ApiReply(200, true, NotConfiguredText), [])
      else Delivery(env, s, receivedAt, creation, verify, notify)
  }

  /** No message goes out before `verify()`, and the confirmation only after
      the notification; an unconfigured server makes no call at all. */
  lemma ServerRunOrdered(f: Fields, env: Env, receivedAt: string,
                         creation: Outcome, verify: Outcome, notify: Outcome)
    requires Validate(f).Accepted?
    ensures var s := Validate(f).submission;
            Ordered(ServerRun(f, env, receivedAt, creation, verify, notify).calls,
                    NotificationMail(env, s, receivedAt), ConfirmationMail(env, s))
  {
    var s := Validate(f).submission;
    if SmtpConfigured(env) {
      PlanIsOrdered(TransporterConfig(env), NotificationMail(env, s, receivedAt), ConfirmationMail(env, s),
                    Delivery(env, s, receivedAt, creation, verify, notify).calls);
    }
  }

  /** The mail part of the handler over the mail library. */
  method Deliver(net: Relay, env: Env, s: Submission, receivedAt: string) returns (reply: ApiReply)
    modifies net
    ensures var run := Delivery(env, s, receivedAt, net.script.creation, net.script.verify.outcome,
                                net.script.sends(old(net.sent)).outcome);
            reply == run.reply && net.log == old(net.log) + run.calls
            && net.sent == old(net.sent) + Sends(run.calls)
  {
    ghost var log0 := net.log;
    ghost var plan := Plan(env, s, receivedAt);
    var config := CreateTransporter(env);
    var created := net.Build(config);
    ExtendByStep(log0, plan, 0);
    if created.Err? {
      return Failure(created.error);
    }
    var verified := net.Verify();
    ExtendByStep(log0, plan, 1);
    if verified.outcome.Err? {
      return Failure(verified.outcome.error);
    }
    var info := net.SendMail(NotificationMail(env, s, receivedAt));
    ExtendByStep(log0, plan, 2);
    if info.outcome.Err? {
      return Failure(info.outcome.error);
    }
    // The confirmation is best effort: whatever it yields, the reply is the same.
    var confirmation := net.SendMail(ConfirmationMail(env, s));
    ExtendByStep(log0, plan, 3);
    assert plan[..4] == plan;
    reply := ApiReply(200, true, SentText);
  }

  /** The handler: validation, the configuration guard, then the mail part. */
  method HandleContact(net: Relay, body: Fields, env: Env, receivedAt: string) returns (reply: ApiReply)
    modifies net
    ensures var run := ServerRun(body, env, receivedAt, net.script.creation, net.script.verify.outcome,
                                 net.script.sends(old(net.sent)).outcome);
            reply == run.reply && net.log == old(net.log) + run.calls
            && net.sent == old(net.sent) + Sends(run.calls)
  {
    if !Truthy(body.name) || !Truthy(body.email) || !Truthy(body.subject) || !Truthy(body.message) {
      assert Validate(body) == Rejected(MissingField);
      return ApiReply(400, false, RejectionText(MissingField));
    }
    var s := Submission(body.name.value, body.email.value, body.subject.value, body.message.value);
    assert RequireFields(body) == Some(s);
    var shaped := TestEmail(s.email);
    if !shaped {
      assert Validate(body) == Rejected(InvalidEmail);
      return ApiReply(400, false, RejectionText(InvalidEmail));
    }
    assert Validate(body) == Accepted(s);
    if !Truthy(Lookup(env, "SMTP_HOST")) || !Truthy(Lookup(env, "SMTP_USER")) || !Truthy(Lookup(env, "SMTP_PASS")) {
      return ApiReply(200, true, NotConfiguredText);
    }
    reply := Deliver(net, env, s, receivedAt);
  }
}
