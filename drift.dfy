/** How the copies of the contact handler differ. Each lemma feeds the same
    request to the variants and states what each one answers. */
module Drift {
  import opened JsBase
  import opened Validation
  import opened Mail
  import opened Netlify
  import Server
  import NetlifyContact
  import ContactLog
  import ContactSimple
  import ContactBackup

  // ---------------------------------------------------------------------------
  // The e-mail pattern on sample addresses

  lemma PlainAddressIsShaped()
    ensures EmailShaped("jane@example.com")
  {
    var good := "jane@example.com";
    assert OnlyAt(good, 4);
    assert good[5..][7] == '.';
  }

  lemma BareNameIsNotShaped()
    ensures !EmailShaped("bob")
  {
  }

  lemma DoubleAtIsNotShaped()
    ensures !EmailShaped("bob@@x")
  {
    var bad := "bob@@x";
    assert bad[3] == '@' && bad[4] == '@';
  }

  /** There is no trimming: fields made of whitespace are present, and only the
      e-mail has to match the pattern. */
  lemma WhitespaceFieldsPass()
    ensures Validate(Fields(Some(" "), Some("jane@example.com"), Some("\t"), Some("\n"))).Accepted?
  {
    PlainAddressIsShaped();
  }

  // ---------------------------------------------------------------------------
  // Method dispatch

  /** The four Netlify functions answer any method but POST alike, before they
      look at the body. */
  lemma SameDispatch(e: Event, parse: Parser, auth: Credentials, nodeEnv: Option<string>, receivedAt: string,
                     isoNow: string, nowMs: nat, tag: string, creation: Outcome, verify: Answer, notify: Answer)
    requires e.httpMethod != "POST"
    ensures var c := NetlifyContact.ContactRun(e, parse, auth, nodeEnv, receivedAt, creation, verify, notify);
            c.reply == Preflight(e.httpMethod).value && c.calls == []
    ensures ContactLog.LogRun(e, parse, isoNow, nowMs, tag) == Preflight(e.httpMethod).value
    ensures ContactSimple.SimpleRun(e, parse, isoNow) == Preflight(e.httpMethod).value
    ensures ContactBackup.BackupRun(e, parse, isoNow) == Preflight(e.httpMethod).value
  {
  }

  // ---------------------------------------------------------------------------
  // Bodies that are not a JSON object

  /** An empty body is a 400 in contact.js (the parse guard), a 500 in
      contact-log.js and contact-backup.js (the outer catch), and a missing-field
      400 in contact-simple.js (which parses "{}" instead). */
  lemma EmptyBodyAnswers(parse: Parser, auth: Credentials, nodeEnv: Option<string>, receivedAt: string,
                         isoNow: string, nowMs: nat, tag: string, creation: Outcome, verify: Answer, notify: Answer)
    requires StandardParser(parse)
    ensures var c := NetlifyContact.ContactRun(Event("POST", Some("")), parse, auth, nodeEnv, receivedAt,
                                               creation, verify, notify);
            c.reply == Respond(400, Payload(false, NetlifyContact.InvalidJsonText, [])) && c.calls == []
    ensures ContactLog.LogRun(Event("POST", Some("")), parse, isoNow, nowMs, tag) == ContactLog.ProcessingFailure(isoNow)
    ensures ContactSimple.SimpleRun(Event("POST", Some("")), parse, isoNow) ==
              Respond(400, Payload(false, RejectionText(MissingField), []))
    ensures ContactBackup.BackupRun(Event("POST", Some("")), parse, isoNow) ==
              ContactBackup.Crash(Thrown(None, parse("").message))
  {
    assert ContactSimple.DefaultedBody(Some("")) == "{}";
  }

  /** The TypeError for a null body in contact.js maps to the generic text:
      it does not mention "Invalid login". */
  lemma NullBodyIsGeneric()
    ensures NetlifyContact.ErrorText(Thrown(None, NullDestructureMessage("parsedBody"))) ==
              NetlifyContact.GenericFailureText
  {
    var a, b, c, d, expr := "Cannot destructure ", "property 'name' ", "of '", "' as it is null.", "parsedBody";
    assert Lacks(a, 'I') && Lacks(b, 'I') && Lacks(c, 'I') && Lacks(d, 'I') && Lacks(expr, 'I');
    LacksAppend(a, b, 'I');
    LacksAppend(a + b, c, 'I');
    LacksAppend(a + b + c, expr, 'I');
    LacksAppend(a + b + c + expr, d, 'I');
    AbsentLead(NullDestructureMessage(expr), "Invalid login");
  }

  /** A null body (which `JSON.parse` reads as "null") throws at destructuring
      in every function that destructures the parse directly: contact.js answers
      its generic 500, contact-log.js its processing 500, contact-backup.js a 500
      carrying the TypeError's message; contact-simple.js substitutes "{}". */
  lemma NullBodyAnswers(parse: Parser, auth: Credentials, nodeEnv: Option<string>, receivedAt: string,
                        isoNow: string, nowMs: nat, tag: string, creation: Outcome, verify: Answer, notify: Answer)
    requires StandardParser(parse)
    ensures var c := NetlifyContact.ContactRun(Event("POST", None), parse, auth, nodeEnv, receivedAt,
                                               creation, verify, notify);
            c.reply.statusCode == 500 && c.calls == []
            && c.reply.body.Payload? && c.reply.body.message == NetlifyContact.GenericFailureText
    ensures ContactLog.LogRun(Event("POST", None), parse, isoNow, nowMs, tag) == ContactLog.ProcessingFailure(isoNow)
    ensures ContactSimple.SimpleRun(Event("POST", None), parse, isoNow) ==
              Respond(400, Payload(false, RejectionText(MissingField), []))
    ensures ContactBackup.BackupRun(Event("POST", None), parse, isoNow) ==
              ContactBackup.Crash(Thrown(None, NullDestructureMessage("JSON.parse(...)")))
  {
    assert BodyText(None) == "null";
    NullBodyIsGeneric();
  }

  // ---------------------------------------------------------------------------
  // A malformed e-mail address

  /** A complete submission whose e-mail does not match the pattern: the
      server, contact.js and contact-log.js refuse it with the same 400, while
      contact-simple.js and contact-backup.js accept it. */
  lemma LooseEmailAnswers(body: string, parse: Parser, m: map<string, string>,
                          env: Server.Env, auth: Credentials, nodeEnv: Option<string>, receivedAt: string,
                          isoNow: string, nowMs: nat, tag: string,
                          creation: Outcome, verify: Answer, notify: Answer)
    requires body != "" && parse(body) == Value(JObject(m))
    requires "name" in m && "email" in m && "subject" in m && "message" in m
    requires m["name"] != "" && m["email"] != "" && m["subject"] != "" && m["message"] != ""
    requires !EmailShaped(m["email"])
    ensures var f := Fields(Some(m["name"]), Some(m["email"]), Some(m["subject"]), Some(m["message"]));
            var r := Server.ServerRun(f, env, receivedAt, creation, verify.outcome, notify.outcome);
            r.reply == Server.ApiReply(400, false, RejectionText(InvalidEmail)) && r.calls == []
    ensures var c := NetlifyContact.ContactRun(Event("POST", Some(body)), parse, auth, nodeEnv, receivedAt,
                                               creation, verify, notify);
            c.reply == Respond(400, Payload(false, RejectionText(InvalidEmail), [])) && c.calls == []
    ensures ContactLog.LogRun(Event("POST", Some(body)), parse, isoNow, nowMs, tag) ==
              Respond(400, Payload(false, RejectionText(InvalidEmail), []))
    ensures ContactSimple.SimpleRun(Event("POST", Some(body)), parse, isoNow).statusCode == 200
    ensures ContactBackup.BackupRun(Event("POST", Some(body)), parse, isoNow).statusCode == 200
  {
    var f := Fields(Some(m["name"]), Some(m["email"]), Some(m["subject"]), Some(m["message"]));
    assert Destructure(JObject(m), "parsedBody") == Props(f);
    assert Destructure(JObject(m), "JSON.parse(...)") == Props(f);
    assert Validate(f) == Rejected(InvalidEmail);
  }

  /** The pattern's own examples: "bob" has no '@'. */
  lemma BareNameAnswers(body: string, parse: Parser, env: Server.Env, receivedAt: string, isoNow: string,
                        creation: Outcome, verify: Outcome, notify: Outcome)
    requires body != ""
    requires parse(body) == Value(JObject(map["name" := "Bob", "email" := "bob", "subject" := "Hi", "message" := "Hello"]))
    ensures Server.ServerRun(Fields(Some("Bob"), Some("bob"), Some("Hi"), Some("Hello")), env, receivedAt,
                             creation, verify, notify).reply.status == 400
    ensures ContactSimple.SimpleRun(Event("POST", Some(body)), parse, isoNow).statusCode == 200
  {
    BareNameIsNotShaped();
    var f := Fields(Some("Bob"), Some("bob"), Some("Hi"), Some("Hello"));
    assert Validate(f) == Rejected(InvalidEmail);
    var m := map["name" := "Bob", "email" := "bob", "subject" := "Hi", "message" := "Hello"];
    assert Destructure(JObject(m), "JSON.parse(...)") == Props(f);
  }
}
