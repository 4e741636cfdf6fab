/** The mail transport as the handlers see it. Building a transporter,
    `verify()` and `sendMail()` belong to a foreign library that talks to the
    network, so their results are supplied rather than computed: a `Script`
    says what each step yields and how long it takes, and a `Relay` answers the
    handler from that script while recording every call it receives, in order. */
module Mail {
  import opened JsBase
  import opened Templates

  /** What a transport step yields: success with the provider's message id, or an error. */
  datatype Outcome = Ok(messageId: string) | Err(error: Thrown)

  /** A settled step and how many milliseconds after the call it settled. */
  datatype Answer = Answer(outcome: Outcome, elapsedMs: nat)

  /** `Promise.race([step, timeout(limitMs, what)])`: the step's own outcome when it
      settles before the timer fires, otherwise a code-less timeout error. */
  function Race(a: Answer, limitMs: nat, timeoutMessage: string): (r: Outcome)
    ensures r.Ok? <==> a.elapsedMs < limitMs && a.outcome.Ok?
    ensures r.Ok? ==> r == a.outcome
    ensures a.elapsedMs >= limitMs ==> r.error.code.None? && r.error.message == timeoutMessage
  {
    if a.elapsedMs < limitMs then a.outcome else Err(Thrown(None, timeoutMessage))
  }

  datatype Tls = Tls(rejectUnauthorized: bool)

  /** An SMTP account, supplied from outside the model. */
  datatype Credentials = Credentials(login: string, secret: string)

  /** The options object handed to the transport factory. */
  datatype TransportConfig =
    | HostConfig(host: Option<string>, port: Option<string>, secure: bool,
                 user: Option<string>, pass: Option<string>, tls: Option<Tls>)
    | ServiceConfig(service: string, auth: Credentials, serviceTls: Option<Tls>)

  /** The options object handed to `sendMail`. The `html` body is recorded as
      the letter it is rendered from; `Templates.Render` gives its text. */
  datatype MailOptions = MailOptions(from: string, to: Option<string>, subject: string,
                                     html: Letter, replyTo: Option<string>)

  /** One call a handler makes on the mail library. */
  datatype Call = Build(config: TransportConfig) | Verify | Send(mail: MailOptions)

  /** What the outside world does: whether building the transporter throws, how
      `verify()` settles, and how the n-th `sendMail()` call settles. */
  datatype Script = Script(creation: Outcome, verify: Answer, sends: nat -> Answer)

  /** How many messages a sequence of calls hands to `sendMail()`. */
  function Sends(calls: seq<Call>): nat {
    if calls == [] then 0 else Sends(calls[..|calls| - 1]) + (if calls[|calls| - 1].Send? then 1 else 0)
  }

  /** Taking one more step of a plan extends the log by that step, and the
      count of messages handed over by one when the step is a send. */
  lemma ExtendByStep(log: seq<Call>, plan: seq<Call>, n: nat)
    requires n < |plan|
    ensures (log + plan[..n]) + [plan[n]] == log + plan[..n + 1]
    ensures Sends(plan[..n + 1]) == Sends(plan[..n]) + (if plan[n].Send? then 1 else 0)
  {
    assert plan[..n + 1] == plan[..n] + [plan[n]];
    assert plan[..n + 1][..n] == plan[..n];
  }

  /** The order every handler promises: nothing is sent before `verify()`
      has been called, and the confirmation only after the notification. */
  predicate Ordered(calls: seq<Call>, notification: MailOptions, confirmation: MailOptions) {
    && (forall i | 0 <= i < |calls| && calls[i].Send? :: Verify in calls[..i])
    && (forall i | 0 <= i < |calls| && calls[i] == Send(confirmation) :: Send(notification) in calls[..i])
  }

  /** Any run that follows the build, verify, notify, confirm plan as far as it
      gets is in that order, provided the two messages differ. */
  lemma PlanIsOrdered(config: TransportConfig, notification: MailOptions, confirmation: MailOptions,
                      calls: seq<Call>)
    requires notification != confirmation
    requires calls <= [Call.Build(config), Verify, Send(notification), Send(confirmation)]
    ensures Ordered(calls, notification, confirmation)
  {
    var plan := [Call.Build(config), Verify, Send(notification), Send(confirmation)];
    forall i | 0 <= i < |calls| && calls[i].Send? ensures Verify in calls[..i] {
      assert calls[i] == plan[i];
      assert calls[..i][1] == Verify;
    }
    forall i | 0 <= i < |calls| && calls[i] == Send(confirmation) ensures Send(notification) in calls[..i] {
      assert calls[i] == plan[i];
      assert i == 3;
      assert calls[..i][2] == Send(notification);
    }
  }

  /** A handler's run: what it answers and the calls it made, in order. */
  datatype Run<R> = Run(reply: R, calls: seq<Call>)

  /** The mail library for one process: it answers from its script and keeps a
      log of the calls made on it, and a count of the messages handed over (the
      position the next `sendMail()` answer is read from). */
  class Relay {
    const script: Script
    var log: seq<Call>
    var sent: nat

    constructor (script: Script)
      ensures this.script == script && log == [] && sent == 0
    {
      this.script := script;
      log := [];
      sent := 0;
    }

    /** `createTransport(config)`: Err when the factory throws. */
    method Build(config: TransportConfig) returns (r: Outcome)
      modifies this
      ensures log == old(log) + [Call.Build(config)] && sent == old(sent)
      ensures r == script.creation
    {
      log := log + [Call.Build(config)];
      r := script.creation;
    }

    /** `transporter.verify()`. */
    method Verify() returns (a: Answer)
      modifies this
      ensures log == old(log) + [Call.Verify] && sent == old(sent)
      ensures a == script.verify
    {
      log := log + [Call.Verify];
      a := script.verify;
    }

    /** `transporter.sendMail(mail)`: the answer scripted for this position among the sends. */
    method SendMail(mail: MailOptions) returns (a: Answer)
      modifies this
      ensures log == old(log) + [Send(mail)] && sent == old(sent) + 1
      ensures a == script.sends(old(sent))
    {
      a := script.sends(sent);
      log := log + [Send(mail)];
      sent := sent + 1;
    }
  }
}
