# Portfolio contact-form handlers in Dafny

This project models the contact-form submission handler of a personal
portfolio site and proves properties of it. The handler exists in five
copies, and the copies have drifted apart:

- the Express route `POST /api/contact` in `backend/server.js`, with its
  helpers `createTransporter` and `createEmailTemplate`;
- four Netlify functions under `frontend/netlify/functions/`:
  - `contact.js` mails through Gmail;
  - `contact-log.js` only logs;
  - `contact-simple.js` checks fields and echoes them back;
  - `contact-backup.js` is a test responder.

Once the network is abstracted, each handler is a deterministic decision
procedure. Its inputs are:

- the HTTP method and the raw body;
- the configuration;
- what each mail step yields.

Its outputs are a status code, a `success` flag, a message, any extra
response properties, and the list of calls made on the mail library, in
order.

Modules, one per concern or source file:

- `JsBase` (`js_base.dfy`) covers the bits of JavaScript the handlers rely on:
  - truthiness of strings and the `\s` class;
  - `includes`;
  - UTF-16 `length`;
  - decimal rendering of a number, and reading it back.
- `Validation` (`validation.dfy`) holds the required-field check and the e-mail
  pattern `^[^\s@]+@[^\s@]+\.[^\s@]+$`, in three forms:
  - `RegexMatch` gives the pattern's language;
  - `EmailShaped` is a declarative reading: one '@', no whitespace, a
    non-empty local part, and a domain with an inner '.';
  - `TestEmail` is a one-pass character scanner.

  All three are proved equal.
- `Templates` (`templates.dfy`) covers:
  - template-literal interpolation, which does no escaping;
  - `message.replace(/\n/g, '<br>')`;
  - the notification and confirmation bodies, generic in the fixed text that
    surrounds the values.
- `Mail` (`mail.dfy`) models the mail library as a class `Relay`:
  - a `Script` of supplied outcomes says what building a transporter,
    `verify()` and the n-th `sendMail()` yield;
  - the relay answers from that script and records each call in a `log`;
  - `Promise.race` against a timer is `Race`: the step's own outcome wins
    only if it settles strictly before the limit.
- `Server` (`server.dfy`) is `backend/server.js`. It has:
  - the transporter options and `createEmailTemplate`'s text;
  - the error-code mapping;
  - the route as a function `ServerRun`;
  - the route as methods `HandleContact` and `Deliver` over a `Relay`, proved
    to make exactly the calls `ServerRun` lists and to give its reply.
- `Netlify` (`netlify.dfy`) holds what the four functions share:
  - the event and the response;
  - the CORS headers;
  - the method dispatch;
  - `JSON.parse`, which is supplied;
  - destructuring, where a `null` body throws a TypeError.
- `NetlifyContact` (`netlify_contact.dfy`) is `contact.js`. It has:
  - the function `ContactRun` and the methods `Handle` and `Deliver`, with
    the same relation between them as in `Server`;
  - the transporter factory as written (see Findings).
- `ContactLog`, `ContactSimple` and `ContactBackup` (`contact_log.dfy`,
  `contact_simple.dfy`, `contact_backup.dfy`) are the three pure variants.
- `Drift` (`drift.dfy`) feeds the same request to the variants and states
  how their answers differ: empty body, null body, a malformed address,
  other methods.

Message bodies are recorded in the log as a `Letter`:
- which template was used;
- the submission it was applied to;
- the time of receipt, when the template shows it.

`Templates.Render` with a back end's `Letters` gives the HTML text. Each back
end's `Letters` constant holds its exact template text.

## Model

| member | source | states |
|---|---|---|
| JsBase.Utf16Length | frontend/netlify/functions/contact-simple.js:64 | `message.length` lies between the number of characters and twice that; it equals the number of characters exactly when no character is outside the Basic Multilingual Plane |
| JsBase.Decimal | frontend/netlify/functions/contact-log.js:65 | the rendering of `Date.now()` is a non-empty run of digits, with no leading zero except for 0 itself |
| JsBase.DecimalRoundTrip | frontend/netlify/functions/contact-log.js:65 | reading the rendered digits back gives the number |
| Validation.RejectionText | backend/server.js:270-284 | "All fields are required" exactly for a missing field; "Invalid email format" exactly for a bad address |
| Validation.RequireFields | backend/server.js:270-275 | a submission exists exactly when all four fields are present and non-empty (no trimming), and it carries the fields' own strings |
| Validation.ShapedGivesMatch | backend/server.js:278 | a declaratively well-shaped address is in the pattern's language |
| Validation.MatchGivesShaped | backend/server.js:278 | an address in the pattern's language is declaratively well shaped |
| Validation.EmailShapedIsRegex | backend/server.js:278 | the declarative reading and the pattern accept the same strings |
| Validation.TestEmail | backend/server.js:278-279 | the one-pass scan answers true exactly for well-shaped addresses |
| Validation.Validate | backend/server.js:270-284 | missing field exactly when a field is absent or empty; bad address exactly when all fields are present and the address is not well shaped; an accepted submission carries the fields and a well-shaped address |
| Validation.ValidateMatchesPattern | backend/server.js:270-284 | a submission is accepted exactly when every field is present and the address matches the pattern |
| Templates.Interpolate | backend/server.js:42-88 | a template literal's output starts with its first literal text |
| Templates.InterpolateEmbeds | backend/server.js:42-88 | every interpolated value appears verbatim between the literal texts around it, at a computed position |
| Templates.InterpolateShows | backend/server.js:42-88 | a value appears next to the end of the text before it and the start of the text after it |
| Templates.NewlinesToBrAppend | backend/server.js:79 | the replacement commutes with concatenation |
| Templates.NewlinesToBrClears | backend/server.js:79 | no line feed is left, and a message without one is embedded unchanged |
| Templates.NewlinesToBrLength | backend/server.js:79 | the output is three characters longer per line feed |
| Templates.NotificationHtml | backend/server.js:41-89 | name, e-mail (inside `mailto:` and as link text) and subject appear verbatim in their value elements; the message appears with `<br>` for line feeds; the time of receipt follows "Received: " |
| Templates.ConfirmationHtml | backend/server.js:337-349 | the greeting holds the name, and subject and message appear verbatim, the message with its line feeds unconverted |
| Templates.Render | backend/server.js:315 | a notification letter shows the converted message, a confirmation letter the raw one |
| Mail.PlanIsOrdered | backend/server.js:303-363 | in any run that follows build, verify, notify, confirm as far as it gets, nothing is sent before `verify()`, and the confirmation only after the notification |
| Mail.Relay.constructor | backend/server.js:303 | an empty log and no message sent yet |
| Mail.Relay.Build | backend/server.js:303 | appends the build call to the log and answers the scripted creation outcome |
| Mail.Relay.Verify | backend/server.js:307 | appends the verify call and answers the scripted verify result |
| Mail.Relay.SendMail | backend/server.js:327 | appends the send, answers the result scripted for this position among the sends, and counts it |
| Server.TransporterConfig | backend/server.js:12-28 | host, port, user and password copied from the environment; `secure` only for SMTP_SECURE exactly "true"; a TLS entry with `rejectUnauthorized` false only for SMTP_HOST exactly "smtp.gmail.com" |
| Server.CreateTransporter | backend/server.js:12-28 | the object built and then patched equals the options above |
| Server.ErrorText | backend/server.js:365-381 | the authentication text exactly for code EAUTH, the connection text exactly for ECONNECTION, the generic text otherwise |
| Server.MailsCarrySubmission | backend/server.js:311-350 | the notification goes to TO_EMAIL with "Portfolio Contact: " + subject, is answerable to the sender and shows the converted message; the confirmation goes to the sender and shows the raw message |
| Server.Delivery | backend/server.js:302-363 | the calls are a prefix of build, verify, notify, confirm; each step is reached exactly when the previous ones succeeded; 200 exactly when the notification succeeded, whatever the confirmation yields; otherwise the first error's 500 |
| Server.ServerRun | backend/server.js:265-382 | 400 exactly for a rejected submission, with its message; 200 exactly when accepted and either SMTP is unconfigured or every awaited step succeeded; 500 with the mapped error otherwise; no call at all exactly when rejected or unconfigured |
| Server.ServerRunOrdered | backend/server.js:303-363 | nothing is sent before `verify()`; the confirmation only after the notification |
| Server.Deliver | backend/server.js:302-363 | over the relay, the reply and the calls appended are those of `Delivery`, and the send count grows by the sends among them |
| Server.HandleContact | backend/server.js:265-382 | over the relay, the reply and the calls appended are those of `ServerRun`, and the send count grows by the sends among them |
| Netlify.Preflight | frontend/netlify/functions/contact.js:12-26 | OPTIONS exactly gives an empty 200; any method but POST exactly gives 405 "Method Not Allowed"; POST exactly goes on |
| Netlify.Destructure | frontend/netlify/functions/contact.js:42 | throws exactly on null, with the engine's TypeError; reads an object's four properties; reads all four as undefined on any other value |
| NetlifyContact.ErrorText | frontend/netlify/functions/contact.js:214-223 | EAUTH first, then ECONNECTION, then a message mentioning "Invalid login", else the generic text, each exactly |
| NetlifyContact.Failure | frontend/netlify/functions/contact.js:225-233 | 500 with the mapped message, and `debug` exactly when NODE_ENV is "development" |
| NetlifyContact.Admit | frontend/netlify/functions/contact.js:12-61 | non-POST answered by dispatch; unparseable JSON gives 400 "Invalid JSON format"; null throws; a parsed object failing validation gives 400 with that rejection's text; the mail steps run exactly for a parsed object that passes validation |
| NetlifyContact.Delivery | frontend/netlify/functions/contact.js:63-195 | the calls are a prefix of the plan; a throwing build is the failure itself; verify reached exactly when the build succeeded; notify exactly when verify succeeded within 10 s; a late or failed verify surfaces as a code-less "temporarily unavailable" error; a late or failed notification as its own or the timeout error; success exactly when the notification succeeded within 15 s |
| NetlifyContact.ContactRun | frontend/netlify/functions/contact.js:3-235 | CORS headers always; OPTIONS and 405 make no call; a request answered before the mail steps (bad JSON, rejected submission) gets exactly that answer; calls exactly for an admitted submission; 200 exactly when the mail steps succeeded; a null body, or a failed build, verify or notification, gets the outer catch's 500 for that error |
| NetlifyContact.ContactRunOrdered | frontend/netlify/functions/contact.js:79-195 | nothing is sent before `verify()`; the confirmation only after the notification |
| NetlifyContact.UnavailableIsGeneric | frontend/netlify/functions/contact.js:87-90 | the error a failed verify becomes maps to the generic text |
| NetlifyContact.VerifyFailureIsGeneric | frontend/netlify/functions/contact.js:79-90 | a failed or late verify gives the generic 500 after exactly the build and verify calls |
| NetlifyContact.Deliver | frontend/netlify/functions/contact.js:63-195 | over the relay, the failure and the calls appended are those of `Delivery`, and the send count grows by the sends among them |
| NetlifyContact.Handle | frontend/netlify/functions/contact.js:3-235 | over the relay, the response and the calls appended are those of `ContactRun`, and the send count grows by the sends among them |
| NetlifyContact.ContactRunAsWritten | frontend/netlify/functions/contact.js:66 | the handler as written never calls the mail library |
| NetlifyContact.MissingFactoryIsGeneric | frontend/netlify/functions/contact.js:66 | the TypeError of the missing factory maps to the generic text |
| NetlifyContact.AsWrittenNeverSends | frontend/netlify/functions/contact.js:66 | as written, no POST gets 200, and an admitted submission gets the generic failure message |
| NetlifyContact.CorrectedDelivers | frontend/netlify/functions/contact.js:63-204 | with a working factory, an admitted submission whose verify and notification succeed in time gets 200 after exactly the four planned calls |
| ContactLog.LeadingDigits | frontend/netlify/functions/contact-log.js:65 | the longest digit run at the start of a text |
| ContactLog.LeadingDigitsOfNumber | frontend/netlify/functions/contact-log.js:65 | the digits are delimited by the character after them |
| ContactLog.ContactIdReadsBack | frontend/netlify/functions/contact-log.js:65 | the identifier starts with "contact_", and the digits after it read back as `Date.now()`, whatever the random tag |
| ContactLog.LogRun | frontend/netlify/functions/contact-log.js:2-82 | dispatch as in every variant; 500 PROCESSING_ERROR exactly for unparseable or null JSON; 400 exactly for a rejected submission, with the same messages as the server; 200 with timestamp and contact id otherwise |
| ContactLog.LogAcceptsValid | frontend/netlify/functions/contact-log.js:25-67 | a POST is acknowledged exactly when it parses to an object that passes both checks |
| ContactSimple.DefaultedBody | frontend/netlify/functions/contact-simple.js:28 | a null or empty body is read as "{}"; any other body as itself |
| ContactSimple.SimpleRun | frontend/netlify/functions/contact-simple.js:1-83 | a parse error or null gives 500 carrying the error's message; 400 exactly when some field is missing, with no e-mail check; a parsed object carrying all four fields gets 200, and a 200 carries the debug echo |
| ContactSimple.EchoShowsSubmission | frontend/netlify/functions/contact-simple.js:60-65 | the echo shows name, e-mail and subject as submitted, and `messageLength` counts UTF-16 units |
| ContactBackup.BackupRun | frontend/netlify/functions/contact-backup.js:2-57 | 200 exactly for a POST whose body parses to something other than null, with no validation; 500 "Failed to process message" carrying the error's message otherwise; never a 400 |
| Drift.PlainAddressIsShaped | backend/server.js:278 | "jane@example.com" matches |
| Drift.BareNameIsNotShaped | backend/server.js:278-284 | "bob" does not match |
| Drift.DoubleAtIsNotShaped | backend/server.js:278-284 | "bob@@x" does not match |
| Drift.WhitespaceFieldsPass | backend/server.js:270 | fields made only of whitespace pass the required-field check |
| Drift.SameDispatch | frontend/netlify/functions/contact-backup.js:9-19 | the four Netlify functions answer any method but POST identically and make no call |
| Drift.EmptyBodyAnswers | frontend/netlify/functions/contact.js:30-40 | an empty body: 400 in contact.js, processing 500 in contact-log.js, missing-field 400 in contact-simple.js, 500 with the parse error in contact-backup.js |
| Drift.NullBodyIsGeneric | frontend/netlify/functions/contact.js:214-223 | the null-destructuring TypeError maps to the generic text in contact.js |
| Drift.NullBodyAnswers | frontend/netlify/functions/contact.js:42 | a null body: generic 500 in contact.js, processing 500 in contact-log.js, missing-field 400 in contact-simple.js, 500 with the TypeError in contact-backup.js |
| Drift.LooseEmailAnswers | frontend/netlify/functions/contact-simple.js:31 | a complete submission with a malformed address: 400 "Invalid email format" from the server, contact.js and contact-log.js; 200 from contact-simple.js and contact-backup.js |
| Drift.BareNameAnswers | frontend/netlify/functions/contact-simple.js:53-67 | the address "bob": 400 from the server, 200 from contact-simple.js |

## Left out

- The mail library itself (nodemailer's `createTransport`, `verify` and `sendMail`): it is foreign code talking to the network. Its results are supplied by the relay's script.
- Wall-clock time: each `Promise.race` timer is a settle time compared with its limit. `Date`'s `toLocaleString` and `toISOString`, `Date.now()` and the `Math.random` tag of the contact id are parameters.
- The confirmation's own timer in contact.js: the confirmation is raced against it and the outcome is discarded, as contact.js:177-195 does; no answer depends on it.
- `JSON.parse` is a parameter. The facts the lemmas need about it, that "" is a syntax error, "null" is null and "{}" is the empty object, are the predicate `StandardParser`.
- The wording of the engine's TypeError messages: "is not a function" and "Cannot destructure property 'name' of ... as it is null". Both follow V8.
- JSON property values other than strings, and JavaScript truthiness for them: a property is either absent or a string.
- Express middleware: helmet, compression, CORS origin matching and the JSON body parser. The route's input is the parsed body's four fields.
- `parseInt` on SMTP_PORT: the port is kept as the raw variable.
- `console.log` output, including the 100-character truncation in contact-simple.js.
- The `event.headers` reads inside the logging. They are assumed present.
- The Gmail account in contact.js: it is a `Credentials` parameter, and its value is not part of this model.
- HTML escaping: there is none in the source, and none in the model. Values are interpolated as they are.
- Templates.NotificationHtml: states where each value appears in the output, not the whole text. The whole text is the `Letters` constant of each back end, rendered by `Templates.Render`.
- The React client, the diagnostic and mock routes of the server, and the other Netlify functions (test-email.js, health.js, hello.js). They are not part of this model.

## Findings

| source | as written | input that shows it | evidently intended | confidence | as-written member | corrected member |
|---|---|---|---|---|---|---|
| frontend/netlify/functions/contact.js:66 | calls `nodemailer.createTransporter`, which nodemailer does not export (its factory is `createTransport`, as backend/server.js:37 uses); the call throws a TypeError into the outer catch | any POST with four non-empty fields and a well-shaped address, e.g. name "Jane", email "jane@example.com" | build the transporter with `createTransport`, verify, then send the notification and the confirmation | not executed | NetlifyContact.AsWrittenNeverSends | NetlifyContact.CorrectedDelivers |
