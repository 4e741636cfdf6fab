/** HTML bodies are built by template literals: fixed text with values
    interpolated as they are, with no escaping. The only transformation any
    handler applies is `message.replace(/\n/g, '<br>')`. */
module Templates {
  import opened JsBase
  import opened Validation

  /** A template literal `lits[0]${vals[0]}lits[1]...${vals[n-1]}lits[n]`. */
  function Interpolate(lits: seq<string>, vals: seq<string>): (r: string)
    requires |lits| == |vals| + 1
    ensures |r| >= |lits[0]| && r[..|lits[0]|] == lits[0]
  {
    if vals == [] then lits[0] else lits[0] + vals[0] + Interpolate(lits[1..], vals[1..])
  }

  /** Where lits[i] begins in the interpolation. */
  function LiteralStart(lits: seq<string>, vals: seq<string>, i: nat): nat
    requires |lits| == |vals| + 1 && i <= |vals|
  {
    if i == 0 then 0 else |lits[0]| + |vals[0]| + LiteralStart(lits[1..], vals[1..], i - 1)
  }

  /** Every interpolated value appears verbatim, between the literal text before it
      and the literal text after it. */
  lemma {:induction false} InterpolateEmbeds(lits: seq<string>, vals: seq<string>, i: nat)
    requires |lits| == |vals| + 1 && i < |vals|
    ensures OccursAt(Interpolate(lits, vals), lits[i] + vals[i] + lits[i + 1], LiteralStart(lits, vals, i))
  {
    var r := Interpolate(lits, vals);
    var rest := Interpolate(lits[1..], vals[1..]);
    assert r == lits[0] + vals[0] + rest;
    if i == 0 {
      assert rest[..|lits[1]|] == lits[1];
      assert r[..|lits[0] + vals[0] + lits[1]|] == lits[0] + vals[0] + lits[1];
    } else {
      InterpolateEmbeds(lits[1..], vals[1..], i - 1);
      var w := lits[i] + vals[i] + lits[i + 1];
      var k := LiteralStart(lits[1..], vals[1..], i - 1);
      assert rest[k..k + |w|] == w;
      assert r[|lits[0]| + |vals[0]| + k..|lits[0]| + |vals[0]| + k + |w|] == rest[k..k + |w|];
    }
  }

  /** The interpolated value in context: when the literal before it ends with
      `left` and the literal after it starts with `right`, the output holds
      `left`, the value, and `right` side by side. */
  lemma InterpolateShows(lits: seq<string>, vals: seq<string>, i: nat,
                         pre: string, left: string, right: string, post: string)
    requires |lits| == |vals| + 1 && i < |vals|
    requires lits[i] == pre + left && lits[i + 1] == right + post
    ensures Contains(Interpolate(lits, vals), left + vals[i] + right)
  {
    InterpolateEmbeds(lits, vals, i);
    var m := left + vals[i] + right;
    assert lits[i] + vals[i] + lits[i + 1] == pre + m + post;
    var k := LiteralStart(lits, vals, i);
    OccursInside(Interpolate(lits, vals), pre, m, post, k);
    assert OccursAt(Interpolate(lits, vals), m, k + |pre|);
  }

  // Markup the templates put around interpolated values.
  const ValueOpen := "<div class=\"value\">"
  const ValueClose := "</div>"
  const MailtoOpen := "<a href=\"mailto:"
  const AttributeClose := "\">"
  const LinkClose := "</a>"
  const ReceivedLabel := "Received: "
  const ParagraphClose := "</p>"
  const GreetingOpen := "Thank you for your message, "
  const GreetingClose := "!</h2>"
  const SubjectLabel := "<p><strong>Subject:</strong> "
  const MessageLabel := "<p><strong>Message:</strong> "

  /** `s.replace(/\n/g, '<br>')`: every line feed becomes the tag `<br>`. */
  function NewlinesToBr(s: string): string {
    if s == [] then "" else (if s[0] == '\n' then "<br>" else [s[0]]) + NewlinesToBr(s[1..])
  }

  /** The replacement works piecewise, so it commutes with concatenation. */
  lemma {:induction false} NewlinesToBrAppend(a: string, b: string)
    ensures NewlinesToBr(a + b) == NewlinesToBr(a) + NewlinesToBr(b)
  {
    if a == [] {
      assert a + b == b;
    } else {
      assert (a + b)[1..] == a[1..] + b;
      NewlinesToBrAppend(a[1..], b);
    }
  }

  /** No line feed is left, and text without one is embedded unchanged. */
  lemma {:induction false} NewlinesToBrClears(s: string)
    ensures '\n' !in NewlinesToBr(s)
    ensures '\n' !in s ==> NewlinesToBr(s) == s
  {
    if s != [] {
      NewlinesToBrClears(s[1..]);
      assert '\n' !in s ==> '\n' !in s[1..];
      assert '\n' !in s ==> s == [s[0]] + s[1..];
    }
  }

  /** Each line feed grows the text by three characters ("<br>" for "\n"). */
  lemma {:induction false} NewlinesToBrLength(s: string)
    ensures |NewlinesToBr(s)| == |s| + 3 * multiset(s)['\n']
  {
    if s != [] {
      NewlinesToBrLength(s[1..]);
      assert s == [s[0]] + s[1..];
      assert multiset(s) == multiset([s[0]]) + multiset(s[1..]);
    }
  }

  // ---------------------------------------------------------------------------
  // The two message bodies. Both back ends send the same two messages; only
  // the surrounding text (indentation, style sheet, wrapper elements) differs.

  /** The fixed text of a notification body between its markup anchors. */
  datatype NotificationFrame = NotificationFrame(head: string, emailLabel: string, subjectLabel: string,
                                                 messageLabel: string, footer: string, tail: string)

  function NotificationLiterals(t: NotificationFrame): (lits: seq<string>)
    ensures |lits| == 7
  {
    [ t.head + ValueOpen,
      ValueClose + t.emailLabel + MailtoOpen,
      AttributeClose,
      LinkClose + ValueClose + t.subjectLabel + ValueOpen,
      ValueClose + t.messageLabel + ValueOpen,
      ValueClose + t.footer + ReceivedLabel,
      ParagraphClose + t.tail ]
  }

  /** The notification to the site owner: name, e-mail (twice, once inside
      `mailto:`) and subject verbatim, the message with its line feeds turned
      into `<br>`, and the time of receipt (`toLocaleString()`, supplied). */
  function NotificationHtml(t: NotificationFrame, s: Submission, receivedAt: string): (r: string)
    ensures Contains(r, ValueOpen + s.name + ValueClose)
    ensures Contains(r, MailtoOpen + s.email + AttributeClose)
    ensures Contains(r, AttributeClose + s.email + LinkClose)
    ensures Contains(r, ValueOpen + s.subject + ValueClose)
    ensures Contains(r, ValueOpen + NewlinesToBr(s.message) + ValueClose)
    ensures Contains(r, ReceivedLabel + receivedAt + ParagraphClose)
  {
    var lits := NotificationLiterals(t);
    var vals := [s.name, s.email, s.email, s.subject, NewlinesToBr(s.message), receivedAt];
    InterpolateShows(lits, vals, 0, t.head, ValueOpen, ValueClose, t.emailLabel + MailtoOpen);
    InterpolateShows(lits, vals, 1, ValueClose + t.emailLabel, MailtoOpen, AttributeClose, "");
    InterpolateShows(lits, vals, 2, "", AttributeClose, LinkClose, ValueClose + t.subjectLabel + ValueOpen);
    InterpolateShows(lits, vals, 3, LinkClose + ValueClose + t.subjectLabel, ValueOpen, ValueClose, t.messageLabel + ValueOpen);
    InterpolateShows(lits, vals, 4, ValueClose + t.messageLabel, ValueOpen, ValueClose, t.footer + ReceivedLabel);
    InterpolateShows(lits, vals, 5, ValueClose + t.footer, ReceivedLabel, ParagraphClose, t.tail);
    Interpolate(lits, vals)
  }

  /** The fixed text of a confirmation body between its markup anchors. */
  datatype ConfirmationFrame = ConfirmationFrame(head: string, intro: string, between: string, tail: string)

  function ConfirmationLiterals(t: ConfirmationFrame): (lits: seq<string>)
    ensures |lits| == 4
  {
    [ t.head + GreetingOpen,
      GreetingClose + t.intro + SubjectLabel,
      ParagraphClose + t.between + MessageLabel,
      ParagraphClose + t.tail ]
  }

  /** The confirmation to the sender: name, subject and the message as
      submitted, its line feeds left as they are. */
  function ConfirmationHtml(t: ConfirmationFrame, s: Submission): (r: string)
    ensures Contains(r, GreetingOpen + s.name + GreetingClose)
    ensures Contains(r, SubjectLabel + s.subject + ParagraphClose)
    ensures Contains(r, MessageLabel + s.message + ParagraphClose)
  {
    var lits := ConfirmationLiterals(t);
    var vals := [s.name, s.subject, s.message];
    InterpolateShows(lits, vals, 0, t.head, GreetingOpen, GreetingClose, t.intro + SubjectLabel);
    InterpolateShows(lits, vals, 1, GreetingClose + t.intro, SubjectLabel, ParagraphClose, t.between + MessageLabel);
    InterpolateShows(lits, vals, 2, ParagraphClose + t.between, MessageLabel, ParagraphClose, t.tail);
    Interpolate(lits, vals)
  }

  // ---------------------------------------------------------------------------
  // Letters

  /** A message body as a handler hands it to `sendMail`: which of the two
      templates, applied to which submission. */
  datatype Letter = NotificationLetter(submission: Submission, receivedAt: string)
                  | ConfirmationLetter(submission: Submission)

  /** The text a back end writes around the interpolations of its two templates. */
  datatype Stationery = Stationery(notification: NotificationFrame, confirmation: ConfirmationFrame)

  /** The HTML a letter renders to: the notification shows the message with
      `<br>` for its line feeds, the confirmation shows it as submitted. */
  function Render(st: Stationery, l: Letter): (r: string)
    ensures l.NotificationLetter? ==> Contains(r, ValueOpen + l.submission.name + ValueClose)
    ensures l.NotificationLetter? ==> Contains(r, ValueOpen + NewlinesToBr(l.submission.message) + ValueClose)
    ensures l.ConfirmationLetter? ==> Contains(r, GreetingOpen + l.submission.name + GreetingClose)
    ensures l.ConfirmationLetter? ==> Contains(r, MessageLabel + l.submission.message + ParagraphClose)
  {
    match l
    case NotificationLetter(s, receivedAt) => NotificationHtml(st.notification, s, receivedAt)
    case ConfirmationLetter(s) => ConfirmationHtml(st.confirmation, s)
  }
}
