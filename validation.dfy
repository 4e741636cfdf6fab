/** The checks every validating handler applies to a submitted contact form:
    the required-field check (JavaScript truthiness, no trimming) and the
    e-mail shape check, the regular expression `^[^\s@]+@[^\s@]+\.[^\s@]+$`. */
module Validation {
  import opened JsBase

  /** The four properties destructured from the parsed body. A property is
      absent or a string; other JSON types are outside the model. */
  datatype Fields = Fields(name: Option<string>, email: Option<string>,
                           subject: Option<string>, message: Option<string>)

  /** A submission that passed the required-field check. */
  datatype Submission = Submission(name: string, email: string, subject: string, message: string)

  /** Why a submission is turned away, in the order the handlers test. */
  datatype Rejection = MissingField | InvalidEmail

  /** The `message` of the 400 answer for each rejection. */
  function RejectionText(r: Rejection): (m: string)
    ensures m == "All fields are required" <==> r == MissingField
    ensures m == "Invalid email format" <==> r == InvalidEmail
  {
    match r
    case MissingField => "All fields are required"
    case InvalidEmail => "Invalid email format"
  }

  datatype Verdict = Accepted(submission: Submission) | Rejected(reason: Rejection)

  /** `!name || !email || !subject || !message` is false. */
  predicate AllPresent(f: Fields) {
    Truthy(f.name) && Truthy(f.email) && Truthy(f.subject) && Truthy(f.message)
  }

  /** The submission carries the very strings of the fields. */
  predicate Carries(f: Fields, s: Submission) {
    f.name == Some(s.name) && f.email == Some(s.email)
    && f.subject == Some(s.subject) && f.message == Some(s.message)
  }

  /** The required-field check alone (the only check of the "simple" variant). */
  function RequireFields(f: Fields): (r: Option<Submission>)
    ensures r.Some? <==> AllPresent(f)
    ensures r.Some? ==> Carries(f, r.value)
    ensures r.Some? ==> r.value.name != "" && r.value.email != "" && r.value.subject != "" && r.value.message != ""
  {
    if !Truthy(f.name) || !Truthy(f.email) || !Truthy(f.subject) || !Truthy(f.message) then None
    else Some(Submission(f.name.value, f.email.value, f.subject.value, f.message.value))
  }

  // ---------------------------------------------------------------------------
  // The e-mail pattern

  /** A run of characters each matched by `[^\s@]`. */
  predicate Plain(t: string) {
    forall k | 0 <= k < |t| :: !IsRegexSpace(t[k]) && t[k] != '@'
  }

  /** The language of `^[^\s@]+@[^\s@]+\.[^\s@]+$`: s splits at an '@' (index i)
      and a '.' (index j) into three non-empty plain runs. */
  ghost predicate RegexMatch(s: string) {
    exists i, j | 0 < i && i + 1 < j && j + 1 < |s| ::
      s[i] == '@' && s[j] == '.' && Plain(s[..i]) && Plain(s[i + 1..j]) && Plain(s[j + 1..])
  }

  predicate NoSpace(s: string) {
    forall k | 0 <= k < |s| :: !IsRegexSpace(s[k])
  }

  /** s[i] is the one and only '@' of s. */
  predicate OnlyAt(s: string, i: int) {
    0 <= i < |s| && s[i] == '@' && forall k | 0 <= k < |s| && k != i :: s[k] != '@'
  }

  /** d has a '.' that is neither its first nor its last character. */
  predicate InnerDot(d: string) {
    exists k | 0 < k < |d| - 1 :: d[k] == '.'
  }

  /** The declarative reading of the pattern: no whitespace, exactly one '@',
      a non-empty local part, and a domain with an inner '.'. */
  predicate EmailShaped(s: string) {
    NoSpace(s) && exists i | 0 < i < |s| :: OnlyAt(s, i) && InnerDot(s[i + 1..])
  }

  lemma ShapedGivesMatch(s: string)
    requires EmailShaped(s)
    ensures RegexMatch(s)
  {
    var i :| 0 < i < |s| && OnlyAt(s, i) && InnerDot(s[i + 1..]);
    var d := s[i + 1..];
    var k :| 0 < k < |d| - 1 && d[k] == '.';
    var j := i + 1 + k;
    assert s[j] == '.';
    assert Plain(s[..i]) by {
      forall m | 0 <= m < i ensures !IsRegexSpace(s[..i][m]) && s[..i][m] != '@' {
        assert s[..i][m] == s[m];
      }
    }
    var b, c := s[i + 1..j], s[j + 1..];
    assert Plain(b) by {
      forall m | 0 <= m < |b| ensures !IsRegexSpace(b[m]) && b[m] != '@' {
        assert b[m] == s[i + 1 + m];
      }
    }
    assert Plain(c) by {
      forall m | 0 <= m < |c| ensures !IsRegexSpace(c[m]) && c[m] != '@' {
        assert c[m] == s[j + 1 + m];
      }
    }
  }

  lemma MatchGivesShaped(s: string)
    requires RegexMatch(s)
    ensures EmailShaped(s)
  {
    var i, j :| 0 < i && i + 1 < j && j + 1 < |s| &&
      s[i] == '@' && s[j] == '.' && Plain(s[..i]) && Plain(s[i + 1..j]) && Plain(s[j + 1..]);
    forall m | 0 <= m < |s| ensures !IsRegexSpace(s[m]) && (m != i ==> s[m] != '@') {
      if m < i {
        assert s[..i][m] == s[m];
      } else if i < m < j {
        assert s[i + 1..j][m - i - 1] == s[m];
      } else if j < m {
        assert s[j + 1..][m - j - 1] == s[m];
      }
    }
    assert OnlyAt(s, i);
    var d := s[i + 1..];
    assert d[j - i - 1] == '.';
    assert InnerDot(d);
  }

  /** The declarative reading is exactly the pattern's language. */
  lemma EmailShapedIsRegex(s: string)
    ensures EmailShaped(s) <==> RegexMatch(s)
  {
    if EmailShaped(s) { ShapedGivesMatch(s); }
    if RegexMatch(s) { MatchGivesShaped(s); }
  }

  /** `emailRegex.test(email)`, one scan over the characters: stop at the first
      whitespace or second '@', and remember whether a '.' has been seen after
      the character that follows the '@' and before the last character. */
  method TestEmail(s: string) returns (ok: bool)
    ensures ok == EmailShaped(s)
  {
    var at := -1;
    var dot := false;
    var i := 0;
    while i < |s|
      invariant 0 <= i <= |s|
      invariant -1 <= at < i
      invariant forall k | 0 <= k < i :: !IsRegexSpace(s[k])
      invariant at >= 0 ==> s[at] == '@'
      invariant forall k | 0 <= k < i && k != at :: s[k] != '@'
      invariant dot <==> at >= 0 && exists k | at + 1 < k < i && k < |s| - 1 :: s[k] == '.'
    {
      var c := s[i];
      if IsRegexSpace(c) {
        assert !NoSpace(s);
        return false;
      }
      if c == '@' {
        if at >= 0 {
          assert forall m | 0 <= m < |s| :: !OnlyAt(s, m) by {
            forall m | 0 <= m < |s| ensures !OnlyAt(s, m) {
              if m != at { assert s[at] == '@'; } else { assert s[i] == '@'; }
            }
          }
          return false;
        }
        at := i;
      } else if c == '.' && at >= 0 && at + 1 < i && i < |s| - 1 {
        dot := true;
      }
      i := i + 1;
    }
    ok := at > 0 && dot;
    if ok {
      var k :| at + 1 < k < |s| && k < |s| - 1 && s[k] == '.';
      assert s[at + 1..][k - at - 1] == '.';
      assert OnlyAt(s, at) && InnerDot(s[at + 1..]);
    }
  }

  /** The full check of the validating handlers: required fields first, the
      e-mail shape only after. */
  function Validate(f: Fields): (r: Verdict)
    ensures r == Rejected(MissingField) <==> !AllPresent(f)
    ensures r == Rejected(InvalidEmail) <==> AllPresent(f) && !EmailShaped(f.email.value)
    ensures r.Accepted? ==> Carries(f, r.submission) && EmailShaped(r.submission.email)
  {
    match RequireFields(f)
    case None => Rejected(MissingField)
    case Some(s) => if EmailShaped(s.email) then Accepted(s) else Rejected(InvalidEmail)
  }

  /** A submission is accepted exactly when every field is present and the
      e-mail is in the language of the pattern. */
  lemma ValidateMatchesPattern(f: Fields)
    ensures Validate(f).Accepted? <==> RequireFields(f).Some? && RegexMatch(RequireFields(f).value.email)
  {
    if RequireFields(f).Some? {
      EmailShapedIsRegex(RequireFields(f).value.email);
    }
  }
}
