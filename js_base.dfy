/** The small part of JavaScript's semantics that the contact handlers rely on:
    "absent" values, truthiness of strings, the RegExp class `\s`,
    `String.prototype.includes`, the UTF-16 `length` of a string and the
    decimal rendering of a number inside a template literal. */
module JsBase {

  /** A value that may be absent (`undefined` in JavaScript). */
  datatype Option<T> = None | Some(value: T)

  /** A JavaScript `Error` as the handlers inspect it: an optional `code`
      (nodemailer sets "EAUTH", "ECONNECTION", ...) and its `message`. */
  datatype Thrown = Thrown(code: Option<string>, message: string)

  /** A string-valued property read from an object: truthy when present and not "".
      No trimming happens, so " " is truthy. */
  predicate Truthy(v: Option<string>) {
    v.Some? && v.value != ""
  }

  /** The code points `\s` matches in an ECMAScript regular expression:
      WhiteSpace and LineTerminator, including the Unicode space separators. */
  predicate IsRegexSpace(c: char) {
    || c == '\t' || c == '\n' || c == '\U{B}' || c == '\U{C}' || c == '\r' || c == ' '
    || c == '\U{A0}' || c == '\U{1680}' || ('\U{2000}' <= c <= '\U{200A}')
    || c == '\U{2028}' || c == '\U{2029}' || c == '\U{202F}' || c == '\U{205F}'
    || c == '\U{3000}' || c == '\U{FEFF}'
  }

  /** t occurs in s starting at index k. */
  predicate OccursAt(s: string, t: string, k: nat) {
    k + |t| <= |s| && s[k..k + |t|] == t
  }

  /** `s.includes(t)`: t occurs in s as a contiguous run of characters. */
  predicate Contains(s: string, t: string) {
    exists k: nat | k <= |s| :: OccursAt(s, t, k)
  }

  /** c occurs nowhere in s. */
  predicate Lacks(s: string, c: char) {
    forall i | 0 <= i < |s| :: s[i] != c
  }

  lemma LacksAppend(a: string, b: string, c: char)
    requires Lacks(a, c) && Lacks(b, c)
    ensures Lacks(a + b, c)
  {
    forall i | 0 <= i < |a + b| ensures (a + b)[i] != c {
      if i >= |a| {
        assert (a + b)[i] == b[i - |a|];
      }
    }
  }

  /** A text cannot occur where its first character does not. */
  lemma AbsentLead(s: string, t: string)
    requires t != [] && Lacks(s, t[0])
    ensures !Contains(s, t)
  {
    forall k: nat | k <= |s| ensures !OccursAt(s, t, k) {
      if k + |t| <= |s| {
        assert s[k..k + |t|][0] == s[k];
      }
    }
  }

  /** The middle part of a run found at k is found |pre| places further on. */
  lemma OccursInside(s: string, pre: string, m: string, post: string, k: nat)
    requires OccursAt(s, pre + m + post, k)
    ensures OccursAt(s, m, k + |pre|)
  {
    var w := pre + m + post;
    assert s[k..k + |w|] == w;
    forall j | 0 <= j < |m| ensures s[k + |pre| + j] == m[j] {
      assert s[k..k + |w|][|pre| + j] == w[|pre| + j];
    }
    assert s[k + |pre|..k + |pre| + |m|] == m;
  }

  /** Number of UTF-16 code units of one code point: two for a supplementary character. */
  function Utf16Units(c: char): nat {
    if c as int >= 0x1_0000 then 2 else 1
  }

  /** `s.length` in JavaScript, which counts UTF-16 code units, not code points. */
  function Utf16Length(s: string): (n: nat)
    ensures |s| <= n <= 2 * |s|
    ensures n == |s| <==> forall i | 0 <= i < |s| :: s[i] as int < 0x1_0000
  {
    if s == [] then 0
    else
      var rest := Utf16Length(s[1..]);
      assert forall i | 1 <= i < |s| :: s[i] == s[1..][i - 1];
      Utf16Units(s[0]) + rest
  }

  /** The decimal digit for d. */
  function DigitChar(d: nat): (c: char)
    requires d < 10
    ensures '0' <= c <= '9' && c as int - '0' as int == d
  {
    (d + '0' as int) as char
  }

  predicate AllDigits(s: string) {
    forall i | 0 <= i < |s| :: '0' <= s[i] <= '9'
  }

  /** How a non-negative integer (such as `Date.now()`) is rendered into a template literal. */
  function Decimal(n: nat): (r: string)
    ensures |r| >= 1 && AllDigits(r)
    ensures r[0] == '0' ==> n == 0 && r == "0"
    decreases n
  {
    if n < 10 then [DigitChar(n)] else Decimal(n / 10) + [DigitChar(n % 10)]
  }

  /** The value a string of decimal digits denotes. */
  function DecimalValue(s: string): nat
    requires AllDigits(s)
  {
    if s == [] then 0 else DecimalValue(s[..|s| - 1]) * 10 + (s[|s| - 1] as int - '0' as int)
  }

  /** Reading the rendered digits back gives the number. */
  lemma {:induction false} DecimalRoundTrip(n: nat)
    ensures DecimalValue(Decimal(n)) == n
    decreases n
  {
    if n >= 10 {
      DecimalRoundTrip(n / 10);
      var r := Decimal(n);
      assert r[..|r| - 1] == Decimal(n / 10);
    }
  }
}
