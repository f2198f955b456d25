/** The input checks the sign-up, login and password screens share, each a regular
    expression in the source, restated here as a predicate over characters, and the
    phone-field sanitiser of the sign-up form. JavaScript's `.` matches any character
    but a line terminator, and `\d` is an ASCII digit. */
module Validators {
  import opened Common

  /** The messages the forms show when the e-mail or password check fails. */
  const EmailMessage := "Please enter a valid email address."
  const PasswordMessage := "Password must be at least 8 characters, include uppercase, lowercase, number, and special character."

  /** `/.+@.+\..+/` somewhere in the text: a character before an '@', at least one
      character after it up to a '.', and a character after that '.', with no line
      terminator among the characters from the one before the '@' to the one after the '.'. */
  predicate EmailAt(s: string, p: int, q: int) {
    && 1 <= p && p + 2 <= q && q + 2 <= |s| && s[p] == '@' && s[q] == '.'
    && !IsLineTerminator(s[p - 1]) && !IsLineTerminator(s[q + 1])
    && (forall k :: p < k < q ==> !IsLineTerminator(s[k]))
  }

  /** Some '@' and '.' of the text match as `EmailAt` describes. */
  predicate EmailShape(s: string) {
    exists p, q :: 0 < p < q < |s| && EmailAt(s, p, q)
  }

  /** `validateEmail`: the shape above and the text '.com' somewhere. */
  predicate ValidEmail(s: string) {
    EmailShape(s) && Contains(s, ".com")
  }

  /** The check only looks for a piece of the text, so text around a valid address keeps it valid. */
  lemma ValidEmailExtends(x: string, s: string, y: string)
    requires ValidEmail(s)
    ensures ValidEmail(x + s + y)
  {
    var t := x + s + y;
    var p, q :| 0 < p < q < |s| && EmailAt(s, p, q);
    forall k | |x| + p < k < |x| + q ensures !IsLineTerminator(t[k]) {
      assert t[k] == s[k - |x|];
    }
    assert t[|x| + p] == '@' && t[|x| + q] == '.';
    assert t[|x| + p - 1] == s[p - 1] && t[|x| + q + 1] == s[q + 1];
    assert EmailAt(t, |x| + p, |x| + q);
    var i :| 0 <= i <= |s| && StartsWith(s[i..], ".com");
    assert t[|x| + i..] == s[i..] + y;
    assert StartsWith(t[|x| + i..], ".com");
  }

  /** Two addresses the check accepts and three it turns away. */
  lemma EmailExamples()
    ensures ValidEmail("a@b.com")
    ensures !ValidEmail("a@b.org")
    ensures !ValidEmail("@b.com")
    ensures ValidEmail("x@y.co.uk.com")
  {
    var s := "a@b.com";
    assert EmailAt(s, 1, 3);
    assert StartsWith(s[3..], ".com");
    var u := "a@b.org";
    forall i | 0 <= i <= |u| ensures !StartsWith(u[i..], ".com") {
      if i <= 3 {
        assert u[i..][..4] != ".com" by {
          if i == 3 { assert u[i..][1] == 'o' && u[i..][2] == 'r'; }
          else { assert u[i..][0] != '.'; }
        }
      }
    }
    var v := "@b.com";
    forall p, q | 0 < p < q < |v| ensures !EmailAt(v, p, q) {
      assert v[p] != '@';
    }
    var w := "x@y.co.uk.com";
    assert EmailAt(w, 1, 3);
    assert StartsWith(w[9..], ".com");
  }

  /** Not an ASCII letter or digit: the character class `[^A-Za-z\d]`. */
  predicate IsSpecial(c: char) {
    !IsLower(c) && !IsUpper(c) && !IsDigit(c)
  }

  /** `validatePassword`: the whole text is eight or more characters with no line
      terminator, holding a lower-case letter, an upper-case letter, a digit and a
      character that is none of these. */
  predicate ValidPassword(s: string) {
    && |s| >= 8
    && (forall i :: 0 <= i < |s| ==> !IsLineTerminator(s[i]))
    && (exists i :: 0 <= i < |s| && IsLower(s[i]))
    && (exists i :: 0 <= i < |s| && IsUpper(s[i]))
    && (exists i :: 0 <= i < |s| && IsDigit(s[i]))
    && (exists i :: 0 <= i < |s| && IsSpecial(s[i]))
  }

  /** Adding characters other than line terminators to a strong password keeps it strong. */
  lemma ValidPasswordExtends(s: string, y: string)
    requires ValidPassword(s)
    requires forall i :: 0 <= i < |y| ==> !IsLineTerminator(y[i])
    ensures ValidPassword(s + y)
  {
    var t := s + y;
    forall i | 0 <= i < |t| ensures !IsLineTerminator(t[i]) {
      if i >= |s| { assert t[i] == y[i - |s|]; }
    }
    var a :| 0 <= a < |s| && IsLower(s[a]);
    var b :| 0 <= b < |s| && IsUpper(s[b]);
    var c :| 0 <= c < |s| && IsDigit(s[c]);
    var d :| 0 <= d < |s| && IsSpecial(s[d]);
    assert t[a] == s[a] && t[b] == s[b] && t[c] == s[c] && t[d] == s[d];
  }

  /** One password the check accepts, and the same text without its upper-case letter, or
      with one character fewer, which it turns away. */
  lemma PasswordExamples()
    ensures ValidPassword("Abcdef1!")
    ensures !ValidPassword("abcdef1!")
    ensures !ValidPassword("Abcde1!")
  {
    var s := "Abcdef1!";
    assert IsUpper(s[0]) && IsLower(s[1]) && IsDigit(s[6]) && IsSpecial(s[7]);
    var t := "abcdef1!";
    forall i | 0 <= i < |t| ensures !IsUpper(t[i]) {
    }
  }

  /** `validatePhone`: exactly ten ASCII digits. */
  predicate ValidPhone(s: string) {
    |s| == 10 && forall i :: 0 <= i < |s| ==> IsDigit(s[i])
  }

  /** A phone number passes exactly when it is ten characters long and the digit filter
      keeps all of it. */
  lemma ValidPhoneIsTenKeptDigits(s: string)
    ensures ValidPhone(s) <==> |s| == 10 && Digits(s) == s
  {
  }

  /** The digits of a text, in order: `replace(/\D/g, '')`. */
  function Digits(s: string): (r: string)
    ensures forall i :: 0 <= i < |r| ==> IsDigit(r[i])
    ensures forall i :: 0 <= i < |s| && IsDigit(s[i]) ==> s[i] in r
    ensures (forall i :: 0 <= i < |s| ==> IsDigit(s[i])) ==> r == s
  {
    AllDigitsKept(s);
    Filter(s, (c: char) => IsDigit(c))
  }

  /** A text made of digits only passes the digit filter whole. */
  lemma AllDigitsKept(s: string)
    ensures (forall i :: 0 <= i < |s| ==> IsDigit(s[i])) ==> Filter(s, (c: char) => IsDigit(c)) == s
  {
    if forall i :: 0 <= i < |s| ==> IsDigit(s[i]) {
      FilterKeepsAll(s, (c: char) => IsDigit(c));
    }
  }

  /** The digits of two texts put together are the digits of the first followed by the
      digits of the second, so the digits keep their order. */
  lemma DigitsAppend(a: string, b: string)
    ensures Digits(a + b) == Digits(a) + Digits(b)
  {
    FilterAppend(a, b, (c: char) => IsDigit(c));
  }

  /** One character contributes itself when it is a digit and nothing otherwise; with
      `DigitsAppend` this determines `Digits` on every text. */
  lemma DigitsOfChar(c: char)
    ensures Digits([c]) == if IsDigit(c) then [c] else []
  {
    assert [c][1..] == [];
  }

  /** The phone fields' input handler: drop every non-digit, keep at most the first ten. */
  function SanitizePhone(s: string): (r: string)
    ensures |r| <= 10 && forall i :: 0 <= i < |r| ==> IsDigit(r[i])
    ensures |r| <= |Digits(s)| && r == Digits(s)[..|r|]
    ensures |r| == 10 || r == Digits(s)
  {
    var d := Digits(s);
    if |d| <= 10 then d else d[..10]
  }

  /** A sanitised phone field passes the phone check exactly when the typed text held at
      least ten digits. */
  lemma SanitizedPhoneValidIff(s: string)
    ensures ValidPhone(SanitizePhone(s)) <==> |Digits(s)| >= 10
  {
  }

  /** Sanitising twice is sanitising once. */
  lemma SanitizeIdempotent(s: string)
    ensures SanitizePhone(SanitizePhone(s)) == SanitizePhone(s)
  {
    var r := SanitizePhone(s);
    FilterKeepsAll(r, (c: char) => IsDigit(c));
  }

  /** A valid phone number is left as it is. */
  lemma SanitizeKeepsValidPhone(s: string)
    requires ValidPhone(s)
    ensures SanitizePhone(s) == s
  {
    FilterKeepsAll(s, (c: char) => IsDigit(c));
  }
}
