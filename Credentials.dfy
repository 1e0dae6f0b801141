/**
  The two credential checks of the sign-in page, `validateEmail` and
  `validatePassword` (src/pages/signin.jsx).  Both are ECMAScript regular
  expressions anchored at both ends; here each is written as the set of
  matches the regex admits (the split points of the email pattern, the four
  look-aheads and the repeated class of the password pattern), and a lemma
  characterises each one in plain terms.
*/
module Credentials {

  // ---------------------------------------------------------------------
  // Character classes, with the ECMAScript meaning of each escape.
  // ---------------------------------------------------------------------

  /** `[a-z]` */
  predicate IsLower(c: char) { 'a' <= c <= 'z' }

  /** `[A-Z]` */
  predicate IsUpper(c: char) { 'A' <= c <= 'Z' }

  /** `\d`, which in ECMAScript is exactly `[0-9]` */
  predicate IsDigit(c: char) { '0' <= c <= '9' }

  /** `[@$!%*?&]`, the special characters the password rule asks for */
  predicate IsSpecial(c: char) {
    c == '@' || c == '$' || c == '!' || c == '%' || c == '*' || c == '?' || c == '&'
  }

  /** `\s`: the ECMAScript WhiteSpace and LineTerminator code points */
  predicate IsWhitespace(c: char) {
    c == '\t' || c == '\n' || c == '\U{B}' || c == '\U{C}' || c == '\r' || c == ' '
    || c == '\U{A0}' || c == '\U{1680}' || ('\U{2000}' <= c <= '\U{200A}')
    || c == '\U{2028}' || c == '\U{2029}' || c == '\U{202F}' || c == '\U{205F}'
    || c == '\U{3000}' || c == '\U{FEFF}'
  }

  /** The code points that `.` does not match (no `s` flag is given) */
  predicate IsLineTerminator(c: char) {
    c == '\n' || c == '\r' || c == '\U{2028}' || c == '\U{2029}'
  }

  /** `[^\s@]` */
  predicate IsEmailChar(c: char) { !IsWhitespace(c) && c != '@' }

  /** `[A-Za-z\d@$!%*?&]` */
  predicate IsPasswordChar(c: char) { IsLower(c) || IsUpper(c) || IsDigit(c) || IsSpecial(c) }

  /** The four classes the password look-aheads ask for. */
  datatype CharClass = Lower | Upper | Digit | Special

  predicate InClass(c: char, k: CharClass) {
    match k
    case Lower => IsLower(c)
    case Upper => IsUpper(c)
    case Digit => IsDigit(c)
    case Special => IsSpecial(c)
  }

  /** Number of occurrences of `c` in `s`. */
  function Count(s: string, c: char): nat {
    if s == [] then 0 else (if s[0] == c then 1 else 0) + Count(s[1..], c)
  }

  // ---------------------------------------------------------------------
  // validateEmail:  /^[^\s@]+@[^\s@]+\.[^\s@]+$/
  // ---------------------------------------------------------------------

  /** `s[lo..hi]` is one run `[^\s@]+` */
  predicate EmailRun(s: string, lo: nat, hi: nat)
    requires lo <= hi <= |s|
  {
    lo < hi && forall k | lo <= k < hi :: IsEmailChar(s[k])
  }

  /** The whole of `s` matches with the literal `@` at `i` and the literal `.` at `j`. */
  predicate EmailMatchAt(s: string, i: nat, j: nat)
    requires i < j < |s|
  {
    EmailRun(s, 0, i) && s[i] == '@' && EmailRun(s, i + 1, j) && s[j] == '.' && EmailRun(s, j + 1, |s|)
  }

  /** `validateEmail(s)`: the anchored pattern matches `s` for some choice of split points. */
  predicate ValidateEmail(s: string) {
    exists i, j | 0 <= i < j < |s| :: EmailMatchAt(s, i, j)
  }

  predicate NoWhitespace(s: string) {
    forall k | 0 <= k < |s| :: !IsWhitespace(s[k])
  }

  /**
    The shape of an accepted address: no whitespace, exactly one `@`, something
    before it, and after it a `.` with at least one character on each side.
  */
  predicate EmailShape(s: string) {
    && NoWhitespace(s)
    && Count(s, '@') == 1
    && exists i | 0 < i < |s| :: s[i] == '@' && exists j | i + 1 < j < |s| - 1 :: s[j] == '.'
  }

  lemma {:induction false} CountAbsent(s: string, c: char)
    requires forall k | 0 <= k < |s| :: s[k] != c
    ensures Count(s, c) == 0
  {
    if s != [] {
      CountAbsent(s[1..], c);
    }
  }

  lemma {:induction false} CountOnce(s: string, c: char, i: nat)
    requires i < |s| && s[i] == c
    requires forall k | 0 <= k < |s| && k != i :: s[k] != c
    ensures Count(s, c) == 1
  {
    if i == 0 {
      CountAbsent(s[1..], c);
    } else {
      CountOnce(s[1..], c, i - 1);
    }
  }

  lemma {:induction false} CountPresent(s: string, c: char, i: nat)
    requires i < |s| && s[i] == c
    ensures Count(s, c) >= 1
  {
    if i > 0 {
      CountPresent(s[1..], c, i - 1);
    }
  }

  lemma {:induction false} CountTwice(s: string, c: char, i: nat, k: nat)
    requires i < |s| && k < |s| && i != k && s[i] == c && s[k] == c
    ensures Count(s, c) >= 2
  {
    if i == 0 {
      CountPresent(s[1..], c, k - 1);
    } else if k == 0 {
      CountPresent(s[1..], c, i - 1);
    } else {
      CountTwice(s[1..], c, i - 1, k - 1);
    }
  }

  /** The regex accepts exactly the addresses of the shape above. */
  lemma ValidateEmailIff(s: string)
    ensures ValidateEmail(s) <==> EmailShape(s)
  {
    if ValidateEmail(s) {
      var i, j :| 0 <= i < j < |s| && EmailMatchAt(s, i, j);
      assert forall k | 0 <= k < |s| && k != i :: s[k] != '@' by {
        forall k | 0 <= k < |s| && k != i ensures s[k] != '@' {
          if k < i { assert IsEmailChar(s[k]); }
          else if k < j { assert IsEmailChar(s[k]); }
          else if k > j { assert IsEmailChar(s[k]); }
        }
      }
      CountOnce(s, '@', i);
      forall k | 0 <= k < |s| ensures !IsWhitespace(s[k]) {
        if k < i { assert IsEmailChar(s[k]); }
        else if i < k < j { assert IsEmailChar(s[k]); }
        else if k > j { assert IsEmailChar(s[k]); }
      }
      assert i + 1 < j < |s| - 1 && s[j] == '.';
    }
    if EmailShape(s) {
      var i :| 0 < i < |s| && s[i] == '@' && exists j | i + 1 < j < |s| - 1 :: s[j] == '.';
      var j :| i + 1 < j < |s| - 1 && s[j] == '.';
      forall k | 0 <= k < |s| && k != i ensures IsEmailChar(s[k]) {
        if s[k] == '@' {
          CountTwice(s, '@', i, k);
        }
      }
      assert EmailMatchAt(s, i, j);
    }
  }

  /** Sample addresses: one accepted, two rejected. */
  lemma EmailExamples()
    ensures ValidateEmail("a@b.co")
    ensures !ValidateEmail("a@b")
    ensures !ValidateEmail("notanemail")
  {
    assert EmailMatchAt("a@b.co", 1, 3);
    ValidateEmailIff("a@b");
    ValidateEmailIff("notanemail");
  }

  // ---------------------------------------------------------------------
  // validatePassword:
  //   /^(?=.*[a-z])(?=.*[A-Z])(?=.*\d)(?=.*[@$!%*?&])[A-Za-z\d@$!%*?&]{8,}$/
  // ---------------------------------------------------------------------

  /**
    The look-ahead `(?=.*X)` at the start of `p`: some character of class `k`
    is preceded only by characters that `.` matches.
  */
  predicate Lookahead(p: string, k: CharClass) {
    exists i | 0 <= i < |p| :: InClass(p[i], k) && forall m | 0 <= m < i :: !IsLineTerminator(p[m])
  }

  /** `validatePassword(p)`: the four look-aheads hold and `p` is eight or more allowed characters. */
  predicate ValidatePassword(p: string) {
    && Lookahead(p, Lower) && Lookahead(p, Upper) && Lookahead(p, Digit) && Lookahead(p, Special)
    && |p| >= 8
    && forall i | 0 <= i < |p| :: IsPasswordChar(p[i])
  }

  predicate Contains(p: string, k: CharClass) {
    exists i | 0 <= i < |p| :: InClass(p[i], k)
  }

  /**
    The strength rule in plain terms: at least eight characters, all from
    `[A-Za-z0-9@$!%*?&]`, with a lower-case letter, an upper-case letter, a
    digit and a special character among them.
  */
  predicate StrongPassword(p: string) {
    && |p| >= 8
    && (forall i | 0 <= i < |p| :: IsPasswordChar(p[i]))
    && Contains(p, Lower) && Contains(p, Upper) && Contains(p, Digit) && Contains(p, Special)
  }

  /** The regex accepts exactly the strong passwords. */
  lemma ValidatePasswordIff(p: string)
    ensures ValidatePassword(p) <==> StrongPassword(p)
  {
  }

  /** Sample passwords: one accepted, two rejected. */
  lemma PasswordExamples()
    ensures ValidatePassword("Abcdef1!")
    ensures !ValidatePassword("abcdef1")
    ensures !ValidatePassword("")
  {
    var p := "Abcdef1!";
    assert forall i | 0 <= i < |p| :: IsPasswordChar(p[i]) by {
      forall i | 0 <= i < |p| ensures IsPasswordChar(p[i]) {
        assert p[i] in p;
      }
    }
    assert InClass(p[1], Lower) && InClass(p[0], Upper) && InClass(p[6], Digit) && InClass(p[7], Special);
    assert StrongPassword(p);
    ValidatePasswordIff(p);
    assert |"abcdef1"| == 7;
  }

  /** Neither check accepts the empty string, so the source's emptiness tests only choose the message. */
  lemma EmptyIsRejected()
    ensures !ValidateEmail("") && !ValidatePassword("")
  {
  }
}
