/** The client-side field rules shared by the login and the registration
    forms (src/components/LoginForm.tsx:22-32, src/components/RegisterForm.tsx:63-71):
    required fields, the email pattern `^[^\s@]+@[^\s@]+\.[^\s@]+$`, and a
    password of at least 8 UTF-16 code units. */
module Validation {

  /** JavaScript's `\s`: the ECMAScript WhiteSpace and LineTerminator characters. */
  predicate IsWhitespace(c: char) {
    || c == '\t' || c == '\n' || c == '\U{B}' || c == '\U{C}' || c == '\r' || c == ' '
    || c == '\U{A0}' || c == '\U{1680}' || ('\U{2000}' <= c <= '\U{200A}')
    || c == '\U{2028}' || c == '\U{2029}' || c == '\U{202F}' || c == '\U{205F}'
    || c == '\U{3000}' || c == '\U{FEFF}'
  }

  predicate NoWhitespace(s: string) {
    forall k | 0 <= k < |s| :: !IsWhitespace(s[k])
  }

  // The pattern, read literally.

  /** `[^\s@]+` */
  predicate Segment(s: string) {
    |s| > 0 && forall k | 0 <= k < |s| :: !IsWhitespace(s[k]) && s[k] != '@'
  }

  /** The pattern matches with its `@` at `i` and its `\.` at `j`. */
  predicate SplitsAt(s: string, i: int, j: int) {
    0 <= i < j < |s| && s[i] == '@' && s[j] == '.'
    && Segment(s[..i]) && Segment(s[i + 1..j]) && Segment(s[j + 1..])
  }

  ghost predicate MatchesEmailPattern(s: string) {
    exists i, j :: SplitsAt(s, i, j)
  }

  // The same rule, stated as the properties it checks.

  /** Index of the first `c` in `s`. */
  function IndexOf(s: string, c: char): (r: nat)
    requires c in s
    ensures r < |s| && s[r] == c && c !in s[..r]
  {
    if s[0] == c then 0
    else
      assert c in s[1..] by { var k :| 0 <= k < |s| && s[k] == c; assert s[1..][k - 1] == c; }
      var r := 1 + IndexOf(s[1..], c);
      assert s[..r] == [s[0]] + s[1..][..r - 1];
      r
  }

  /** Some dot with non-empty text on both sides. */
  predicate HasInnerDot(d: string) {
    exists k | 0 < k < |d| - 1 :: d[k] == '.'
  }

  /** No whitespace, exactly one `@`, a non-empty local part, and a domain
      with a dot that has text on both sides. */
  predicate IsEmail(s: string) {
    && NoWhitespace(s)
    && '@' in s
    && var i := IndexOf(s, '@');
    && i > 0
    && '@' !in s[i + 1..]
    && HasInnerDot(s[i + 1..])
  }

  /** The explicit rule accepts exactly the strings the pattern matches. */
  lemma IsEmailMatchesPattern(s: string)
    ensures IsEmail(s) <==> MatchesEmailPattern(s)
  {
    if IsEmail(s) {
      var i := IndexOf(s, '@');
      var d := s[i + 1..];
      var k :| 0 < k < |d| - 1 && d[k] == '.';
      var j := i + 1 + k;
      assert s[j] == '.';
      forall m | 0 <= m < i ensures !IsWhitespace(s[..i][m]) && s[..i][m] != '@' {
        assert s[..i][m] == s[m];
        assert s[m] in s[..i];
      }
      var domain, top := s[i + 1..j], s[j + 1..];
      forall m | 0 <= m < |domain| ensures !IsWhitespace(domain[m]) && domain[m] != '@' {
        assert domain[m] == d[m];
        assert d[m] in d;
      }
      forall m | 0 <= m < |top| ensures !IsWhitespace(top[m]) && top[m] != '@' {
        assert top[m] == d[k + 1 + m];
        assert d[k + 1 + m] in d;
      }
      assert SplitsAt(s, i, j);
    }
    if MatchesEmailPattern(s) {
      var i, j :| SplitsAt(s, i, j);
      assert '@' in s;
      var first := IndexOf(s, '@');
      assert first == i;
      var d := s[i + 1..];
      forall m | 0 <= m < |s| ensures !IsWhitespace(s[m]) {
        if m < i { assert s[m] == s[..i][m]; }
        else if i < m < j { assert s[m] == s[i + 1..j][m - i - 1]; }
        else if j < m { assert s[m] == s[j + 1..][m - j - 1]; }
      }
      forall m | 0 <= m < |d| ensures d[m] != '@' {
        if m < j - i - 1 { assert d[m] == s[i + 1..j][m]; }
        else if m > j - i - 1 { assert d[m] == s[j + 1..][m - (j - i)]; }
      }
      assert d[j - i - 1] == '.';
      assert HasInnerDot(d);
    }
  }

  /** `s.length`: characters outside the Basic Multilingual Plane take two code units. */
  function Utf16Length(s: string): (n: nat)
    ensures |s| <= n <= 2 * |s|
    ensures (forall k | 0 <= k < |s| :: s[k] as int <= 0xFFFF) ==> n == |s|
    decreases |s|
  {
    if s == [] then 0
    else Utf16Length(s[..|s| - 1]) + if s[|s| - 1] as int > 0xFFFF then 2 else 1
  }

  const EMAIL_REQUIRED: string := "Email is required"
  const EMAIL_INVALID: string := "Invalid email format"
  const PASSWORD_REQUIRED: string := "Password is required"
  const PASSWORD_SHORT: string := "Password must be at least 8 characters"
  const MIN_PASSWORD_LENGTH: nat := 8

  /** The email field's message, "" when the field is fine. */
  function EmailError(email: string): (e: string)
    ensures e == "" <==> MatchesEmailPattern(email)
    ensures e != "" ==> e == (if email == "" then EMAIL_REQUIRED else EMAIL_INVALID)
  {
    IsEmailMatchesPattern(email);
    if email == "" then EMAIL_REQUIRED
    else if !IsEmail(email) then EMAIL_INVALID
    else ""
  }

  /** The password field's message, "" when the field is fine. */
  function PasswordError(password: string): (e: string)
    ensures e == "" <==> Utf16Length(password) >= MIN_PASSWORD_LENGTH
    ensures e != "" ==> e == (if password == "" then PASSWORD_REQUIRED else PASSWORD_SHORT)
  {
    if password == "" then PASSWORD_REQUIRED
    else if Utf16Length(password) < MIN_PASSWORD_LENGTH then PASSWORD_SHORT
    else ""
  }

  /** Non-BMP characters count twice: four emoji already make a long enough password. */
  lemma FourAstralCharactersAreEnough()
    ensures PasswordError("\U{1F600}\U{1F600}\U{1F600}\U{1F600}") == ""
  {
    var one := "\U{1F600}";
    assert Utf16Length(one) == 2 by { assert one[..0] == []; }
    assert Utf16Length(one + one) == 4 by { assert (one + one)[..1] == one; }
    assert Utf16Length(one + one + one) == 6 by { assert (one + one + one)[..2] == one + one; }
    assert Utf16Length(one + one + one + one) == 8 by { assert (one + one + one + one)[..3] == one + one + one; }
    assert one + one + one + one == "\U{1F600}\U{1F600}\U{1F600}\U{1F600}";
  }
}
