/** The input checks `handleRegister` runs on the registration form
    (RegisterScreen.tsx) before it dispatches `registerUser`: the first
    failing check, in the order empty fields, email, password length,
    confirmation, decides the alert shown. */
module Registration {

  const FillAllFields := "Please fill in all fields"
  const InvalidEmail := "Please enter a valid email address"
  const PasswordTooShort := "Password must be at least 6 characters long"
  const PasswordsDiffer := "Passwords do not match"
  const MinPasswordLength := 6

  /** What submitting the form does: show an alert, or dispatch `registerUser`. */
  datatype Outcome = Alert(message: string) | DispatchRegister(email: string, password: string, name: string)

  /** The characters the regular-expression class `\s` matches in
      JavaScript (white space and line terminators); `\S` is its complement. */
  predicate IsWhitespace(c: char)
  {
    || c == '\t' || c == '\n' || c == '\U{B}' || c == '\U{C}' || c == '\r' || c == ' '
    || c == '\U{A0}' || c == '\U{1680}' || ('\U{2000}' <= c <= '\U{200A}')
    || c == '\U{2028}' || c == '\U{2029}' || c == '\U{202F}' || c == '\U{205F}'
    || c == '\U{3000}' || c == '\U{FEFF}'
  }

  predicate AllNonSpace(w: string)
  {
    forall k :: 0 <= k < |w| ==> !IsWhitespace(w[k])
  }

  /** No white space strictly between positions `a` and `b` of `s`. */
  predicate NonSpaceBetween(s: string, a: int, b: int)
    requires 0 <= a <= b <= |s|
  {
    forall m :: a < m < b ==> !IsWhitespace(s[m])
  }

  /** `w` as a whole is in the language of `\S+@\S+\.\S+`: it has no white
      space, and splits as x "@" y "." z with x, y, z non-empty (x, y and z
      may themselves hold '@' or '.'). */
  predicate FullMatch(w: string)
  {
    && AllNonSpace(w)
    && exists a, b :: 1 <= a && a + 2 <= b && b + 2 <= |w| && w[a] == '@' && w[b] == '.'
  }

  /** `/\S+@\S+\.\S+/.test(s)`: the pattern is not anchored, so some
      substring of `s` has to match. */
  predicate EmailTest(s: string)
  {
    exists i, j :: 0 <= i <= j <= |s| && FullMatch(s[i..j])
  }

  /** A local reading of the same test, at positions `a` ('@') and `b`
      ('.'): a non-space character before the '@', at least one character
      between them and none of them white space, and a non-space character
      after the '.'. */
  predicate EmailShapeAt(s: string, a: int, b: int)
  {
    && 1 <= a && a + 2 <= b && b + 2 <= |s|
    && s[a] == '@' && s[b] == '.'
    && !IsWhitespace(s[a - 1]) && !IsWhitespace(s[b + 1])
    && NonSpaceBetween(s, a, b)
  }

  predicate EmailShape(s: string)
  {
    exists a, b | 0 <= a < |s| && 0 <= b < |s| :: EmailShapeAt(s, a, b)
  }

  /** A matching substring yields the local shape. */
  lemma EmailTestGivesShape(s: string)
    requires EmailTest(s)
    ensures EmailShape(s)
  {
    var i, j :| 0 <= i <= j <= |s| && FullMatch(s[i..j]);
    var w := s[i..j];
    var a, b :| 1 <= a && a + 2 <= b && b + 2 <= |w| && w[a] == '@' && w[b] == '.';
    assert s[i + a] == w[a] && s[i + b] == w[b];
    assert s[i + a - 1] == w[a - 1] && s[i + b + 1] == w[b + 1];
    forall m | i + a < m < i + b
      ensures !IsWhitespace(s[m])
    {
      assert s[m] == w[m - i];
    }
    assert EmailShapeAt(s, i + a, i + b);
  }

  /** The local shape at `a` and `b` makes the substring from the character
      before the '@' to the one after the '.' match. */
  lemma ShapeAtMatches(s: string, a: int, b: int)
    requires EmailShapeAt(s, a, b)
    ensures FullMatch(s[a - 1..b + 2])
  {
    var w := s[a - 1..b + 2];
    forall k | 0 <= k < |w|
      ensures !IsWhitespace(w[k])
    {
      var m := a - 1 + k;
      assert w[k] == s[m];
      if a < m < b {
        assert NonSpaceBetween(s, a, b);
      }
    }
    assert w[1] == '@' && w[b - a + 1] == '.';
  }

  lemma ShapeGivesEmailTest(s: string)
    requires EmailShape(s)
    ensures EmailTest(s)
  {
    var a, b :| EmailShapeAt(s, a, b);
    ShapeAtMatches(s, a, b);
  }

  lemma EmailTestIffShape(s: string)
    ensures EmailTest(s) <==> EmailShape(s)
  {
    if EmailTest(s) {
      EmailTestGivesShape(s);
    }
    if EmailShape(s) {
      ShapeGivesEmailTest(s);
    }
  }

  /** `handleRegister`'s chain of checks. */
  function HandleRegister(name: string, email: string, password: string, confirmPassword: string): (r: Outcome)
    ensures name == "" || email == "" || password == "" || confirmPassword == "" ==> r == Alert(FillAllFields)
    ensures r == Alert(InvalidEmail)
        <==> name != "" && email != "" && password != "" && confirmPassword != "" && !EmailTest(email)
    ensures r == Alert(PasswordTooShort)
        <==> name != "" && email != "" && password != "" && confirmPassword != "" && EmailTest(email)
             && |password| < MinPasswordLength
    ensures r == Alert(PasswordsDiffer)
        <==> name != "" && email != "" && password != "" && confirmPassword != "" && EmailTest(email)
             && |password| >= MinPasswordLength && password != confirmPassword
    ensures r.DispatchRegister?
        <==> name != "" && email != "" && password != "" && confirmPassword != "" && EmailTest(email)
             && |password| >= MinPasswordLength && password == confirmPassword
    ensures r.DispatchRegister? ==> r == DispatchRegister(email, password, name)
  {
    if name == "" || email == "" || password == "" || confirmPassword == "" then Alert(FillAllFields)
    else if !EmailTest(email) then Alert(InvalidEmail)
    else if |password| < MinPasswordLength then Alert(PasswordTooShort)
    else if password != confirmPassword then Alert(PasswordsDiffer)
    else DispatchRegister(email, password, name)
  }

  /** A password of exactly six characters passes, one of five does not. */
  lemma PasswordLengthBoundary()
    ensures HandleRegister("Ann", "ann@site.io", "abcdef", "abcdef") == DispatchRegister("ann@site.io", "abcdef", "Ann")
    ensures HandleRegister("Ann", "ann@site.io", "abcde", "abcde") == Alert(PasswordTooShort)
  {
    var s := "ann@site.io";
    assert s[0..|s|] == s;
    assert s[3] == '@' && s[8] == '.';
    assert FullMatch(s[0..|s|]);
  }

  /** The test is not anchored: text around an address is accepted, while an
      address with no '.' after its '@' is refused. */
  lemma EmailTestExamples()
    ensures EmailTest("mail me: <a@b.co> today")
    ensures !EmailTest("a@b")
    ensures !EmailTest("a @b.c")
  {
    var s := "mail me: <a@b.co> today";
    assert s[9..17] == "<a@b.co>";
    var w := s[9..17];
    assert w[2] == '@' && w[4] == '.';
    assert FullMatch(w);
    EmailTestIffShape("a@b");
    EmailTestIffShape("a @b.c");
  }
}
