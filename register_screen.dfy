/** The registration form of src/screens/RegisterScreen.tsx: the e-mail
    check, the password-match check and the registration gate. */
module RegisterScreen {
  import opened Wrappers

  /** A character the pattern class `\s` matches in JavaScript: the
      ECMAScript white space and line terminator characters. */
  predicate IsWhitespace(c: char) {
    c == '\t' || c == '\n' || c == '\U{0B}' || c == '\U{0C}' || c == '\r' || c == ' ' ||
    c == '\U{A0}' || c == '\U{1680}' || ('\U{2000}' <= c <= '\U{200A}') ||
    c == '\U{2028}' || c == '\U{2029}' || c == '\U{202F}' || c == '\U{205F}' ||
    c == '\U{3000}' || c == '\U{FEFF}'
  }

  /** A character of the class `[^\s@]`. */
  predicate IsAddressChar(c: char) {
    !IsWhitespace(c) && c != '@'
  }

  predicate AllAddressChars(t: string) {
    forall k :: 0 <= k < |t| ==> IsAddressChar(t[k])
  }

  /** The whole text matches `^[^\s@]+@[^\s@]+\.[^\s@]+$`: a non-empty run
      before an '@' at `i`, a non-empty run before a '.' at `j`, and a
      non-empty run after it, none of the runs holding white space or '@'. */
  ghost predicate MatchesEmailPattern(s: string) {
    exists i, j :: 0 < i && i + 1 < j && j + 1 < |s| && s[i] == '@' && s[j] == '.' &&
      AllAddressChars(s[..i]) && AllAddressChars(s[i + 1..j]) && AllAddressChars(s[j + 1..])
  }

  /** Position of the first `c` in `s`, or -1. */
  function IndexOf(s: string, c: char): (k: int)
    ensures -1 <= k < |s|
    ensures k == -1 ==> c !in s
    ensures k != -1 ==> s[k] == c && c !in s[..k]
  {
    if s == [] then -1
    else if s[0] == c then 0
    else
      var k := IndexOf(s[1..], c);
      if k == -1 then -1 else (assert s[..k + 1] == [s[0]] + s[1..][..k]; k + 1)
  }

  /** The regular expression's test, computed: split at the first '@'; both
      sides are made of address characters, the left one is non-empty and
      the right one has a '.' strictly inside it. */
  predicate EmailTest(s: string) {
    var i := IndexOf(s, '@');
    0 < i && AllAddressChars(s[..i]) &&
    var rest := s[i + 1..];
    |rest| >= 3 && AllAddressChars(rest) && '.' in rest[1..|rest| - 1]
  }

  /** The computed test accepts exactly the texts the pattern matches. */
  lemma EmailTestMatchesPattern(s: string)
    ensures EmailTest(s) <==> MatchesEmailPattern(s)
  {
    if EmailTest(s) {
      EmailTestToPattern(s);
    }
    if MatchesEmailPattern(s) {
      PatternToEmailTest(s);
    }
  }

  lemma AddressCharsSlice(t: string, a: int, b: int)
    requires AllAddressChars(t) && 0 <= a <= b <= |t|
    ensures AllAddressChars(t[a..b])
  {
    forall k | 0 <= k < b - a ensures IsAddressChar(t[a..b][k]) {
      assert t[a..b][k] == t[a + k];
    }
  }

  lemma EmailTestToPattern(s: string)
    requires EmailTest(s)
    ensures MatchesEmailPattern(s)
  {
    var i := IndexOf(s, '@');
    var rest := s[i + 1..];
    var mid := rest[1..|rest| - 1];
    var p :| 0 <= p < |mid| && mid[p] == '.';
    var j := i + 2 + p;
    assert s[j] == rest[p + 1] == '.';
    assert s[i + 1..j] == rest[0..p + 1];
    assert s[j + 1..] == rest[p + 2..|rest|];
    AddressCharsSlice(rest, 0, p + 1);
    AddressCharsSlice(rest, p + 2, |rest|);
  }

  lemma PatternToEmailTest(s: string)
    requires MatchesEmailPattern(s)
    ensures EmailTest(s)
  {
    var i, j :| 0 < i && i + 1 < j && j + 1 < |s| && s[i] == '@' && s[j] == '.' &&
      AllAddressChars(s[..i]) && AllAddressChars(s[i + 1..j]) && AllAddressChars(s[j + 1..]);
    NoAtBefore(s, i);
    FirstIndexIs(s, '@', i);
    AddressCharsAround(s, i, j);
    DotInside(s, i, j);
    EmailTestFromParts(s, i);
  }

  lemma NoAtBefore(s: string, i: int)
    requires 0 <= i <= |s| && AllAddressChars(s[..i])
    ensures '@' !in s[..i]
  {
    var left := s[..i];
    forall k | 0 <= k < |left| ensures left[k] != '@' {
      assert IsAddressChar(left[k]);
    }
  }

  /** Two runs of address characters around a '.' make one run. */
  lemma AddressCharsAround(s: string, i: int, j: int)
    requires 0 <= i < j < |s| && s[j] == '.'
    requires AllAddressChars(s[i + 1..j]) && AllAddressChars(s[j + 1..])
    ensures AllAddressChars(s[i + 1..])
  {
    var b, c, t := s[i + 1..j], s[j + 1..], s[i + 1..];
    forall k | 0 <= k < |t| ensures IsAddressChar(t[k]) {
      if k < |b| {
        assert t[k] == b[k];
      } else if k > |b| {
        assert t[k] == c[k - |b| - 1];
      } else {
        assert t[k] == s[j];
      }
    }
  }

  lemma DotInside(s: string, i: int, j: int)
    requires 0 <= i && i + 1 < j && j + 1 < |s| && s[j] == '.'
    ensures var rest := s[i + 1..]; |rest| >= 3 && '.' in rest[1..|rest| - 1]
  {
    var rest := s[i + 1..];
    assert rest[1..|rest| - 1][j - i - 2] == s[j];
  }

  lemma EmailTestFromParts(s: string, i: int)
    requires IndexOf(s, '@') == i && 0 < i && AllAddressChars(s[..i])
    requires |s[i + 1..]| >= 3 && AllAddressChars(s[i + 1..]) && '.' in s[i + 1..][1..|s[i + 1..]| - 1]
    ensures EmailTest(s)
  {
  }

  /** When `c` first occurs at `i`, that is what `IndexOf` finds. */
  lemma {:induction false} FirstIndexIs(s: string, c: char, i: int)
    requires 0 <= i < |s| && s[i] == c && c !in s[..i]
    ensures IndexOf(s, c) == i
  {
    if i > 0 {
      assert s[0] == s[..i][0];
      assert s[1..][..i - 1] == s[1..i];
      var prefix := s[1..i];
      assert c !in prefix by {
        forall k | 0 <= k < |prefix| ensures prefix[k] != c {
          assert prefix[k] == s[..i][k + 1];
        }
      }
      FirstIndexIs(s[1..], c, i - 1);
    }
  }

  /** An accepted address has no white space and exactly one '@', with
      something before it. */
  lemma EmailTestShape(s: string)
    requires EmailTest(s)
    ensures forall k :: 0 <= k < |s| ==> !IsWhitespace(s[k])
    ensures exists i :: 0 < i < |s| && s[i] == '@' && forall k :: 0 <= k < |s| && s[k] == '@' ==> k == i
  {
    var i := IndexOf(s, '@');
    forall k | 0 <= k < |s| ensures !IsWhitespace(s[k]) && (s[k] == '@' ==> k == i) {
      if k < i {
        assert s[k] == s[..i][k];
      } else if k > i {
        assert s[k] == s[i + 1..][k - i - 1];
      }
    }
  }

  /** `handleRegistration`'s gate: a valid e-mail and equal passwords. The
      user name is not looked at, and two empty passwords are equal. */
  predicate RegistrationAccepted(email: string, password: string, confirmPassword: string) {
    EmailTest(email) && password == confirmPassword
  }

  class RegisterForm {
    var email: string
    var userName: string
    var emailError: Option<string>
    var password: string
    var confirmPassword: string
    var passwordError: Option<string>
    var secureTextEntry: bool

    constructor ()
      ensures email == "" && userName == "" && password == "" && confirmPassword == ""
      ensures emailError == None && passwordError == None
      ensures secureTextEntry
    {
      email, userName, password, confirmPassword := "", "", "", "";
      emailError, passwordError := None, None;
      secureTextEntry := true;
    }

    /** `toggleSecurity`: shows or hides the passwords. */
    method ToggleSecurity()
      modifies this`secureTextEntry
      ensures secureTextEntry == !old(secureTextEntry)
    {
      secureTextEntry := !secureTextEntry;
    }

    /** `validateEmail`: the test's answer, with the matching message. */
    method ValidateEmail(text: string) returns (ok: bool)
      modifies this`emailError
      ensures ok == EmailTest(text)
      ensures emailError == if ok then None else Some("Please enter a valid email")
    {
      if !EmailTest(text) {
        emailError := Some("Please enter a valid email");
        return false;
      }
      emailError := None;
      return true;
    }

    /** `validatePassword`: compares the confirmation with the current
        password. */
    method ValidatePassword(confirmText: string) returns (ok: bool)
      modifies this`passwordError
      ensures ok == (password == confirmText)
      ensures passwordError == if ok then None else Some("Password don't match")
    {
      if password != confirmText {
        passwordError := Some("Password don't match");
        return false;
      }
      passwordError := None;
      return true;
    }

    /** Typing in the e-mail field stores the text and validates it. */
    method ChangeEmail(text: string)
      modifies this`email, this`emailError
      ensures email == text
      ensures emailError == if EmailTest(text) then None else Some("Please enter a valid email")
    {
      email := text;
      var _ := ValidateEmail(text);
    }

    method ChangeUserName(text: string)
      modifies this`userName
      ensures userName == text
    {
      userName := text;
    }

    method ChangePassword(text: string)
      modifies this`password
      ensures password == text
    {
      password := text;
    }

    /** Typing in the confirmation field stores the text and compares it. */
    method ChangeConfirmPassword(text: string)
      modifies this`confirmPassword, this`passwordError
      ensures confirmPassword == text
      ensures passwordError == if password == text then None else Some("Password don't match")
    {
      confirmPassword := text;
      var _ := ValidatePassword(text);
    }

    /** `handleRegistration`: validates the e-mail (setting its message) and
        navigates to Login exactly when the gate passes. */
    method HandleRegistration() returns (navigateToLogin: bool)
      modifies this`emailError
      ensures navigateToLogin == RegistrationAccepted(email, password, confirmPassword)
      ensures emailError == if EmailTest(email) then None else Some("Please enter a valid email")
    {
      var isEmailValid := ValidateEmail(email);
      var isPasswordValid := password == confirmPassword;
      navigateToLogin := isEmailValid && isPasswordValid;
    }
  }
}
