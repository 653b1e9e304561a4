/**
 * The sign-in / sign-up form (app/auth.tsx): three field validators that
 * each write an error message, a submit action gated on them, and the
 * login/register mode switch.
 */
module AuthForm {
  import opened Wrappers

  const EmailRequired := "Email is required"
  const EmailInvalid := "Please enter a valid email"
  const PasswordRequired := "Password is required"
  const PasswordTooShort := "Password must be at least 6 characters"
  const UsernameRequired := "Username is required"
  const MinPasswordLength := 6

  /** The characters the JavaScript class `\s` matches. */
  predicate IsSpace(c: char)
  {
    c == ' ' || c == '\t' || c == '\n' || c == '\r' || c == '\U{000B}' || c == '\U{000C}'
    || c == '\U{00A0}' || c == '\U{1680}' || ('\U{2000}' <= c <= '\U{200A}')
    || c == '\U{2028}' || c == '\U{2029}' || c == '\U{202F}' || c == '\U{205F}'
    || c == '\U{3000}' || c == '\U{FEFF}'
  }

  /** One character of the class `[^\s@]`. */
  predicate Plain(c: char)
  {
    !IsSpace(c) && c != '@'
  }

  /** `[^\s@]+`: a non-empty run of plain characters. */
  predicate PlainRun(s: string)
  {
    |s| > 0 && forall k :: 0 <= k < |s| ==> Plain(s[k])
  }

  /**
   * `^[^\s@]+@[^\s@]+\.[^\s@]+$`: the string splits at an `@` (index i) and
   * a later `.` (index j) into three plain runs.
   */
  predicate MatchesEmailRegex(s: string)
  {
    exists i, j :: 0 <= i < j < |s| && s[i] == '@' && s[j] == '.'
      && PlainRun(s[..i]) && PlainRun(s[i + 1..j]) && PlainRun(s[j + 1..])
  }

  predicate NoSpace(s: string)
  {
    forall k :: 0 <= k < |s| ==> !IsSpace(s[k])
  }

  /** The single `@` of `s` is at index i. */
  predicate OnlyAtAt(s: string, i: int)
  {
    0 <= i < |s| && s[i] == '@' && forall k :: 0 <= k < |s| && k != i ==> s[k] != '@'
  }

  /** There is a `.` strictly inside s[lo..], with text on both sides of it. */
  predicate InnerDotAfter(s: string, lo: int)
  {
    exists j :: 0 <= lo < j < |s| - 1 && s[j] == '.'
  }

  /**
   * What the pattern means: no whitespace, exactly one `@`, a non-empty
   * local part, and a domain with a `.` that has text on both sides.
   */
  lemma EmailRegexMeaning(s: string)
    ensures MatchesEmailRegex(s) <==>
      NoSpace(s) && exists i :: 0 < i && OnlyAtAt(s, i) && InnerDotAfter(s, i + 1)
  {
    if MatchesEmailRegex(s) {
      var i, j :| 0 <= i < j < |s| && s[i] == '@' && s[j] == '.'
        && PlainRun(s[..i]) && PlainRun(s[i + 1..j]) && PlainRun(s[j + 1..]);
      forall k | 0 <= k < |s| && k != i && k != j
        ensures Plain(s[k])
      {
        if k < i {
          assert s[k] == s[..i][k];
        } else if k < j {
          assert s[k] == s[i + 1..j][k - i - 1];
        } else {
          assert s[k] == s[j + 1..][k - j - 1];
        }
      }
      assert OnlyAtAt(s, i);
      assert |s[..i]| > 0 && |s[i + 1..j]| > 0 && |s[j + 1..]| > 0;
      assert InnerDotAfter(s, i + 1);
    }
    if NoSpace(s) && exists i :: 0 < i && OnlyAtAt(s, i) && InnerDotAfter(s, i + 1) {
      var i :| 0 < i && OnlyAtAt(s, i) && InnerDotAfter(s, i + 1);
      var j :| i + 1 < j < |s| - 1 && s[j] == '.';
      assert PlainRun(s[..i]) by {
        forall k | 0 <= k < i ensures Plain(s[..i][k]) {
          assert s[..i][k] == s[k];
        }
      }
      var domain, tld := s[i + 1..j], s[j + 1..];
      assert PlainRun(domain) by {
        forall k | 0 <= k < |domain| ensures Plain(domain[k]) {
          assert domain[k] == s[k + i + 1];
        }
      }
      assert PlainRun(tld) by {
        forall k | 0 <= k < |tld| ensures Plain(tld[k]) {
          assert tld[k] == s[k + j + 1];
        }
      }
    }
  }

  /** The message validateEmail leaves behind ("" when the email is accepted). */
  function EmailError(email: string): (msg: string)
    ensures msg == "" <==> email != "" && MatchesEmailRegex(email)
    ensures email == "" ==> msg == EmailRequired
    ensures email != "" && !MatchesEmailRegex(email) ==> msg == EmailInvalid
  {
    if email == "" then EmailRequired
    else if !MatchesEmailRegex(email) then EmailInvalid
    else ""
  }

  /** The message validatePassword leaves behind. */
  function PasswordError(password: string): (msg: string)
    ensures msg == "" <==> |password| >= MinPasswordLength
    ensures password == "" ==> msg == PasswordRequired
    ensures 0 < |password| < MinPasswordLength ==> msg == PasswordTooShort
  {
    if password == "" then PasswordRequired
    else if |password| < MinPasswordLength then PasswordTooShort
    else ""
  }

  /** The message validateUsername leaves behind: a username is demanded only when registering. */
  function UsernameError(isLogin: bool, username: string): (msg: string)
    ensures msg == "" <==> isLogin || username != ""
    ensures msg != "" ==> msg == UsernameRequired
  {
    if !isLogin && username == "" then UsernameRequired else ""
  }

  /** The call the form hands to the auth store. */
  datatype AuthRequest =
    | Login(email: string, password: string)
    | Register(username: string, email: string, password: string)

  class AuthScreen {
    var isLogin: bool
    var email: string
    var password: string
    var username: string
    var emailError: string
    var passwordError: string
    var usernameError: string
    /** The auth store's error, which the form clears. */
    var storeError: Option<string>

    constructor ()
      ensures isLogin && email == "" && password == "" && username == ""
      ensures emailError == "" && passwordError == "" && usernameError == ""
      ensures storeError == None
    {
      isLogin := true;
      email, password, username := "", "", "";
      emailError, passwordError, usernameError := "", "", "";
      storeError := None;
    }

    method ValidateEmail() returns (valid: bool)
      modifies this`emailError
      ensures emailError == EmailError(email)
      ensures valid <==> emailError == ""
    {
      if email == "" {
        emailError := EmailRequired;
        return false;
      } else if !MatchesEmailRegex(email) {
        emailError := EmailInvalid;
        return false;
      }
      emailError := "";
      return true;
    }

    method ValidatePassword() returns (valid: bool)
      modifies this`passwordError
      ensures passwordError == PasswordError(password)
      ensures valid <==> passwordError == ""
    {
      if password == "" {
        passwordError := PasswordRequired;
        return false;
      } else if |password| < MinPasswordLength {
        passwordError := PasswordTooShort;
        return false;
      }
      passwordError := "";
      return true;
    }

    method ValidateUsername() returns (valid: bool)
      modifies this`usernameError
      ensures usernameError == UsernameError(isLogin, username)
      ensures valid <==> usernameError == ""
    {
      if !isLogin && username == "" {
        usernameError := UsernameRequired;
        return false;
      }
      usernameError := "";
      return true;
    }

    /**
     * Clears the store error, runs all three validators, and yields the
     * login or register call only when every check passed.
     */
    method HandleSubmit() returns (request: Option<AuthRequest>)
      modifies this`emailError, this`passwordError, this`usernameError, this`storeError
      ensures storeError == None
      ensures emailError == EmailError(email) && passwordError == PasswordError(password)
      ensures usernameError == UsernameError(isLogin, username)
      ensures request.Some? <==>
        email != "" && MatchesEmailRegex(email) && |password| >= MinPasswordLength
        && (isLogin || username != "")
      ensures request.Some? <==> emailError == "" && passwordError == "" && usernameError == ""
      ensures request.Some? && isLogin ==> request.value == Login(email, password)
      ensures request.Some? && !isLogin ==> request.value == Register(username, email, password)
    {
      storeError := None;
      var isEmailValid := ValidateEmail();
      var isPasswordValid := ValidatePassword();
      var isUsernameValid := ValidateUsername();
      if !isEmailValid || !isPasswordValid || (!isLogin && !isUsernameValid) {
        return None;
      }
      if isLogin {
        request := Some(Login(email, password));
      } else {
        request := Some(Register(username, email, password));
      }
    }

    method ToggleAuthMode()
      modifies this`isLogin, this`storeError
      ensures isLogin == !old(isLogin) && storeError == None
    {
      isLogin := !isLogin;
      storeError := None;
    }
  }

  lemma DemoCredentialsPass()
    ensures EmailError("demo@example.com") == ""
    ensures PasswordError("password123") == ""
  {
    var s := "demo@example.com";
    assert s[4] == '@' && s[12] == '.';
    assert PlainRun(s[..4]) by { assert s[..4] == "demo"; }
    assert PlainRun(s[5..12]) by { assert s[5..12] == "example"; }
    assert PlainRun(s[13..]) by { assert s[13..] == "com"; }
  }

  lemma SamplesRejected()
    ensures EmailError("a@b") == EmailInvalid
    ensures EmailError("a b@c.d") == EmailInvalid
    ensures EmailError("@b.c") == EmailInvalid
    ensures EmailError("a@b.") == EmailInvalid
  {
    EmailRegexMeaning("a@b");
    EmailRegexMeaning("a b@c.d");
    assert !NoSpace("a b@c.d") by { assert IsSpace("a b@c.d"[1]); }
    EmailRegexMeaning("@b.c");
    assert "@b.c"[0] == '@';
    EmailRegexMeaning("a@b.");
  }
}
