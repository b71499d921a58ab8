/** The login form (src/components/LoginForm.tsx): the validation of the e-mail and the
    password, the submit guard in front of the login call, the per-field edit and the test-user
    shortcut. The login itself is the authentication provider's; here its outcome is a
    parameter. */
module LoginForm {
  import opened Wrappers
  import opened Text

  /** No character of `t` is white space in the sense of the regular-expression class `\s`. */
  predicate NoSpace(t: string)
  {
    forall k :: 0 <= k < |t| ==> !IsJsSpace(t[k])
  }

  /** `t` as a whole has the shape `\S+@\S+\.\S+`. */
  predicate WholeMatch(t: string)
  {
    NoSpace(t) &&
    exists i, j :: 0 < i && i + 1 < j && j + 1 < |t| && t[i] == '@' && t[j] == '.'
  }

  /** `/\S+@\S+\.\S+/.test(s)`: the pattern is not anchored, so it is enough that some
      stretch of `s` has that shape. */
  predicate EmailMatches(s: string)
  {
    exists p, q :: 0 <= p <= q <= |s| && WholeMatch(s[p..q])
  }

  /** The same test read locally: an '@' with a non-space before it, then a non-space stretch,
      then a '.' with a non-space after it. */
  predicate AtDotShape(s: string, i: int, j: int)
  {
    1 <= i && i + 1 < j && j + 1 < |s| && s[i] == '@' && s[j] == '.' &&
    !IsJsSpace(s[i - 1]) && !IsJsSpace(s[j + 1]) && NoSpace(s[i + 1..j])
  }

  lemma ShapeMatches(s: string, i: int, j: int)
    requires AtDotShape(s, i, j)
    ensures EmailMatches(s)
  {
    var t := s[i - 1..j + 2];
    forall k | 0 <= k < |t|
      ensures !IsJsSpace(t[k])
    {
      assert t[k] == s[i - 1 + k];
      if 1 < k < j - i + 1 {
        assert s[i - 1 + k] == s[i + 1..j][k - 2];
      }
    }
    assert t[1] == '@' && t[j - i + 1] == '.';
    assert WholeMatch(t);
  }

  lemma MatchHasShape(s: string) returns (i: int, j: int)
    requires EmailMatches(s)
    ensures AtDotShape(s, i, j)
  {
    var p, q :| 0 <= p <= q <= |s| && WholeMatch(s[p..q]);
    var t := s[p..q];
    var a, b :| 0 < a && a + 1 < b && b + 1 < |t| && t[a] == '@' && t[b] == '.';
    i, j := p + a, p + b;
    assert s[i - 1] == t[a - 1] && s[j + 1] == t[b + 1];
    var middle := s[i + 1..j];
    forall k | 0 <= k < |middle|
      ensures !IsJsSpace(middle[k])
    {
      assert middle[k] == t[a + 1 + k];
    }
  }

  /** The unanchored test holds exactly when the local shape occurs somewhere. */
  lemma EmailMatchesIffShape(s: string)
    ensures EmailMatches(s) <==> exists i, j :: AtDotShape(s, i, j)
  {
    if EmailMatches(s) {
      var i, j := MatchHasShape(s);
    }
    if exists i, j :: AtDotShape(s, i, j) {
      var i, j :| AtDotShape(s, i, j);
      ShapeMatches(s, i, j);
    }
  }

  /** Because the pattern is not anchored, text around a matching address does not matter:
      spaces, or anything else, may precede or follow it. */
  lemma MatchSurvivesPadding(s: string, before: string, after: string)
    requires EmailMatches(s)
    ensures EmailMatches(before + s + after)
  {
    var p, q :| 0 <= p <= q <= |s| && WholeMatch(s[p..q]);
    var w := before + s + after;
    assert w[|before| + p..|before| + q] == s[p..q];
  }

  /** Text without an '@' never passes. */
  lemma NoAtNoMatch(s: string)
    requires forall k :: 0 <= k < |s| ==> s[k] != '@'
    ensures !EmailMatches(s)
  {
    if EmailMatches(s) {
      var i, j := MatchHasShape(s);
      assert false;
    }
  }

  /** `String.prototype.length` counts UTF-16 code units: two for a character beyond the basic
      plane. */
  function Utf16Length(s: string): (n: nat)
    ensures n >= |s|
    ensures n <= 2 * |s|
  {
    if s == [] then 0 else Utf16Length(s[..|s| - 1]) + (if s[|s| - 1] as int > 0xFFFF then 2 else 1)
  }

  /** Within the basic plane the code-unit count is the character count. */
  lemma {:induction false} Utf16LengthBasicPlane(s: string)
    requires forall k :: 0 <= k < |s| ==> s[k] as int <= 0xFFFF
    ensures Utf16Length(s) == |s|
  {
    if s != [] {
      Utf16LengthBasicPlane(s[..|s| - 1]);
    }
  }

  const EmailRequired: string := "L'email est requis"
  const EmailInvalid: string := "L'email n'est pas valide"
  const PasswordRequired: string := "Le mot de passe est requis"
  const PasswordTooShort: string := "Le mot de passe doit contenir au moins 6 caractères"
  const MinPasswordLength: nat := 6

  /** The form's error record; an absent field has no error. */
  datatype FieldErrors = FieldErrors(email: Option<string>, password: Option<string>)

  const NoErrors: FieldErrors := FieldErrors(None, None)

  function EmailError(email: string): (e: Option<string>)
    ensures email == "" ==> e == Some(EmailRequired)
    ensures email != "" && !EmailMatches(email) ==> e == Some(EmailInvalid)
    ensures e.None? <==> email != "" && EmailMatches(email)
  {
    if email == "" then Some(EmailRequired)
    else if !EmailMatches(email) then Some(EmailInvalid)
    else None
  }

  function PasswordError(password: string): (e: Option<string>)
    ensures password == "" ==> e == Some(PasswordRequired)
    ensures password != "" && Utf16Length(password) < MinPasswordLength ==> e == Some(PasswordTooShort)
    ensures e.None? <==> Utf16Length(password) >= MinPasswordLength
  {
    if password == "" then Some(PasswordRequired)
    else if Utf16Length(password) < MinPasswordLength then Some(PasswordTooShort)
    else None
  }

  /** `validateForm`: the errors it records, and whether it passes (no key recorded). */
  function Validate(email: string, password: string): (errors: FieldErrors)
    ensures errors == NoErrors <==> email != "" && EmailMatches(email) && Utf16Length(password) >= MinPasswordLength
  {
    FieldErrors(EmailError(email), PasswordError(password))
  }

  const TestEmail: string := "marie.dupont@email.com"
  const TestPassword: string := "password123"

  /** The test user's credentials pass validation. */
  lemma TestUserValid()
    ensures Validate(TestEmail, TestPassword) == NoErrors
  {
    assert TestEmail[12] == '@' && TestEmail[18] == '.';
    assert TestEmail[13..18] == "email";
    ShapeMatches(TestEmail, 12, 18);
    Utf16LengthBasicPlane(TestPassword);
  }

  datatype Field = EmailField | PasswordField

  class Form {
    var email: string
    var password: string
    var errors: FieldErrors
    var apiError: string

    constructor ()
      ensures email == "" && password == "" && errors == NoErrors && apiError == ""
    {
      email := "";
      password := "";
      errors := NoErrors;
      apiError := "";
    }

    /** `handleSubmit`; `loginOutcome` is what the login call ends with. The login is called
        (`called`) exactly when validation passes, and a failure shows its message. */
    method HandleSubmit(loginOutcome: Outcome<Thrown>) returns (called: bool)
      modifies this
      ensures errors == Validate(email, password)
      ensures called <==> errors == NoErrors
      ensures called ==> email != "" && EmailMatches(email) && Utf16Length(password) >= MinPasswordLength
      ensures called && loginOutcome.Fail? ==> apiError == MessageOr(loginOutcome.error, "Une erreur est survenue")
      ensures !(called && loginOutcome.Fail?) ==> apiError == ""
      ensures email == old(email) && password == old(password)
    {
      apiError := "";
      errors := Validate(email, password);
      if errors != NoErrors {
        return false;
      }
      called := true;
      if loginOutcome.Fail? {
        apiError := MessageOr(loginOutcome.error, "Une erreur est survenue");
      }
    }

    /** `handleChange(field)`: only the edited field changes, and its error, if it showed one,
        becomes the empty text. */
    method HandleChange(field: Field, value: string)
      modifies this
      ensures field == EmailField ==> email == value && password == old(password)
      ensures field == PasswordField ==> password == value && email == old(email)
      ensures field == EmailField ==>
        errors.password == old(errors.password) &&
        errors.email == (if old(errors.email).Some? && old(errors.email).value != "" then Some("") else old(errors.email))
      ensures field == PasswordField ==>
        errors.email == old(errors.email) &&
        errors.password == (if old(errors.password).Some? && old(errors.password).value != "" then Some("") else old(errors.password))
      ensures apiError == old(apiError)
    {
      match field {
        case EmailField =>
          email := value;
          if errors.email.Some? && errors.email.value != "" {
            errors := errors.(email := Some(""));
          }
        case PasswordField =>
          password := value;
          if errors.password.Some? && errors.password.value != "" {
            errors := errors.(password := Some(""));
          }
      }
    }

    /** `fillTestUser`: the test credentials, which pass validation, and no errors. */
    method FillTestUser()
      modifies this
      ensures email == TestEmail && password == TestPassword
      ensures errors == NoErrors && apiError == ""
      ensures Validate(email, password) == NoErrors
    {
      email := TestEmail;
      password := TestPassword;
      errors := NoErrors;
      apiError := "";
      TestUserValid();
    }
  }
}
