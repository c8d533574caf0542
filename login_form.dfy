/** The sign-in form: two field checks and the call to `login` they guard. */
module LoginForm {
  import opened Prelude

  const EmailRequired := "Email is required"
  const EmailInvalid := "Please enter a valid email"
  const PasswordRequired := "Password is required"
  const PasswordTooShort := "Password must be at least 6 characters"

  /** The e-mail check shared by both sign-in and registration: required,
      then the pattern. The emptiness test is subsumed by the pattern, so the
      field fails exactly when the pattern does not match. */
  function EmailError(email: string): (r: Option<string>)
    ensures r.None? <==> MatchesEmailPattern(email)
    ensures r == Some(EmailRequired) <==> email == []
    ensures r.Some? && email != [] ==> r.value == EmailInvalid
  {
    MatchedNotEmpty(email);
    if email == [] then Some(EmailRequired)
    else if !MatchesEmailPattern(email) then Some(EmailInvalid)
    else None
  }

  lemma MatchedNotEmpty(email: string)
    ensures MatchesEmailPattern(email) ==> |email| >= 5 && '.' in email
  {
    if MatchesEmailPattern(email) {
      EmailPatternShape(email);
    }
  }

  /** The password check shared by both forms: required, then six characters. */
  function PasswordError(password: string): (r: Option<string>)
    ensures r.None? <==> JsLength(password) >= 6
    ensures r == Some(PasswordRequired) <==> password == []
    ensures r.Some? && password != [] ==> r.value == PasswordTooShort
  {
    if password == [] then Some(PasswordRequired)
    else if JsLength(password) < 6 then Some(PasswordTooShort)
    else None
  }

  /** Length is counted in UTF-16 code units: three characters above
      U+FFFF make a long enough password, five letters do not. */
  lemma PasswordCountsCodeUnits()
    ensures PasswordError("\U{1F511}\U{1F511}\U{1F511}") == None
    ensures PasswordError("abcde") == Some(PasswordTooShort)
  {
    assert "\U{1F511}\U{1F511}\U{1F511}"[..2] == "\U{1F511}\U{1F511}";
    assert "\U{1F511}\U{1F511}"[..1] == "\U{1F511}";
    assert "\U{1F511}"[..0] == "";
    JsLengthBasic("abcde");
  }

  /** Two addresses as the pattern judges them: a plain address passes, and
      one without a dot after the '@' fails. */
  lemma EmailExamples()
    ensures EmailError("ana@mail.com") == None
    ensures EmailError("ana@mail") == Some(EmailInvalid)
  {
    EmailPatternBuild("ana", "mail", "com");
    assert "ana" + "@" + "mail" + "." + "com" == "ana@mail.com";
    assert '.' !in "ana@mail";
    MatchedNotEmpty("ana@mail");
  }

  /** `validateForm`, one check at a time: each failing field gets its
      message and the form is valid exactly when the map stays empty. */
  method ValidateLogin(email: string, password: string) returns (errors: map<string, string>)
    ensures errors.Keys <= {"email", "password"}
    ensures "email" in errors <==> !MatchesEmailPattern(email)
    ensures "password" in errors <==> JsLength(password) < 6
    ensures "email" in errors ==> Some(errors["email"]) == EmailError(email)
    ensures "password" in errors ==> Some(errors["password"]) == PasswordError(password)
    ensures errors == map[] <==> MatchesEmailPattern(email) && JsLength(password) >= 6
  {
    errors := map[];
    if email == [] {
      errors := errors["email" := EmailRequired];
    } else if !MatchesEmailPattern(email) {
      errors := errors["email" := EmailInvalid];
    }
    if password == [] {
      errors := errors["password" := PasswordRequired];
    } else if JsLength(password) < 6 {
      errors := errors["password" := PasswordTooShort];
    }
    if errors != map[] {
      assert exists k :: k in errors;
    }
  }

  datatype Credentials = Credentials(email: string, password: string)

  /** The sign-in form's state. */
  class Form {
    var email: string
    var password: string
    var errors: map<string, string>

    constructor ()
      ensures email == [] && password == [] && errors == map[]
    {
      email := [];
      password := [];
      errors := map[];
    }

    /** `handleSubmit`: `login` is called (with the fields as typed) only when
        both checks pass; the outcome of the call only chooses a toast. */
    method HandleSubmit() returns (attempt: Option<Credentials>)
      modifies this
      ensures email == old(email) && password == old(password)
      ensures attempt.Some? <==> MatchesEmailPattern(email) && JsLength(password) >= 6
      ensures attempt.Some? ==> attempt.value == Credentials(email, password) && errors == map[]
      ensures "email" in errors <==> !MatchesEmailPattern(email)
      ensures "password" in errors <==> JsLength(password) < 6
      ensures errors.Keys <= {"email", "password"}
      ensures "email" in errors ==> Some(errors["email"]) == EmailError(email)
      ensures "password" in errors ==> Some(errors["password"]) == PasswordError(password)
    {
      errors := ValidateLogin(email, password);
      if errors != map[] {
        return None;
      }
      attempt := Some(Credentials(email, password));
    }
  }
}
