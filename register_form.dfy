/** The registration form: four field checks and the call to `register`
    they guard. */
module RegisterForm {
  import opened Prelude
  import opened LoginForm

  const NameRequired := "Name is required"
  const NameTooShort := "Name must be at least 2 characters"
  const ConfirmRequired := "Please confirm your password"
  const PasswordsDiffer := "Passwords do not match"

  /** The name check: the trimmed name must have at least two characters. */
  function NameError(name: string): (r: Option<string>)
    ensures r.None? <==> JsLength(Trim(name)) >= 2
    ensures r == Some(NameRequired) <==> Trim(name) == []
    ensures r.Some? && Trim(name) != [] ==> r.value == NameTooShort
  {
    if Trim(name) == [] then Some(NameRequired)
    else if JsLength(Trim(name)) < 2 then Some(NameTooShort)
    else None
  }

  /** A name of one character above U+FFFF is two code units long and so
      passes the check; a name of one letter does not. */
  lemma NameCountsCodeUnits()
    ensures NameError("\U{1F33C}") == None
    ensures NameError("A") == Some(NameTooShort)
  {
    assert "\U{1F33C}"[1..] == "";
    assert "\U{1F33C}"[..0] == "";
    assert TrimStart("\U{1F33C}") == "\U{1F33C}";
    assert Trim("\U{1F33C}") == "\U{1F33C}";
    assert Trim("A") == "A";
    JsLengthBasic("A");
  }

  /** The confirmation check: required, then equal to the password. */
  function ConfirmError(password: string, confirm: string): (r: Option<string>)
    ensures r.None? <==> confirm != [] && confirm == password
    ensures r == Some(ConfirmRequired) <==> confirm == []
    ensures r.Some? && confirm != [] ==> r.value == PasswordsDiffer
  {
    if confirm == [] then Some(ConfirmRequired)
    else if password != confirm then Some(PasswordsDiffer)
    else None
  }

  /** All four checks pass. */
  predicate RegistrationValid(name: string, email: string, password: string, confirm: string)
  {
    JsLength(Trim(name)) >= 2 && MatchesEmailPattern(email) && JsLength(password) >= 6 && confirm == password
  }

  /** `validateForm`, one check at a time: each failing field gets exactly
      its message and the form is valid exactly when the map stays empty. */
  method ValidateRegistration(name: string, email: string, password: string, confirm: string)
    returns (errors: map<string, string>)
    ensures errors.Keys <= {"name", "email", "password", "confirmPassword"}
    ensures "name" in errors <==> NameError(name).Some?
    ensures "email" in errors <==> EmailError(email).Some?
    ensures "password" in errors <==> PasswordError(password).Some?
    ensures "confirmPassword" in errors <==> ConfirmError(password, confirm).Some?
    ensures "name" in errors ==> Some(errors["name"]) == NameError(name)
    ensures "email" in errors ==> Some(errors["email"]) == EmailError(email)
    ensures "password" in errors ==> Some(errors["password"]) == PasswordError(password)
    ensures "confirmPassword" in errors ==> Some(errors["confirmPassword"]) == ConfirmError(password, confirm)
    ensures errors == map[] <==> RegistrationValid(name, email, password, confirm)
  {
    errors := map[];
    if Trim(name) == [] {
      errors := errors["name" := NameRequired];
    } else if JsLength(Trim(name)) < 2 {
      errors := errors["name" := NameTooShort];
    }
    if email == [] {
      errors := errors["email" := EmailRequired];
    } else if !MatchesEmailPattern(email) {
      errors := errors["email" := EmailInvalid];
    }
    if password == [] {
      errors := errors["password" := PasswordRequired];
    } else if JsLength(password) < 6 {
      errors := errors["password" := PasswordTooShort];
    }
    if confirm == [] {
      errors := errors["confirmPassword" := ConfirmRequired];
    } else if password != confirm {
      errors := errors["confirmPassword" := PasswordsDiffer];
    }
    if errors != map[] {
      assert exists k :: k in errors;
    }
  }

  /** A valid registration has a password of six characters or more typed
      twice, so an empty confirmation can never slip through. */
  lemma ValidRegistrationConfirmed(name: string, email: string, password: string, confirm: string)
    requires RegistrationValid(name, email, password, confirm)
    ensures confirm != [] && JsLength(confirm) >= 6 && ConfirmError(password, confirm).None?
    ensures NameError(name).None? && Trim(name) != []
  {
  }

  datatype Registration = Registration(name: string, email: string, password: string)

  /** The registration form's state. */
  class Form {
    var name: string
    var email: string
    var password: string
    var confirmPassword: string
    var errors: map<string, string>
    var showVerificationPopup: bool
    var registeredEmail: string

    constructor ()
      ensures name == [] && email == [] && password == [] && confirmPassword == []
      ensures errors == map[] && !showVerificationPopup && registeredEmail == []
    {
      name := [];
      email := [];
      password := [];
      confirmPassword := [];
      errors := map[];
      showVerificationPopup := false;
      registeredEmail := [];
    }

    /** `handleSubmit`: `register` is called only when all four checks pass,
        with the trimmed name; when it succeeds the verification pop-up opens
        for the address used. */
    method HandleSubmit(response: Response<()>) returns (sent: Option<Registration>)
      modifies this
      ensures name == old(name) && email == old(email)
      ensures password == old(password) && confirmPassword == old(confirmPassword)
      ensures sent.Some? <==> RegistrationValid(name, email, password, confirmPassword)
      ensures sent.Some? ==> sent.value == Registration(Trim(name), email, password) && errors == map[]
      ensures sent.Some? && response.Success? ==> showVerificationPopup && registeredEmail == email
      ensures sent.None? || response.Failure? ==>
                showVerificationPopup == old(showVerificationPopup) && registeredEmail == old(registeredEmail)
      ensures "name" in errors <==> JsLength(Trim(name)) < 2
      ensures "email" in errors <==> !MatchesEmailPattern(email)
      ensures "password" in errors <==> JsLength(password) < 6
      ensures "confirmPassword" in errors <==> confirmPassword == [] || confirmPassword != password
    {
      errors := ValidateRegistration(name, email, password, confirmPassword);
      if errors != map[] {
        return None;
      }
      sent := Some(Registration(Trim(name), email, password));
      if response.Success? {
        registeredEmail := email;
        showVerificationPopup := true;
      }
    }
  }
}
