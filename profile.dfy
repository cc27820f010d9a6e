/** The profile-update form: its validation schema, the set of errors a
    submission reports, and the body sent to PUT /profile when the form is
    valid. Whether a string is a syntactically valid e-mail address is decided
    by the schema library; here it is the parameter `isEmail`. */
module Profile {

  datatype Field = Name | Email | OldPassword | Password | ConfirmationPassword

  const AllFields: set<Field> := {Name, Email, OldPassword, Password, ConfirmationPassword}

  /** The values the form submits. */
  datatype ProfileForm = ProfileForm(name: string, email: string, oldPassword: string,
                                     password: string, confirmationPassword: string)

  /** The schema tests that can fail: `required`, `email`, `min(6)` and `oneOf`. */
  datatype Rule = Required | EmailSyntax | MinLength | OneOf

  datatype FieldError = FieldError(field: Field, rule: Rule)

  /** What a submission leads to: the field errors shown on the form, or the
      body of the update request. */
  datatype Submission = ShowErrors(errors: set<FieldError>) | SendUpdate(payload: map<Field, string>)

  const MinPasswordLength := 6

  function Value(form: ProfileForm, f: Field): string
  {
    match f
    case Name => form.name
    case Email => form.email
    case OldPassword => form.oldPassword
    case Password => form.password
    case ConfirmationPassword => form.confirmationPassword
  }

  /** The `when('old_password', ...)` condition: a non-empty current password
      asks for a password change. */
  predicate ChangesPassword(form: ProfileForm) { |form.oldPassword| > 0 }

  /** The tests of one field of the schema that the submitted values fail.
      `email()` does not test the empty string (only `required` does), and
      `min` applies to the two new-password fields only when a password
      change is asked for. A field's `oneOf` is checked before its other
      tests, and when it fails those tests are not run. */
  function FailedRules(form: ProfileForm, f: Field, isEmail: string -> bool): set<Rule>
  {
    match f
    case Name =>
      if form.name == "" then {Required} else {}
    case Email =>
      if form.email == "" then {Required}
      else if !isEmail(form.email) then {EmailSyntax}
      else {}
    case OldPassword => {}
    case Password =>
      if ChangesPassword(form) && |form.password| < MinPasswordLength then {MinLength} else {}
    case ConfirmationPassword =>
      if form.confirmationPassword != form.password then {OneOf}
      else if ChangesPassword(form) && |form.confirmationPassword| < MinPasswordLength then {MinLength}
      else {}
  }

  /** `schema.validate(data, { abortEarly: false })`: every failing field is
      reported, not only the first one met. Within the confirmation field a
      failed `oneOf` hides its `min(6)` test. */
  function ValidationErrors(form: ProfileForm, isEmail: string -> bool): (errs: set<FieldError>)
    ensures FieldError(Name, Required) in errs <==> form.name == ""
    ensures FieldError(Email, Required) in errs <==> form.email == ""
    ensures FieldError(Email, EmailSyntax) in errs <==> form.email != "" && !isEmail(form.email)
    ensures FieldError(Password, MinLength) in errs <==>
              ChangesPassword(form) && |form.password| < MinPasswordLength
    ensures FieldError(ConfirmationPassword, MinLength) in errs <==>
              ChangesPassword(form) && |form.confirmationPassword| < MinPasswordLength
              && form.confirmationPassword == form.password
    ensures FieldError(ConfirmationPassword, OneOf) in errs <==> form.confirmationPassword != form.password
    ensures errs <= {FieldError(Name, Required), FieldError(Email, Required), FieldError(Email, EmailSyntax),
                     FieldError(Password, MinLength), FieldError(ConfirmationPassword, MinLength),
                     FieldError(ConfirmationPassword, OneOf)}
  {
    set f, r | f in AllFields && r in FailedRules(form, f, isEmail) :: FieldError(f, r)
  }

  predicate IsValid(form: ProfileForm, isEmail: string -> bool)
  {
    ValidationErrors(form, isEmail) == {}
  }

  /** The body of the update: the whole form when a password change is asked
      for, otherwise only the e-mail and the name. */
  function UpdatePayload(form: ProfileForm): (payload: map<Field, string>)
    ensures payload.Keys == if ChangesPassword(form) then AllFields else {Email, Name}
    ensures forall f :: f in payload ==> payload[f] == Value(form, f)
  {
    if ChangesPassword(form) then map f | f in AllFields :: Value(form, f)
    else map[Email := form.email, Name := form.name]
  }

  /** `handleSignUp` up to the request: an invalid form only shows its errors
      and sends nothing; a valid one sends the payload. */
  function Submit(form: ProfileForm, isEmail: string -> bool): (s: Submission)
    ensures s.SendUpdate? <==> IsValid(form, isEmail)
    ensures s.ShowErrors? ==> s.errors == ValidationErrors(form, isEmail) && s.errors != {}
    ensures s.SendUpdate? ==> s.payload == UpdatePayload(form)
  {
    var errs := ValidationErrors(form, isEmail);
    if errs != {} then ShowErrors(errs) else SendUpdate(UpdatePayload(form))
  }

  // ---------------------------------------------------------------------------
  // The validation rule, stated field by field

  /** The whole rule in one: valid exactly when the name is given, the e-mail is
      given and well formed, both new passwords are long enough when a change
      is asked for, and the confirmation equals the password. */
  lemma ValidIff(form: ProfileForm, isEmail: string -> bool)
    ensures IsValid(form, isEmail) <==>
      && form.name != ""
      && form.email != "" && isEmail(form.email)
      && (ChangesPassword(form) ==>
            |form.password| >= MinPasswordLength && |form.confirmationPassword| >= MinPasswordLength)
      && form.confirmationPassword == form.password
  {
  }

  lemma EmptyNameFails(form: ProfileForm, isEmail: string -> bool)
    requires form.name == ""
    ensures !IsValid(form, isEmail)
  {
  }

  lemma BadEmailFails(form: ProfileForm, isEmail: string -> bool)
    requires form.email == "" || !isEmail(form.email)
    ensures !IsValid(form, isEmail)
  {
  }

  lemma ShortNewPasswordFails(form: ProfileForm, isEmail: string -> bool)
    requires ChangesPassword(form)
    requires |form.password| < MinPasswordLength || |form.confirmationPassword| < MinPasswordLength
    ensures !IsValid(form, isEmail)
  {
  }

  /** Without a current password the lengths of the new passwords play no part:
      any two equal new passwords give the same verdict. */
  lemma NoPasswordChangeIgnoresLength(form: ProfileForm, isEmail: string -> bool, pw: string)
    requires !ChangesPassword(form)
    ensures var other := form.(password := pw, confirmationPassword := pw);
      IsValid(other, isEmail) <==> form.name != "" && form.email != "" && isEmail(form.email)
  {
  }

  /** A confirmation that differs from the password fails, whether or not a
      password change is asked for. */
  lemma MismatchFails(form: ProfileForm, isEmail: string -> bool)
    requires form.confirmationPassword != form.password
    ensures !IsValid(form, isEmail)
  {
  }

  /** A mistyped confirmation that is also too short reports only the
      mismatch on the confirmation field; the other fields are still checked. */
  lemma MismatchHidesMinLength(isEmail: string -> bool)
    requires isEmail("a@b.co")
    ensures ValidationErrors(ProfileForm("Ana", "a@b.co", "abc", "123456", "123"), isEmail)
              == {FieldError(ConfirmationPassword, OneOf)}
    ensures ValidationErrors(ProfileForm("", "a@b.co", "abc", "12345", "123"), isEmail)
              == {FieldError(Name, Required), FieldError(Password, MinLength), FieldError(ConfirmationPassword, OneOf)}
  {
  }

  /** Sample forms: no current password and no new one is valid; a current
      password with a five-character new one is not; six matching characters
      are; a mismatch never is. */
  lemma ValidationExamples(isEmail: string -> bool)
    requires isEmail("a@b.co")
    ensures IsValid(ProfileForm("Ana", "a@b.co", "", "", ""), isEmail)
    ensures !IsValid(ProfileForm("Ana", "a@b.co", "abc", "12345", "12345"), isEmail)
    ensures IsValid(ProfileForm("Ana", "a@b.co", "abc", "123456", "123456"), isEmail)
    ensures !IsValid(ProfileForm("Ana", "a@b.co", "", "123456", "654321"), isEmail)
  {
  }

  /** Without a password change the request carries exactly the name and the
      e-mail, so no password field reaches the server. */
  lemma NoPasswordChangeSendsNameAndEmail(form: ProfileForm, isEmail: string -> bool)
    requires IsValid(form, isEmail) && !ChangesPassword(form)
    ensures Submit(form, isEmail) == SendUpdate(map[Name := form.name, Email := form.email])
  {
  }
}
