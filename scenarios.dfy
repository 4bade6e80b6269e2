/** Clients of the form controller: event sequences a user can produce, and
    what the controller's contracts alone let a caller conclude about them. */
module RegistrationScenarios {
  import opened Validators
  import opened Registration

  /** The errors record that names every field. */
  const AllMissing: RegistrationErrors := RegistrationErrors(
    Some(UsernameRequired), Some(EmailRequired), Some(FunFactLength),
    Some(LanguageNotSelected), Some(TermsNotAgreed))

  /** Submitting an untouched form reports all five errors and submits nothing. */
  method SubmitFreshForm() returns (submitted: Option<FormFields>, shown: RegistrationErrors)
    ensures submitted == None
    ensures shown == AllMissing
  {
    var form := new RegistrationForm();
    submitted := form.HandleSubmit();
    shown := form.errors;
  }

  /** Filling every field correctly and submitting hands over exactly the
      values entered and leaves no error. */
  method SubmitCompletedForm() returns (submitted: Option<FormFields>, shown: RegistrationErrors)
    ensures submitted == Some(FormFields("alice", "a@b.com", "I like cats a lot", "Python", true))
    ensures shown == NoErrors
  {
    var form := new RegistrationForm();
    var thrown := form.HandleInputChange(ChangeTarget(Username, "text", "alice", false));
    thrown := form.HandleInputChange(ChangeTarget(Email, "text", "a@b.com", false));
    thrown := form.HandleInputChange(ChangeTarget(FunFact, "textarea", "I like cats a lot", false));
    thrown := form.HandleInputChange(ChangeTarget(FavoriteLanguage, "select-one", "Python", false));
    thrown := form.HandleInputChange(ChangeTarget(AgreedToTerms, "checkbox", "on", true));
    GetDeterminesFields(form.formState, FormFields("alice", "a@b.com", "I like cats a lot", "Python", true));
    submitted := form.HandleSubmit();
    shown := form.errors;
  }

  /** A two-character username is reported as too short on submit. */
  method SubmitShortUsername() returns (submitted: Option<FormFields>, shown: RegistrationErrors)
    ensures submitted == None
    ensures shown.usernameError == Some(UsernameTooShort)
  {
    var form := new RegistrationForm();
    var thrown := form.HandleInputChange(ChangeTarget(Username, "text", "ab", false));
    assert form.formState.username == Get(form.formState, Username).text == "ab";
    submitted := form.HandleSubmit();
    shown := form.errors;
  }

  /** An element of a type the handler does not know (a radio button) throws
      and leaves the values as they were. */
  method ChangeUnsupportedElement() returns (thrown: Option<string>, values: FormFields)
    ensures thrown == Some(InvalidElement)
    ensures values == InitialState
  {
    var form := new RegistrationForm();
    thrown := form.HandleInputChange(ChangeTarget(FavoriteLanguage, "radio", "Python", false));
    values := form.formState;
  }

  /** Submitting twice in a row gives the same errors and the same decision,
      and never changes the values. */
  method SubmitTwice(form: RegistrationForm) returns (first: Option<FormFields>, second: Option<FormFields>)
    modifies form
    ensures first == second
    ensures form.formState == old(form.formState)
    ensures form.errors == ErrorsFor(old(form.formState))
  {
    first := form.HandleSubmit();
    var afterFirst := form.errors;
    second := form.HandleSubmit();
    assert form.errors == afterFirst;
  }
}
