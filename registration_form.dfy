/** The state controller of the registration form: the record of field
    values, the record of per-field error messages, and the three handlers
    that change them (input change, validation, submit).

    Rendering is not modelled; the component's two pieces of state become the
    two fields of the class `RegistrationForm`, and each setter call becomes
    an assignment to one of them.
 */
module Registration {
  import opened Validators

  datatype Option<T> = None | Some(value: T)

  /** The values of the five fields of the form. */
  datatype FormFields = FormFields(
    username: string,
    email: string,
    funFact: string,
    favoriteLanguage: string,
    agreedToTerms: bool)

  /** One optional error message per field; `None` is an absent key. */
  datatype RegistrationErrors = RegistrationErrors(
    usernameError: Option<string>,
    emailError: Option<string>,
    funFactError: Option<string>,
    favoriteLanguageError: Option<string>,
    agreedToTermsError: Option<string>)

  /** The `name` attribute of a form element: one of the five fields. */
  datatype FieldName = Username | Email | FunFact | FavoriteLanguage | AgreedToTerms

  /** The value held by one field: four fields hold text, one holds a flag. */
  datatype FieldValue = Text(text: string) | Flag(flag: bool)

  /** What a change handler reads off the element that fired the event. */
  datatype ChangeTarget = ChangeTarget(
    name: FieldName,
    inputType: string,
    value: string,
    checked: bool)

  /** The state the form starts in. */
  const InitialState: FormFields := FormFields("", "", "", NoLanguage, false)

  /** The empty errors record `{}`. */
  const NoErrors: RegistrationErrors := RegistrationErrors(None, None, None, None, None)

  /** The message of the TypeError thrown for an unsupported element type. */
  const InvalidElement: string := "Invalid HTML Form Element"

  function Get(fields: FormFields, name: FieldName): FieldValue
  {
    match name
    case Username => Text(fields.username)
    case Email => Text(fields.email)
    case FunFact => Text(fields.funFact)
    case FavoriteLanguage => Text(fields.favoriteLanguage)
    case AgreedToTerms => Flag(fields.agreedToTerms)
  }

  function ErrorAt(errors: RegistrationErrors, name: FieldName): Option<string>
  {
    match name
    case Username => errors.usernameError
    case Email => errors.emailError
    case FunFact => errors.funFactError
    case FavoriteLanguage => errors.favoriteLanguageError
    case AgreedToTerms => errors.agreedToTermsError
  }

  /** A value of the right kind for the field: a flag for the checkbox, text otherwise. */
  predicate Fits(name: FieldName, v: FieldValue)
  {
    name == AgreedToTerms <==> v.Flag?
  }

  /** `{ ...prev, [name]: v }`: the record with one field overwritten. */
  function Set(fields: FormFields, name: FieldName, v: FieldValue): (r: FormFields)
    requires Fits(name, v)
    ensures Get(r, name) == v
    ensures forall other :: other != name ==> Get(r, other) == Get(fields, other)
  {
    match name
    case Username => fields.(username := v.text)
    case Email => fields.(email := v.text)
    case FunFact => fields.(funFact := v.text)
    case FavoriteLanguage => fields.(favoriteLanguage := v.text)
    case AgreedToTerms => fields.(agreedToTerms := v.flag)
  }

  /** The element types whose new value is read from `value`. */
  predicate UsesValue(inputType: string)
  {
    inputType == "text" || inputType == "email" || inputType == "textarea" || inputType == "select-one"
  }

  /** The element type whose new value is read from `checked`. */
  predicate UsesChecked(inputType: string)
  {
    inputType == "checkbox"
  }

  /** The change handler accepts the element (it does not throw). */
  predicate Accepted(t: ChangeTarget)
  {
    UsesValue(t.inputType) || UsesChecked(t.inputType)
  }

  /** The attribute the handler reads for an accepted element. */
  function WrittenValue(t: ChangeTarget): FieldValue
  {
    if UsesChecked(t.inputType) then Flag(t.checked) else Text(t.value)
  }

  /** The view wires text-like elements to text fields and the checkbox to the
      flag field, so the computed-key write keeps the record well typed. */
  predicate WellWired(t: ChangeTarget)
  {
    (UsesValue(t.inputType) ==> t.name != AgreedToTerms) &&
    (UsesChecked(t.inputType) ==> t.name == AgreedToTerms)
  }

  predicate AllWellWired(ts: seq<ChangeTarget>)
  {
    forall i :: 0 <= i < |ts| ==> WellWired(ts[i])
  }

  /** The outcome of one change event: the new record, or the thrown TypeError. */
  datatype ChangeResult = Updated(fields: FormFields) | TypeError(message: string)

  /** What one call of the change handler does to the field record. */
  function ApplyChange(fields: FormFields, t: ChangeTarget): (r: ChangeResult)
    requires WellWired(t)
    ensures r.TypeError? <==> !UsesValue(t.inputType) && !UsesChecked(t.inputType)
    ensures r.TypeError? ==> r.message == InvalidElement
    ensures UsesValue(t.inputType) ==> r.Updated? && Get(r.fields, t.name) == Text(t.value)
    ensures UsesChecked(t.inputType) ==> r.Updated? && Get(r.fields, t.name) == Flag(t.checked)
    ensures r.Updated? ==> forall other :: other != t.name ==> Get(r.fields, other) == Get(fields, other)
  {
    if UsesValue(t.inputType) then Updated(Set(fields, t.name, Text(t.value)))
    else if UsesChecked(t.inputType) then Updated(Set(fields, t.name, Flag(t.checked)))
    else TypeError(InvalidElement)
  }

  /** The field record after a series of change events, in order; an event
      whose handler throws leaves the record as it was. */
  function ApplyChanges(fields: FormFields, ts: seq<ChangeTarget>): FormFields
    requires AllWellWired(ts)
  {
    if ts == [] then fields
    else
      var before := ApplyChanges(fields, ts[..|ts| - 1]);
      match ApplyChange(before, ts[|ts| - 1])
      case Updated(after) => after
      case TypeError(_) => before
  }

  /** A field's value after a series of events is what the last accepted
      event naming it wrote. */
  lemma {:induction false} LastAcceptedWriteWins(fields: FormFields, ts: seq<ChangeTarget>, name: FieldName, i: nat)
    requires AllWellWired(ts)
    requires i < |ts| && ts[i].name == name && Accepted(ts[i])
    requires forall j :: i < j < |ts| && ts[j].name == name ==> !Accepted(ts[j])
    ensures Get(ApplyChanges(fields, ts), name) == WrittenValue(ts[i])
  {
    var init := ts[..|ts| - 1];
    assert AllWellWired(init) by {
      forall j | 0 <= j < |init| ensures WellWired(init[j]) { assert init[j] == ts[j]; }
    }
    var before := ApplyChanges(fields, init);
    var last := ts[|ts| - 1];
    if i == |ts| - 1 {
      match ApplyChange(before, last)
      case Updated(after) =>
      case TypeError(_) =>
    } else {
      assert forall j :: i < j < |init| && init[j].name == name ==> !Accepted(init[j]) by {
        forall j | i < j < |init| && init[j].name == name ensures !Accepted(init[j]) {
          assert init[j] == ts[j];
        }
      }
      assert init[i] == ts[i];
      LastAcceptedWriteWins(fields, init, name, i);
      assert last.name != name || !Accepted(last);
    }
  }

  /** A field that no accepted event names keeps its value. */
  lemma {:induction false} UntouchedFieldKeepsValue(fields: FormFields, ts: seq<ChangeTarget>, name: FieldName)
    requires AllWellWired(ts)
    requires forall j :: 0 <= j < |ts| && ts[j].name == name ==> !Accepted(ts[j])
    ensures Get(ApplyChanges(fields, ts), name) == Get(fields, name)
  {
    if ts != [] {
      var init := ts[..|ts| - 1];
      assert AllWellWired(init) by {
        forall j | 0 <= j < |init| ensures WellWired(init[j]) { assert init[j] == ts[j]; }
      }
      assert forall j :: 0 <= j < |init| && init[j].name == name ==> !Accepted(init[j]) by {
        forall j | 0 <= j < |init| && init[j].name == name ensures !Accepted(init[j]) {
          assert init[j] == ts[j];
        }
      }
      UntouchedFieldKeepsValue(fields, init, name);
    }
  }

  /** Two accepted changes to different fields can be applied in either order. */
  lemma ChangesToDifferentFieldsCommute(fields: FormFields, t1: ChangeTarget, t2: ChangeTarget)
    requires WellWired(t1) && WellWired(t2) && Accepted(t1) && Accepted(t2)
    requires t1.name != t2.name
    ensures ApplyChanges(fields, [t1, t2]) == ApplyChanges(fields, [t2, t1])
  {
  }

  /** Two records that agree on every field are equal. */
  lemma GetDeterminesFields(a: FormFields, b: FormFields)
    requires forall n :: Get(a, n) == Get(b, n)
    ensures a == b
  {
    assert Get(a, Username) == Get(b, Username);
    assert Get(a, Email) == Get(b, Email);
    assert Get(a, FunFact) == Get(b, FunFact);
    assert Get(a, FavoriteLanguage) == Get(b, FavoriteLanguage);
    assert Get(a, AgreedToTerms) == Get(b, AgreedToTerms);
  }

  /** Turns a validator's answer into an errors-record entry: "" is no entry. */
  function Entry(message: string): (e: Option<string>)
  {
    if message == "" then None else Some(message)
  }

  /** The errors record the validators of the shared validators module give
      for these values. */
  function ErrorsFor(fields: FormFields): (r: RegistrationErrors)
    ensures r == NoErrors <==>
      |fields.username| >= 3 && '@' in fields.email &&
      5 <= |fields.funFact| <= 100 && fields.favoriteLanguage != NoLanguage &&
      fields.agreedToTerms
  {
    RegistrationErrors(
      Entry(ValidateUserName(fields.username)),
      Entry(ValidateEmail(fields.email)),
      Entry(ValidateFunFact(fields.funFact)),
      Entry(ValidateFavoriteLanguage(fields.favoriteLanguage)),
      Entry(ValidateAgreedToTerms(fields.agreedToTerms)))
  }

  /** The errors entry of a field depends only on that field's value. */
  lemma ErrorDependsOnlyOnItsField(a: FormFields, b: FormFields, name: FieldName)
    requires Get(a, name) == Get(b, name)
    ensures ErrorAt(ErrorsFor(a), name) == ErrorAt(ErrorsFor(b), name)
  {
  }

  /** A change event can only alter the error entry of the field it names. */
  lemma ChangeLeavesOtherErrors(fields: FormFields, t: ChangeTarget, other: FieldName)
    requires WellWired(t) && other != t.name
    ensures ApplyChange(fields, t).Updated? ==>
      ErrorAt(ErrorsFor(ApplyChange(fields, t).fields), other) == ErrorAt(ErrorsFor(fields), other)
  {
  }

  /** The form component: its current field values and its current errors. */
  class RegistrationForm {
    var formState: FormFields
    var errors: RegistrationErrors

    constructor ()
      ensures formState == InitialState && errors == NoErrors
    {
      formState := InitialState;
      errors := NoErrors;
    }

    /** Checks every field in turn, recording a message for each failing one. */
    method ValidateFields() returns (isValid: bool, errs: RegistrationErrors)
      ensures errs == ErrorsFor(formState)
      ensures isValid <==> errs == NoErrors
      ensures forall n :: ErrorAt(errs, n) != Some("")
    {
      isValid := true;
      errs := NoErrors;
      if formState.username == "" {
        errs := errs.(usernameError := Some("Username is Required"));
        isValid := false;
      } else if |formState.username| < 3 {
        errs := errs.(usernameError := Some("Username must be at least 3 characters."));
        isValid := false;
      }
      if formState.email == "" {
        errs := errs.(emailError := Some("Email is required"));
        isValid := false;
      } else if '@' !in formState.email {
        errs := errs.(emailError := Some("Please enter a valid email address."));
        isValid := false;
      }
      if !formState.agreedToTerms {
        errs := errs.(agreedToTermsError := Some("You must agreed to the terms and conditions."));
        isValid := false;
      }
      if |formState.funFact| < 5 || |formState.funFact| > 100 {
        errs := errs.(funFactError := Some("Please enter a fun fact between 5 and 100 characters"));
        isValid := false;
      }
      if formState.favoriteLanguage == "None" {
        errs := errs.(favoriteLanguageError := Some("Please select a language."));
        isValid := false;
      }
    }

    /** The change handler: writes the element's `value` or `checked` into the
        field it names, or throws (returns the TypeError's message) for any
        other element type, leaving the record unchanged. */
    method HandleInputChange(t: ChangeTarget) returns (thrown: Option<string>)
      requires WellWired(t)
      modifies this`formState
      ensures thrown == None <==> Accepted(t)
      ensures Accepted(t) ==> Get(formState, t.name) == WrittenValue(t)
      ensures forall other :: other != t.name ==> Get(formState, other) == Get(old(formState), other)
      ensures !Accepted(t) ==> formState == old(formState) && thrown == Some(InvalidElement)
      ensures ApplyChange(old(formState), t) ==
        if thrown == None then Updated(formState) else TypeError(thrown.value)
    {
      if UsesValue(t.inputType) {
        formState := Set(formState, t.name, Text(t.value));
        thrown := None;
      } else if UsesChecked(t.inputType) {
        formState := Set(formState, t.name, Flag(t.checked));
        thrown := None;
      } else {
        thrown := Some(InvalidElement);
      }
    }

    /** The submit handler: resets the errors, revalidates, and either stores
        the fresh errors or submits (returns) a snapshot of the values. */
    method HandleSubmit() returns (submitted: Option<FormFields>)
      modifies this`errors
      ensures formState == old(formState)
      ensures errors == ErrorsFor(formState)
      ensures submitted == None <==> errors != NoErrors
      ensures submitted != None ==> submitted.value == formState
    {
      errors := NoErrors;
      var valid, errs := ValidateFields();
      if !valid {
        errors := errs;
        submitted := None;
        return;
      }
      submitted := Some(formState);
    }
  }
}
