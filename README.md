# Registration form: validators and form state controller

This project models the logic of a browser registration form with five fields:
username, email, a free-text "fun fact", a favourite-language selector and a
terms checkbox.

- `validators.dfy` (module `Validators`) holds the five field validators. Each
  is a pure function from a field's value to an error message, and `""` means
  valid. Each contract states exactly when the validator returns `""` and when
  it returns each of its fixed messages.
- `registration_form.dfy` (module `Registration`) holds the component's state.
  The class `RegistrationForm` has two fields: `formState`, the five values,
  and `errors`, an optional message per field. Its three handlers are methods:
  - `ValidateFields` runs the inline checks one after another, as the component does.
  - `HandleInputChange` dispatches on the element's `type` string.
  - `HandleSubmit` resets the errors, revalidates, and then either stores the
    errors or submits.
  The pure partners sit beside the class:
  - `ErrorsFor` builds the errors record from the shared validators.
  - `Set` is the record copy with one computed key.
  - `ApplyChange` and `ApplyChanges` describe one change event and a series of them.
  The lemmas relate these partners to each other.
- `scenarios.dfy` (module `RegistrationScenarios`) holds client methods.
  These are the user-level sequences: a fresh form submitted, a completed form
  submitted, a short username, an unsupported element, and a double submit.
  Each is proved from the controller's contracts alone.

Modelling choices:
- Strings are `seq<char>`, and a length is the sequence length. JavaScript
  counts UTF-16 code units, which is the same for characters of the basic plane.
- A field name is one of five constructors. The component never checks
  `name` itself. It writes `[name]` into the record, so the model does not
  claim that unknown names are rejected.
- Writing through `[name]` is well typed only if the view pairs text-like
  elements with text fields and the checkbox with `agreedToTerms`.
  `HandleInputChange` and `ApplyChange` require this pairing (`WellWired`),
  because the typed record of the component assumes it.
- The `TypeError` thrown for an unknown element type becomes a returned
  message, `Some("Invalid HTML Form Element")`, and the state is left unchanged.
- The submission `alert` becomes the returned snapshot `Some(formState)`.
  When nothing is submitted, the result is `None`.
- An absent key of the errors object is `None`.

## Model

| member | source | states |
|---|---|---|
| `Validators.ValidateUserName` | src/validators.ts:2-10 | "Username is Required" exactly for the empty string; the too-short message exactly for lengths 1 and 2; `""` exactly for length 3 or more |
| `Validators.ValidateEmail` | src/validators.ts:13-21 | the required message exactly for `""`; the invalid-address message exactly for a non-empty value without `'@'`; `""` exactly when `'@'` occurs |
| `Validators.ValidateAgreedToTerms` | src/validators.ts:24-30 | `""` if and only if the box is checked, the agreement message otherwise |
| `Validators.ValidateFunFact` | src/validators.ts:33-39 | `""` if and only if the length is from 5 to 100 inclusive, the length message otherwise |
| `Validators.ValidateFavoriteLanguage` | src/validators.ts:42-48 | `""` if and only if the value is not the sentinel `"None"` (so `""` is valid), the selection message otherwise |
| `Registration.Set` | src/components/RegistrationForm.tsx:110-117 | the copied record holds the new value in the named field and every other field's old value |
| `Registration.ApplyChange` | src/components/RegistrationForm.tsx:98-124 | text, email, textarea and select-one write `value` into the named field; checkbox writes `checked`; any other type is a TypeError with the fixed message; an accepted change alters no other field |
| `Registration.LastAcceptedWriteWins` | src/components/RegistrationForm.tsx:98-124 | after any series of change events, a field holds what the last accepted event naming it wrote; rejected events do not count |
| `Registration.UntouchedFieldKeepsValue` | src/components/RegistrationForm.tsx:98-124 | a field that no accepted event names keeps its value through any series of change events |
| `Registration.ChangesToDifferentFieldsCommute` | src/components/RegistrationForm.tsx:105-118 | two accepted changes to different fields give the same record in either order |
| `Registration.ErrorsFor` | src/components/RegistrationForm.tsx:57-96 | the validators report no error at all if and only if username length >= 3, email contains `'@'`, fun fact length is in 5..100, a language is selected, and the terms are agreed |
| `Registration.ErrorDependsOnlyOnItsField` | src/components/RegistrationForm.tsx:57-96 | each field's error entry depends only on that field's value |
| `Registration.ChangeLeavesOtherErrors` | src/components/RegistrationForm.tsx:57-124 | an accepted change event cannot alter the error entry of any field other than the one it names |
| `Registration.RegistrationForm.constructor` | src/components/RegistrationForm.tsx:25-33 | the values start as `""`, `""`, `""`, `"None"`, `false` and the errors record starts empty |
| `Registration.RegistrationForm.ValidateFields` | src/components/RegistrationForm.tsx:57-96 | the inline checks build exactly the record the shared validators give, with the same messages; the validity flag is true if and only if no entry is set; no entry is ever `""` |
| `Registration.RegistrationForm.HandleInputChange` | src/components/RegistrationForm.tsx:98-124 | an accepted element sets the named field to `value` or `checked` and nothing else changes; any other type throws the fixed TypeError and leaves the values unchanged |
| `Registration.RegistrationForm.HandleSubmit` | src/components/RegistrationForm.tsx:35-55 | the errors become exactly the fresh validation result, with nothing kept from before; the form submits if and only if that result is empty; it submits the current values unchanged; the values are never modified |
| `RegistrationScenarios.SubmitFreshForm` | src/components/RegistrationForm.tsx:25-55 | submitting the initial form submits nothing and sets all five error messages |
| `RegistrationScenarios.SubmitCompletedForm` | src/components/RegistrationForm.tsx:35-55 | after valid values are entered through the change handler, submit hands over exactly those values and no error is shown |
| `RegistrationScenarios.SubmitShortUsername` | src/components/RegistrationForm.tsx:61-67 | a two-character username is reported with the "at least 3 characters" message and blocks submission |
| `RegistrationScenarios.ChangeUnsupportedElement` | src/components/RegistrationForm.tsx:120-122 | a change from an element of an unknown type (a radio button) throws the fixed TypeError and the values stay at their initial state |
| `RegistrationScenarios.SubmitTwice` | src/components/RegistrationForm.tsx:35-55 | two submits in a row make the same decision and leave the same errors, and neither changes the values |

## Left out

- Rendering (src/components/RegistrationForm.tsx:126-201): the JSX, the inline error paragraphs and the "Current …" echo panel are view code with no logic.
- The text of the `alert` (src/components/RegistrationForm.tsx:48-54) is browser output. Submission is modelled as returning the snapshot of values.
- `e.preventDefault()`, the React `useState` hooks, and the batching and timing of setter calls are left out. Each setter call is an assignment to a class field, in program order. Because of this, the "last error still shows up" remark at line 47 describes display timing and is not modelled.
- Touched flags and focus/blur validation are left out. This revision of `RegistrationForm.tsx` has no such state or handlers, so blur-time validation and "touch every field on submit" are not modelled.
- Unknown field names are not modelled. The component never rejects them: it writes `[name]` into the record unchecked. The model has only the five names.
- Registration.RegistrationForm.HandleInputChange: requires the view to pair text-like elements with text fields and the checkbox with `agreedToTerms`. The component does not check this, and a mismatched pair would store a value of the wrong type in the record. The typed record here cannot hold such a value.
- UTF-16 code units: `.length` is taken to be the number of characters of the `seq<char>`.
