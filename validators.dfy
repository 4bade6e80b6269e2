/** The five field validators of the registration form.

    Each validator maps the current value of one field to an error message;
    the empty string means the value is valid. Every validator is total and
    returns either "" or one of its own fixed, non-empty messages, so "the
    field has an error" is the same as "the result is non-empty".

    Lengths are lengths of `seq<char>`; JavaScript's `.length` counts UTF-16
    code units, which is the same thing for characters of the basic plane.
 */
module Validators {

  const UsernameRequired: string := "Username is Required"
  const UsernameTooShort: string := "Username must be at least 3 characters."
  const EmailRequired: string := "Email is required"
  const EmailInvalid: string := "Please enter a valid email address."
  const TermsNotAgreed: string := "You must agreed to the terms and conditions."
  const FunFactLength: string := "Please enter a fun fact between 5 and 100 characters"
  const LanguageNotSelected: string := "Please select a language."

  /** The value of the language selector that stands for "nothing selected". */
  const NoLanguage: string := "None"

  /** Username: required, and at least three characters long. */
  function ValidateUserName(value: string): (error: string)
    ensures error == UsernameRequired <==> value == []
    ensures error == UsernameTooShort <==> 0 < |value| < 3
    ensures error == "" <==> |value| >= 3
  {
    if value == [] then UsernameRequired
    else if |value| < 3 then UsernameTooShort
    else ""
  }

  /** Email: required, and must contain an '@' somewhere. */
  function ValidateEmail(value: string): (error: string)
    ensures error == EmailRequired <==> value == []
    ensures error == EmailInvalid <==> value != [] && '@' !in value
    ensures error == "" <==> '@' in value
  {
    if value == [] then EmailRequired
    else if '@' !in value then EmailInvalid
    else ""
  }

  /** Terms: the box must be checked. */
  function ValidateAgreedToTerms(checked: bool): (error: string)
    ensures error == "" <==> checked
    ensures error == TermsNotAgreed <==> !checked
  {
    if !checked then TermsNotAgreed else ""
  }

  /** Fun fact: from 5 to 100 characters, both bounds included. */
  function ValidateFunFact(value: string): (error: string)
    ensures error == "" <==> 5 <= |value| <= 100
    ensures error == FunFactLength <==> |value| < 5 || |value| > 100
  {
    if |value| < 5 || |value| > 100 then FunFactLength else ""
  }

  /** Favourite language: anything but the sentinel "None" (the empty string included). */
  function ValidateFavoriteLanguage(value: string): (error: string)
    ensures error == "" <==> value != NoLanguage
    ensures error == LanguageNotSelected <==> value == NoLanguage
  {
    if value == NoLanguage then LanguageNotSelected else ""
  }
}
