/** The sign-up form: the form schema's length rules and the live password
    checklist shown under the password field. */
module Signup {
  import opened Maybe
  import opened Text

  /** The characters of the special-character class of the checklist. */
  const SpecialChars := "!@#$%^&*(),.?\":{}|<>"

  /** The character classes the checklist's regular expressions test. */
  datatype CharClass = Digit | Special | Upper

  predicate InClass(cls: CharClass, c: char) {
    match cls
    case Digit => IsDigit(c)
    case Special => c in SpecialChars
    case Upper => IsUpper(c)
  }

  /** `/[...]/.test(s)` for a one-character class: a scan for a member. */
  function HasMatch(s: string, cls: CharClass): (r: bool)
    ensures r <==> exists i :: 0 <= i < |s| && InClass(cls, s[i])
  {
    if s == [] then false
    else if InClass(cls, s[0]) then true
    else
      var r := HasMatch(s[1..], cls);
      assert forall i :: 1 <= i < |s| ==> s[i] == s[1..][i - 1];
      r
  }

  /** `passwordChecks` (lines 35-40). */
  datatype PasswordChecks = PasswordChecks(
    minLength: bool, hasNumber: bool, hasSpecialChar: bool, hasUpperCase: bool)

  function Checks(password: string): (c: PasswordChecks)
    ensures c.minLength <==> |password| >= 8
    ensures c.hasNumber <==> exists i :: 0 <= i < |password| && '0' <= password[i] <= '9'
    ensures c.hasSpecialChar <==> exists i :: 0 <= i < |password| && password[i] in SpecialChars
    ensures c.hasUpperCase <==> exists i :: 0 <= i < |password| && 'A' <= password[i] <= 'Z'
  {
    PasswordChecks(|password| >= 8, HasMatch(password, Digit), HasMatch(password, Special),
                   HasMatch(password, Upper))
  }

  /** The checklist is rendered only for a non-empty password. */
  predicate ChecklistShown(password: string) {
    password != ""
  }

  /** For the empty password every check fails and no checklist is shown. */
  lemma EmptyPasswordChecks()
    ensures Checks("") == PasswordChecks(false, false, false, false)
    ensures !ChecklistShown("")
  {
  }

  /** The schema's messages for the two length rules; `None` means the
      field passes. The e-mail rule is not part of this model. */
  datatype SchemaErrors = SchemaErrors(firstName: Option<string>, password: Option<string>)

  function ValidateSignup(firstName: string, password: string): (e: SchemaErrors)
    ensures e.firstName.None? <==> |firstName| >= 3
    ensures e.password.None? <==> |password| >= 8
    ensures e.firstName.Some? ==> e.firstName.value == "Min 3 characters"
    ensures e.password.Some? ==> e.password.value == "Min 8 characters"
  {
    SchemaErrors(if |firstName| >= 3 then None else Some("Min 3 characters"),
                 if |password| >= 8 then None else Some("Min 8 characters"))
  }

  /** The schema accepts a password exactly when the checklist's length item
      is ticked. */
  lemma SchemaAgreesWithChecklist(firstName: string, password: string)
    ensures ValidateSignup(firstName, password).password.None? <==> Checks(password).minLength
  {
  }
}
