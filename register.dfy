/** The sign-up form: four fields checked in a fixed order before the
  * account is registered, and the registration's error put into words. */
module Register {
  import opened Outcome
  import Text

  const MinPasswordLength: nat := 6
  const FieldsRequired: string := "Por favor, preencha todos os campos."
  const PasswordsDiffer: string := "A senha e a confirmação de senha devem ser iguais."
  const PasswordTooShort: string := "A senha deve ter pelo menos 6 caracteres."
  const EmailInUse: string := "Este e-mail já está sendo utilizado por outra conta."
  const RegisterFailed: string := "Ocorreu um erro ao tentar criar sua conta."
  /** The text the authentication service's duplicate-address error carries. */
  const DuplicateMarker: string := "email already in use"

  /** The first check the fields fail, in the order `handleSubmit` makes
    * them, or `None` when all pass. */
  function Validate(name: string, email: string, password: string, confirmPassword: string): (r: Option<string>)
    ensures r == Some(FieldsRequired) <==> name == "" || email == "" || password == "" || confirmPassword == ""
    ensures r == Some(PasswordsDiffer) <==>
              name != "" && email != "" && password != "" && confirmPassword != "" && password != confirmPassword
    ensures r == Some(PasswordTooShort) <==>
              name != "" && email != "" && password != "" && password == confirmPassword && |password| < MinPasswordLength
    ensures r.None? <==>
              name != "" && email != "" && password == confirmPassword && |password| >= MinPasswordLength
  {
    if name == "" || email == "" || password == "" || confirmPassword == "" then Some(FieldsRequired)
    else if password != confirmPassword then Some(PasswordsDiffer)
    else if |password| < MinPasswordLength then Some(PasswordTooShort)
    else None
  }

  /** The message shown for an error the registration threw. */
  function ErrorText(message: string): (r: string)
    ensures Text.Contains(message, DuplicateMarker) ==> r == EmailInUse
    ensures !Text.Contains(message, DuplicateMarker) && message != "" ==> r == message
    ensures !Text.Contains(message, DuplicateMarker) && message == "" ==> r == RegisterFailed
    ensures r != ""
  {
    if Text.Contains(message, DuplicateMarker) then EmailInUse else Text.Or(message, RegisterFailed)
  }

  /** A duplicate-address error reads the same however the service words
    * the rest of it. */
  lemma DuplicateWordedOnce(before: string, after: string)
    ensures ErrorText(before + DuplicateMarker + after) == EmailInUse
  {
    Text.ContainsInfix(before, DuplicateMarker, after);
  }

  /** The arguments `register` was called with. */
  datatype Registration = Registration(email: string, password: string, name: string)

  class RegisterForm {
    var name: string
    var email: string
    var password: string
    var confirmPassword: string
    var isSubmitting: bool
    var error: Option<string>
    var success: bool
    /** Every call made to `register`, oldest first. */
    var registrations: seq<Registration>

    constructor()
      ensures name == "" && email == "" && password == "" && confirmPassword == ""
      ensures !isSubmitting && error.None? && !success && registrations == []
    {
      name := "";
      email := "";
      password := "";
      confirmPassword := "";
      isSubmitting := false;
      error := None;
      success := false;
      registrations := [];
    }

    /** `handleSubmit`, where `outcome` is what `register` does when it is
      * called: `None` when it succeeds, else the message it throws. The
      * error is cleared first; a failed check shows its message and
      * registers nothing. */
    method HandleSubmit(outcome: Option<string>)
      modifies this
      ensures name == old(name) && email == old(email) && password == old(password)
      ensures confirmPassword == old(confirmPassword)
      ensures Validate(name, email, password, confirmPassword).Some? ==>
                error == Validate(name, email, password, confirmPassword)
                && registrations == old(registrations) && success == old(success)
                && isSubmitting == old(isSubmitting)
      ensures Validate(name, email, password, confirmPassword).None? ==>
                registrations == old(registrations) + [Registration(email, password, name)] && !isSubmitting
      ensures Validate(name, email, password, confirmPassword).None? && outcome.None? ==>
                error.None? && success
      ensures Validate(name, email, password, confirmPassword).None? && outcome.Some? ==>
                error == Some(ErrorText(outcome.value)) && success == old(success)
    {
      error := None;
      var invalid := Validate(name, email, password, confirmPassword);
      if invalid.Some? {
        error := invalid;
        return;
      }
      isSubmitting := true;
      registrations := registrations + [Registration(email, password, name)];
      if outcome.None? {
        success := true;
      } else {
        error := Some(ErrorText(outcome.value));
      }
      isSubmitting := false;
    }
  }
}
