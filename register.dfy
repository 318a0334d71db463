/** The sign-up page (src/pages/Register.tsx): its own email check, the
    inline email error, the ordered guards of `handleRegister` and the
    submit button's disabled condition. */
module Register {
  import opened Wrappers
  import Validation

  /** `{ valid, message }`. */
  datatype EmailCheck = EmailCheck(valid: bool, message: string)

  const InvalidEmailMessage := "Email inválido"
  const ShortPasswordMessage := "A senha deve ter pelo menos 6 caracteres"
  const MismatchMessage := "As senhas não coincidem"
  const SignUpSuccessMessage := "Conta criada com sucesso! Você já pode fazer login."
  const SignUpFallbackMessage := "Erro ao criar conta"

  /** The page's own `validateEmail`: the same expression as the shared
      validator, so it accepts exactly the addresses with no whitespace,
      one `@`, a non-empty local part and a dotted domain. */
  function ValidateEmail(email: string): (r: EmailCheck)
    ensures r.valid <==> Validation.ValidateEmail(email)
    ensures r.valid <==> Validation.EmailStructure(email)
    ensures r.message == (if r.valid then "" else InvalidEmailMessage)
  {
    Validation.EmailRegexMeaning(email);
    if !Validation.ValidateEmail(email) then EmailCheck(false, InvalidEmailMessage)
    else EmailCheck(true, "")
  }

  /** The effect on `[email]`: no message while the field is empty. */
  function EmailError(email: string): string {
    if email != [] then
      var validation := ValidateEmail(email);
      if validation.valid then "" else validation.message
    else ""
  }

  /** The inline error is shown exactly for a non-empty address the check
      rejects; an empty field shows none, although submitting it fails. */
  lemma EmailErrorMeaning(email: string)
    ensures EmailError(email) != "" <==> email != [] && !Validation.ValidateEmail(email)
    ensures EmailError(email) != "" ==> EmailError(email) == InvalidEmailMessage
    ensures !ValidateEmail([]).valid
  {
    assert !Validation.EmailStructure([]);
  }

  /** The guards of `handleRegister`, in order: the first one that fails
      names the toast, and `None` means sign-up goes ahead. */
  function FirstFailure(email: string, password: string, confirmPassword: string): (r: Option<string>)
    ensures r == None <==> Validation.ValidateEmail(email) && |password| >= 6 && password == confirmPassword
    ensures !Validation.ValidateEmail(email) ==> r == Some(InvalidEmailMessage)
    ensures Validation.ValidateEmail(email) && |password| < 6 ==> r == Some(ShortPasswordMessage)
    ensures Validation.ValidateEmail(email) && |password| >= 6 && password != confirmPassword ==> r == Some(MismatchMessage)
  {
    var emailValidation := ValidateEmail(email);
    if !emailValidation.valid then Some(emailValidation.message)
    else if |password| < 6 then Some(ShortPasswordMessage)
    else if password != confirmPassword then Some(MismatchMessage)
    else None
  }

  /** What `signUp` does: resolve, or reject with an error whose message
      may be empty. */
  datatype SignUpOutcome = Resolved | Rejected(message: string)

  datatype Toast = ErrorToast(text: string) | SuccessToast(text: string)

  /** `error.message || 'Erro ao criar conta'`. */
  function RejectionText(message: string): (r: string)
    ensures r != ""
    ensures message != "" ==> r == message
  {
    if message != "" then message else SignUpFallbackMessage
  }

  /** `disabled={isLoading || !!emailError || (confirmPassword !== '' && password !== confirmPassword)}`. */
  predicate SubmitDisabled(isLoading: bool, emailError: string, password: string, confirmPassword: string) {
    isLoading || emailError != "" || (confirmPassword != "" && password != confirmPassword)
  }

  /** An enabled button says the typed address is valid (when one is
      typed) and the confirmation matches (when one is typed); it does not
      look at the password's length, which only the guard catches. */
  lemma EnabledButtonMeaning(email: string, password: string, confirmPassword: string)
    ensures !SubmitDisabled(false, EmailError(email), password, confirmPassword) && email != [] ==> Validation.ValidateEmail(email)
    ensures !SubmitDisabled(false, EmailError(email), password, confirmPassword) && confirmPassword != "" ==> password == confirmPassword
    ensures !SubmitDisabled(false, EmailError(email), password, "") <==> EmailError(email) == ""
  {
    EmailErrorMeaning(email);
  }

  /** The page's state: the loading flag, the toasts shown, the sign-ups
      requested and where it navigated. */
  class RegisterPage {
    var isLoading: bool
    var toasts: seq<Toast>
    var signUps: seq<(string, string)>
    var route: Option<string>

    constructor ()
      ensures !isLoading && toasts == [] && signUps == [] && route == None
    {
      isLoading := false;
      toasts := [];
      signUps := [];
      route := None;
    }

    /** `handleRegister`: a failed guard shows its toast and stops before
        anything else; otherwise `signUp` is asked once, the outcome is
        toasted, success navigates to `/login`, and loading ends either way. */
    method HandleRegister(email: string, password: string, confirmPassword: string, outcome: SignUpOutcome)
      modifies this
      ensures FirstFailure(email, password, confirmPassword).Some? ==>
        && toasts == old(toasts) + [ErrorToast(FirstFailure(email, password, confirmPassword).value)]
        && signUps == old(signUps) && route == old(route) && isLoading == old(isLoading)
      ensures FirstFailure(email, password, confirmPassword).None? ==>
        && signUps == old(signUps) + [(email, password)]
        && !isLoading
        && (outcome.Resolved? ==> toasts == old(toasts) + [SuccessToast(SignUpSuccessMessage)] && route == Some("/login"))
        && (outcome.Rejected? ==> toasts == old(toasts) + [ErrorToast(RejectionText(outcome.message))] && route == old(route))
    {
      var emailValidation := ValidateEmail(email);
      if !emailValidation.valid {
        toasts := toasts + [ErrorToast(emailValidation.message)];
        return;
      }
      if |password| < 6 {
        toasts := toasts + [ErrorToast(ShortPasswordMessage)];
        return;
      }
      if password != confirmPassword {
        toasts := toasts + [ErrorToast(MismatchMessage)];
        return;
      }
      isLoading := true;
      signUps := signUps + [(email, password)];
      match outcome {
        case Resolved =>
          toasts := toasts + [SuccessToast(SignUpSuccessMessage)];
          route := Some("/login");
        case Rejected(message) =>
          toasts := toasts + [ErrorToast(RejectionText(message))];
      }
      isLoading := false;
    }
  }

  /** On a fresh page, `signUp` is reached exactly when all three checks pass. */
  method SignUpOnlyWhenValid(email: string, password: string, confirmPassword: string, outcome: SignUpOutcome) returns (called: bool)
    ensures called <==> Validation.ValidateEmail(email) && |password| >= 6 && password == confirmPassword
  {
    var page := new RegisterPage();
    page.HandleRegister(email, password, confirmPassword, outcome);
    called := page.signUps != [];
  }
}
