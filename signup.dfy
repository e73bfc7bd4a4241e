/**
 * The sign-up form: step "SIGNUP" creates the account; when the provider asks for confirmation the form
 * switches to step "CONFIRM", where the emailed code is entered and can be sent again.
 */
module Signup {
  import opened Wrappers
  import opened AuthFlow

  datatype SignupValues = SignupValues(name: string, email: string, password: string)

  /** The issues of `signupSchema`; the email format check is the validator `isEmail`. */
  function SignupIssues(v: SignupValues, isEmail: string -> bool): seq<Issue> {
    MinLength(v.name, 3, "name", "Nome deve ter pelo menos 3 caracteres")
    + (if isEmail(v.email) then [] else [Issue("email", "E-mail inválido")])
    + MinLength(v.password, 8, "password", "A senha deve ter pelo menos 8 caracteres")
  }

  /** The data is accepted exactly for a name of at least three characters, a valid email and a password of at least eight. */
  lemma SignupSchemaRule(v: SignupValues, isEmail: string -> bool)
    ensures SignupIssues(v, isEmail) == [] <==> |v.name| >= 3 && isEmail(v.email) && |v.password| >= 8
  {
  }

  /** "Criar Conta" is disabled while the data is invalid (validated on every change) or being submitted. */
  function CreateDisabled(v: SignupValues, isEmail: string -> bool, isSubmitting: bool): (disabled: bool)
    ensures !disabled <==> |v.name| >= 3 && isEmail(v.email) && |v.password| >= 8 && !isSubmitting
  {
    SignupIssues(v, isEmail) != [] || isSubmitting
  }

  datatype Step = SignUp | Confirm

  class SignupForm {
    var error: Option<string>
    var step: Step
    var email: string
    var code: string
    var loading: bool
    var message: Option<string>
    var countdown: nat

    constructor()
      ensures error == None && step == SignUp && email == "" && code == ""
      ensures !loading && message == None && countdown == 0
    {
      error, step, email, code := None, SignUp, "", "";
      loading, message, countdown := false, None, 0;
    }

    predicate VerifyDisabled()
      reads this
    {
      AuthFlow.VerifyDisabled(loading, code)
    }

    predicate ResendDisabled()
      reads this
    {
      AuthFlow.ResendDisabled(loading, countdown)
    }

    /** With the six-character code input, "Verificar" is enabled exactly for a complete code while idle. */
    lemma VerifyEnabledOnFullCode()
      requires |code| <= CodeLength
      ensures !VerifyDisabled() <==> !loading && |code| == CodeLength
    {
      AuthFlow.VerifyNeedsFullCode(loading, code);
    }

    /** `k` seconds after a code was sent, "Reenviar Código" is enabled exactly when idle and the 60 seconds are over. */
    lemma ResendBlockedAfterSend(k: nat)
      requires countdown == Ticks(ResendCooldown, k)
      ensures ResendDisabled() <==> loading || k < ResendCooldown
    {
      ResendCooldownBlocks(loading, k);
    }

    method Tick()
      modifies this`countdown
      ensures countdown == AuthFlow.Tick(old(countdown))
    {
      if countdown > 0 {
        countdown := countdown - 1;
      }
    }

    /** The code input; it accepts at most six characters. */
    method SetCode(value: string)
      requires |value| <= CodeLength
      modifies this`code
      ensures code == value
    {
      code := value;
    }

    /** `handleSignUp` up to the await; the form library calls it only with data the schema accepts. */
    method BeginSignUp(values: SignupValues, isEmail: string -> bool)
      requires SignupIssues(values, isEmail) == []
      modifies this`error
      ensures error == None
    {
      error := None;
    }

    /**
     * `handleSignUp` after `signUp` settled, with `isSignUpComplete` as the result. An incomplete sign-up
     * moves to step "CONFIRM" with the email remembered and the countdown started; a complete one
     * navigates to "/" and keeps the step; a failure keeps the step and stores the caught message.
     */
    method SettleSignUp(values: SignupValues, outcome: Outcome<bool>) returns (navigateTo: Option<string>)
      modifies this`email, this`step, this`countdown, this`error
      ensures outcome == Resolved(false) ==>
                navigateTo == None && email == values.email && step == Confirm && countdown == ResendCooldown
                && error == old(error)
      ensures outcome == Resolved(true) ==>
                navigateTo == Some("/") && email == old(email) && step == old(step) && countdown == old(countdown)
                && error == old(error)
      ensures outcome.Rejected? ==>
                navigateTo == None && error == Some(CaughtMessage(outcome.thrown, "Erro ao criar conta."))
                && email == old(email) && step == old(step) && countdown == old(countdown)
    {
      navigateTo := None;
      match outcome {
        case Resolved(isSignUpComplete) =>
          if !isSignUpComplete {
            email := values.email;
            step := Confirm;
            countdown := ResendCooldown;
          } else {
            navigateTo := Some("/");
          }
        case Rejected(err) =>
          error := Some(CaughtMessage(err, "Erro ao criar conta."));
      }
    }

    /** `handleConfirmVerify` up to the await: busy, with the previous error and message cleared. */
    method BeginConfirmVerify()
      modifies this`loading, this`error, this`message
      ensures loading && error == None && message == None
      ensures VerifyDisabled() && ResendDisabled()
    {
      loading := true;
      error := None;
      message := None;
    }

    /** `handleConfirmVerify` after `confirmSignUp` settled: only a completed sign-up navigates to "/". */
    method SettleConfirmVerify(outcome: Outcome<bool>) returns (navigateTo: Option<string>)
      modifies this`error, this`loading
      ensures !loading
      ensures navigateTo == (if outcome == Resolved(true) then Some("/") else None)
      ensures outcome.Resolved? ==> error == old(error)
      ensures outcome.Rejected? ==>
                error == Some(CaughtMessage(outcome.thrown, "Falha na verificação. Tente novamente."))
      ensures VerifyDisabled() <==> |code| < CodeLength
    {
      navigateTo := None;
      match outcome {
        case Resolved(isSignUpComplete) =>
          if isSignUpComplete {
            navigateTo := Some("/");
          }
        case Rejected(err) =>
          error := Some(CaughtMessage(err, "Falha na verificação. Tente novamente."));
      }
      loading := false;
    }

    /** `handleResendCode` up to the await. Without an email it returns at once and changes nothing. */
    method BeginResend() returns (sent: bool)
      modifies this`error, this`message
      ensures sent <==> email != ""
      ensures sent ==> error == None && message == None
      ensures !sent ==> error == old(error) && message == old(message)
    {
      sent := email != "";
      if sent {
        error := None;
        message := None;
      }
    }

    /** `handleResendCode` after `resendSignUpCode` settled with the delivery destination. */
    method SettleResend(outcome: Outcome<Option<string>>)
      modifies this`message, this`countdown, this`error
      ensures outcome.Resolved? ==>
                message == Some("Código reenviado com sucesso para: " + DestinationText(outcome.value))
                && countdown == ResendCooldown && error == old(error) && ResendDisabled()
      ensures outcome.Rejected? ==>
                error == Some(CaughtMessage(outcome.thrown, "Erro ao reenviar código."))
                && message == old(message) && countdown == old(countdown)
    {
      match outcome {
        case Resolved(destination) =>
          message := Some("Código reenviado com sucesso para: " + DestinationText(destination));
          countdown := ResendCooldown;
        case Rejected(err) =>
          error := Some(CaughtMessage(err, "Erro ao reenviar código."));
      }
    }
  }
}
