/**
 * The stand-alone confirmation page: the email comes from the address bar, the countdown starts at 60,
 * and the emailed code is verified or sent again.
 */
module ConfirmSignup {
  import opened Wrappers
  import opened AuthFlow

  class ConfirmSignUpForm {
    const email: string
    var code: string
    var error: Option<string>
    var message: Option<string>
    var loading: bool
    var countdown: nat

    /** `searchParams.get("email") || ""`: an absent parameter reads as the empty email. */
    constructor(emailParam: Option<string>)
      ensures email == (if emailParam.Some? then emailParam.value else "")
      ensures code == "" && error == None && message == None && !loading && countdown == ResendCooldown
    {
      email := if emailParam.Some? then emailParam.value else "";
      code, error, message := "", None, None;
      loading, countdown := false, ResendCooldown;
    }

    /** Without an email the page shows the "Email não fornecido" card instead of the form. */
    predicate ShowsForm()
      reads this
    {
      email != ""
    }

    predicate VerifyDisabled()
      reads this
    {
      AuthFlow.VerifyDisabled(loading, code)
    }

    predicate ResendDisabled()
      reads this
    {
      AuthFlow.ResendDisabled(loading, countdown)
    }

    /** With the six-character code input, "Verificar" is enabled exactly for a complete code while idle. */
    lemma VerifyEnabledOnFullCode()
      requires |code| <= CodeLength
      ensures !VerifyDisabled() <==> !loading && |code| == CodeLength
    {
      AuthFlow.VerifyNeedsFullCode(loading, code);
    }

    /** `k` seconds after a code was sent, "Reenviar Código" is enabled exactly when idle and the 60 seconds are over. */
    lemma ResendBlockedAfterSend(k: nat)
      requires countdown == Ticks(ResendCooldown, k)
      ensures ResendDisabled() <==> loading || k < ResendCooldown
    {
      ResendCooldownBlocks(loading, k);
    }

    method Tick()
      modifies this`countdown
      ensures countdown == AuthFlow.Tick(old(countdown))
    {
      if countdown > 0 {
        countdown := countdown - 1;
      }
    }

    /** The code input; it accepts at most six characters. */
    method SetCode(value: string)
      requires |value| <= CodeLength
      modifies this`code
      ensures code == value
    {
      code := value;
    }

    /** `handleVerify` up to the await; the form exists only with an email. */
    method BeginVerify()
      requires ShowsForm()
      modifies this`loading, this`error, this`message
      ensures loading && error == None && message == None
      ensures VerifyDisabled() && ResendDisabled()
    {
      loading := true;
      error := None;
      message := None;
    }

    /** `handleVerify` after `confirmSignUp` settled: only a completed sign-up navigates to "/". */
    method SettleVerify(outcome: Outcome<bool>) returns (navigateTo: Option<string>)
      modifies this`error, this`loading
      ensures !loading
      ensures navigateTo == (if outcome == Resolved(true) then Some("/") else None)
      ensures outcome.Resolved? ==> error == old(error)
      ensures outcome.Rejected? ==>
                error == Some(ErrorText(outcome.thrown, "Falha na verificação", "Falha na verificação. Tente novamente."))
      ensures VerifyDisabled() <==> |code| < CodeLength
    {
      navigateTo := None;
      match outcome {
        case Resolved(isSignUpComplete) =>
          if isSignUpComplete {
            navigateTo := Some("/");
          }
        case Rejected(err) =>
          error := Some(ErrorText(err, "Falha na verificação", "Falha na verificação. Tente novamente."));
      }
      loading := false;
    }

    /** `handleResendCode` up to the await. Without an email it returns at once and changes nothing. */
    method BeginResend() returns (sent: bool)
      modifies this`error, this`message
      ensures sent <==> email != ""
      ensures sent ==> error == None && message == None
      ensures !sent ==> error == old(error) && message == old(message)
    {
      sent := email != "";
      if sent {
        error := None;
        message := None;
      }
    }

    /** `handleResendCode` after `resendSignUpCode` settled with the delivery destination. */
    method SettleResend(outcome: Outcome<Option<string>>)
      modifies this`message, this`countdown, this`error
      ensures outcome.Resolved? ==>
                message == Some("Código reenviado com sucesso para: " + DestinationText(outcome.value))
                && countdown == ResendCooldown && error == old(error) && ResendDisabled()
      ensures outcome.Rejected? ==>
                error == Some(ErrorText(outcome.thrown, "Erro ao reenviar código", "Erro ao reenviar código."))
                && message == old(message) && countdown == old(countdown)
    {
      match outcome {
        case Resolved(destination) =>
          message := Some("Código reenviado com sucesso para: " + DestinationText(destination));
          countdown := ResendCooldown;
        case Rejected(err) =>
          error := Some(ErrorText(err, "Erro ao reenviar código", "Erro ao reenviar código."));
      }
    }
  }
}
