/**
 * The forgotten-password form: step "request" asks for the email and has a code sent; step "confirm"
 * takes the code and the new password, and can have the code sent again once the countdown is over.
 */
module ForgotPassword {
  import opened Wrappers
  import opened AuthFlow

  /** The issues of `forgotPasswordSchema`; the email format check is the validator `isEmail`. */
  function RequestIssues(email: string, isEmail: string -> bool): seq<Issue> {
    if isEmail(email) then [] else [Issue("email", "Email inválido")]
  }

  /** The request form is accepted exactly for a valid email, and its only issue is on the email field. */
  lemma RequestSchemaRule(email: string, isEmail: string -> bool)
    ensures RequestIssues(email, isEmail) == [] <==> isEmail(email)
    ensures forall i :: 0 <= i < |RequestIssues(email, isEmail)| ==> RequestIssues(email, isEmail)[i].path == "email"
  {
  }

  datatype ResetValues = ResetValues(code: string, password: string, confirmPassword: string)

  /** The issues of `resetPasswordSchema`: the two length rules, then the refinement that the passwords agree. */
  function ResetSchemaIssues(v: ResetValues): seq<Issue> {
    MinLength(v.code, 6, "code", "Código deve ter 6 dígitos")
    + MinLength(v.password, 8, "password", "Senha deve ter no mínimo 8 caracteres")
    + (if v.password != v.confirmPassword then [Issue("confirmPassword", "Senhas não conferem")] else [])
  }

  /**
   * The new password is accepted exactly for a code of at least six characters, a password of at least
   * eight and an identical confirmation; a mismatch is reported on the confirmation field only.
   */
  lemma ResetSchemaRule(v: ResetValues)
    ensures ResetSchemaIssues(v) == [] <==> |v.code| >= 6 && |v.password| >= 8 && v.password == v.confirmPassword
    ensures Issue("confirmPassword", "Senhas não conferem") in ResetSchemaIssues(v) <==> v.password != v.confirmPassword
    ensures forall i :: 0 <= i < |ResetSchemaIssues(v)| && ResetSchemaIssues(v)[i].path == "confirmPassword"
                        ==> v.password != v.confirmPassword
  {
    var lengths := MinLength(v.code, 6, "code", "Código deve ter 6 dígitos")
                   + MinLength(v.password, 8, "password", "Senha deve ter no mínimo 8 caracteres");
    assert forall i :: 0 <= i < |lengths| ==> lengths[i].path in {"code", "password"};
  }

  datatype Step = Request | Confirm

  const CodeSent := "Código enviado para o seu email."
  const CodeResent := "Código reenviado com sucesso! Verifique seu email."
  const PasswordReset := "Senha redefinida com sucesso! Redirecionando..."

  class ForgotPasswordForm {
    var step: Step
    var email: string
    var loading: bool
    var message: Option<string>
    var error: Option<string>
    var countdown: nat

    constructor()
      ensures step == Request && email == "" && !loading && message == None && error == None && countdown == 0
    {
      step, email, loading := Request, "", false;
      message, error, countdown := None, None, 0;
    }

    /** Both submit buttons are disabled while a request runs. */
    predicate SubmitDisabled()
      reads this
    {
      loading
    }

    /**
     * "Reenviar Código" is disabled while the countdown is positive. Unlike the shared rule
     * `AuthFlow.ResendDisabled`, a running request does not disable it on this form.
     */
    predicate ResendDisabled()
      reads this
    {
      countdown > 0
    }

    /** `k` seconds after a code was sent, resending is possible again exactly when the 60 seconds are over. */
    lemma ResendBlockedAfterSend(k: nat)
      requires countdown == Ticks(ResendCooldown, k)
      ensures ResendDisabled() <==> k < ResendCooldown
    {
      CooldownLength(k);
    }

    /** The countdown effect, once per second. */
    method Tick()
      modifies this`countdown
      ensures countdown == AuthFlow.Tick(old(countdown))
    {
      if countdown > 0 {
        countdown := countdown - 1;
      }
    }

    /**
     * `onRequestSubmit` up to the await: busy, with the previous error and message cleared. The form
     * library calls it only with an email the schema accepts.
     */
    method BeginRequestSubmit(submitted: string, isEmail: string -> bool)
      requires RequestIssues(submitted, isEmail) == []
      modifies this`loading, this`error, this`message
      ensures loading && error == None && message == None
      ensures SubmitDisabled()
    {
      loading := true;
      error := None;
      message := None;
    }

    /**
     * `onRequestSubmit` after `resetPassword` settled for the submitted email. Success moves to step
     * "confirm", remembers the email and starts the countdown; failure keeps the step and sets an error.
     */
    method SettleRequestSubmit(submitted: string, isEmail: string -> bool, outcome: Outcome<()>)
      requires RequestIssues(submitted, isEmail) == []
      modifies this`email, this`step, this`message, this`countdown, this`error, this`loading
      ensures !loading && !SubmitDisabled()
      ensures outcome.Resolved? ==>
                email == submitted && step == Confirm && message == Some(CodeSent)
                && countdown == ResendCooldown && error == old(error) && ResendDisabled()
      ensures outcome.Resolved? ==> isEmail(email)
      ensures outcome.Rejected? ==>
                error == Some(ErrorText(outcome.thrown, "Falha ao enviar código", "Falha ao enviar código. Verifique o email."))
                && step == old(step) && email == old(email) && message == old(message) && countdown == old(countdown)
    {
      match outcome {
        case Resolved(_) =>
          email := submitted;
          step := Confirm;
          message := Some(CodeSent);
          countdown := ResendCooldown;
        case Rejected(err) =>
          error := Some(ErrorText(err, "Falha ao enviar código", "Falha ao enviar código. Verifique o email."));
      }
      loading := false;
    }

    /** `onResetSubmit` up to the await; the form library calls it only with values the schema accepts. */
    method BeginResetSubmit(values: ResetValues)
      requires ResetSchemaIssues(values) == []
      modifies this`loading, this`error, this`message
      ensures loading && error == None && message == None
      ensures SubmitDisabled()
    {
      loading := true;
      error := None;
      message := None;
    }

    /** `onResetSubmit` after `confirmResetPassword` settled; `redirect` is the scheduled move to "/". */
    method SettleResetSubmit(outcome: Outcome<()>) returns (redirect: bool)
      modifies this`message, this`error, this`loading
      ensures !loading && !SubmitDisabled() && redirect == outcome.Resolved?
      ensures outcome.Resolved? ==> message == Some(PasswordReset) && error == old(error)
      ensures outcome.Rejected? ==>
                error == Some(ErrorText(outcome.thrown, "Falha na redefinição", "Falha na redefinição de senha."))
                && message == old(message)
    {
      redirect := false;
      match outcome {
        case Resolved(_) =>
          message := Some(PasswordReset);
          redirect := true;
        case Rejected(err) =>
          error := Some(ErrorText(err, "Falha na redefinição", "Falha na redefinição de senha."));
      }
      loading := false;
    }

    /** `handleResendCode` up to the await. Without an email it returns at once and changes nothing. */
    method BeginResend() returns (sent: bool)
      modifies this`error, this`message
      ensures sent <==> email != ""
      ensures sent ==> error == None && message == None
      ensures !sent ==> error == old(error) && message == old(message)
    {
      sent := email != "";
      if sent {
        error := None;
        message := None;
      }
    }

    /** `handleResendCode` after `resetPassword` settled: success restarts the countdown. */
    method SettleResend(outcome: Outcome<()>)
      modifies this`message, this`countdown, this`error
      ensures outcome.Resolved? ==>
                message == Some(CodeResent) && countdown == ResendCooldown && error == old(error) && ResendDisabled()
      ensures outcome.Rejected? ==>
                error == Some(ErrorText(outcome.thrown, "Erro ao reenviar", "Erro ao reenviar código."))
                && message == old(message) && countdown == old(countdown)
    {
      match outcome {
        case Resolved(_) =>
          message := Some(CodeResent);
          countdown := ResendCooldown;
        case Rejected(err) =>
          error := Some(ErrorText(err, "Erro ao reenviar", "Erro ao reenviar código."));
      }
    }
  }
}
