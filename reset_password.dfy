/**
 * The reset-password page: the email comes from the address bar; the code and the new password are
 * validated on every change and sent to the identity provider.
 */
module ResetPassword {
  import opened Wrappers
  import opened AuthFlow

  datatype ResetPasswordValues = ResetPasswordValues(code: string, newPassword: string)

  /** The issues of `resetPasswordSchema`. */
  function ResetPasswordIssues(v: ResetPasswordValues): seq<Issue> {
    MinLength(v.code, 6, "code", "Código deve ter 6 dígitos")
    + MinLength(v.newPassword, 8, "newPassword", "A senha deve ter pelo menos 8 caracteres")
  }

  /** The values are accepted exactly for a code of at least six characters and a password of at least eight. */
  lemma ResetPasswordSchemaRule(v: ResetPasswordValues)
    ensures ResetPasswordIssues(v) == [] <==> |v.code| >= 6 && |v.newPassword| >= 8
  {
  }

  /** "Redefinir Senha" is enabled exactly when the values are valid and no submission is running. */
  function SubmitEnabled(v: ResetPasswordValues, isSubmitting: bool): (enabled: bool)
    ensures enabled <==> |v.code| >= 6 && |v.newPassword| >= 8 && !isSubmitting
  {
    !(ResetPasswordIssues(v) != [] || isSubmitting)
  }

  class ResetPasswordForm {
    const email: Option<string>
    var error: Option<string>

    constructor(emailParam: Option<string>)
      ensures email == emailParam && error == None
    {
      email := emailParam;
      error := None;
    }

    /** A missing or empty email shows only the "Email não fornecido" message: there is no form to submit. */
    predicate ShowsForm()
      reads this
    {
      email.Some? && email.value != ""
    }

    /** `handleResetPassword` up to the await: only reachable from the form, with values the schema accepts. */
    method BeginReset(values: ResetPasswordValues)
      requires ShowsForm() && ResetPasswordIssues(values) == []
      modifies this`error
      ensures error == None
    {
      error := None;
    }

    /** `handleResetPassword` after `confirmResetPassword` settled: success navigates to "/", failure sets the error. */
    method SettleReset(outcome: Outcome<()>) returns (navigateTo: Option<string>)
      modifies this`error
      ensures outcome.Resolved? ==> navigateTo == Some("/") && error == old(error)
      ensures outcome.Rejected? ==>
                navigateTo == None && error == Some(CaughtMessage(outcome.thrown, "Erro ao redefinir senha."))
    {
      match outcome {
        case Resolved(_) =>
          navigateTo := Some("/");
        case Rejected(err) =>
          navigateTo := None;
          error := Some(CaughtMessage(err, "Erro ao redefinir senha."));
      }
    }
  }
}
