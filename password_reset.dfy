/** The two halves of a password reset: the forgot-password page, which asks the
    service to e-mail a reset link, and the reset-password page the link opens,
    which sets the new password. */
module PasswordReset {
  import opened Common
  import opened Validators
  import opened Auth
  import SiteUrl

  const ResetSentMessage := "Password reset email sent! Check your inbox."
  const MismatchMessage := "Passwords do not match."
  const PasswordUpdatedMessage := "Password updated successfully! Redirecting to login..."

  /** The link the reset e-mail carries: the reset-password page of the site. */
  function ResetLink(env: SiteUrl.Env): string {
    SiteUrl.GetSiteUrl(env) + "/auth/reset-password"
  }

  /** The forgot-password page's state. */
  class ForgotPasswordPage {
    var email: string
    var loading: bool
    var error: Option<string>
    var success: Option<string>
    var validationError: Option<string>
    const auth: AuthService

    constructor (email: string, auth: AuthService)
      ensures this.email == email && this.auth == auth
      ensures !loading && error == None && success == None && validationError == None
    {
      this.email, this.auth := email, auth;
      loading, error, success, validationError := false, None, None, None;
    }

    /** `handleReset`: clears the three messages; an invalid e-mail sets the validation message
        and sends nothing; otherwise one reset request is sent and its outcome sets exactly one
        of the error and the success message. */
    method HandleReset(env: SiteUrl.Env, outcome: Option<string>)
      modifies this, auth
      ensures email == old(email)
      ensures auth.signUps == old(auth.signUps) && auth.passwordUpdates == old(auth.passwordUpdates)
      ensures auth.metadataRoles == old(auth.metadataRoles)
      ensures !ValidEmail(email) ==>
        && validationError == Some(EmailMessage) && error == None && success == None
        && loading == old(loading) && auth.resetRequests == old(auth.resetRequests)
      ensures ValidEmail(email) ==>
        && validationError == None && !loading
        && auth.resetRequests == old(auth.resetRequests) + [ResetRequest(email, ResetLink(env))]
        && error == outcome
        && success == (if outcome.None? then Some(ResetSentMessage) else None)
    {
      validationError := None;
      error := None;
      success := None;
      if !ValidEmail(email) {
        validationError := Some(EmailMessage);
        return;
      }
      loading := true;
      var err := auth.RequestReset(ResetRequest(email, ResetLink(env)), outcome);
      loading := false;
      if err.Some? {
        error := err;
      } else {
        success := Some(ResetSentMessage);
      }
    }
  }

  /** The checks of the reset-password form in their order: strength first, then the match. */
  function ResetError(password: string, confirm: string): (r: Option<string>)
    ensures r == Some(PasswordMessage) <==> !ValidPassword(password)
    ensures r == Some(MismatchMessage) <==> ValidPassword(password) && password != confirm
    ensures r == None <==> ValidPassword(password) && password == confirm
  {
    if !ValidPassword(password) then Some(PasswordMessage)
    else if password != confirm then Some(MismatchMessage)
    else None
  }

  /** A weak password is reported as weak whatever the confirmation holds. */
  lemma WeakPasswordReportedFirst(password: string, confirm: string, otherConfirm: string)
    requires !ValidPassword(password)
    ensures ResetError(password, confirm) == ResetError(password, otherConfirm) == Some(PasswordMessage)
  {
  }

  /** The reset-password page's state. */
  class ResetPasswordPage {
    var password: string
    var confirmPassword: string
    var loading: bool
    var error: Option<string>
    var validationError: Option<string>
    var success: Option<string>
    /** Set when the page has scheduled its move to '/login'. */
    var redirectScheduled: bool
    const auth: AuthService

    constructor (password: string, confirmPassword: string, auth: AuthService)
      ensures this.password == password && this.confirmPassword == confirmPassword && this.auth == auth
      ensures !loading && error == None && validationError == None && success == None && !redirectScheduled
    {
      this.password, this.confirmPassword, this.auth := password, confirmPassword, auth;
      loading, error, validationError, success, redirectScheduled := false, None, None, None, false;
    }

    /** `handleReset`: clears the three messages; a failed check sets its message and sends
        nothing; otherwise the password update is sent, and its outcome sets exactly one of
        the error and the success message, the latter with a scheduled move to '/login'. */
    method HandleReset(outcome: Option<string>)
      modifies this, auth
      ensures password == old(password) && confirmPassword == old(confirmPassword)
      ensures auth.signUps == old(auth.signUps) && auth.resetRequests == old(auth.resetRequests)
      ensures auth.metadataRoles == old(auth.metadataRoles)
      ensures validationError == ResetError(password, confirmPassword)
      ensures ResetError(password, confirmPassword).Some? ==>
        && error == None && success == None && loading == old(loading)
        && redirectScheduled == old(redirectScheduled) && auth.passwordUpdates == old(auth.passwordUpdates)
      ensures ResetError(password, confirmPassword).None? ==>
        && !loading
        && auth.passwordUpdates == old(auth.passwordUpdates) + [password]
        && error == outcome
        && success == (if outcome.None? then Some(PasswordUpdatedMessage) else None)
        && redirectScheduled == (old(redirectScheduled) || outcome.None?)
    {
      validationError := None;
      error := None;
      success := None;
      if !ValidPassword(password) {
        validationError := Some(PasswordMessage);
        return;
      }
      if password != confirmPassword {
        validationError := Some(MismatchMessage);
        return;
      }
      loading := true;
      var err := auth.UpdatePassword(password, outcome);
      loading := false;
      if err.Some? {
        error := err;
      } else {
        success := Some(PasswordUpdatedMessage);
        redirectScheduled := true;
      }
    }
  }
}
