/**
 * `handlePasswordUpdate` of src/screens/ChangePasswordScreen.tsx: two guards,
 * then one awaited password update with the loading flag raised around it.
 * The auth call is not modelled; its error, if any, is a parameter.
 */
module ChangePassword {
  import opened Wrappers
  import opened Alerts

  const MinPasswordLength := 6

  datatype PasswordError = TooShort | Mismatch

  /** The two guards, in the order the handler applies them. */
  function CheckPasswords(newPassword: string, confirmPassword: string): (r: Option<PasswordError>)
    ensures r == Some(TooShort) <==> |newPassword| < MinPasswordLength
    ensures r == Some(Mismatch) <==> |newPassword| >= MinPasswordLength && newPassword != confirmPassword
    ensures r == None <==> |newPassword| >= MinPasswordLength && newPassword == confirmPassword
  {
    if |newPassword| < MinPasswordLength then Some(TooShort)
    else if newPassword != confirmPassword then Some(Mismatch)
    else None
  }

  function RejectionAlert(e: PasswordError): (a: Alert)
    ensures a.title == ErrorTitle && a.onOk == Dismiss
    ensures e == TooShort <==> a.message == "Hasło musi mieć co najmniej 6 znaków."
  {
    match e
    case TooShort => Alert(ErrorTitle, "Hasło musi mieć co najmniej 6 znaków.", Dismiss)
    case Mismatch => Alert(ErrorTitle, "Hasła nie są takie same.", Dismiss)
  }

  /** The alert after the update: its error message, or the success notice whose OK goes back. */
  function UpdateAlert(updateError: Option<string>): (a: Alert)
    ensures a.onOk == GoBack <==> updateError.None?
    ensures updateError.Some? ==> a == Alert(ErrorTitle, updateError.value, Dismiss)
  {
    match updateError
    case Some(message) => Alert(ErrorTitle, message, Dismiss)
    case None => Alert("Sukces", "Twoje hasło zostało zmienione.", GoBack)
  }

  /** The synchronous part of the handler: a rejection, or the password sent to the auth service. */
  datatype Submission = Rejected(alert: Alert) | UpdateRequested(password: string)

  class ChangePasswordForm {
    var newPassword: string
    var confirmPassword: string
    var loading: bool

    constructor ()
      ensures newPassword == "" && confirmPassword == "" && !loading
    {
      newPassword, confirmPassword, loading := "", "", false;
    }

    method SetFields(newPassword: string, confirmPassword: string)
      modifies this
      ensures this.newPassword == newPassword && this.confirmPassword == confirmPassword
      ensures loading == old(loading)
    {
      this.newPassword, this.confirmPassword := newPassword, confirmPassword;
    }

    /** Up to the awaited update: the guards, then `setLoading(true)` and the request. */
    method Submit() returns (s: Submission)
      modifies this
      ensures newPassword == old(newPassword) && confirmPassword == old(confirmPassword)
      ensures match CheckPasswords(newPassword, confirmPassword)
        case Some(e) => s == Rejected(RejectionAlert(e)) && loading == old(loading)
        case None => s == UpdateRequested(newPassword) && loading
    {
      if |newPassword| < MinPasswordLength {
        return Rejected(RejectionAlert(TooShort));
      }
      if newPassword != confirmPassword {
        return Rejected(RejectionAlert(Mismatch));
      }
      loading := true;
      s := UpdateRequested(newPassword);
    }

    /** After the awaited update: `setLoading(false)`, then the alert. */
    method UpdateFinished(updateError: Option<string>) returns (alert: Alert)
      modifies this
      ensures !loading && newPassword == old(newPassword) && confirmPassword == old(confirmPassword)
      ensures alert == UpdateAlert(updateError)
    {
      loading := false;
      alert := UpdateAlert(updateError);
    }

    /**
     * The whole handler. `requests` lists the updates sent: exactly one,
     * carrying the new password, when both guards pass, and none otherwise.
     */
    method HandlePasswordUpdate(updateError: Option<string>) returns (requests: seq<string>, alert: Alert)
      modifies this
      ensures newPassword == old(newPassword) && confirmPassword == old(confirmPassword)
      ensures match CheckPasswords(newPassword, confirmPassword)
        case Some(e) => requests == [] && alert == RejectionAlert(e) && loading == old(loading)
        case None => requests == [newPassword] && alert == UpdateAlert(updateError) && !loading
    {
      var s := Submit();
      match s
      case Rejected(a) =>
        requests, alert := [], a;
      case UpdateRequested(password) =>
        requests := [password];
        alert := UpdateFinished(updateError);
    }
  }

  /** The length guard wins: a short password that also differs from its confirmation gets only the length error. */
  lemma LengthCheckFirst(newPassword: string, confirmPassword: string)
    requires |newPassword| < MinPasswordLength && newPassword != confirmPassword
    ensures CheckPasswords(newPassword, confirmPassword) == Some(TooShort)
  {
  }
}
