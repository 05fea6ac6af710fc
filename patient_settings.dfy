/** The patient's settings page: a password change checked for equality and length
    before it is sent, and notification switches saved one at a time, optimistically. */
module PatientSettings {
  import opened Js
  import opened Http
  import opened PasswordForm

  /** The messages of the settings page. */
  const MismatchText: string := "New passwords do not match"
  const TooShortText: string := "New password must be at least 6 characters long"
  const PasswordUpdatedText: string := "Password updated successfully"
  const PasswordFailedText: string := "Failed to update password"

  function InitialNotifications(): (n: map<string, bool>)
    ensures n.Keys == {"emailNotifications", "appointmentReminders", "prescriptionAlerts", "newsletterSubscription"}
    ensures !n["newsletterSubscription"]
    ensures forall k :: k in n && k != "newsletterSubscription" ==> n[k]
  {
    map["emailNotifications" := true, "appointmentReminders" := true,
        "prescriptionAlerts" := true, "newsletterSubscription" := false]
  }

  /** The checks made before the request: `None` when the form may be sent. */
  function CheckNewPassword(data: Fields): (r: Option<string>)
    ensures r.None? <==> NewPasswordsMatch(data) && |Get(data, "newPassword")| >= 6
    ensures !NewPasswordsMatch(data) ==> r == Some(MismatchText)
    ensures NewPasswordsMatch(data) && |Get(data, "newPassword")| < 6 ==>
              r == Some(TooShortText)
  {
    if !NewPasswordsMatch(data) then Some(MismatchText)
    else if |Get(data, "newPassword")| < 6 then Some(TooShortText)
    else None
  }

  /** The body of one notification update: `{[name]: checked}`. */
  datatype NotificationUpdate = NotificationUpdate(name: string, checked: bool)

  class PatientSettingsPage {
    var passwordData: Fields
    var notifications: map<string, bool>
    var error: string
    var success: string

    constructor ()
      ensures passwordData == BlankPasswords() && notifications == InitialNotifications()
      ensures error == "" && success == ""
    {
      passwordData := BlankPasswords();
      notifications := InitialNotifications();
      error, success := "", "";
    }

    /** Typing in one of the password fields. */
    method EditPassword(name: string, value: string)
      modifies this
      ensures passwordData == old(passwordData)[name := value]
      ensures notifications == old(notifications) && error == old(error) && success == old(success)
    {
      passwordData := passwordData[name := value];
    }

    /** `handlePasswordChange`, given the outcome of the request; returns the body sent. */
    method HandlePasswordChange(outcome: Outcome<()>) returns (sent: Option<PasswordChange>)
      modifies this
      ensures notifications == old(notifications)
      ensures CheckNewPassword(old(passwordData)).Some? ==>
                sent.None? && error == CheckNewPassword(old(passwordData)).value && success == "" &&
                passwordData == old(passwordData)
      ensures CheckNewPassword(old(passwordData)).None? ==> sent == Some(ChangeBody(old(passwordData)))
      ensures sent.Some? && outcome.Ok? ==>
                success == PasswordUpdatedText && error == "" && passwordData == BlankPasswords()
      ensures sent.Some? && outcome.Fail? ==>
                success == "" && error == ServerText(outcome.err, PasswordFailedText) &&
                passwordData == old(passwordData)
    {
      sent := None;
      error, success := "", "";
      var problem := CheckNewPassword(passwordData);
      if problem.Some? {
        error := problem.value;
        return;
      }
      sent := Some(ChangeBody(passwordData));
      match outcome {
        case Ok(_) =>
          success := PasswordUpdatedText;
          passwordData := BlankPasswords();
        case Fail(e) =>
          error := ServerText(e, PasswordFailedText);
      }
    }

    /** `handleNotificationChange`: the switch moves at once and is sent; a failed
        request sets it to the opposite of what was asked. */
    method HandleNotificationChange(name: string, checked: bool, outcome: Outcome<()>) returns (sent: NotificationUpdate)
      modifies this
      ensures sent == NotificationUpdate(name, checked)
      ensures notifications == ToggleOutcome(old(notifications), name, checked, outcome.Ok?)
      ensures passwordData == old(passwordData) && error == old(error) && success == old(success)
    {
      notifications := notifications[name := checked];
      sent := NotificationUpdate(name, checked);
      if outcome.Fail? {
        notifications := notifications[name := !checked];
      }
    }
  }
}
