/** The doctor's settings page: a password change checked only for equality, and
    notification switches kept locally until saved together. */
module DoctorSettings {
  import opened Js
  import opened Http
  import opened PasswordForm

  /** The messages of the settings page. */
  const MismatchText: string := "New passwords do not match"
  const PasswordUpdatedText: string := "Password updated successfully"
  const PasswordFailedText: string := "Failed to update password"
  const PreferencesUpdatedText: string := "Notification preferences updated successfully"
  const PreferencesFailedText: string := "Failed to update notification preferences"

  function InitialNotifications(): (n: map<string, bool>)
    ensures n.Keys == {"emailNotifications", "appointmentReminders", "prescriptionAlerts"}
    ensures forall k :: k in n ==> n[k]
  {
    map["emailNotifications" := true, "appointmentReminders" := true, "prescriptionAlerts" := true]
  }

  /** The body of the notification request: `{notificationSettings: notifications}`. */
  datatype NotificationSettings = NotificationSettings(notificationSettings: map<string, bool>)

  class DoctorSettingsPage {
    var passwordData: Fields
    var notifications: map<string, bool>
    var error: string
    var success: string

    constructor ()
      ensures passwordData == BlankPasswords() && notifications == InitialNotifications()
      ensures error == "" && success == ""
    {
      passwordData := BlankPasswords();
      notifications := InitialNotifications();
      error, success := "", "";
    }

    /** `handlePasswordChange`: sets one password field. */
    method HandlePasswordChange(name: string, value: string)
      modifies this
      ensures passwordData == old(passwordData)[name := value]
      ensures notifications == old(notifications) && error == old(error) && success == old(success)
    {
      passwordData := passwordData[name := value];
    }

    /** `handleNotificationChange`: sets one switch locally; nothing is sent. */
    method HandleNotificationChange(name: string, checked: bool)
      modifies this
      ensures notifications == old(notifications)[name := checked]
      ensures passwordData == old(passwordData) && error == old(error) && success == old(success)
    {
      notifications := notifications[name := checked];
    }

    /** `handlePasswordSubmit`: only a mismatch is refused here; any length is sent. */
    method HandlePasswordSubmit(outcome: Outcome<()>) returns (sent: Option<PasswordChange>)
      modifies this
      ensures notifications == old(notifications)
      ensures !NewPasswordsMatch(old(passwordData)) ==>
                sent.None? && error == MismatchText && success == "" &&
                passwordData == old(passwordData)
      ensures NewPasswordsMatch(old(passwordData)) ==> sent == Some(ChangeBody(old(passwordData)))
      ensures sent.Some? && outcome.Ok? ==>
                success == PasswordUpdatedText && error == "" && passwordData == BlankPasswords()
      ensures sent.Some? && outcome.Fail? ==>
                success == "" && error == ServerText(outcome.err, PasswordFailedText) &&
                passwordData == old(passwordData)
    {
      sent := None;
      error, success := "", "";
      if !NewPasswordsMatch(passwordData) {
        error := MismatchText;
        return;
      }
      sent := Some(ChangeBody(passwordData));
      match outcome {
        case Ok(_) =>
          success := PasswordUpdatedText;
          passwordData := BlankPasswords();
        case Fail(e) =>
          error := ServerText(e, PasswordFailedText);
      }
    }

    /** `handleNotificationSubmit`: sends every switch as it stands. */
    method HandleNotificationSubmit(outcome: Outcome<()>) returns (sent: NotificationSettings)
      modifies this
      ensures sent == NotificationSettings(old(notifications))
      ensures notifications == old(notifications) && passwordData == old(passwordData)
      ensures outcome.Ok? ==> success == PreferencesUpdatedText && error == ""
      ensures outcome.Fail? ==>
                success == "" && error == ServerText(outcome.err, PreferencesFailedText)
    {
      error, success := "", "";
      sent := NotificationSettings(notifications);
      match outcome {
        case Ok(_) =>
          success := PreferencesUpdatedText;
        case Fail(e) =>
          error := ServerText(e, PreferencesFailedText);
      }
    }
  }
}
