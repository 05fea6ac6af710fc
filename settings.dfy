/** The general settings page: preference switches flipped locally and saved together,
    and a password change that sends the whole form, confirmation included. */
module Settings {
  import opened Js
  import opened Http
  import opened PasswordForm

  /** The messages of the settings page. */
  const MismatchText: string := "New passwords do not match"
  const SettingsFailedText: string := "Failed to update settings"
  const PasswordFailedText: string := "Failed to change password"

  function InitialSettings(): (s: map<string, bool>)
    ensures s.Keys == {"emailNotifications", "smsNotifications", "darkMode"}
    ensures s["emailNotifications"] && !s["smsNotifications"] && !s["darkMode"]
  {
    map["emailNotifications" := true, "smsNotifications" := false, "darkMode" := false]
  }

  /** `!prev[setting]`: an absent setting reads as `undefined`, so it becomes true. */
  function Flip(settings: map<string, bool>, setting: string): (r: map<string, bool>)
    ensures setting in r
    ensures setting in settings ==> r[setting] == !settings[setting]
    ensures setting !in settings ==> r[setting]
    ensures forall k :: k != setting ==> (k in r <==> k in settings)
    ensures forall k :: k != setting && k in settings ==> r[k] == settings[k]
  {
    settings[setting := !(setting in settings && settings[setting])]
  }

  /** Flipping a setting the page has twice restores it. */
  lemma FlipTwice(settings: map<string, bool>, setting: string)
    requires setting in settings
    ensures Flip(Flip(settings, setting), setting) == settings
  {
    var twice := Flip(Flip(settings, setting), setting);
    assert twice.Keys == settings.Keys;
  }

  /** An absent setting does not come back after two flips: the first makes it true. */
  lemma FlipAbsentTwice(settings: map<string, bool>, setting: string)
    requires setting !in settings
    ensures setting in Flip(Flip(settings, setting), setting)
    ensures !Flip(Flip(settings, setting), setting)[setting]
  {
  }

  class SettingsPage {
    var settings: map<string, bool>
    var passwordData: Fields
    var error: string
    var success: bool

    constructor ()
      ensures settings == InitialSettings() && passwordData == BlankPasswords()
      ensures error == "" && !success
    {
      settings := InitialSettings();
      passwordData := BlankPasswords();
      error, success := "", false;
    }

    /** `handleSettingsChange`. */
    method HandleSettingsChange(setting: string)
      modifies this
      ensures settings == Flip(old(settings), setting)
      ensures passwordData == old(passwordData) && error == old(error) && success == old(success)
    {
      settings := Flip(settings, setting);
    }

    /** `handlePasswordChange`: sets one password field. */
    method HandlePasswordChange(name: string, value: string)
      modifies this
      ensures passwordData == old(passwordData)[name := value]
      ensures settings == old(settings) && error == old(error) && success == old(success)
    {
      passwordData := passwordData[name := value];
    }

    /** `handleSaveSettings`: sends every setting as it stands. */
    method HandleSaveSettings(outcome: Outcome<()>) returns (sent: map<string, bool>)
      modifies this
      ensures sent == old(settings)
      ensures settings == old(settings) && passwordData == old(passwordData)
      ensures outcome.Ok? ==> success && error == ""
      ensures outcome.Fail? ==> !success && error == ServerText(outcome.err, SettingsFailedText)
    {
      error, success := "", false;
      sent := settings;
      match outcome {
        case Ok(_) => success := true;
        case Fail(e) => error := ServerText(e, SettingsFailedText);
      }
    }

    /** `handleChangePassword`: a mismatch is reported without clearing an earlier
        success; otherwise the whole form is sent, confirmation included, with no
        length check. */
    method HandleChangePassword(outcome: Outcome<()>) returns (sent: Option<Fields>)
      modifies this
      ensures settings == old(settings)
      ensures !NewPasswordsMatch(old(passwordData)) ==>
                sent.None? && error == MismatchText && success == old(success) &&
                passwordData == old(passwordData)
      ensures NewPasswordsMatch(old(passwordData)) ==> sent == Some(old(passwordData))
      ensures sent.Some? && outcome.Ok? ==> success && error == "" && passwordData == BlankPasswords()
      ensures sent.Some? && outcome.Fail? ==>
                !success && error == ServerText(outcome.err, PasswordFailedText) &&
                passwordData == old(passwordData)
    {
      sent := None;
      if !NewPasswordsMatch(passwordData) {
        error := MismatchText;
        return;
      }
      error, success := "", false;
      sent := Some(passwordData);
      match outcome {
        case Ok(_) =>
          success := true;
          passwordData := BlankPasswords();
        case Fail(e) =>
          error := ServerText(e, PasswordFailedText);
      }
    }
  }
}
