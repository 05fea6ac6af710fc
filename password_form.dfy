/** The change-password form the three settings pages share, and the optimistic update of
    a notification switch. */
module PasswordForm {
  import opened Js

  /** `{currentPassword: '', newPassword: '', confirmPassword: ''}`. */
  function BlankPasswords(): (f: Fields)
    ensures f.Keys == {"currentPassword", "newPassword", "confirmPassword"}
    ensures forall k :: k in f ==> f[k] == ""
  {
    map["currentPassword" := "", "newPassword" := "", "confirmPassword" := ""]
  }

  predicate NewPasswordsMatch(data: Fields)
  {
    Get(data, "newPassword") == Get(data, "confirmPassword")
  }

  /** The body that carries only the current and the new password. */
  datatype PasswordChange = PasswordChange(currentPassword: string, newPassword: string)

  function ChangeBody(data: Fields): (b: PasswordChange)
    ensures b.currentPassword == Get(data, "currentPassword")
    ensures b.newPassword == Get(data, "newPassword")
  {
    PasswordChange(Get(data, "currentPassword"), Get(data, "newPassword"))
  }

  /** The switches after an optimistic change of `name` to `checked`: kept when the
      request succeeds, set to `!checked` when it fails. */
  function ToggleOutcome(flags: map<string, bool>, name: string, checked: bool, succeeded: bool): (r: map<string, bool>)
    ensures name in r && r[name] == (if succeeded then checked else !checked)
    ensures forall k :: k != name ==> (k in r <==> k in flags)
    ensures forall k :: k != name && k in flags ==> r[k] == flags[k]
  {
    var optimistic := flags[name := checked];
    if succeeded then optimistic else optimistic[name := !checked]
  }

  /** When the switch really changed, a failed request puts every switch back. */
  lemma FailedToggleRestores(flags: map<string, bool>, name: string, checked: bool)
    requires name in flags && checked == !flags[name]
    ensures ToggleOutcome(flags, name, checked, false) == flags
  {
    var r := ToggleOutcome(flags, name, checked, false);
    assert r.Keys == flags.Keys;
  }
}
