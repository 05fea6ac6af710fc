/** The registration page: the form, the two password checks made before anything is
    sent, the request body without `confirmPassword`, and what a reply does. */
module Register {
  import opened Js
  import opened Http
  import opened Browser
  import opened Session

  /** The messages of the registration form. */
  const MismatchText: string := "Passwords do not match"
  const TooShortText: string := "Password must be at least 6 characters long"
  const FailedText: string := "Registration failed. Please try again."

  /** The form as the page first shows it: every field empty, the role "patient". */
  function InitialForm(): (f: Fields)
    ensures Get(f, "role") == "patient"
    ensures forall k :: k in f && k != "role" ==> f[k] == ""
    ensures "password" in f && "confirmPassword" in f
  {
    map["firstName" := "", "lastName" := "", "email" := "", "phone" := "",
        "password" := "", "confirmPassword" := "", "role" := "patient"]
  }

  datatype PasswordCheck = PasswordsDiffer | TooShort | PasswordsOk

  /** The checks in the order the page makes them: equality first, then length. */
  function CheckPasswords(form: Fields): (c: PasswordCheck)
    ensures c == PasswordsDiffer <==> Get(form, "password") != Get(form, "confirmPassword")
    ensures c == TooShort <==>
              Get(form, "password") == Get(form, "confirmPassword") && |Get(form, "password")| < 6
    ensures c == PasswordsOk <==>
              Get(form, "password") == Get(form, "confirmPassword") && |Get(form, "password")| >= 6
  {
    if Get(form, "password") != Get(form, "confirmPassword") then PasswordsDiffer
    else if |Get(form, "password")| < 6 then TooShort
    else PasswordsOk
  }

  function CheckMessage(c: PasswordCheck): (msg: string)
    requires c != PasswordsOk
  {
    if c == PasswordsDiffer then MismatchText else TooShortText
  }

  /** The request body: the form without `confirmPassword`. */
  function RegistrationData(form: Fields): (d: Fields)
    ensures "confirmPassword" !in d
    ensures forall k :: k in d <==> k in form && k != "confirmPassword"
    ensures forall k :: k in d ==> d[k] == form[k]
  {
    form - {"confirmPassword"}
  }

  /** Editing the confirmation field never changes what is sent; editing any other field
      shows up in the body. */
  lemma ConfirmationNotSent(form: Fields, name: string, value: string)
    ensures name == "confirmPassword" ==> RegistrationData(form[name := value]) == RegistrationData(form)
    ensures name != "confirmPassword" ==> RegistrationData(form[name := value]) == RegistrationData(form)[name := value]
  {
    if name == "confirmPassword" {
      assert RegistrationData(form[name := value]).Keys == RegistrationData(form).Keys;
    } else {
      assert RegistrationData(form[name := value]).Keys == RegistrationData(form)[name := value].Keys;
    }
  }

  /** The message shown when the request fails or the reply cannot be stored. */
  function FailureText(e: HttpError): (msg: string)
    ensures msg != ""
    ensures e.dataError != "" ==> msg == e.dataError
    ensures e.dataError == "" && e.message != "" ==> msg == e.message
    ensures e.dataError == "" && e.message == "" ==> msg == FailedText
  {
    Or(e.dataError, Or(e.message, FailedText))
  }

  class RegisterPage {
    var form: Fields
    var error: string

    constructor ()
      ensures form == InitialForm() && error == ""
    {
      form := InitialForm();
      error := "";
    }

    /** `handleChange`: sets one field and clears the error. */
    method HandleChange(name: string, value: string)
      modifies this
      ensures form == old(form)[name := value]
      ensures error == ""
    {
      form := form[name := value];
      error := "";
    }

    /** `handleSubmit`, given the reply the registration request would get; returns the
        route navigated to and the body sent. */
    method HandleSubmit(store: LocalStorage, outcome: Outcome<AuthReply>) returns (nav: Option<string>, sent: Option<Fields>)
      modifies this, store
      ensures form == old(form)
      ensures CheckPasswords(form) != PasswordsOk ==>
                error == CheckMessage(CheckPasswords(form)) && sent.None? && nav.None? &&
                store.items == old(store.items)
      ensures CheckPasswords(form) == PasswordsOk ==> sent == Some(RegistrationData(form))
      ensures sent.Some? && outcome.Ok? ==> store.items == SignedInItems(old(store.items), outcome.data)
      ensures sent.Some? && outcome.Ok? && outcome.data.user.Some? ==>
                nav == Some(SignInRoute(outcome.data)) && error == ""
      ensures sent.Some? && outcome.Ok? && outcome.data.user.None? ==>
                nav.None? && error == FailureText(Thrown(UndefinedIdError))
      ensures sent.Some? && outcome.Fail? ==>
                nav.None? && store.items == old(store.items) && error == FailureText(outcome.err)
    {
      nav, sent := None, None;
      error := "";
      var check := CheckPasswords(form);
      if check != PasswordsOk {
        error := CheckMessage(check);
        return;
      }
      sent := Some(RegistrationData(form));
      match outcome {
        case Ok(reply) =>
          store.SetItem("token", StoredText(reply.token));
          store.SetItem("role", StoredText(reply.role));
          if reply.user.None? {
            error := FailureText(Thrown(UndefinedIdError));
            return;
          }
          store.SetItem("userId", UserIdText(reply.user.value));
          nav := Some(SignInRoute(reply));
        case Fail(e) =>
          error := FailureText(e);
      }
    }
  }
}
