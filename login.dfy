/** The login page: the role must be chosen, the e-mail is sent lower-cased, and a reply
    without a token is refused. */
module Login {
  import opened Js
  import opened Http
  import opened Browser
  import opened Session

  /** The messages of the login form. */
  const UnreachableText: string := "Unable to connect to the server. Please make sure the server is running and try again."
  const NoRoleText: string := "Please select a role"
  const InvalidResponseText: string := "Invalid response from server"

  function InitialForm(): (f: Fields)
    ensures forall k :: k in f ==> f[k] == ""
    ensures "email" in f && "password" in f && "role" in f
  {
    map["email" := "", "password" := "", "role" := ""]
  }

  /** The login request body. */
  datatype LoginRequest = LoginRequest(email: string, password: string, role: string)

  function RequestFor(form: Fields): (r: LoginRequest)
    requires Get(form, "role") != ""
    ensures r.email == ToLower(Get(form, "email")) && |r.email| == |Get(form, "email")|
    ensures r.password == Get(form, "password") && r.role == Get(form, "role")
  {
    LoginRequest(ToLower(Get(form, "email")), Get(form, "password"), Get(form, "role"))
  }

  /** Two e-mails that differ only in case send the same request. */
  lemma EmailCaseIgnored(form: Fields, email: string)
    requires Get(form, "role") != ""
    requires ToLower(email) == ToLower(Get(form, "email"))
    ensures RequestFor(form["email" := email]) == RequestFor(form)
  {
  }

  /** A reply is accepted only when it carries a non-empty token. */
  predicate HasToken(reply: AuthReply)
  {
    reply.token.Some? && reply.token.value != ""
  }

  const GenericFailure: string := "Login failed. Please check your credentials and try again."

  /** The message for a failed request: a network failure has its own text. */
  function FailureText(e: HttpError): (msg: string)
    ensures msg != ""
    ensures e.network ==> msg == UnreachableText
    ensures !e.network && e.dataError != "" ==> msg == e.dataError
    ensures !e.network && e.dataError == "" ==> msg == GenericFailure
  {
    if e.network then UnreachableText
    else ServerText(e, GenericFailure)
  }

  class LoginPage {
    var form: Fields
    var error: string

    constructor ()
      ensures form == InitialForm() && error == ""
    {
      form := InitialForm();
      error := "";
    }

    /** `handleChange`: sets one field and clears the error. */
    method HandleChange(name: string, value: string)
      modifies this
      ensures form == old(form)[name := value]
      ensures error == ""
    {
      form := form[name := value];
      error := "";
    }

    /** `handleSubmit`, given the reply the login request would get; returns the route
        navigated to and the body sent. */
    method HandleSubmit(store: LocalStorage, outcome: Outcome<AuthReply>) returns (nav: Option<string>, sent: Option<LoginRequest>)
      modifies this, store
      ensures form == old(form)
      ensures Get(form, "role") == "" ==>
                error == NoRoleText && sent.None? && nav.None? && store.items == old(store.items)
      ensures Get(form, "role") != "" ==> sent == Some(RequestFor(form))
      ensures sent.Some? && outcome.Ok? && !HasToken(outcome.data) ==>
                error == InvalidResponseText && nav.None? && store.items == old(store.items)
      ensures sent.Some? && outcome.Ok? && HasToken(outcome.data) ==>
                store.items == SignedInItems(old(store.items), outcome.data)
      ensures sent.Some? && outcome.Ok? && HasToken(outcome.data) && outcome.data.user.Some? ==>
                nav == Some(SignInRoute(outcome.data)) && error == ""
      ensures sent.Some? && outcome.Ok? && HasToken(outcome.data) && outcome.data.user.None? ==>
                nav.None? && error == GenericFailure
      ensures sent.Some? && outcome.Fail? ==>
                nav.None? && store.items == old(store.items) && error == FailureText(outcome.err)
      ensures nav.Some? ==> store.Read("token") != ""
    {
      nav, sent := None, None;
      error := "";
      if Get(form, "role") == "" {
        error := NoRoleText;
        return;
      }
      sent := Some(RequestFor(form));
      match outcome {
        case Ok(reply) =>
          if !HasToken(reply) {
            error := InvalidResponseText;
            return;
          }
          store.SetItem("token", reply.token.value);
          store.SetItem("role", StoredText(reply.role));
          if reply.user.None? {
            // the TypeError has no `code` and no response: the generic text is shown
            error := FailureText(Thrown(UndefinedIdError));
            return;
          }
          store.SetItem("userId", UserIdText(reply.user.value));
          nav := Some(SignInRoute(reply));
        case Fail(e) =>
          error := FailureText(e);
      }
    }
  }
}
