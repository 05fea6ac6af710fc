/** The session store shared by every page: the signed-in user, the default
    `Authorization` header, the three `localStorage` keys, and the transitions that
    change them (check, login, register, logout, profile update, and a 401 reply). */
module AuthContext {
  import opened Js
  import opened Http
  import opened Browser
  import opened Session

  /** The messages of the session store. */
  const OfflineText: string := "Unable to connect to the server. Please check your internet connection and try again."
  const ServerErrorText: string := "Server error occurred. Please try again later."
  const RegisterFallback: string := "Registration failed. Please try again."
  const UpdateFallback: string := "Profile update failed"

  // ---------------------------------------------------------------- header and redirect

  /** The request interceptor: a stored, non-empty token is sent as `Bearer <token>`;
      otherwise no header is added. */
  function AuthorizationHeader(token: Option<string>): (h: Option<string>)
    ensures h.Some? <==> token.Some? && token.value != ""
    ensures h.Some? ==> |h.value| == 7 + |token.value| && h.value[..7] == "Bearer " && h.value[7..] == token.value
  {
    if token.Some? && token.value != "" then Some("Bearer " + token.value) else None
  }

  /** After a failed check or a 401 reply the app returns to "/" unless the current
      path, lower-cased, mentions the login or the registration page. */
  predicate ShouldRedirectHome(path: string)
  {
    var current := ToLower(path);
    !Includes(current, "/login") && !Includes(current, "/register")
  }

  /** The login page itself, in any letter case, is never sent back to "/". */
  lemma LoginPageStays(path: string)
    requires |path| >= 6 && ToLower(path[..6]) == "/login"
    ensures !ShouldRedirectHome(path)
  {
    var current := ToLower(path);
    assert current[..6] == ToLower(path[..6]);
    assert OccursAt(current, "/login", 0);
  }

  // ---------------------------------------------------------------- session contents

  /** The three keys `checkAuth` needs, each present and non-empty. */
  predicate SessionPresent(items: map<string, string>)
  {
    Get(items, "token") != "" && Get(items, "role") != "" && Get(items, "userId") != ""
  }

  /** A login or registration reply the provider accepts: token, user and role all
      present and truthy. */
  predicate Complete(reply: AuthReply)
  {
    reply.token.Some? && reply.token.value != "" && reply.user.Some? &&
    reply.role.Some? && reply.role.value != ""
  }

  /** An accepted reply leaves a session that the next check finds complete, as long as
      the user's id is not the empty string. */
  lemma AcceptedReplyPassesCheck(items: map<string, string>, reply: AuthReply)
    requires Complete(reply) && UserIdText(reply.user.value) != ""
    ensures SessionPresent(SignedInItems(items, reply))
  {
  }

  /** After the three keys are removed, no session remains. */
  lemma ClearedSessionAbsent(items: map<string, string>)
    ensures !SessionPresent(items - SessionKeys)
  {
    assert "token" !in items - SessionKeys;
  }

  /** `{...user, role}`. */
  function WithRole(user: Fields, role: string): (u: Fields)
    ensures u.Keys == user.Keys + {"role"}
    ensures u["role"] == role
    ensures forall k :: k in user && k != "role" ==> u[k] == user[k]
  {
    user["role" := role]
  }

  /** `{...profile, role, id: userId}`. */
  function CheckedUser(profile: Fields, role: string, userId: string): (u: Fields)
    ensures u.Keys == profile.Keys + {"role", "id"}
    ensures u["role"] == role && u["id"] == userId
    ensures forall k :: k in profile && k !in {"role", "id"} ==> u[k] == profile[k]
  {
    profile["role" := role]["id" := userId]
  }

  /** `{...user, ...update}`: every key of either, the update's value winning. */
  function Merge(user: Fields, update: Fields): (m: Fields)
    ensures m.Keys == user.Keys + update.Keys
    ensures forall k :: k in update ==> m[k] == update[k]
    ensures forall k :: k in user && k !in update ==> m[k] == user[k]
  {
    map k | k in user.Keys + update.Keys :: if k in update then update[k] else user[k]
  }

  /** Applying the same update twice is applying it once, and an empty update changes
      nothing. */
  lemma MergeIdempotent(user: Fields, update: Fields)
    ensures Merge(Merge(user, update), update) == Merge(user, update)
    ensures Merge(user, map[]) == user
  {
  }

  // ---------------------------------------------------------------- error texts

  const LoginFallback: string := "Login failed. Please try again."
  const InvalidReply: string := "Invalid response format from server"

  /** The text `register` returns for a failure, in order of precedence: network, server
      error, the server's own text, the exception's message, a fallback. */
  function RegisterErrorText(e: HttpError): (msg: string)
    ensures msg != ""
    ensures e.network ==> msg == OfflineText
    ensures !e.network && HasStatus(e, 500) ==> msg == ServerErrorText
    ensures !e.network && !HasStatus(e, 500) && e.dataError != "" ==> msg == e.dataError
    ensures !e.network && !HasStatus(e, 500) && e.dataError == "" && e.message != "" ==> msg == e.message
    ensures !e.network && !HasStatus(e, 500) && e.dataError == "" && e.message == "" ==> msg == RegisterFallback
  {
    if e.network then OfflineText
    else if HasStatus(e, 500) then ServerErrorText
    else Or(e.dataError, Or(e.message, RegisterFallback))
  }

  /** An error `register` or `login` throws itself (such as the refusal of an incomplete
      reply) has no response: `register` shows its message, `login`, which reads only the
      response's error field, shows its fallback. */
  lemma ThrownErrorTexts(msg: string)
    requires msg != ""
    ensures RegisterErrorText(Thrown(msg)) == msg
    ensures ServerText(Thrown(msg), LoginFallback) == LoginFallback
  {
  }

  /** What `login` and `register` return to the page. */
  datatype AuthResult = Succeeded(role: string) | Failed(error: string)

  /** What `updateProfile` returns. */
  datatype UpdateResult = Updated | UpdateFailed(error: string)

  // ---------------------------------------------------------------- provider state

  class AuthProvider {
    var user: Option<Fields>
    var loading: bool
    /** `axios.defaults.headers.common['Authorization']`, `None` when deleted. */
    var defaultAuthorization: Option<string>

    constructor ()
      ensures user.None? && loading && defaultAuthorization.None?
    {
      user, loading, defaultAuthorization := None, true, None;
    }

    /** Removes the session: the three keys, the default header and the user. */
    method EndSession(store: LocalStorage)
      modifies this, store
      ensures store.items == old(store.items) - SessionKeys
      ensures user.None? && defaultAuthorization.None? && loading == old(loading)
    {
      store.ClearSession();
      defaultAuthorization := None;
      user := None;
    }

    /** The response interceptor for a failed request at `path`. */
    method OnResponseError(store: LocalStorage, e: HttpError, path: string) returns (nav: Option<string>)
      modifies this, store
      ensures !HasStatus(e, 401) ==>
                nav.None? && store.items == old(store.items) && user == old(user) &&
                defaultAuthorization == old(defaultAuthorization)
      ensures HasStatus(e, 401) ==>
                store.items == old(store.items) - SessionKeys && user.None? && defaultAuthorization.None? &&
                (nav.Some? <==> ShouldRedirectHome(path)) && (nav.Some? ==> nav.value == "/")
      ensures loading == old(loading)
    {
      nav := None;
      if HasStatus(e, 401) {
        EndSession(store);
        if ShouldRedirectHome(path) {
          nav := Some("/");
        }
      }
    }

    /** `checkAuth`, given the outcome of the profile request; returns the route
        navigated to and the role whose profile was requested. */
    method CheckAuth(store: LocalStorage, path: string, outcome: Outcome<Fields>) returns (nav: Option<string>, requested: Option<string>)
      modifies this, store
      ensures !loading
      ensures !SessionPresent(old(store.items)) ==> requested.None?
      ensures SessionPresent(old(store.items)) ==> requested == Some(Get(old(store.items), "role"))
      ensures requested.Some? && outcome.Ok? ==>
                store.items == old(store.items) && nav.None? &&
                user == Some(CheckedUser(outcome.data, Get(store.items, "role"), Get(store.items, "userId"))) &&
                defaultAuthorization == AuthorizationHeader(Some(Get(store.items, "token")))
      ensures requested.None? || outcome.Fail? ==>
                store.items == old(store.items) - SessionKeys && user.None? && defaultAuthorization.None? &&
                (nav.Some? <==> ShouldRedirectHome(path)) && (nav.Some? ==> nav.value == "/")
    {
      nav, requested := None, None;
      var token := store.Read("token");
      var role := store.Read("role");
      var userId := store.Read("userId");
      if token != "" && role != "" && userId != "" {
        defaultAuthorization := Some("Bearer " + token);
        requested := Some(role);
        if outcome.Ok? {
          user := Some(CheckedUser(outcome.data, role, userId));
          loading := false;
          return;
        }
      }
      EndSession(store);
      if ShouldRedirectHome(path) {
        nav := Some("/");
      }
      loading := false;
    }

    /** Stores an accepted reply and signs the user in. */
    method Accept(store: LocalStorage, reply: AuthReply)
      requires Complete(reply)
      modifies this, store
      ensures store.items == SignedInItems(old(store.items), reply)
      ensures user == Some(WithRole(reply.user.value, reply.role.value))
      ensures defaultAuthorization == AuthorizationHeader(reply.token)
      ensures loading == old(loading)
    {
      store.SetItem("token", reply.token.value);
      store.SetItem("role", reply.role.value);
      store.SetItem("userId", UserIdText(reply.user.value));
      defaultAuthorization := Some("Bearer " + reply.token.value);
      user := Some(WithRole(reply.user.value, reply.role.value));
    }

    /** `login`, given the reply to the credentials. */
    method Login(store: LocalStorage, outcome: Outcome<AuthReply>) returns (result: AuthResult)
      modifies this, store
      ensures outcome.Ok? && Complete(outcome.data) ==>
                result == Succeeded(outcome.data.role.value) &&
                store.items == SignedInItems(old(store.items), outcome.data) &&
                user == Some(WithRole(outcome.data.user.value, outcome.data.role.value)) &&
                defaultAuthorization == AuthorizationHeader(outcome.data.token)
      ensures outcome.Ok? && !Complete(outcome.data) ==>
                result == Failed(LoginFallback) && store.items == old(store.items) &&
                user == old(user) && defaultAuthorization == old(defaultAuthorization)
      ensures outcome.Fail? ==>
                result == Failed(ServerText(outcome.err, LoginFallback)) && store.items == old(store.items) &&
                user == old(user) && defaultAuthorization == old(defaultAuthorization)
      ensures loading == old(loading)
    {
      match outcome {
        case Ok(reply) =>
          if !Complete(reply) {
            result := Failed(ServerText(Thrown(InvalidReply), LoginFallback));
            return;
          }
          Accept(store, reply);
          result := Succeeded(reply.role.value);
        case Fail(e) =>
          result := Failed(ServerText(e, LoginFallback));
      }
    }

    /** `register`, given the reply to the registration data. */
    method Register(store: LocalStorage, outcome: Outcome<AuthReply>) returns (result: AuthResult)
      modifies this, store
      ensures outcome.Ok? && Complete(outcome.data) ==>
                result == Succeeded(outcome.data.role.value) &&
                store.items == SignedInItems(old(store.items), outcome.data) &&
                user == Some(WithRole(outcome.data.user.value, outcome.data.role.value)) &&
                defaultAuthorization == AuthorizationHeader(outcome.data.token)
      ensures outcome.Ok? && !Complete(outcome.data) ==>
                result == Failed(InvalidReply) && store.items == old(store.items) &&
                user == old(user) && defaultAuthorization == old(defaultAuthorization)
      ensures outcome.Fail? ==>
                result == Failed(RegisterErrorText(outcome.err)) && store.items == old(store.items) &&
                user == old(user) && defaultAuthorization == old(defaultAuthorization)
      ensures loading == old(loading)
    {
      match outcome {
        case Ok(reply) =>
          if !Complete(reply) {
            result := Failed(RegisterErrorText(Thrown(InvalidReply)));
            return;
          }
          Accept(store, reply);
          result := Succeeded(reply.role.value);
        case Fail(e) =>
          result := Failed(RegisterErrorText(e));
      }
    }

    /** `logout`: ends the session and goes to the login page. */
    method Logout(store: LocalStorage) returns (nav: string)
      modifies this, store
      ensures store.items == old(store.items) - SessionKeys && !SessionPresent(store.items)
      ensures user.None? && defaultAuthorization.None? && loading == old(loading)
      ensures nav == "/login"
    {
      EndSession(store);
      ClearedSessionAbsent(old(store.items));
      nav := "/login";
    }

    /** `updateProfile`, given the reply to the update; returns the result and the role
        whose profile was addressed (`null` when none is stored). */
    method UpdateProfile(store: LocalStorage, outcome: Outcome<Fields>) returns (result: UpdateResult, addressed: string)
      modifies this
      ensures addressed == (if store.GetItem("role").Some? then store.GetItem("role").value else "null")
      ensures outcome.Ok? ==>
                result == Updated &&
                user == Some(Merge(if old(user).Some? then old(user).value else map[], outcome.data))
      ensures outcome.Fail? ==>
                result == UpdateFailed(ServerText(outcome.err, UpdateFallback)) && user == old(user)
      ensures loading == old(loading) && defaultAuthorization == old(defaultAuthorization)
    {
      addressed := if store.GetItem("role").Some? then store.GetItem("role").value else "null";
      match outcome {
        case Ok(data) =>
          user := Some(Merge(if user.Some? then user.value else map[], data));
          result := Updated;
        case Fail(e) =>
          result := UpdateFailed(ServerText(e, UpdateFallback));
      }
    }
  }
}
