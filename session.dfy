/** What a successful sign-in or registration writes to `localStorage` and where it leads. */
module Session {
  import opened Js
  import opened Browser
  import opened Navigation

  /** The body of a login or registration reply. Each part may be missing; `user` is the
      user object, whose `id` key may be missing too. */
  datatype AuthReply = AuthReply(token: Option<string>, role: Option<string>, user: Option<Fields>)

  /** `user.id` of a present user: the text `setItem` stores for it. */
  function UserIdText(user: Fields): (r: string)
    ensures "id" in user ==> r == user["id"]
    ensures "id" !in user ==> r == "undefined"
  {
    StoredText(if "id" in user then Some(user["id"]) else None)
  }

  /** The storage after `setItem('token', …)`, `setItem('role', …)` and, when the reply
      has a user, `setItem('userId', user.id)`. Without a user the third call throws, so
      `userId` keeps whatever it held. */
  function SignedInItems(items: map<string, string>, reply: AuthReply): (r: map<string, string>)
    ensures "token" in r && r["token"] == StoredText(reply.token)
    ensures "role" in r && r["role"] == StoredText(reply.role)
    ensures reply.user.Some? ==> "userId" in r && r["userId"] == UserIdText(reply.user.value)
    ensures reply.user.None? ==> ("userId" in r <==> "userId" in items)
    ensures reply.user.None? && "userId" in items ==> r["userId"] == items["userId"]
    ensures forall k :: k !in SessionKeys ==> (k in r <==> k in items)
    ensures forall k :: k !in SessionKeys && k in items ==> r[k] == items[k]
  {
    var withRole := items["token" := StoredText(reply.token)]["role" := StoredText(reply.role)];
    if reply.user.Some? then withRole["userId" := UserIdText(reply.user.value)] else withRole
  }

  /** Signing out after signing in leaves exactly the keys that are not part of a
      session, as they were before signing in. */
  lemma SignOutUndoesSignIn(items: map<string, string>, reply: AuthReply)
    ensures SignedInItems(items, reply) - SessionKeys == items - SessionKeys
  {
    var r := SignedInItems(items, reply);
    assert (r - SessionKeys).Keys == (items - SessionKeys).Keys;
  }

  /** The `switch (role)` after sign-in: a missing role falls to the default branch. */
  function SignInRoute(reply: AuthReply): (route: string)
    ensures reply.role.None? ==> route == "/"
    ensures reply.role.Some? ==> route == DashboardFor(reply.role.value)
  {
    if reply.role.Some? then DashboardFor(reply.role.value) else "/"
  }
}
