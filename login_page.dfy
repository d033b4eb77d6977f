/**
 * src/pages/LoginPage.jsx: `handleSubmit` posts the form; a success stores the session and
 * routes by role, a failure shows a message.
 */
module LoginPage {
  import opened Wrappers
  import Text
  import AuthSlice

  /** The role-to-route switch. */
  function RouteFor(role: string): (path: string)
    ensures role == "user" <==> path == "/user-dashboard"
    ensures role == "astrologer" <==> path == "/astrologer-dashboard"
    ensures role == "admin" <==> path == "/admin-dashboard"
    ensures role !in {"user", "astrologer", "admin"} <==> path == "/dashboard"
  {
    match role
    case "user" => "/user-dashboard"
    case "astrologer" => "/astrologer-dashboard"
    case "admin" => "/admin-dashboard"
    case _ => "/dashboard"
  }

  /** What the request comes back with. */
  datatype Reply =
    /** `fetch` or `response.json()` threw with this message. */
    | Thrown(error: string)
    /** A parsed body: `ok`, `data.message`, `data.data.jwtToken`, `data.data.user`. */
    | Replied(ok: bool, message: Option<string>, jwt: string, user: AuthSlice.User)

  class Page {
    const store: AuthSlice.Store
    var error: Option<string>
    var location: Option<string>

    constructor (store: AuthSlice.Store)
      ensures this.store == store && error == None && location == None
    {
      this.store := store;
      error, location := None, None;
    }

    /**
     * `handleSubmit`: the error is cleared first; a failure (thrown, or a non-ok reply carrying
     * `data.message` or else "Login failed") becomes the error with no dispatch and no move;
     * an ok reply dispatches `loginSuccess` and then routes by the user's role.
     */
    method HandleSubmit(reply: Reply)
      modifies this, store
      ensures reply.Thrown? ==> error == Some(reply.error)
      ensures reply.Replied? && !reply.ok ==> error == Some(Text.Or(reply.message, "Login failed"))
      ensures reply.Thrown? || !reply.ok ==> store.State() == old(store.State()) && location == old(location)
      ensures reply.Replied? && reply.ok ==>
        error == None && store.State() == AuthSlice.LoggedIn(old(store.State()), reply.jwt, reply.user)
        && location == Some(RouteFor(reply.user.role))
    {
      error := None;
      if reply.Thrown? {
        error := Some(reply.error);
        return;
      }
      if !reply.ok {
        error := Some(Text.Or(reply.message, "Login failed"));
        return;
      }
      store.LoginSuccess(reply.jwt, reply.user);
      location := Some(RouteFor(reply.user.role));
    }
  }
}
