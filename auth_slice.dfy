/**
 * src/redux/slices/authSlice.js: the session store. It keeps the token, and the logged-in
 * account in exactly one of two slots by role, and mirrors the token under the browser
 * storage key "token".
 */
module AuthSlice {
  import opened Wrappers

  datatype User = User(id: string, role: string, username: string)

  const TokenKey := "token"

  /** Everything the reducers can touch: the three fields and the browser storage. */
  datatype AuthState = AuthState(token: Option<string>, user: Option<User>, astrologer: Option<User>,
                                 storage: map<string, string>)

  /** The state `loginSuccess` leaves behind. */
  function LoggedIn(s: AuthState, jwt: string, u: User): (r: AuthState)
    ensures r.token == Some(jwt) && TokenKey in r.storage && r.storage[TokenKey] == jwt
    ensures forall k :: k != TokenKey ==> (k in r.storage <==> k in s.storage)
    ensures forall k :: k != TokenKey && k in s.storage ==> r.storage[k] == s.storage[k]
    ensures u.role == "astrologer" ==> r.astrologer == Some(u) && r.user == None
    ensures u.role != "astrologer" ==> r.user == Some(u) && r.astrologer == None
  {
    if u.role == "astrologer" then AuthState(Some(jwt), None, Some(u), s.storage[TokenKey := jwt])
    else AuthState(Some(jwt), Some(u), None, s.storage[TokenKey := jwt])
  }

  /** The state `logout` leaves behind. */
  function LoggedOut(s: AuthState): (r: AuthState)
    ensures r.token == None && r.user == None && r.astrologer == None
    ensures TokenKey !in r.storage
    ensures forall k :: k != TokenKey ==> (k in r.storage <==> k in s.storage)
    ensures forall k :: k != TokenKey && k in s.storage ==> r.storage[k] == s.storage[k]
  {
    AuthState(None, None, None, s.storage - {TokenKey})
  }

  /** After a login exactly one of the two account slots is filled. */
  lemma LoginFillsOneSlot(s: AuthState, jwt: string, u: User)
    ensures LoggedIn(s, jwt, u).user.Some? != LoggedIn(s, jwt, u).astrologer.Some?
  {
  }

  /** Logging out twice is logging out once. */
  lemma LogoutIdempotent(s: AuthState)
    ensures LoggedOut(LoggedOut(s)) == LoggedOut(s)
  {
    assert LoggedOut(s).storage - {TokenKey} == LoggedOut(s).storage;
  }


  /** The store; reducers update it in place. */
  class Store {
    var token: Option<string>
    var user: Option<User>
    var astrologer: Option<User>
    var storage: map<string, string>

    function State(): AuthState
      reads this
    {
      AuthState(token, user, astrologer, storage)
    }

    /** The initial state: the stored token (an empty one counts as none), no account. */
    constructor (storage: map<string, string>)
      ensures token == if TokenKey in storage && storage[TokenKey] != "" then Some(storage[TokenKey]) else None
      ensures user == None && astrologer == None && this.storage == storage
    {
      token := if TokenKey in storage && storage[TokenKey] != "" then Some(storage[TokenKey]) else None;
      user, astrologer := None, None;
      this.storage := storage;
    }

    /** `loginSuccess` with `payload.data.jwtToken` and `payload.data.user`. */
    method LoginSuccess(jwt: string, u: User)
      modifies this
      ensures State() == LoggedIn(old(State()), jwt, u)
    {
      token := Some(jwt);
      storage := storage[TokenKey := jwt];
      if u.role == "astrologer" {
        astrologer := Some(u);
        user := None;
      } else {
        user := Some(u);
        astrologer := None;
      }
    }

    method Logout()
      modifies this
      ensures State() == LoggedOut(old(State()))
    {
      token := None;
      user := None;
      astrologer := None;
      storage := storage - {TokenKey};
    }
  }
}
