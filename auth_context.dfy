/** The authentication context of the frontend: the signed-in user, kept as
    the bearer token, and its copy in the browser's local storage. */
module AuthContext {
  import opened Util

  const TokenKey: string := "token"

  /** The context's `user` value, `{ token }`. */
  datatype SessionUser = SessionUser(token: string)

  /** What the login API call produced. */
  datatype LoginResponse = LoginOk(accessToken: string) | LoginFailed

  class AuthProvider {
    var storage: map<string, string>
    var user: Option<SessionUser>
    var loading: bool

    /** The provider as first rendered, over the stored entries. */
    constructor (storage: map<string, string>)
      ensures this.storage == storage && user.None? && loading
    {
      this.storage := storage;
      user := None;
      loading := true;
    }

    /** The mount effect: a stored, non-empty token becomes the user; the
        storage is untouched and loading ends false. */
    method Restore()
      modifies this
      ensures storage == old(storage) && !loading
      ensures TokenKey in storage && storage[TokenKey] != "" ==> user == Some(SessionUser(storage[TokenKey]))
      ensures !(TokenKey in storage && storage[TokenKey] != "") ==> user == old(user)
    {
      if TokenKey in storage && storage[TokenKey] != "" {
        user := Some(SessionUser(storage[TokenKey]));
      }
      loading := false;
    }

    /** `login`: on success the access token is stored under 'token' and
        becomes the user, and the result is true; on failure nothing
        changes and the result is false. */
    method Login(response: LoginResponse) returns (ok: bool)
      modifies this
      ensures ok <==> response.LoginOk?
      ensures ok ==> storage == old(storage)[TokenKey := response.accessToken]
      ensures ok ==> user == Some(SessionUser(response.accessToken))
      ensures !ok ==> storage == old(storage) && user == old(user)
      ensures loading == old(loading)
    {
      match response {
        case LoginOk(token) =>
          storage := storage[TokenKey := token];
          user := Some(SessionUser(token));
          ok := true;
        case LoginFailed =>
          ok := false;
      }
    }

    /** `logout`: the stored token is removed, every other entry kept, and
        the user cleared. */
    method Logout()
      modifies this
      ensures storage == old(storage) - {TokenKey} && TokenKey !in storage
      ensures user.None? && loading == old(loading)
    {
      storage := storage - {TokenKey};
      user := None;
    }
  }
}
