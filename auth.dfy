/** The session held by the authentication context: restoring it from storage, logging
    in, logging out and refreshing the profile, over the browser's storage. */
module Auth {
  import opened Wrappers
  import opened Js
  import Browser
  import Http

  /** A signed-in administrator, by the fields the dashboard reads. */
  datatype User = User(name: Option<string>, username: Option<string>, email: Option<string>)

  /** `JSON.stringify` and `JSON.parse` for users; `decode` yields None where the parse throws. */
  datatype Codec = Codec(encode: User -> string, decode: string -> Option<User>)

  /** The codec reads back what it writes, and never writes a text the restore step rejects. */
  ghost predicate Lawful(codec: Codec) {
    forall u :: codec.decode(codec.encode(u)) == Some(u) && codec.encode(u) != "" &&
      codec.encode(u) != "undefined" && codec.encode(u) != "null"
  }

  /** A token and user pair as the login reply may carry it. */
  datatype Credentials = Credentials(token: Option<string>, user: Option<User>)

  /** The login reply body: `status`, `message`, and the pair under `admin`, under `data`
      or at the top level. */
  datatype LoginPayload = LoginPayload(
    status: Option<string>,
    message: Option<string>,
    admin: Option<Credentials>,
    data: Option<Credentials>,
    token: Option<string>,
    user: Option<User>)

  datatype UserHolder = UserHolder(user: Option<User>)

  /** The `/me` reply body: the user under `data.user`, `user` or `admin.user`. */
  datatype MePayload = MePayload(data: Option<UserHolder>, user: Option<User>, admin: Option<UserHolder>)

  /** `{ success: true }` or `{ success: false, message }`; the message may be undefined. */
  datatype Outcome = Success | Failure(message: Option<string>)

  /** A pair with a non-empty token and a user. */
  predicate Complete(c: Option<Credentials>) {
    c.Some? && Truthy(c.value.token) && c.value.user.Some?
  }

  function Unpack(c: Option<Credentials>): (string, User)
    requires Complete(c)
  {
    (c.value.token.value, c.value.user.value)
  }

  /** The credentials a successful login takes: the first complete pair of `admin`,
      `data` and the top level, in that order. */
  function SelectCredentials(p: LoginPayload): (r: Option<(string, User)>)
    ensures var top := Some(Credentials(p.token, p.user));
      r.Some? <==> Complete(p.admin) || Complete(p.data) || Complete(top)
    ensures Complete(p.admin) ==> r == Some(Unpack(p.admin))
    ensures !Complete(p.admin) && Complete(p.data) ==> r == Some(Unpack(p.data))
    ensures var top := Some(Credentials(p.token, p.user));
      !Complete(p.admin) && !Complete(p.data) && Complete(top) ==> r == Some(Unpack(top))
    ensures r.Some? ==> r.value.0 != ""
  {
    var top := Some(Credentials(p.token, p.user));
    if Complete(p.admin) then Some(Unpack(p.admin))
    else if Complete(p.data) then Some(Unpack(p.data))
    else if Complete(top) then Some(Unpack(top))
    else None
  }

  predicate LoginAccepted(reply: Http.Reply<Option<LoginPayload>>) {
    reply.Ok? && reply.body.Some? && reply.body.value.status == Some("success")
  }

  /** What `login` returns for a reply (after the client's interceptor). */
  function LoginOutcome(reply: Http.Reply<Option<LoginPayload>>): (r: Outcome)
    ensures r.Success? <==> LoginAccepted(reply) && SelectCredentials(reply.body.value).Some?
    ensures r.Failure? ==> r.message.Some? && r.message.value != ""
    ensures LoginAccepted(reply) && r.Failure? ==>
      r.message == Some(Or(reply.body.value.message, "Unexpected login response"))
    ensures reply.Ok? && !LoginAccepted(reply) ==>
      r.message == Some(if reply.body.Some? then Or(reply.body.value.message, "Login failed") else "Login failed")
    ensures reply.Err? ==>
      r.message == Some(Or(reply.error.responseMessage, Or(reply.error.message, "Login failed")))
  {
    match reply
    case Err(e) => Failure(Some(Or(e.responseMessage, Or(e.message, "Login failed"))))
    case Ok(None) => Failure(Some("Login failed"))
    case Ok(Some(p)) =>
      if p.status != Some("success") then Failure(Some(Or(p.message, "Login failed")))
      else if SelectCredentials(p).None? then Failure(Some(Or(p.message, "Unexpected login response")))
      else Success
  }

  /** The user the profile refresh takes: `data.user`, else `user`, else `admin.user`. */
  function SelectUpdatedUser(p: Option<MePayload>): (r: Option<User>)
    ensures r.Some? <==> (p.Some? && ((p.value.data.Some? && p.value.data.value.user.Some?) ||
      p.value.user.Some? || (p.value.admin.Some? && p.value.admin.value.user.Some?)))
    ensures p.Some? && p.value.data.Some? && p.value.data.value.user.Some? ==> r == p.value.data.value.user
    ensures p.Some? && !(p.value.data.Some? && p.value.data.value.user.Some?) && p.value.user.Some? ==> r == p.value.user
    ensures (p.Some? && !(p.value.data.Some? && p.value.data.value.user.Some?) && p.value.user.None? &&
      p.value.admin.Some?) ==> r == p.value.admin.value.user
  {
    if p.None? then None
    else if p.value.data.Some? && p.value.data.value.user.Some? then p.value.data.value.user
    else if p.value.user.Some? then p.value.user
    else if p.value.admin.Some? && p.value.admin.value.user.Some? then p.value.admin.value.user
    else None
  }

  predicate UpdateAccepted(put: Http.Reply<Option<Http.StatusBody>>) {
    put.Ok? && put.body.Some? && put.body.value.status == Some("success")
  }

  /** The error the client's interceptor sees during a profile refresh: the update's,
      or, once the update succeeded, the `/me` request's. */
  function UpdateError(put: Http.Reply<Option<Http.StatusBody>>, me: Http.Reply<Option<MePayload>>): (r: Option<Http.HttpError>)
    ensures put.Err? ==> r == Some(put.error)
    ensures r.Some? && put.Ok? ==> UpdateAccepted(put) && me.Err? && r == Some(me.error)
    ensures UpdateAccepted(put) && me.Err? ==> r == Some(me.error)
  {
    if put.Err? then Some(put.error)
    else if UpdateAccepted(put) && me.Err? then Some(me.error)
    else None
  }

  /** What `updateProfile` returns for the update reply and the `/me` reply. */
  function UpdateOutcome(put: Http.Reply<Option<Http.StatusBody>>, me: Http.Reply<Option<MePayload>>): (r: Outcome)
    ensures r.Success? <==> UpdateAccepted(put) && me.Ok? && SelectUpdatedUser(me.body).Some?
    ensures UpdateAccepted(put) && me.Ok? && r.Failure? ==> r.message == Some("Failed to get updated user data")
    ensures put.Ok? && put.body.Some? && !UpdateAccepted(put) ==> r == Failure(put.body.value.message)
    ensures put.Ok? && put.body.None? ==> r == Failure(Some("Update failed"))
    ensures UpdateError(put, me).Some? ==> r == Failure(Some(Or(UpdateError(put, me).value.responseMessage, "Update failed")))
  {
    match put
    case Err(e) => Failure(Some(Or(e.responseMessage, "Update failed")))
    case Ok(None) => Failure(Some("Update failed"))
    case Ok(Some(b)) =>
      if b.status != Some("success") then Failure(b.message)
      else match me
        case Err(e) => Failure(Some(Or(e.responseMessage, "Update failed")))
        case Ok(p) => if SelectUpdatedUser(p).None? then Failure(Some("Failed to get updated user data")) else Success
  }

  /** What the start-up step finds in storage. */
  datatype Restore = NoSession | Restored(user: User) | Unreadable

  /** A stored token and a stored user text other than "undefined" and "null" are read
      back; a text that does not parse counts as unreadable. */
  function RestoreFrom(storage: map<string, string>, codec: Codec): (r: Restore)
    ensures var token := if Browser.TokenKey in storage then Some(storage[Browser.TokenKey]) else None;
      var data := if Browser.UserKey in storage then Some(storage[Browser.UserKey]) else None;
      var stored := Truthy(token) && Truthy(data) && data.value != "undefined" && data.value != "null";
      && (r.NoSession? <==> !stored)
      && (r.Restored? <==> stored && codec.decode(data.value).Some?)
      && (r.Restored? ==> codec.decode(data.value) == Some(r.user))
  {
    if Browser.TokenKey in storage && storage[Browser.TokenKey] != "" &&
       Browser.UserKey in storage && storage[Browser.UserKey] != "" &&
       storage[Browser.UserKey] != "undefined" && storage[Browser.UserKey] != "null"
    then
      match codec.decode(storage[Browser.UserKey])
      case Some(u) => Restored(u)
      case None => Unreadable
    else NoSession
  }

  class AuthProvider {
    const api: Http.ApiClient
    const codec: Codec
    var user: Option<User>
    var loading: bool

    constructor (api: Http.ApiClient, codec: Codec)
      ensures this.api == api && this.codec == codec
      ensures user == None && loading
    {
      this.api := api;
      this.codec := codec;
      user := None;
      loading := true;
    }

    /** `initializeAuth`: restore the user, or drop an unreadable session; loading ends. */
    method Initialize()
      modifies this`user, this`loading, api.window`storage
      ensures !loading
      ensures var r := RestoreFrom(old(api.window.storage), codec);
        && (r.Restored? ==> user == Some(r.user) && api.window.storage == old(api.window.storage))
        && (r.NoSession? ==> user == old(user) && api.window.storage == old(api.window.storage))
        && (r.Unreadable? ==>
              user == old(user) && api.window.storage == old(api.window.storage) - {Browser.TokenKey, Browser.UserKey})
    {
      var token := api.window.GetItem(Browser.TokenKey);
      var userData := api.window.GetItem(Browser.UserKey);
      if Truthy(token) && Truthy(userData) && userData.value != "undefined" && userData.value != "null" {
        var parsed := codec.decode(userData.value);
        if parsed.Some? {
          user := parsed;
        } else {
          api.window.RemoveItem(Browser.TokenKey);
          api.window.RemoveItem(Browser.UserKey);
        }
      }
      loading := false;
    }

    /** `login`: on an accepted reply with complete credentials the token and the written
        user are stored and the user is signed in; otherwise nothing but the interceptor's
        effect happens. */
    method Login(reply: Http.Reply<Option<LoginPayload>>) returns (result: Outcome)
      modifies this`user, api.window`storage, api.window`location
      ensures result == LoginOutcome(reply)
      ensures result.Success? ==>
        var (t, u) := SelectCredentials(reply.body.value).value;
        && user == Some(u)
        && api.window.storage == old(api.window.storage)[Browser.TokenKey := t][Browser.UserKey := codec.encode(u)]
        && api.window.location == old(api.window.location)
      ensures result.Failure? ==> user == old(user)
      ensures result.Failure? ==> api.window.storage == Http.StorageAfter(old(api.window.storage), Http.ErrorOf(reply))
      ensures result.Failure? ==> api.window.location == Http.LocationAfter(old(api.window.location), Http.ErrorOf(reply))
    {
      var received := api.Receive(reply);
      if received.Err? {
        var e := received.error;
        return Failure(Some(Or(e.responseMessage, Or(e.message, "Login failed"))));
      }
      var payload := received.body;
      if payload.Some? && payload.value.status == Some("success") {
        var p := payload.value;
        var token: Option<string> := None;
        var u: Option<User> := None;
        if Complete(p.admin) {
          token, u := p.admin.value.token, p.admin.value.user;
        } else if Complete(p.data) {
          token, u := p.data.value.token, p.data.value.user;
        } else if Truthy(p.token) && p.user.Some? {
          token, u := p.token, p.user;
        }
        if !Truthy(token) || u.None? {
          return Failure(Some(Or(p.message, "Unexpected login response")));
        }
        api.window.SetItem(Browser.TokenKey, token.value);
        api.window.SetItem(Browser.UserKey, codec.encode(u.value));
        user := u;
        result := Success;
      } else {
        result := Failure(Some(if payload.Some? then Or(payload.value.message, "Login failed") else "Login failed"));
      }
    }

    /** `logout`: whether or not the server call failed, the session keys go, the user is
        signed out and the browser goes to the login page. */
    method Logout(failure: Option<Http.HttpError>)
      modifies this`user, api.window`storage, api.window`location
      ensures api.window.storage == old(api.window.storage) - {Browser.TokenKey, Browser.UserKey}
      ensures user == None && api.window.location == "/login"
    {
      if failure.Some? {
        var _ := api.InterceptResponseError(failure.value);
      }
      api.window.RemoveItem(Browser.TokenKey);
      api.window.RemoveItem(Browser.UserKey);
      user := None;
      api.window.location := "/login";
    }

    /** `updateProfile`: sends `data`; when the update is accepted, reads `/me` and stores the
        user it finds, leaving the token alone. */
    method UpdateProfile(data: map<string, string>, put: Http.Reply<Option<Http.StatusBody>>, me: Http.Reply<Option<MePayload>>)
      returns (result: Outcome)
      modifies this`user, api.window`storage, api.window`location
      ensures result == UpdateOutcome(put, me)
      ensures result.Success? ==>
        var u := SelectUpdatedUser(me.body).value;
        && user == Some(u)
        && api.window.storage == old(api.window.storage)[Browser.UserKey := codec.encode(u)]
        && api.window.location == old(api.window.location)
      ensures result.Failure? ==> user == old(user)
      ensures result.Failure? ==> api.window.storage == Http.StorageAfter(old(api.window.storage), UpdateError(put, me))
      ensures result.Failure? ==> api.window.location == Http.LocationAfter(old(api.window.location), UpdateError(put, me))
    {
      var response := api.Receive(put);
      if response.Err? {
        return Failure(Some(Or(response.error.responseMessage, "Update failed")));
      }
      if response.body.None? {
        return Failure(Some("Update failed"));
      }
      if response.body.value.status == Some("success") {
        var userResponse := api.Receive(me);
        if userResponse.Err? {
          return Failure(Some(Or(userResponse.error.responseMessage, "Update failed")));
        }
        var payload := userResponse.body;
        var updatedUser: Option<User> := None;
        if payload.Some? && payload.value.data.Some? && payload.value.data.value.user.Some? {
          updatedUser := payload.value.data.value.user;
        } else if payload.Some? && payload.value.user.Some? {
          updatedUser := payload.value.user;
        } else if payload.Some? && payload.value.admin.Some? && payload.value.admin.value.user.Some? {
          updatedUser := payload.value.admin.value.user;
        }
        if updatedUser.None? {
          return Failure(Some("Failed to get updated user data"));
        }
        api.window.SetItem(Browser.UserKey, codec.encode(updatedUser.value));
        user := updatedUser;
        result := Success;
      } else {
        result := Failure(response.body.value.message);
      }
    }
  }

  /** Signing in and then reloading the page brings back the same user. */
  method LoginThenReload(window: Browser.Window, codec: Codec, reply: Http.Reply<Option<LoginPayload>>)
    returns (result: Outcome, signedIn: Option<User>, restored: Option<User>)
    requires Lawful(codec)
    modifies window
    ensures result.Success? ==> signedIn.Some? && restored == signedIn
  {
    var api := new Http.ApiClient(window, None);
    var auth := new AuthProvider(api, codec);
    result := auth.Login(reply);
    signedIn := auth.user;
    var reloaded := new AuthProvider(api, codec);
    reloaded.Initialize();
    restored := reloaded.user;
    if result.Success? {
      var u := signedIn.value;
      assert codec.decode(codec.encode(u)) == Some(u);
    }
  }

  /** After any request is refused with 401, a reload finds no session. */
  method UnauthorizedThenReload(window: Browser.Window, codec: Codec, e: Http.HttpError)
    returns (restored: Option<User>)
    requires Http.Unauthorized(e)
    modifies window
    ensures restored == None && window.location == "/login"
    ensures Browser.TokenKey !in window.storage && Browser.UserKey !in window.storage
  {
    var api := new Http.ApiClient(window, None);
    var _ := api.InterceptResponseError(e);
    var reloaded := new AuthProvider(api, codec);
    reloaded.Initialize();
    restored := reloaded.user;
  }
}
