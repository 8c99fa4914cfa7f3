/** The shared HTTP client: its base address, default headers and the two interceptors. */
module Http {
  import opened Wrappers
  import opened Js
  import Browser

  const DefaultBaseUrl := "http://127.0.0.1:8000/api"

  /** The base address: the configured value when it is set and non-empty, else the local default. */
  function BaseUrl(configured: Option<string>): (r: string)
    ensures Truthy(configured) ==> r == configured.value
    ensures !Truthy(configured) ==> r == DefaultBaseUrl
    ensures r != ""
  {
    Or(configured, DefaultBaseUrl)
  }

  const DefaultHeaders: map<string, string> :=
    map["Content-Type" := "application/json", "Accept" := "application/json"]

  /** A rejected request: the HTTP status when a response arrived, `response.data.message`
      when the response body carries one, and the error's own `message`. */
  datatype HttpError = HttpError(status: Option<int>, responseMessage: Option<string>, message: Option<string>)

  /** What an awaited call yields: the response body, or the error it rejects with. */
  datatype Reply<T> = Ok(body: T) | Err(error: HttpError)

  /** A body carrying the backend's `status` and `message` fields. */
  datatype StatusBody = StatusBody(status: Option<string>, message: Option<string>)

  predicate Unauthorized(e: HttpError) {
    e.status == Some(401)
  }

  /** Storage after the response interceptor has seen the error `e`, if any. */
  function StorageAfter(storage: map<string, string>, e: Option<HttpError>): (r: map<string, string>)
    ensures e.Some? && Unauthorized(e.value) ==> r.Keys == storage.Keys - {Browser.TokenKey, Browser.UserKey}
    ensures forall k :: k in r ==> k in storage && r[k] == storage[k]
    ensures !(e.Some? && Unauthorized(e.value)) ==> r == storage
  {
    if e.Some? && Unauthorized(e.value) then storage - {Browser.TokenKey, Browser.UserKey} else storage
  }

  /** The address after the response interceptor has seen the error `e`, if any. */
  function LocationAfter(location: string, e: Option<HttpError>): (r: string)
    ensures e.Some? && Unauthorized(e.value) ==> r == "/login"
    ensures !(e.Some? && Unauthorized(e.value)) ==> r == location
  {
    if e.Some? && Unauthorized(e.value) then "/login" else location
  }

  /** How the two editing modals read a save reply: None when the backend reports
      `status` "success"; otherwise the message to show, which is the backend's
      message when it sent a non-empty one and "Operation failed" otherwise. A reply
      without a body makes the handler throw an error that has no response. */
  function SaveError(reply: Reply<Option<StatusBody>>): (r: Option<string>)
    ensures r.None? <==> reply.Ok? && reply.body.Some? && reply.body.value.status == Some("success")
    ensures r.Some? ==> r.value != ""
    ensures r.Some? && reply.Ok? && reply.body.Some? && Truthy(reply.body.value.message) ==>
      r.value == reply.body.value.message.value
    ensures reply.Err? ==> r == Some(Or(reply.error.responseMessage, "Operation failed"))
    ensures reply.Ok? && reply.body.Some? && reply.body.value.status != Some("success") ==>
      r == Some(Or(reply.body.value.message, "Operation failed"))
    ensures reply.Ok? && reply.body.None? ==> r == Some("Operation failed")
  {
    match reply
    case Err(e) => Some(Or(e.responseMessage, "Operation failed"))
    case Ok(None) => Some("Operation failed")
    case Ok(Some(b)) => if b.status == Some("success") then None else Some(Or(b.message, "Operation failed"))
  }

  function ErrorOf<T>(reply: Reply<T>): Option<HttpError> {
    if reply.Err? then Some(reply.error) else None
  }

  /** The outgoing request an interceptor may amend in place. */
  class RequestConfig {
    var url: string
    var headers: map<string, string>

    constructor (url: string, headers: map<string, string>)
      ensures this.url == url && this.headers == headers
    {
      this.url := url;
      this.headers := headers;
    }
  }

  /** The client every page and context uses. */
  class ApiClient {
    const window: Browser.Window
    const baseUrl: string
    const defaultHeaders: map<string, string>

    constructor (window: Browser.Window, configured: Option<string>)
      ensures this.window == window
      ensures baseUrl == BaseUrl(configured) && defaultHeaders == DefaultHeaders
    {
      this.window := window;
      baseUrl := BaseUrl(configured);
      defaultHeaders := DefaultHeaders;
    }

    /** The request interceptor: a stored, non-empty token becomes a bearer
        `Authorization` header; the same config is passed on. */
    method InterceptRequest(config: RequestConfig) returns (r: RequestConfig)
      modifies config`headers
      ensures r == config
      ensures Truthy(window.GetItem(Browser.TokenKey)) ==>
        config.headers == old(config.headers)["Authorization" := "Bearer " + window.GetItem(Browser.TokenKey).value]
      ensures !Truthy(window.GetItem(Browser.TokenKey)) ==> config.headers == old(config.headers)
    {
      var token := window.GetItem(Browser.TokenKey);
      if Truthy(token) {
        config.headers := config.headers["Authorization" := "Bearer " + token.value];
      }
      r := config;
    }

    /** The response interceptor's error path: a 401 ends the session and sends the
        browser to the login page; every error is rejected again unchanged. */
    method InterceptResponseError(e: HttpError) returns (rejected: HttpError)
      modifies window`storage, window`location
      ensures rejected == e
      ensures window.storage == StorageAfter(old(window.storage), Some(e))
      ensures window.location == LocationAfter(old(window.location), Some(e))
    {
      if Unauthorized(e) {
        window.RemoveItem(Browser.TokenKey);
        window.RemoveItem(Browser.UserKey);
        window.location := "/login";
      }
      rejected := e;
    }

    /** Passes a reply through the response interceptor: a success is returned as it is,
        an error runs the error path first. */
    method Receive<T>(reply: Reply<T>) returns (r: Reply<T>)
      modifies window`storage, window`location
      ensures r == reply
      ensures window.storage == StorageAfter(old(window.storage), ErrorOf(reply))
      ensures window.location == LocationAfter(old(window.location), ErrorOf(reply))
    {
      r := reply;
      if reply.Err? {
        var e := InterceptResponseError(reply.error);
        r := Err(e);
      }
    }
  }
}
