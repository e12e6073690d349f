/** The token handling of the client's HTTP transport: the request
    interceptor that adds the bearer token, the response interceptors that
    store a new token or drop it on a 401, and the token clearing of
    `logout`. `localStorage` is a map from keys to strings. */
module Api {
  import opened Base
  import Js

  const AuthToken := "auth_token"
  const RefreshToken := "refresh_token"
  const Authorization := "Authorization"

  /** The transport's base URL. */
  const ApiUrl := "/api"

  /** The headers every request starts with. */
  const DefaultHeaders: map<string, string> := map["Content-Type" := "application/json"]

  /** An outgoing request as the request interceptor sees it. */
  datatype Request = Request(verb: string, url: string, headers: map<string, string>, body: Js.Value)

  /** A failed call: `error.response?.status`, absent when no response came. */
  datatype HttpError = HttpError(status: Option<int>)

  /** How a call settled: the response data, or the error axios raised. */
  datatype Outcome = Answered(data: Js.Value) | Failed(error: HttpError)

  /** `localStorage.getItem(key)`, `null` for a missing key. */
  function GetItem(store: map<string, string>, key: string): Option<string>
  {
    if key in store then Some(store[key]) else None
  }

  // ---------------------------------------------------------------------
  // The interceptors as functions of the store

  /** The request interceptor: a stored, non-empty `auth_token` becomes the
      `Authorization` header; otherwise the request goes out as it is. */
  function Authorized(store: map<string, string>, config: Request): (r: Request)
    ensures r.verb == config.verb && r.url == config.url && r.body == config.body
    ensures AuthToken in store && store[AuthToken] != "" ==>
      r.headers == config.headers[Authorization := "Bearer " + store[AuthToken]]
    ensures AuthToken !in store || store[AuthToken] == "" ==> r == config
  {
    var token := GetItem(store, AuthToken);
    if token.Some? && token.value != "" then
      config.(headers := config.headers[Authorization := "Bearer " + token.value])
    else config
  }

  /** The response interceptor: a truthy `data?.access_token` is saved as
      `auth_token` (`setItem` turns it into a string); no other key changes. */
  function AfterResponse(store: map<string, string>, data: Js.Value): (r: map<string, string>)
    ensures r - {AuthToken} == store - {AuthToken}
    ensures Js.Truthy(Js.Member(data, "access_token")) ==>
      AuthToken in r && r[AuthToken] == Js.ToString(Js.Member(data, "access_token"))
    ensures !Js.Truthy(Js.Member(data, "access_token")) ==> r == store
  {
    var token := Js.Member(data, "access_token");
    if Js.Truthy(token) then store[AuthToken := Js.ToString(token)] else store
  }

  /** The error interceptor: a 401 drops `auth_token`; any other failure
      leaves the store alone. The error is rejected either way. */
  function AfterError(store: map<string, string>, e: HttpError): (r: map<string, string>)
    ensures e.status == Some(401) ==> r == store - {AuthToken} && AuthToken !in r
    ensures e.status != Some(401) ==> r == store
  {
    if e.status == Some(401) then store - {AuthToken} else store
  }

  /** The request `logout` sends: the stored refresh token, `null` when
      there is none. */
  function LogoutRequest(store: map<string, string>): (r: Request)
    ensures r.body == Js.Obj(map["refresh_token" := if RefreshToken in store then Js.Str(store[RefreshToken]) else Js.Null])
  {
    var refreshToken := GetItem(store, RefreshToken);
    Request("POST", ApiUrl + "/auth/logout", DefaultHeaders,
      Js.Obj(map["refresh_token" := if refreshToken.Some? then Js.Str(refreshToken.value) else Js.Null]))
  }

  // ---------------------------------------------------------------------
  // What the interceptors add up to

  /** After a response carrying a token, the next request carries it. */
  lemma BearerAfterLogin(store: map<string, string>, token: string, config: Request)
    requires token != ""
    ensures Authorized(AfterResponse(store, Js.Obj(map["access_token" := Js.Str(token)])), config).headers
         == config.headers[Authorization := "Bearer " + token]
  {
    var data := Js.Obj(map["access_token" := Js.Str(token)]);
    assert Js.Member(data, "access_token") == Js.Str(token);
  }

  /** After a 401 no bearer token is added any more. */
  lemma NoBearerAfterUnauthorized(store: map<string, string>, config: Request)
    ensures Authorized(AfterError(store, HttpError(Some(401))), config) == config
  {
  }

  /** A token that is not a string is stored as its string form, so it is
      sent back as that string. */
  lemma NumericTokenSentAsDecimal(store: map<string, string>, n: nat, config: Request)
    requires n > 0
    ensures Authorized(AfterResponse(store, Js.Obj(map["access_token" := Js.Num(n)])), config).headers
         == config.headers[Authorization := "Bearer " + Js.DecimalString(n)]
  {
    var data := Js.Obj(map["access_token" := Js.Num(n)]);
    assert Js.Member(data, "access_token") == Js.Num(n);
  }

  // ---------------------------------------------------------------------
  // The transport

  class ApiClient {
    /** `localStorage`. */
    var store: map<string, string>

    constructor(store: map<string, string>)
      ensures this.store == store
    {
      this.store := store;
    }

    /** `interceptors.request`: reads the store, changes nothing. */
    method InterceptRequest(config: Request) returns (r: Request)
      ensures r == Authorized(store, config)
    {
      var token := GetItem(store, AuthToken);
      r := config;
      if token.Some? && token.value != "" {
        r := config.(headers := config.headers[Authorization := "Bearer " + token.value]);
      }
    }

    /** `interceptors.response`, success path. */
    method InterceptResponse(data: Js.Value)
      modifies this
      ensures store == AfterResponse(old(store), data)
    {
      var token := Js.Member(data, "access_token");
      if Js.Truthy(token) {
        store := store[AuthToken := Js.ToString(token)];
      }
    }

    /** `interceptors.response`, error path: returns the error it rejects. */
    method InterceptError(e: HttpError) returns (rejected: HttpError)
      modifies this
      ensures rejected == e
      ensures store == AfterError(old(store), e)
    {
      if e.status == Some(401) {
        store := store - {AuthToken};
      }
      rejected := e;
    }

    /** `logout`: posts the refresh token through the interceptors, and only
        when the call succeeds removes both tokens. A failure is rethrown
        after the error interceptor ran, so a 401 has still dropped
        `auth_token`. */
    method Logout(outcome: Outcome) returns (sent: Request, result: Result<Js.Value, HttpError>)
      modifies this
      ensures sent == Authorized(old(store), LogoutRequest(old(store)))
      ensures outcome.Answered? ==>
        result == Success(outcome.data) && store == old(store) - {AuthToken, RefreshToken}
      ensures outcome.Failed? ==>
        result == Failure(outcome.error) && store == AfterError(old(store), outcome.error)
      ensures outcome.Failed? && outcome.error.status != Some(401) ==> store == old(store)
      ensures outcome.Failed? ==> GetItem(store, RefreshToken) == GetItem(old(store), RefreshToken)
    {
      sent := InterceptRequest(LogoutRequest(store));
      match outcome
      case Answered(data) =>
        InterceptResponse(data);
        store := store - {AuthToken};
        store := store - {RefreshToken};
        result := Success(data);
      case Failed(e) =>
        var rejected := InterceptError(e);
        result := Failure(rejected);
    }
  }

  /** After a successful logout the next request carries no token, whatever
      the store held and whatever the logout response contained. */
  method RequestAfterLogout(store: map<string, string>, data: Js.Value, config: Request)
    returns (next: Request)
    ensures next == config
  {
    var client := new ApiClient(store);
    var _, _ := client.Logout(Answered(data));
    next := client.InterceptRequest(config);
  }
}
