/**
 * The session token store and the auth endpoints (src/lib/auth.ts).
 *
 * The browser's `localStorage` is the `storage` map of a `TokenStore`; the
 * token lives under the key "token". Whether the code runs in a browser
 * (`typeof window !== "undefined"`) is fixed when the store is created.
 */
module Auth {
  import opened Wrappers
  import Text
  import Api

  const TokenKey := "token"
  const LoginPath := "/api/v1/auth/login"
  const SignupPath := "/api/v1/auth/signup"
  /** The alert a component shows when an action needs a session. */
  const LoginRequired := "로그인이 필요합니다."

  class TokenStore {
    /** `typeof window !== "undefined"`. */
    const inBrowser: bool
    /** The contents of `localStorage`. */
    var storage: map<string, string>

    constructor (inBrowser: bool, storage: map<string, string>)
      ensures this.inBrowser == inBrowser && this.storage == storage
    {
      this.inBrowser := inBrowser;
      this.storage := storage;
    }

    /** `getToken()`: null outside a browser, else the stored item (null when absent). */
    function GetToken(): (t: Option<string>)
      reads this
      ensures !inBrowser ==> t.None?
      ensures inBrowser ==> (t.Some? <==> TokenKey in storage)
      ensures t.Some? ==> TokenKey in storage && t.value == storage[TokenKey]
    {
      if !inBrowser then None
      else if TokenKey in storage then Some(storage[TokenKey])
      else None
    }

    /** `isLoggedIn()`: `!!getToken()`, so a stored empty token counts as logged out. */
    predicate IsLoggedIn()
      reads this
      ensures IsLoggedIn() <==> inBrowser && TokenKey in storage && storage[TokenKey] != ""
    {
      Text.Truthy(GetToken())
    }

    /**
     * `saveToken(token)`. Outside a browser `localStorage` does not exist and the
     * call throws (`ok` is false) without storing anything.
     */
    method SaveToken(token: string) returns (ok: bool)
      modifies this
      ensures ok == inBrowser
      ensures ok ==> storage == old(storage)[TokenKey := token]
      ensures !ok ==> storage == old(storage)
      ensures ok ==> GetToken() == Some(token)
      ensures ok ==> (IsLoggedIn() <==> token != "")
    {
      ok := inBrowser;
      if ok {
        storage := storage[TokenKey := token];
      }
    }

    /** `removeToken()`; outside a browser it throws (`ok` is false) and changes nothing. */
    method RemoveToken() returns (ok: bool)
      modifies this
      ensures ok == inBrowser
      ensures ok ==> storage == old(storage) - {TokenKey}
      ensures !ok ==> storage == old(storage)
      ensures GetToken() == None && !IsLoggedIn()
    {
      ok := inBrowser;
      if ok {
        storage := storage - {TokenKey};
      }
    }
  }

  /** The JSON body of `authApi.login`. */
  function LoginBody(email: string, password: string): (body: Api.Json) {
    Api.JObject([Api.Member("email", Api.JString(email)), Api.Member("password", Api.JString(password))])
  }

  /** The JSON body of `authApi.signup`. */
  function SignupBody(email: string, username: string, password: string): (body: Api.Json) {
    Api.JObject([Api.Member("email", Api.JString(email)), Api.Member("username", Api.JString(username)), Api.Member("password", Api.JString(password))])
  }

  /** `authApi.login(data)`: a POST of the credentials; the returned data is the token, a JSON string. */
  method Login(email: string, password: string, token: Option<string>, response: Api.Response<string>)
    returns (req: Api.HttpRequest, outcome: Api.Outcome<string>)
    requires Api.StringPayload(response)
    ensures req.endpoint == LoginPath && req.verb == Some(Api.POST)
    ensures req.headers == Api.RequestHeaders(token, map[])
    ensures req.body == Api.JsonBody(LoginBody(email, password))
    ensures outcome.Returned? ==> outcome.data.Str?
    ensures outcome == Api.Receive(response, Api.RequestFallback)
  {
    req, outcome := Api.Post(LoginPath, Some(LoginBody(email, password)), token, response);
  }

  /** `authApi.signup(data)`: a POST of the registration fields. */
  method Signup<T>(email: string, username: string, password: string, token: Option<string>, response: Api.Response<T>)
    returns (req: Api.HttpRequest, outcome: Api.Outcome<T>)
    ensures req.endpoint == SignupPath && req.verb == Some(Api.POST)
    ensures req.headers == Api.RequestHeaders(token, map[])
    ensures req.body == Api.JsonBody(SignupBody(email, username, password))
    ensures outcome == Api.Receive(response, Api.RequestFallback)
  {
    req, outcome := Api.Post(SignupPath, Some(SignupBody(email, username, password)), token, response);
  }
}
