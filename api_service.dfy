/**
 * The mobile client's API service: the two stored credentials (the
 * backend JWT and the Descope session), the headers each request is sent
 * with, error reporting for failed responses, and the credential handling
 * of register, login and logout. `fetch` is a parameter.
 */
module ApiService {
  import opened Wrappers
  import opened Strings

  /** A JavaScript value as it appears in JSON bodies and in the two credential fields. */
  datatype Json =
    | JUndefined
    | JNull
    | JBool(b: bool)
    | JNumber(n: int)
    | JString(s: string)
    | JArray(items: seq<Json>)
    | JObject(fields: map<string, Json>)

  /** JavaScript truthiness. */
  predicate Truthy(v: Json) {
    match v
    case JUndefined => false
    case JNull => false
    case JBool(b) => b
    case JNumber(n) => n != 0
    case JString(s) => s != ""
    case _ => true
  }

  /** `String(v)`, as a template literal or `new Error(v)` renders it. */
  function Show(v: Json): (r: string)
    ensures v.JString? ==> r == v.s
    decreases v
  {
    match v
    case JUndefined => "undefined"
    case JNull => "null"
    case JBool(b) => if b then "true" else "false"
    case JNumber(n) => if n < 0 then "-" + NatToString(-n) else NatToString(n)
    case JString(s) => s
    case JArray(items) =>
      Join(",", seq(|items|, i requires 0 <= i < |items| =>
        if items[i].JNull? || items[i].JUndefined? then "" else Show(items[i])))
    case JObject(_) => "[object Object]"
  }

  /** What a request or a method throws: an `Error` with a message, or a `TypeError` for reading `key` of null or undefined. */
  datatype Thrown = Error(message: string) | TypeError(key: string)

  /** `v.key`: throws for null and undefined, undefined for a missing key or a primitive. */
  function Prop(v: Json, key: string): (r: Result<Json, Thrown>)
    ensures r.Failure? <==> v.JNull? || v.JUndefined?
    ensures r.Failure? ==> r.error == TypeError(key)
    ensures v.JObject? && key in v.fields ==> r == Success(v.fields[key])
  {
    match v
    case JNull => Failure(TypeError(key))
    case JUndefined => Failure(TypeError(key))
    case JObject(fields) => Success(if key in fields then fields[key] else JUndefined)
    case _ => Success(JUndefined)
  }

  /** `v?.key`: undefined instead of throwing. */
  function OptionalProp(v: Json, key: string): (r: Json)
    ensures Prop(v, key).Success? ==> r == Prop(v, key).value
    ensures Prop(v, key).Failure? ==> r == JUndefined
  {
    match Prop(v, key)
    case Failure(_) => JUndefined
    case Success(x) => x
  }

  type Headers = map<string, string>

  const ApiBaseUrl := "http://localhost:3000/api"
  const ContentType := "Content-Type"
  const AuthorizationHeader := "Authorization"
  const NoSessionError := "No Descope session available"

  /** The options of `request`: method, body, and headers if the caller gave any. */
  datatype Options = Options(httpMethod: Option<string>, body: Option<string>, headers: Option<Headers>)

  /** What `fetch` is called with. */
  datatype Config = Config(httpMethod: Option<string>, body: Option<string>, headers: Headers)

  /** What `fetch` resolves to: `ok`, `status`, and `response.json()` (a `Failure` when parsing throws). */
  datatype FetchReply = FetchReply(ok: bool, status: int, json: Result<Json, Thrown>)

  type Fetch = (string, Config) -> Result<FetchReply, Thrown>

  /** The Authorization value: the Descope JWT first, the stored token second, none otherwise. */
  function AuthorizationFor(token: Json, session: Json): (r: Option<string>)
    ensures Truthy(OptionalProp(session, "sessionJwt")) ==> r == Some("Bearer " + Show(OptionalProp(session, "sessionJwt")))
    ensures !Truthy(OptionalProp(session, "sessionJwt")) && Truthy(token) ==> r == Some("Bearer " + Show(token))
    ensures r.None? <==> !Truthy(OptionalProp(session, "sessionJwt")) && !Truthy(token)
  {
    var jwt := OptionalProp(session, "sessionJwt");
    if Truthy(jwt) then Some("Bearer " + Show(jwt))
    else if Truthy(token) then Some("Bearer " + Show(token))
    else None
  }

  /**
   * The `config` of `request`. The merged headers (Content-Type, then the
   * chosen Authorization, then the caller's) are built first, but the
   * later spread of `options` puts back the caller's own `headers` object
   * whenever one was given.
   */
  function ConfigFor(token: Json, session: Json, options: Options): (c: Config)
    ensures options.headers.Some? ==> c.headers == options.headers.value
    ensures options.headers.None? ==>
      ContentType in c.headers && c.headers[ContentType] == "application/json" &&
      (AuthorizationHeader in c.headers <==> AuthorizationFor(token, session).Some?) &&
      (AuthorizationFor(token, session).Some? ==> c.headers[AuthorizationHeader] == AuthorizationFor(token, session).value)
    ensures c.httpMethod == options.httpMethod && c.body == options.body
  {
    var base := map[ContentType := "application/json"];
    var withAuth := match AuthorizationFor(token, session)
      case Some(value) => base[AuthorizationHeader := value]
      case None => base;
    Config(options.httpMethod, options.body, if options.headers.Some? then options.headers.value else withAuth)
  }

  /** The result of `request` for a given `fetch`: the parsed body of an ok response; otherwise what is thrown. */
  function RequestOutcome(url: string, config: Config, fetch: Fetch): (r: Result<Json, Thrown>)
    ensures r.Success? <==> fetch(url, config).Success? && fetch(url, config).value.ok && fetch(url, config).value.json.Success?
    ensures r.Success? ==> r.value == fetch(url, config).value.json.value
  {
    match fetch(url, config)
    case Failure(e) => Failure(e)
    case Success(reply) =>
      match reply.json
      case Failure(e) => Failure(e)
      case Success(data) =>
        if reply.ok then Success(data)
        else
          match Prop(data, "message")
          case Failure(e) => Failure(e)
          case Success(message) =>
            Failure(Error(if Truthy(message) then Show(message) else "HTTP error! status: " + Show(JNumber(reply.status))))
  }

  /** A refused request carries the server's message when it sent one, otherwise the status. */
  lemma RefusalMessages(url: string, config: Config, fetch: Fetch, data: Json, status: int)
    requires fetch(url, config) == Success(FetchReply(false, status, Success(data)))
    ensures data.JObject? && "message" in data.fields && data.fields["message"].JString? && data.fields["message"].s != "" ==>
      RequestOutcome(url, config, fetch) == Failure(Error(data.fields["message"].s))
    ensures data.JObject? && "message" !in data.fields ==>
      RequestOutcome(url, config, fetch) == Failure(Error("HTTP error! status: " + Show(JNumber(status))))
  {
  }

  /**
   * The token `register` and `login` store after a successful request:
   * `response.data.token` when `response.success` and that token are both
   * truthy. Reading `data` of a success response without one throws.
   */
  function TokenToStore(response: Json): (r: Result<Option<Json>, Thrown>)
    ensures r.Success? && r.value.Some? ==> Truthy(r.value.value)
    ensures response.JObject? && "success" !in response.fields ==> r == Success(None)
    ensures response.JObject? && "success" in response.fields && Truthy(response.fields["success"]) &&
            "data" in response.fields && response.fields["data"].JObject? &&
            "token" in response.fields["data"].fields && Truthy(response.fields["data"].fields["token"]) ==>
      r == Success(Some(response.fields["data"].fields["token"]))
  {
    match Prop(response, "success")
    case Failure(e) => Failure(e)
    case Success(success) =>
      if !Truthy(success) then Success(None)
      else
        match Prop(response, "data")
        case Failure(e) => Failure(e)
        case Success(data) =>
          match Prop(data, "token")
          case Failure(e) => Failure(e)
          case Success(token) => if Truthy(token) then Success(Some(token)) else Success(None)
  }

  /** A success response whose `data` is missing makes `register` and `login` throw. */
  lemma SuccessWithoutDataThrows(fields: map<string, Json>)
    requires "success" in fields && Truthy(fields["success"]) && "data" !in fields
    ensures TokenToStore(JObject(fields)) == Failure(TypeError("token"))
  {
  }

  class APIService {
    const baseURL: string
    /** The backend's JWT. */
    var token: Json
    /** The Descope session object. */
    var descopeSession: Json

    constructor()
      ensures baseURL == ApiBaseUrl && token == JNull && descopeSession == JNull
    {
      baseURL := ApiBaseUrl;
      token := JNull;
      descopeSession := JNull;
    }

    method SetToken(t: Json)
      modifies this
      ensures token == t && descopeSession == old(descopeSession)
    {
      token := t;
    }

    method SetDescopeSession(session: Json)
      modifies this
      ensures descopeSession == session && token == old(token)
    {
      descopeSession := session;
    }

    function GetToken(): (r: Json)
      reads this
      ensures r == token
    {
      token
    }

    /** `getDescopeSessionToken`: the session's JWT when truthy, otherwise null. */
    function GetDescopeSessionToken(): (r: Json)
      reads this
      ensures Truthy(r) || r == JNull
      ensures Truthy(r) <==> Truthy(OptionalProp(descopeSession, "sessionJwt"))
      ensures Truthy(r) ==> r == OptionalProp(descopeSession, "sessionJwt")
      ensures descopeSession.JNull? || descopeSession.JUndefined? ==> r == JNull
    {
      var jwt := OptionalProp(descopeSession, "sessionJwt");
      if Truthy(jwt) then jwt else JNull
    }

    /** `clearToken`: both credentials become null. */
    method ClearToken()
      modifies this
      ensures token == JNull && descopeSession == JNull
    {
      token := JNull;
      descopeSession := JNull;
    }

    /** `request(endpoint, options)`: the credentials are read, never changed. */
    method Request(endpoint: string, options: Options, fetch: Fetch) returns (r: Result<Json, Thrown>)
      ensures r == RequestOutcome(baseURL + endpoint, ConfigFor(token, descopeSession, options), fetch)
    {
      var config := ConfigFor(token, descopeSession, options);
      var reply := fetch(baseURL + endpoint, config);
      if reply.Failure? {
        return Failure(reply.error);
      }
      if reply.value.json.Failure? {
        return Failure(reply.value.json.error);
      }
      var data := reply.value.json.value;
      if !reply.value.ok {
        var message := Prop(data, "message");
        if message.Failure? {
          return Failure(message.error);
        }
        var text := if Truthy(message.value) then Show(message.value) else "HTTP error! status: " + Show(JNumber(reply.value.status));
        return Failure(Error(text));
      }
      r := Success(data);
    }

    /** `register` and `login`: the request, then the token stored as `TokenToStore` says. */
    method Authenticate(endpoint: string, body: string, fetch: Fetch) returns (r: Result<Json, Thrown>)
      modifies this
      ensures var sent := RequestOutcome(baseURL + endpoint, ConfigFor(old(token), old(descopeSession), Options(Some("POST"), Some(body), None)), fetch);
        (sent.Failure? ==> r == sent && token == old(token)) &&
        (sent.Success? && TokenToStore(sent.value).Failure? ==> r == Failure(TokenToStore(sent.value).error) && token == old(token)) &&
        (sent.Success? && TokenToStore(sent.value).Success? ==>
          r == sent && token == (if TokenToStore(sent.value).value.Some? then TokenToStore(sent.value).value.value else old(token)))
      ensures descopeSession == old(descopeSession)
    {
      r := Request(endpoint, Options(Some("POST"), Some(body), None), fetch);
      if r.Failure? {
        return;
      }
      var stored := TokenToStore(r.value);
      if stored.Failure? {
        return Failure(stored.error);
      }
      if stored.value.Some? {
        SetToken(stored.value.value);
      }
    }

    /** `register(userData)`; `body` is `JSON.stringify(userData)`. */
    method Register(body: string, fetch: Fetch) returns (r: Result<Json, Thrown>)
      modifies this
      ensures var sent := RequestOutcome(baseURL + "/auth/register", ConfigFor(old(token), old(descopeSession), Options(Some("POST"), Some(body), None)), fetch);
        (sent.Failure? || TokenToStore(sent.value).Failure? || TokenToStore(sent.value).value.None?) ==> token == old(token)
      ensures var sent := RequestOutcome(baseURL + "/auth/register", ConfigFor(old(token), old(descopeSession), Options(Some("POST"), Some(body), None)), fetch);
        sent.Success? && TokenToStore(sent.value).Success? && TokenToStore(sent.value).value.Some? ==>
          r == sent && token == TokenToStore(sent.value).value.value
      ensures var sent := RequestOutcome(baseURL + "/auth/register", ConfigFor(old(token), old(descopeSession), Options(Some("POST"), Some(body), None)), fetch);
        r == (if sent.Success? && TokenToStore(sent.value).Failure? then Failure(TokenToStore(sent.value).error) else sent)
      ensures descopeSession == old(descopeSession)
    {
      r := Authenticate("/auth/register", body, fetch);
    }

    /** `login(credentials)`; `body` is `JSON.stringify(credentials)`. */
    method Login(body: string, fetch: Fetch) returns (r: Result<Json, Thrown>)
      modifies this
      ensures var sent := RequestOutcome(baseURL + "/auth/login", ConfigFor(old(token), old(descopeSession), Options(Some("POST"), Some(body), None)), fetch);
        (sent.Failure? || TokenToStore(sent.value).Failure? || TokenToStore(sent.value).value.None?) ==> token == old(token)
      ensures var sent := RequestOutcome(baseURL + "/auth/login", ConfigFor(old(token), old(descopeSession), Options(Some("POST"), Some(body), None)), fetch);
        sent.Success? && TokenToStore(sent.value).Success? && TokenToStore(sent.value).value.Some? ==>
          r == sent && token == TokenToStore(sent.value).value.value
      ensures var sent := RequestOutcome(baseURL + "/auth/login", ConfigFor(old(token), old(descopeSession), Options(Some("POST"), Some(body), None)), fetch);
        r == (if sent.Success? && TokenToStore(sent.value).Failure? then Failure(TokenToStore(sent.value).error) else sent)
      ensures descopeSession == old(descopeSession)
    {
      r := Authenticate("/auth/login", body, fetch);
    }

    /** `logout`: both credentials are cleared whether or not the request throws, and a throw is passed on. */
    method Logout(fetch: Fetch) returns (thrown: Option<Thrown>)
      modifies this
      ensures token == JNull && descopeSession == JNull
      ensures var sent := RequestOutcome(baseURL + "/auth/logout", ConfigFor(old(token), old(descopeSession), Options(Some("POST"), None, None)), fetch);
        thrown == (if sent.Failure? then Some(sent.error) else None)
    {
      var sent := Request("/auth/logout", Options(Some("POST"), None, None), fetch);
      ClearToken();
      thrown := if sent.Failure? then Some(sent.error) else None;
    }

    /** `exampleProtectedFetch`: refuses before fetching when there is no Descope JWT, otherwise sends only that JWT. */
    method ExampleProtectedFetch(fetch: Fetch) returns (r: Result<Json, Thrown>)
      ensures !Truthy(OptionalProp(descopeSession, "sessionJwt")) ==> r == Failure(Error(NoSessionError))
      ensures Truthy(OptionalProp(descopeSession, "sessionJwt")) ==>
        var config := Config(None, None, map[AuthorizationHeader := "Bearer " + Show(OptionalProp(descopeSession, "sessionJwt"))]);
        var reply := fetch(baseURL + "/protected/data", config);
        (reply.Failure? ==> r == Failure(reply.error)) &&
        (reply.Success? && !reply.value.ok ==> r == Failure(Error("HTTP error! status: " + Show(JNumber(reply.value.status))))) &&
        (reply.Success? && reply.value.ok ==> r == reply.value.json)
    {
      var jwt := OptionalProp(descopeSession, "sessionJwt");
      if !Truthy(jwt) {
        return Failure(Error(NoSessionError));
      }
      var reply := fetch(baseURL + "/protected/data", Config(None, None, map[AuthorizationHeader := "Bearer " + Show(jwt)]));
      if reply.Failure? {
        return Failure(reply.error);
      }
      if !reply.value.ok {
        return Failure(Error("HTTP error! status: " + Show(JNumber(reply.value.status))));
      }
      r := reply.value.json;
    }
  }

  /** The Descope JWT wins over the stored token whenever both are set. */
  lemma DescopeSessionTakesPrecedence(token: Json, jwt: string)
    requires jwt != ""
    ensures AuthorizationFor(token, JObject(map["sessionJwt" := JString(jwt)])) == Some("Bearer " + jwt)
  {
  }

  /** After `clearToken` no Authorization header is sent. */
  lemma ClearedCredentialsSendNoAuthorization(options: Options)
    requires options.headers.None?
    ensures AuthorizationHeader !in ConfigFor(JNull, JNull, options).headers
  {
  }
}
