/** The auth service: how a user record is read out of whatever the backend
    returns, which field the token comes from, and how login, signup,
    fetchMe and logout change the stored token. The network is a parameter;
    the token store stands for the browser's local storage entry. */
module Auth {
  import opened Common
  import opened Json
  import Api

  // ---------------------------------------------------------------------
  // Reading a user
  // ---------------------------------------------------------------------

  /** The user as the service returns it. The fields hold whatever the
      backend sent (the declared types are not checked at run time); only
      `id` goes through Number(). */
  datatype AuthUser = AuthUser(id: JsNumber, email: Json, name: Json, companyName: Json)

  /** `data?.user ?? data`: the nested user object when there is one, the
      top level otherwise. */
  function UserSource(data: Json): (user: Json)
    ensures Nullish(OptGet(data, "user")) ==> user == data
    ensures !Nullish(OptGet(data, "user")) ==> data.Obj? && "user" in data.fields && user == data.fields["user"]
  {
    Coalesce(OptGet(data, "user"), data)
  }

  /** `v?.k ?? dflt` */
  function FieldOr(v: Json, k: string, dflt: Json): (r: Json)
    ensures Nullish(OptGet(v, k)) ==> r == dflt
    ensures !Nullish(OptGet(v, k)) ==> v.Obj? && k in v.fields && r == v.fields[k]
  {
    Coalesce(OptGet(v, k), dflt)
  }

  /** normalizeUser */
  function NormalizeUser(data: Json): (u: AuthUser)
    ensures !Nullish(u.email) && !Nullish(u.name) && !u.companyName.Undefined?
    ensures u.email == FieldOr(UserSource(data), "email", Str(""))
    ensures u.name == FieldOr(UserSource(data), "name", Str(""))
    ensures u.id == ToNumber(FieldOr(UserSource(data), "id", Num(0)))
  {
    var user := UserSource(data);
    AuthUser(
      ToNumber(FieldOr(user, "id", Num(0))),
      FieldOr(user, "email", Str("")),
      FieldOr(user, "name", Str("")),
      FieldOr(user, "companyName", FieldOr(user, "company_name", Null)))
  }

  /** The user made of defaults only. */
  const EmptyUser: AuthUser := AuthUser(Finite(0), Str(""), Str(""), Null)

  /** A body without any user field, null included, gives id 0, empty
      email and name, and a null company. */
  lemma MissingFieldsDefault(data: Json)
    requires forall k :: k in {"id", "email", "name", "companyName", "company_name"} ==> Nullish(OptGet(UserSource(data), k))
    ensures NormalizeUser(data) == EmptyUser
  {
    assert Nullish(OptGet(UserSource(data), "id"));
    assert Nullish(OptGet(UserSource(data), "companyName"));
    assert Nullish(OptGet(UserSource(data), "company_name"));
  }

  /** An empty or null body still normalises to a user, the default one. */
  lemma NullBodyGivesDefaultUser()
    ensures NormalizeUser(Null) == EmptyUser
  {
    MissingFieldsDefault(Null);
  }

  /** `companyName` wins over `company_name`; `company_name` is read only
      when `companyName` is missing. */
  lemma CompanyNamePreferred(data: Json)
    ensures !Nullish(OptGet(UserSource(data), "companyName")) ==>
      NormalizeUser(data).companyName == OptGet(UserSource(data), "companyName")
    ensures Nullish(OptGet(UserSource(data), "companyName")) && !Nullish(OptGet(UserSource(data), "company_name")) ==>
      NormalizeUser(data).companyName == OptGet(UserSource(data), "company_name")
  {
  }

  /** With a nested user object the top-level fields are not read. */
  lemma NestedUserShadowsTop(m: map<string, Json>, k: string, v: Json)
    requires "user" in m && !Nullish(m["user"]) && k != "user"
    ensures NormalizeUser(Obj(m)) == NormalizeUser(Obj(m[k := v]))
  {
    assert UserSource(Obj(m)) == m["user"];
    assert m[k := v]["user"] == m["user"];
    assert UserSource(Obj(m[k := v])) == m["user"];
  }

  /** A numeric string id is converted to its number. */
  lemma StringIdConverted(f: map<string, Json>, n: int)
    requires "user" !in f && "id" in f && f["id"] == Str(IntToString(n))
    ensures NormalizeUser(Obj(f)).id == Finite(n)
  {
    ToNumberOfNumericString(n);
  }

  // ---------------------------------------------------------------------
  // Token selection and the body of an auth response
  // ---------------------------------------------------------------------

  /** `data?.token ?? data?.accessToken ?? data?.data?.token` */
  function ExtractToken(data: Json): (t: Json)
    ensures !Nullish(OptGet(data, "token")) ==> t == OptGet(data, "token")
    ensures Nullish(OptGet(data, "token")) && !Nullish(OptGet(data, "accessToken")) ==> t == OptGet(data, "accessToken")
    ensures Nullish(OptGet(data, "token")) && Nullish(OptGet(data, "accessToken")) ==> t == OptGet(OptGet(data, "data"), "token")
  {
    Coalesce(OptGet(data, "token"), Coalesce(OptGet(data, "accessToken"), OptGet(OptGet(data, "data"), "token")))
  }

  /** The stored token after a successful login or signup: `if (token)
      setAuthToken(token)`, where local storage keeps String(token). */
  function TokenAfter(data: Json, stored: Option<string>): (r: Option<string>)
    ensures Truthy(ExtractToken(data)) ==> r == Some(ToJsString(ExtractToken(data)))
    ensures !Truthy(ExtractToken(data)) ==> r == stored
  {
    var t := ExtractToken(data);
    if Truthy(t) then Some(ToJsString(t)) else stored
  }

  /** `??` tests for null only, so an empty `token` hides a usable
      `accessToken` and nothing is stored. */
  lemma EmptyTokenHidesAccessToken(at: string, stored: Option<string>)
    requires at != ""
    ensures TokenAfter(Obj(map["token" := Str(""), "accessToken" := Str(at)]), stored) == stored
  {
    var data := Obj(map["token" := Str(""), "accessToken" := Str(at)]);
    assert OptGet(data, "token") == Str("");
  }

  /** A token found in any of the three places is stored. */
  lemma NestedTokenStored(t: string, stored: Option<string>)
    requires t != ""
    ensures TokenAfter(Obj(map["data" := Obj(map["token" := Str(t)])]), stored) == Some(t)
  {
    var data := Obj(map["data" := Obj(map["token" := Str(t)])]);
    assert OptGet(data, "token") == Undefined;
    assert OptGet(data, "accessToken") == Undefined;
    assert OptGet(OptGet(data, "data"), "token") == Str(t);
  }

  /** `text ? JSON.parse(text) : null`, with a parse failure caught as null. */
  function ParseText(body: Api.Body): (data: Json)
    ensures body.Wellformed? ==> data == body.value
    ensures !body.Wellformed? ==> data == Null
  {
    match body
    case Wellformed(v) => v
    case _ => Null
  }

  /** `data?.message || fallback` as an Error message. */
  function FailureMessage(data: Json, fallback: string): (msg: string)
    ensures Truthy(OptGet(data, "message")) ==> msg == ToJsString(OptGet(data, "message"))
    ensures !Truthy(OptGet(data, "message")) ==> msg == fallback
  {
    var m := OptGet(data, "message");
    if Truthy(m) then ToJsString(m) else fallback
  }

  /** What login or signup settles to. */
  datatype AuthOutcome = SignedIn(user: AuthUser) | Threw(error: Api.JsError)

  /** The outcome of a login or signup response, with the fallback message
      of the operation. */
  function AuthResult(resp: Api.Response, fallback: string): (out: AuthOutcome)
    ensures !Api.IsOk(resp) ==> out == Threw(Api.Error(FailureMessage(ParseText(resp.body), fallback)))
    ensures Api.IsOk(resp) ==> out == SignedIn(NormalizeUser(ParseText(resp.body)))
  {
    var data := ParseText(resp.body);
    if !Api.IsOk(resp) then Threw(Api.Error(FailureMessage(data, fallback)))
    else SignedIn(NormalizeUser(data))
  }

  /** The stored token after a login or signup response: kept on error,
      replaced only by a truthy token on success. */
  function AuthToken(resp: Api.Response, stored: Option<string>): (r: Option<string>)
    ensures !Api.IsOk(resp) ==> r == stored
    ensures Api.IsOk(resp) ==> r == TokenAfter(ParseText(resp.body), stored)
  {
    if Api.IsOk(resp) then TokenAfter(ParseText(resp.body), stored) else stored
  }

  /** An error body without a message, or one that does not parse, gives
      the fallback message. */
  lemma UnreadableErrorBody(resp: Api.Response, fallback: string)
    requires !Api.IsOk(resp) && !resp.body.Wellformed?
    ensures AuthResult(resp, fallback) == Threw(Api.Error(fallback))
    ensures AuthToken(resp, None) == None
  {
  }

  // ---------------------------------------------------------------------
  // Request bodies
  // ---------------------------------------------------------------------

  function LoginBody(email: string, password: string): (b: Json)
    ensures b.Obj? && b.fields.Keys == {"email", "password"}
    ensures b.fields["email"] == Str(email) && b.fields["password"] == Str(password)
  {
    Obj(map["email" := Str(email), "password" := Str(password)])
  }

  /** The signup body; `companyName || null` sends null for a missing or
      empty company. */
  function SignupBody(name: string, companyName: Option<string>, email: string, password: string): (b: Json)
    ensures b.Obj? && b.fields.Keys == {"name", "companyName", "email", "password"}
    ensures b.fields["name"] == Str(name) && b.fields["email"] == Str(email) && b.fields["password"] == Str(password)
    ensures b.fields["companyName"] == Null <==> companyName.None? || companyName.value == ""
    ensures companyName.Some? && companyName.value != "" ==> b.fields["companyName"] == Str(companyName.value)
  {
    var company := if companyName.Some? && companyName.value != "" then Str(companyName.value) else Null;
    Obj(map["name" := Str(name), "companyName" := company, "email" := Str(email), "password" := Str(password)])
  }

  const JsonHeaders: map<string, string> := map["Content-Type" := "application/json"]

  /** `Authorization: Bearer <token>` */
  function BearerHeaders(token: string): (h: map<string, string>)
    ensures h.Keys == {"Authorization"} && h["Authorization"] == "Bearer " + token
  {
    map["Authorization" := "Bearer " + token]
  }

  // ---------------------------------------------------------------------
  // fetchMe
  // ---------------------------------------------------------------------

  /** What fetchMe resolves to for a response: null on any non-OK status
      and when the body is not JSON (the rejection is caught), otherwise
      the normalised user. */
  function MeResult(resp: Api.Response): (u: Option<AuthUser>)
    ensures u.Some? <==> Api.IsOk(resp) && resp.body.Wellformed?
    ensures u.Some? ==> u.value == NormalizeUser(resp.body.value)
  {
    if !Api.IsOk(resp) then None
    else match resp.body
      case Wellformed(v) => Some(NormalizeUser(v))
      case _ => None
  }

  /** The stored token after fetchMe's response: removed on 401, kept on
      every other status. */
  function MeToken(resp: Api.Response, stored: Option<string>): (r: Option<string>)
    ensures resp.status == 401 ==> r == None
    ensures resp.status != 401 ==> r == stored
  {
    if resp.status == 401 then None else stored
  }

  /** A 401 clears the token and yields no user; any other failure keeps
      the token and yields no user either. */
  lemma MeFailures(resp: Api.Response, stored: Option<string>)
    ensures resp.status == 401 ==> MeResult(resp).None? && MeToken(resp, stored).None?
    ensures !Api.IsOk(resp) && resp.status != 401 ==> MeResult(resp).None? && MeToken(resp, stored) == stored
  {
  }

  // ---------------------------------------------------------------------
  // The token store and the four operations
  // ---------------------------------------------------------------------

  /** The "auth_token" entry of local storage. */
  class TokenStore {
    var token: Option<string>

    constructor (initial: Option<string>)
      ensures token == initial
    {
      token := initial;
    }

    function GetAuthToken(): (t: Option<string>)
      reads this
      ensures t == token
    {
      token
    }

    method SetAuthToken(t: string)
      modifies this
      ensures token == Some(t)
    {
      token := Some(t);
    }

    method RemoveAuthToken()
      modifies this
      ensures token == None
    {
      token := None;
    }

    /** loginUser; the request never carries the stored token, and a
        failed fetch rejects without touching it. */
    method LoginUser(base: string, email: string, password: string, net: Api.NetOutcome)
        returns (req: Api.Request, out: AuthOutcome)
      modifies this
      ensures req == Api.Request(Api.ApiUrl(base, "/auth/login"), "POST", Some(LoginBody(email, password)), JsonHeaders, "include")
      ensures net.Failed? ==> out == Threw(Api.TypeError) && token == old(token)
      ensures net.Responded? ==> out == AuthResult(net.response, "Login failed")
      ensures net.Responded? ==> token == AuthToken(net.response, old(token))
    {
      req := Api.Request(Api.ApiUrl(base, "/auth/login"), "POST", Some(LoginBody(email, password)), JsonHeaders, "include");
      match net
      case Failed =>
        out := Threw(Api.TypeError);
      case Responded(resp) =>
        var data := ParseText(resp.body);
        if !Api.IsOk(resp) {
          out := Threw(Api.Error(FailureMessage(data, "Login failed")));
        } else {
          var t := ExtractToken(data);
          if Truthy(t) {
            SetAuthToken(ToJsString(t));
          }
          out := SignedIn(NormalizeUser(data));
        }
    }

    /** signupUser: as loginUser, with the signup body and message. */
    method SignupUser(base: string, name: string, companyName: Option<string>, email: string, password: string, net: Api.NetOutcome)
        returns (req: Api.Request, out: AuthOutcome)
      modifies this
      ensures req == Api.Request(Api.ApiUrl(base, "/auth/register"), "POST", Some(SignupBody(name, companyName, email, password)), JsonHeaders, "include")
      ensures net.Failed? ==> out == Threw(Api.TypeError) && token == old(token)
      ensures net.Responded? ==> out == AuthResult(net.response, "Signup failed")
      ensures net.Responded? ==> token == AuthToken(net.response, old(token))
    {
      req := Api.Request(Api.ApiUrl(base, "/auth/register"), "POST", Some(SignupBody(name, companyName, email, password)), JsonHeaders, "include");
      match net
      case Failed =>
        out := Threw(Api.TypeError);
      case Responded(resp) =>
        var responseData := ParseText(resp.body);
        if !Api.IsOk(resp) {
          out := Threw(Api.Error(FailureMessage(responseData, "Signup failed")));
        } else {
          var t := ExtractToken(responseData);
          if Truthy(t) {
            SetAuthToken(ToJsString(t));
          }
          out := SignedIn(NormalizeUser(responseData));
        }
    }

    /** fetchMe: no request without a token; every failure is caught and
        resolves to null. */
    method FetchMe(base: string, net: Api.NetOutcome) returns (req: Option<Api.Request>, user: Option<AuthUser>)
      modifies this
      ensures !Api.HasToken(old(token)) ==> req.None? && user.None? && token == old(token)
      ensures Api.HasToken(old(token)) ==>
        req == Some(Api.Request(Api.ApiUrl(base, "/auth/me"), "GET", None, BearerHeaders(old(token).value), "include"))
      ensures Api.HasToken(old(token)) && net.Failed? ==> user.None? && token == old(token)
      ensures Api.HasToken(old(token)) && net.Responded? ==>
        user == MeResult(net.response) && token == MeToken(net.response, old(token))
    {
      var t := GetAuthToken();
      if t.None? || t.value == "" {
        return None, None;
      }
      req := Some(Api.Request(Api.ApiUrl(base, "/auth/me"), "GET", None, BearerHeaders(t.value), "include"));
      match net
      case Failed =>
        user := None;
      case Responded(resp) =>
        if resp.status == 401 {
          RemoveAuthToken();
          user := None;
        } else if !Api.IsOk(resp) {
          user := None;
        } else {
          match resp.body
          case Wellformed(v) => user := Some(NormalizeUser(v));
          case _ => user := None;
        }
    }

    /** logoutUser: the bearer header only when a token is stored; the token
        is removed in `finally`, whatever the network did. */
    method LogoutUser(base: string, net: Api.NetOutcome) returns (req: Api.Request)
      modifies this
      ensures req.url == Api.ApiUrl(base, "/auth/logout") && req.verb == "POST" && req.body.None?
      ensures Api.HasToken(old(token)) ==> req.headers == BearerHeaders(old(token).value)
      ensures !Api.HasToken(old(token)) ==> req.headers == map[]
      ensures token == None
    {
      var t := GetAuthToken();
      var headers: map<string, string> := if t.Some? && t.value != "" then BearerHeaders(t.value) else map[];
      req := Api.Request(Api.ApiUrl(base, "/auth/logout"), "POST", None, headers, "include");
      match net {
        case Failed =>
        case Responded(_) =>
      }
      RemoveAuthToken();
    }
  }
}
