/** The API client: the base URL, path normalisation, the request each verb
    helper builds (headers, body), and how a response settles into a value
    or an error. The network itself is a parameter. */
module Api {
  import opened Common
  import opened Json

  const DefaultBase: string := "http://localhost:5000/api"

  /** VITE_API_URL || the local default (an empty setting counts as unset). */
  function ApiBaseUrl(env: Option<string>): (base: string)
    ensures env.Some? && env.value != "" ==> base == env.value
    ensures env.None? || env.value == "" ==> base == DefaultBase
  {
    if env.Some? && env.value != "" then env.value else DefaultBase
  }

  /** apiUrl(path): drop one leading "/api" (a raw prefix test), make sure
      the rest starts with "/", and append it to the base. */
  function ApiUrl(base: string, path: string): (url: string)
    ensures |url| > |base| && url[..|base|] == base && url[|base|] == '/'
  {
    var clean := if "/api" <= path then path[4..] else path;
    var fin := if "/" <= clean then clean else "/" + clean;
    base + fin
  }

  /** The "/api" prefix is removed exactly once, and whatever follows it is
      handled as a path of its own. */
  lemma ApiPrefixStrippedOnce(base: string, rest: string)
    ensures ApiUrl(base, "/api" + rest) == base + (if "/" <= rest then rest else "/" + rest)
  {
    assert ("/api" + rest)[4..] == rest;
  }

  /** "/api/x" and "/x" reach the same URL, "/api/api/x" keeps one "/api",
      and "/apix" becomes "/x". */
  lemma ApiUrlExamples(base: string)
    ensures ApiUrl(base, "/api/contacts") == ApiUrl(base, "/contacts") == base + "/contacts"
    ensures ApiUrl(base, "/api/api/contacts") == base + "/api/contacts"
    ensures ApiUrl(base, "/apix") == base + "/x"
  {
    ApiPrefixStrippedOnce(base, "/contacts");
    ApiPrefixStrippedOnce(base, "/api/contacts");
    ApiPrefixStrippedOnce(base, "x");
    assert "/api" + "/contacts" == "/api/contacts";
    assert "/api" + "/api/contacts" == "/api/api/contacts";
    assert "/api" + "x" == "/apix";
    assert !("/api" <= "/contacts") by { assert "/contacts"[1] != 'a'; }
  }

  /** A path that neither starts with "/api" nor with "/" gets a slash
      prepended; one that starts with "/" but not "/api" is kept. */
  lemma ApiUrlSlash(base: string, path: string)
    requires !("/api" <= path)
    ensures "/" <= path ==> ApiUrl(base, path) == base + path
    ensures !("/" <= path) ==> ApiUrl(base, path) == base + "/" + path
  {
  }

  // ---------------------------------------------------------------------
  // Requests
  // ---------------------------------------------------------------------

  /** The RequestInit a verb helper passes to apiFetch; `body` is the value
      that JSON.stringify is applied to, None for no body. */
  datatype RequestInit = RequestInit(verb: string, body: Option<Json>, headers: map<string, string>)

  /** `data ? JSON.stringify(data) : undefined` */
  function BodyFor(data: Json): (b: Option<Json>)
    ensures b.Some? <==> Truthy(data)
    ensures b.Some? ==> b.value == data
  {
    if Truthy(data) then Some(data) else None
  }

  function GetInit(): (init: RequestInit)
    ensures init.verb == "GET" && init.body.None? && init.headers == map[]
  {
    RequestInit("GET", None, map[])
  }

  function PostInit(data: Json): (init: RequestInit)
    ensures init.verb == "POST" && init.headers == map[]
    ensures init.body.Some? <==> Truthy(data)
    ensures init.body.Some? ==> init.body.value == data
  {
    RequestInit("POST", BodyFor(data), map[])
  }

  function PutInit(data: Json): (init: RequestInit)
    ensures init.verb == "PUT" && init.headers == map[]
    ensures init.body.Some? <==> Truthy(data)
    ensures init.body.Some? ==> init.body.value == data
  {
    RequestInit("PUT", BodyFor(data), map[])
  }

  function PatchInit(data: Json): (init: RequestInit)
    ensures init.verb == "PATCH" && init.headers == map[]
    ensures init.body.Some? <==> Truthy(data)
    ensures init.body.Some? ==> init.body.value == data
  {
    RequestInit("PATCH", BodyFor(data), map[])
  }

  function DeleteInit(): (init: RequestInit)
    ensures init.verb == "DELETE" && init.body.None? && init.headers == map[]
  {
    RequestInit("DELETE", None, map[])
  }

  /** The request handed to fetch. */
  datatype Request = Request(url: string, verb: string, body: Option<Json>, headers: map<string, string>, credentials: string)

  /** A stored token counts only when it is a non-empty string (`if (token)`). */
  predicate HasToken(token: Option<string>) {
    token.Some? && token.value != ""
  }

  /** The headers apiFetch sends: JSON content type unless the caller gave
      one, the caller's headers, and "Bearer <token>" exactly when a token is
      stored (overriding a caller's Authorization). */
  predicate HeadersFor(h: map<string, string>, extra: map<string, string>, token: Option<string>) {
    && "Content-Type" in h
    && h["Content-Type"] == (if "Content-Type" in extra then extra["Content-Type"] else "application/json")
    && (HasToken(token) ==> "Authorization" in h && h["Authorization"] == "Bearer " + token.value)
    && (!HasToken(token) ==> ("Authorization" in h <==> "Authorization" in extra))
    && (forall k :: k in extra && k != "Content-Type" && (k != "Authorization" || !HasToken(token)) ==> k in h && h[k] == extra[k])
    && (forall k :: k in h ==> k in extra || k == "Content-Type" || k == "Authorization")
  }

  /** The first half of apiFetch: the URL, the headers object (built, then
      given Authorization in place) and the rest of the init. */
  method BuildRequest(base: string, endpoint: string, init: RequestInit, token: Option<string>) returns (req: Request)
    ensures req.url == ApiUrl(base, endpoint)
    ensures req.verb == init.verb && req.body == init.body && req.credentials == "include"
    ensures HeadersFor(req.headers, init.headers, token)
  {
    var headers := map["Content-Type" := "application/json"] + init.headers;
    if token.Some? && token.value != "" {
      headers := headers["Authorization" := "Bearer " + token.value];
    }
    req := Request(ApiUrl(base, endpoint), init.verb, init.body, headers, "include");
  }

  /** Without caller headers, Content-Type is JSON and Authorization is
      present exactly when a token is stored. */
  lemma PlainHeaders(h: map<string, string>, token: Option<string>)
    requires HeadersFor(h, map[], token)
    ensures h["Content-Type"] == "application/json"
    ensures "Authorization" in h <==> HasToken(token)
    ensures h.Keys <= {"Content-Type", "Authorization"}
  {
  }

  // ---------------------------------------------------------------------
  // Responses
  // ---------------------------------------------------------------------

  /** The body as response.json() sees it. */
  datatype Body = EmptyBody | Malformed | Wellformed(value: Json)

  datatype Response = Response(status: int, statusText: string, body: Body)

  /** response.ok */
  predicate IsOk(resp: Response) {
    200 <= resp.status <= 299
  }

  /** What a rejected promise carries. */
  datatype JsError = Error(message: string) | TypeError | SyntaxError

  datatype Outcome = Resolved(value: Json) | Rejected(error: JsError)

  /** What fetch did: failed to reach the server (it rejects with a
      TypeError), or produced a response. */
  datatype NetOutcome = Failed | Responded(response: Response)

  /** The message an error body yields when `error.message` is falsy. */
  function HttpMessage(status: int): string {
    "HTTP " + IntToString(status)
  }

  /** The second half of apiFetch: a non-OK response throws an Error whose
      message comes from the body, from statusText, or from the status; an
      OK response resolves to its parsed body. */
  function Settle(resp: Response): (r: Outcome)
    ensures IsOk(resp) ==> (r.Resolved? <==> resp.body.Wellformed?)
    ensures IsOk(resp) && resp.body.Wellformed? ==> r == Resolved(resp.body.value)
    ensures IsOk(resp) && !resp.body.Wellformed? ==> r == Rejected(SyntaxError)
    ensures !IsOk(resp) ==> r.Rejected?
    ensures !IsOk(resp) && !resp.body.Wellformed? ==>
      r == Rejected(Error(if resp.statusText != "" then resp.statusText else "Request failed"))
    ensures !IsOk(resp) && resp.body.Wellformed? && Nullish(resp.body.value) ==> r == Rejected(TypeError)
    ensures !IsOk(resp) && resp.body.Wellformed? && Truthy(OptGet(resp.body.value, "message")) ==>
      r == Rejected(Error(ToJsString(OptGet(resp.body.value, "message"))))
    ensures !IsOk(resp) && resp.body.Wellformed? && !Nullish(resp.body.value) && !Truthy(OptGet(resp.body.value, "message")) ==>
      r == Rejected(Error(HttpMessage(resp.status)))
  {
    if IsOk(resp) then
      match resp.body
      case Wellformed(v) => Resolved(v)
      case _ => Rejected(SyntaxError)
    else
      var error := match resp.body
        case Wellformed(v) => v
        case _ => Obj(map["message" := Str(if resp.statusText != "" then resp.statusText else "Request failed")]);
      match Get(error, "message")
      case None => Rejected(TypeError)
      case Some(m) => Rejected(Error(if Truthy(m) then ToJsString(m) else HttpMessage(resp.status)))
  }

  /** apiFetch: build the request, hand it to the network, settle. */
  method ApiFetch(base: string, endpoint: string, init: RequestInit, token: Option<string>, net: NetOutcome)
      returns (req: Request, r: Outcome)
    ensures req.url == ApiUrl(base, endpoint) && req.verb == init.verb && req.body == init.body
    ensures HeadersFor(req.headers, init.headers, token)
    ensures net.Failed? ==> r == Rejected(TypeError)
    ensures net.Responded? ==> r == Settle(net.response)
  {
    req := BuildRequest(base, endpoint, init, token);
    match net
    case Failed => r := Rejected(TypeError);
    case Responded(resp) => r := Settle(resp);
  }
}
