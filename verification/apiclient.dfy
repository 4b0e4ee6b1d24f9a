/** The client library's HTTP client for the server's API: which routes
    carry the bearer token, how a query string is assembled, and how a
    response becomes a value, nothing, or an `ApiError`. */
module ApiClient {
  import opened Wrappers
  import opened Strs
  import opened Json
  import LogLists

  const DefaultBaseUrl: string := "http://localhost:3000"

  datatype Client = Client(baseUrl: string, token: Option<string>)

  function NewClient(baseUrl: Option<string>, token: Option<string>): (c: Client)
    ensures c.baseUrl == baseUrl.GetOr(DefaultBaseUrl) && c.token == token
  {
    Client(baseUrl.GetOr(DefaultBaseUrl), token)
  }

  function SetBaseUrl(c: Client, baseUrl: string): (r: Client)
    ensures r.baseUrl == baseUrl && r.token == c.token
  {
    c.(baseUrl := baseUrl)
  }

  function SetToken(c: Client, token: string): (r: Client)
    ensures r.token == Some(token) && r.baseUrl == c.baseUrl
  {
    c.(token := Some(token))
  }

  function ClearToken(c: Client): (r: Client)
    ensures r.token.None? && r.baseUrl == c.baseUrl
  {
    c.(token := None)
  }

  /** The client's operations; `pathArg` values are inserted into the
      path as given, except the whitelist IP, which is URI-encoded. */
  datatype Endpoint =
    | Health
    | Login
    | CreateProject
    | ListProjects
    | GetProject(uuid: string)
    | UpdateProject(uuid: string)
    | DeleteProject(uuid: string)
    | GetProjectLogs(uuid: string)
    | ListPingServices(uuid: string)
    | CreatePingService(uuid: string)
    | CheckPingServices(uuid: string)
    | FilterLogs
    | IngestLog
    | DeleteLogs(uuid: string)
    | GetWhitelist
    | UpsertWhitelist
    | DeleteWhitelist(encodedIp: string)

  datatype Route = Route(verb: string, path: string, requireAuth: bool)

  /** Each operation's method, path (without query) and whether it asks
      for the token. */
  function RouteOf(e: Endpoint): (r: Route)
    ensures !r.requireAuth <==> e == Health || e == Login || e == IngestLog
  {
    match e
    case Health => Route("GET", "/health", false)
    case Login => Route("POST", "/api/auth/login", false)
    case CreateProject => Route("POST", "/api/projects", true)
    case ListProjects => Route("GET", "/api/projects", true)
    case GetProject(u) => Route("GET", "/api/projects/" + u, true)
    case UpdateProject(u) => Route("PUT", "/api/projects/" + u, true)
    case DeleteProject(u) => Route("DELETE", "/api/projects/" + u, true)
    case GetProjectLogs(u) => Route("GET", "/api/projects/" + u + "/logs", true)
    case ListPingServices(u) => Route("GET", "/api/projects/" + u + "/ping-services", true)
    case CreatePingService(u) => Route("POST", "/api/projects/" + u + "/ping-services", true)
    case CheckPingServices(u) => Route("POST", "/api/projects/" + u + "/ping-services/check", true)
    case FilterLogs => Route("GET", "/api/logs", true)
    case IngestLog => Route("POST", "/api/logs", false)
    case DeleteLogs(u) => Route("DELETE", "/api/logs/" + u, true)
    case GetWhitelist => Route("GET", "/api/settings/whitelist", true)
    case UpsertWhitelist => Route("POST", "/api/settings/whitelist", true)
    case DeleteWhitelist(ip) => Route("DELETE", "/api/settings/whitelist/" + ip, true)
  }

  datatype Request = Request(verb: string, url: string, headers: map<string, string>, body: Option<string>)

  /** `request`: JSON content type always, the bearer token only when the
      route asks for it and a non-empty token is held. */
  function BuildRequest(c: Client, verb: string, path: string, body: Option<string>, requireAuth: bool): (r: Request)
    ensures r.url == c.baseUrl + path && r.verb == verb && r.body == body
    ensures "Content-Type" in r.headers && r.headers["Content-Type"] == "application/json"
    ensures "Authorization" in r.headers <==> requireAuth && c.token.Some? && c.token.value != ""
    ensures "Authorization" in r.headers ==> r.headers["Authorization"] == "Bearer " + c.token.value
    ensures r.headers.Keys <= {"Content-Type", "Authorization"}
  {
    var base := map["Content-Type" := "application/json"];
    var headers := if requireAuth && c.token.Some? && c.token.value != "" then base["Authorization" := "Bearer " + c.token.value]
                   else base;
    Request(verb, c.baseUrl + path, headers, body)
  }

  /** The request an operation sends; `query` is the already built query
      string, used by the list and delete-by-filter operations. */
  function RequestFor(c: Client, e: Endpoint, query: string, body: Option<string>): (r: Request)
    ensures ("Authorization" in r.headers) <==> (RouteOf(e).requireAuth && c.token.Some? && c.token.value != "")
  {
    var route := RouteOf(e);
    var path :=
      match e
      case FilterLogs => route.path + "?" + query
      case GetProjectLogs(_) => route.path + Suffix(query)
      case DeleteLogs(_) => route.path + Suffix(query)
      case _ => route.path;
    BuildRequest(c, route.verb, path, body, route.requireAuth)
  }

  /** `query ? '?' + query : ''`. */
  function Suffix(query: string): (r: string)
    ensures query == "" ==> r == ""
    ensures query != "" ==> r == "?" + query
  {
    if query == "" then "" else "?" + query
  }

  /** The token is never sent for the health check, the login or log
      ingestion, and always sent elsewhere when one is held. */
  lemma TokenOnlyWhereRequired(c: Client, e: Endpoint, query: string, body: Option<string>)
    requires c.token.Some? && c.token.value != ""
    ensures ("Authorization" in RequestFor(c, e, query, body).headers) <==> !(e == Health || e == Login || e == IngestLog)
  {
  }

  // ----------------------------------------------------------------- query

  /** A filter value: absent entries are not in the list at all. */
  predicate Omitted(v: Json) {
    v == JNull || v == JStr("")
  }

  /** `String(value)` for a kept value; strings stay as they are. */
  function ValueText(v: Json, display: Json -> string): string {
    if v.JStr? then v.s else display(v)
  }

  /** The pairs `buildQuery` appends, in entry order: those whose value is
      neither null nor the empty string, as text. */
  function QueryPairs(entries: seq<(string, Json)>, display: Json -> string): (r: seq<(string, string)>)
    ensures |r| <= |entries|
    decreases |entries|
  {
    if |entries| == 0 then []
    else
      var rest := QueryPairs(entries[1..], display);
      if Omitted(entries[0].1) then rest else [(entries[0].0, ValueText(entries[0].1, display))] + rest
  }

  /** The entries as query pairs, values as text. */
  function PairTexts(kept: seq<(string, Json)>, display: Json -> string): (r: seq<(string, string)>)
    ensures |r| == |kept| && forall i :: 0 <= i < |kept| ==> r[i] == (kept[i].0, ValueText(kept[i].1, display))
  {
    seq(|kept|, i requires 0 <= i < |kept| => (kept[i].0, ValueText(kept[i].1, display)))
  }

  lemma PairTextsCons(x: (string, Json), kept: seq<(string, Json)>, display: Json -> string)
    ensures PairTexts([x] + kept, display) == [(x.0, ValueText(x.1, display))] + PairTexts(kept, display)
  {
    var l := PairTexts([x] + kept, display);
    var r := [(x.0, ValueText(x.1, display))] + PairTexts(kept, display);
    forall i | 0 <= i < |l| ensures l[i] == r[i] {
      if i > 0 {
        assert ([x] + kept)[i] == kept[i - 1];
      }
    }
  }

  /** An entry that is sent: neither null nor the empty string. */
  predicate Sent(e: (string, Json)) {
    !Omitted(e.1)
  }

  /** The kept pairs are exactly the non-omitted entries, in order, with
      their values as text. */
  lemma {:induction false} QueryPairsKeep(entries: seq<(string, Json)>, display: Json -> string)
    ensures QueryPairs(entries, display) == PairTexts(LogLists.Keep(entries, Sent), display)
    decreases |entries|
  {
    if |entries| > 0 {
      var x := entries[0];
      QueryPairsKeep(entries[1..], display);
      var kept1 := LogLists.Keep(entries[1..], Sent);
      assert LogLists.Keep(entries, Sent) == if Sent(x) then [x] + kept1 else kept1;
      if Sent(x) {
        PairTextsCons(x, kept1, display);
      }
    }
  }

  /** `URLSearchParams.toString()`: `key=value` pairs joined by `&`, each
      side form-encoded by `encode`. */
  function Serialize(pairs: seq<(string, string)>, encode: string -> string): string {
    Join(seq(|pairs|, i requires 0 <= i < |pairs| => encode(pairs[i].0) + "=" + encode(pairs[i].1)), "&")
  }

  function BuildQuery(entries: seq<(string, Json)>, display: Json -> string, encode: string -> string): string {
    Serialize(QueryPairs(entries, display), encode)
  }

  lemma {:induction false} JoinNonEmpty(parts: seq<string>, sep: string)
    requires |parts| > 0 && parts[0] != ""
    ensures Join(parts, sep) != ""
  {
    if |parts| > 1 {
      assert |Join(parts, sep)| >= |parts[0]|;
    }
  }

  /** The query is empty exactly when every entry was omitted, so a
      filter-less list request carries no `?`. */
  lemma EmptyQueryIffAllOmitted(entries: seq<(string, Json)>, display: Json -> string, encode: string -> string)
    ensures BuildQuery(entries, display, encode) == "" <==> (forall i :: 0 <= i < |entries| ==> Omitted(entries[i].1))
  {
    QueryPairsKeep(entries, display);
    var pairs := QueryPairs(entries, display);
    var kept := LogLists.Keep(entries, Sent);
    if |pairs| > 0 {
      var parts := seq(|pairs|, i requires 0 <= i < |pairs| => encode(pairs[i].0) + "=" + encode(pairs[i].1));
      assert parts[0] != "" by { assert '=' in parts[0]; }
      JoinNonEmpty(parts, "&");
      var k := kept[0];
      assert k in entries;
      var i :| 0 <= i < |entries| && entries[i] == k;
      assert !Omitted(entries[i].1);
    } else {
      forall i | 0 <= i < |entries| ensures Omitted(entries[i].1) {
        assert entries[i] !in kept;
      }
    }
  }

  // -------------------------------------------------------------- response

  /** What came back: the status and the body, `None` when it is not
      JSON. */
  datatype Response = Response(status: int, body: Option<Json>)

  datatype Outcome =
    | ApiError(message: string, status: int)
    | NoContent
    | Value(body: Json)
    | BadJson
    | TokenOfNothing

  predicate Ok(status: int) {
    200 <= status < 300
  }

  /** `safeReadError`: the body's `message` unless it is missing or null,
      else `HTTP <status>`. */
  function ErrorMessage(r: Response, display: Json -> string): (m: string)
    ensures (r.body.Some? && r.body.value.JObj? && "message" in r.body.value.fields && r.body.value.fields["message"].JStr?)
      ==> m == r.body.value.fields["message"].s
    ensures !(r.body.Some? && r.body.value.JObj? && "message" in r.body.value.fields && r.body.value.fields["message"] != JNull)
      ==> m == "HTTP " + IntToString(r.status)
  {
    if r.body.Some? && r.body.value.JObj? && "message" in r.body.value.fields && r.body.value.fields["message"] != JNull then
      ValueText(r.body.value.fields["message"], display)
    else "HTTP " + IntToString(r.status)
  }

  /** The end of `request`: a non-2xx status is an `ApiError` with the
      status; 204 is nothing; otherwise the JSON body, and a body that is
      not JSON fails. */
  function Handle(r: Response, display: Json -> string): (o: Outcome)
    ensures o.ApiError? <==> !Ok(r.status)
    ensures o.ApiError? ==> o.status == r.status && o.message == ErrorMessage(r, display)
    ensures o.NoContent? <==> r.status == 204
    ensures o.Value? <==> Ok(r.status) && r.status != 204 && r.body.Some?
    ensures o.Value? ==> o.body == r.body.value
  {
    if !Ok(r.status) then ApiError(ErrorMessage(r, display), r.status)
    else if r.status == 204 then NoContent
    else if r.body.Some? then Value(r.body.value)
    else BadJson
  }

  /** `response.token` as a string token: a string is kept; a missing
      or null field, and a body that is not an object, leave no token. */
  function TokenField(body: Json): Option<string> {
    match Get(body, "token")
    case Some(JStr(t)) => Some(t)
    case _ => None
  }

  /** `login`: a successful answer's token becomes the client's token; a
      failure leaves the client as it was. A 204 answer or a JSON `null`
      body makes `response.token` throw a `TypeError` (`TokenOfNothing`),
      which leaves the client as it was too. */
  function LoginDone(c: Client, r: Response, display: Json -> string): (res: (Client, Outcome))
    ensures Handle(r, display).Value? && Handle(r, display).body != JNull ==>
      res == (c.(token := TokenField(Handle(r, display).body)), Handle(r, display))
    ensures Handle(r, display).NoContent? || Handle(r, display) == Value(JNull) ==> res == (c, TokenOfNothing)
    ensures Handle(r, display).ApiError? || Handle(r, display).BadJson? ==> res == (c, Handle(r, display))
    ensures res.0.baseUrl == c.baseUrl
    ensures res.0 != c ==> res.1.Value?
  {
    var o := Handle(r, display);
    match o
    case Value(body) =>
      if body == JNull then (c, TokenOfNothing) else (c.(token := TokenField(body)), o)
    case NoContent => (c, TokenOfNothing)
    case _ => (c, o)
  }

  /** A 204 answer to a login is no login. */
  lemma NoContentLoginFails(c: Client, display: Json -> string)
    ensures LoginDone(c, Response(204, None), display) == (c, TokenOfNothing)
  {
  }

  /** After a login that returns a token, protected routes carry it; after
      `clearToken` they do not. */
  lemma LoginThenClear(c: Client, r: Response, display: Json -> string, t: string, e: Endpoint)
    requires Ok(r.status) && r.status != 204 && r.body == Some(JObj(map["token" := JStr(t)])) && t != ""
    requires RouteOf(e).requireAuth
    ensures LoginDone(c, r, display).1.Value?
    ensures var c1 := LoginDone(c, r, display).0;
      "Authorization" in RequestFor(c1, e, "", None).headers
      && RequestFor(c1, e, "", None).headers["Authorization"] == "Bearer " + t
      && "Authorization" !in RequestFor(ClearToken(c1), e, "", None).headers
  {
    assert Get(JObj(map["token" := JStr(t)]), "token") == Some(JStr(t));
  }
}
