/**
 * The REST client of the Cydarm case-management service: credentials and
 * sessions, the generic call executor, the request each domain operation
 * sends, and the walker over the paginated case search.
 *
 * Every operation returns an `Exchange`: what it produced (or raised) and the
 * requests it put on the wire, in order. The service is the `Network` oracle.
 */
module CydarmApi {
  import opened Wrappers
  import opened Json
  import opened Exceptions
  import opened Http
  import Base64

  /** The client's configuration, fixed at construction. */
  datatype Client = Client(
    baseUrl: string,
    username: string,
    password: string,
    basicAuthCreds: Option<Credentials>)

  /** What a call returns: parsed JSON, the raw response, or Python's `None`. */
  datatype ApiValue = JsonValue(json: Json) | RawResponse(response: Response) | NoValue

  /** A result together with the requests sent to obtain it. */
  datatype Exchange<T> = Exchange(result: Result<T, Error>, sent: seq<Request>)

  /**
   * The reply `rest_call_with_session` accepts: a response arrived, its
   * status is not 4xx/5xx and, when JSON is wanted, its body is JSON.
   */
  predicate Accepted(resp: Option<Response>, returnJson: bool)
  {
    resp.Some? && !IsErrorStatus(resp.value.status) && (returnJson ==> resp.value.body.Some?)
  }

  /** What an accepted reply is returned as: its parsed body, or the response itself. */
  function Reply(resp: Response, returnJson: bool): ApiValue
    requires returnJson ==> resp.body.Some?
  {
    if returnJson then JsonValue(resp.body.value) else RawResponse(resp)
  }

  const AuthPath: string := "/auth/password"
  const AuthzHeader: string := "x-cydarm-authz"
  const AccessTokenHeader: string := "Access-Token"

  // ---------------------------------------------------------------------------
  // to_base64

  predicate IsAscii(text: string)
  {
    forall i :: 0 <= i < |text| ==> text[i] as int < 128
  }

  /** `text.encode("ascii")` for text that is ASCII. */
  function AsciiBytes(text: string): (b: seq<Base64.byte>)
    requires IsAscii(text)
    ensures |b| == |text| && forall i :: 0 <= i < |b| ==> b[i] == text[i] as int
  {
    seq(|text|, i requires 0 <= i < |text| => text[i] as int)
  }

  /** `bytes.decode("ascii")`: `None` when a byte is above 127. */
  function AsciiText(b: seq<Base64.byte>): Option<string>
  {
    if forall i :: 0 <= i < |b| ==> b[i] < 128
    then Some(seq(|b|, i requires 0 <= i < |b| => b[i] as char))
    else None
  }

  /**
   * `CydarmAPI.to_base64`: the Base64 text of the ASCII bytes of `text`;
   * raises when `text` holds a character outside ASCII.
   */
  function ToBase64(text: string): (r: Result<string, Error>)
    ensures r.Success? <==> IsAscii(text)
    ensures r.Failure? ==> r.error == UnicodeEncodeError
    ensures r.Success? ==> Base64.Decode(r.value) == Some(AsciiBytes(text))
    ensures r.Success? ==> |r.value| == 4 * ((|text| + 2) / 3)
  {
    if IsAscii(text) then
      Base64.DecodeEncode(AsciiBytes(text));
      Success(Base64.Encode(AsciiBytes(text)))
    else Failure(UnicodeEncodeError)
  }

  /** Base64 text back to the text it encodes, as the service reads the credentials. */
  function FromBase64(b64: string): Option<string>
  {
    match Base64.Decode(b64)
    case Some(b) => AsciiText(b)
    case None => None
  }

  /** Every text `to_base64` accepts is recovered exactly from its output. */
  lemma ToBase64RoundTrip(text: string)
    requires IsAscii(text)
    ensures FromBase64(ToBase64(text).value) == Some(text)
  {
    var b := AsciiBytes(text);
    assert Base64.Decode(ToBase64(text).value) == Some(b);
    assert forall i :: 0 <= i < |b| ==> b[i] < 128;
    assert seq(|b|, i requires 0 <= i < |b| => b[i] as char) == text;
  }

  // ---------------------------------------------------------------------------
  // URL building

  /** `f"{self.base_url}{url_path}"`: the base URL followed by the path, nothing in between. */
  function Url(c: Client, path: string): (u: string)
    ensures |u| == |c.baseUrl| + |path|
    ensures u[..|c.baseUrl|] == c.baseUrl && u[|c.baseUrl|..] == path
  {
    c.baseUrl + path
  }

  /** Distinct paths give distinct URLs on one client. */
  lemma UrlInjective(c: Client, p: string, q: string)
    requires Url(c, p) == Url(c, q)
    ensures p == q
  {
    assert p == Url(c, p)[|c.baseUrl|..];
  }

  // ---------------------------------------------------------------------------
  // Sessions and the bearer token

  /** The body POSTed to the password endpoint: both credentials in Base64. */
  function AuthBody(c: Client): (r: Result<Json, Error>)
    ensures r.Success? <==> IsAscii(c.username) && IsAscii(c.password)
    ensures r.Success? ==>
      r.value == JObject(map["username" := JStr(ToBase64(c.username).value),
                             "password" := JStr(ToBase64(c.password).value)])
  {
    match ToBase64(c.username)
    case Failure(e) => Failure(e)
    case Success(user) =>
      match ToBase64(c.password)
      case Failure(e) => Failure(e)
      case Success(pass) => Success(JObject(map["username" := JStr(user), "password" := JStr(pass)]))
  }

  /** The request that fetches a bearer token: a POST of the credentials on a session without one. */
  predicate IsTokenRequest(c: Client, r: Request)
  {
    && r.verb == Post
    && r.url == Url(c, AuthPath)
    && r.auth == c.basicAuthCreds
    && AuthzHeader !in r.headers
    && AuthBody(c).Success?
    && r.json == Some(AuthBody(c).value)
  }

  /**
   * `create_session`: a session carrying the Basic credentials when they are
   * configured and, when `withBearerToken` holds, the header `x-cydarm-authz`
   * set to a freshly fetched bearer token.
   */
  function CreateSession(c: Client, net: Network, withBearerToken: bool): (x: Exchange<Session>)
    ensures x.result.Success? ==> x.result.value.auth == c.basicAuthCreds
    ensures x.result.Success? ==> (AuthzHeader in x.result.value.headers <==> withBearerToken)
    ensures !withBearerToken ==> x.result.Success? && x.sent == []
    ensures |x.sent| <= 1 && forall r :: r in x.sent ==> IsTokenRequest(c, r)
    decreases if withBearerToken then 2 else 0
  {
    var session := Session(c.basicAuthCreds, map[]);
    if !withBearerToken then Exchange(Success(session), [])
    else
      var token := GenerateBearerToken(c, net);
      match token.result
      case Failure(e) => Exchange(Failure(e), token.sent)
      case Success(t) => Exchange(Success(session.(headers := session.headers[AuthzHeader := t])), token.sent)
  }

  /**
   * `generate_bearer_token`: POST both credentials in Base64 to
   * `/auth/password` on a session without a bearer token, and return the
   * `Access-Token` header of the response. At most that one request is sent,
   * and none when a credential is not ASCII.
   */
  function GenerateBearerToken(c: Client, net: Network): (x: Exchange<string>)
    ensures |x.sent| <= 1 && forall r :: r in x.sent ==> IsTokenRequest(c, r)
    ensures x.sent == [] <==> !(IsAscii(c.username) && IsAscii(c.password))
    ensures x.result.Success? ==>
      && |x.sent| == 1
      && net(x.sent[0]).Some?
      && !IsErrorStatus(net(x.sent[0]).value.status)
      && AccessTokenHeader in net(x.sent[0]).value.headers
      && x.result.value == net(x.sent[0]).value.headers[AccessTokenHeader]
    ensures |x.sent| == 1 ==>
      (x.result.Success? <==>
         net(x.sent[0]).Some? && !IsErrorStatus(net(x.sent[0]).value.status)
         && AccessTokenHeader in net(x.sent[0]).value.headers)
    decreases 1
  {
    var session := CreateSession(c, net, false);
    match AuthBody(c)
    case Failure(e) => Exchange(Failure(e), session.sent)
    case Success(body) =>
      var call := RestCallWithSession(c, net, session.result.value, Post, AuthPath, false, Some(body), map[]);
      match call.result
      case Failure(e) => Exchange(Failure(e), session.sent + call.sent)
      case Success(v) =>
        var headers := v.response.headers;
        if AccessTokenHeader in headers then Exchange(Success(headers[AccessTokenHeader]), session.sent + call.sent)
        else Exchange(Failure(MissingHeader(AccessTokenHeader)), session.sent + call.sent)
  }

  /** The authenticated session carries exactly the token the password endpoint returned. */
  lemma SessionCarriesToken(c: Client, net: Network)
    ensures var s := CreateSession(c, net, true);
            var t := GenerateBearerToken(c, net);
            && s.sent == t.sent
            && (s.result.Success? <==> t.result.Success?)
            && (s.result.Success? ==> s.result.value.headers == map[AuthzHeader := t.result.value])
  {
  }

  // ---------------------------------------------------------------------------
  // The call executor

  /**
   * `rest_call_with_session`: one request to the base URL plus the path on
   * the given session; a 4xx/5xx status raises; with `returnJson` the parsed
   * body is returned, otherwise the raw response.
   */
  function RestCallWithSession(c: Client, net: Network, s: Session, verb: Verb, path: string,
                               returnJson: bool, json: Option<Json>, params: map<string, Json>): (x: Exchange<ApiValue>)
    ensures |x.sent| == 1
    ensures x.sent[0].url == Url(c, path) && x.sent[0].verb == verb
    ensures x.sent[0].auth == s.auth && x.sent[0].headers == s.headers
    ensures x.sent[0].json == json && x.sent[0].params == params
    ensures x.result.Success? <==> Accepted(net(x.sent[0]), returnJson)
    ensures x.result.Success? ==> x.result.value == Reply(net(x.sent[0]).value, returnJson)
  {
    var request := Send(s, verb, Url(c, path), json, params);
    match net(request)
    case None => Exchange(Failure(ConnectionError), [request])
    case Some(resp) =>
      match RaiseForStatus(resp)
      case Failure(e) => Exchange(Failure(e), [request])
      case Success(ok) =>
        if returnJson then
          match ParseBody(ok)
          case Failure(e) => Exchange(Failure(e), [request])
          case Success(j) => Exchange(Success(JsonValue(j)), [request])
        else Exchange(Success(RawResponse(ok)), [request])
  }

  /**
   * `rest_call`: a fresh authenticated session (one token request), then the
   * call on it. The call carries the bearer header; a failed token fetch
   * stops before the call is sent.
   */
  function RestCall(c: Client, net: Network, verb: Verb, path: string, returnJson: bool,
                    json: Option<Json>, params: map<string, Json>): (x: Exchange<ApiValue>)
    ensures GenerateBearerToken(c, net).result.Failure? ==>
      x == Exchange(Failure(GenerateBearerToken(c, net).result.error), GenerateBearerToken(c, net).sent)
    ensures GenerateBearerToken(c, net).result.Success? ==>
      |x.sent| == 2 && x.sent[..1] == GenerateBearerToken(c, net).sent
    ensures |x.sent| <= 2 && forall i :: 0 <= i < |x.sent| - 1 ==> IsTokenRequest(c, x.sent[i])
    ensures |x.sent| == 2 ==>
      && x.sent[1].verb == verb && x.sent[1].url == Url(c, path)
      && x.sent[1].auth == c.basicAuthCreds
      && x.sent[1].headers == map[AuthzHeader := GenerateBearerToken(c, net).result.value]
      && x.sent[1].json == json && x.sent[1].params == params
    ensures |x.sent| == 2 ==> (x.result.Success? <==> Accepted(net(x.sent[1]), returnJson))
    ensures x.result.Success? ==>
      && |x.sent| == 2 && Accepted(net(x.sent[1]), returnJson)
      && x.result.value == Reply(net(x.sent[1]).value, returnJson)
  {
    var session := CreateSession(c, net, true);
    match session.result
    case Failure(e) => Exchange(Failure(e), session.sent)
    case Success(s) =>
      var call := RestCallWithSession(c, net, s, verb, path, returnJson, json, params);
      Exchange(call.result, session.sent + call.sent)
  }

  /** `rest_get`: parsed JSON unless the caller asks otherwise. */
  function RestGet(c: Client, net: Network, path: string, params: map<string, Json>, returnJson: bool := true): Exchange<ApiValue>
  {
    RestCall(c, net, Get, path, returnJson, None, params)
  }

  /** `rest_post`: parsed JSON unless the caller asks otherwise. */
  function RestPost(c: Client, net: Network, path: string, json: Option<Json>, returnJson: bool := true): Exchange<ApiValue>
  {
    RestCall(c, net, Post, path, returnJson, json, map[])
  }

  /** `rest_put`: always the raw response. */
  function RestPut(c: Client, net: Network, path: string, json: Option<Json>): Exchange<ApiValue>
  {
    RestCall(c, net, Put, path, false, json, map[])
  }

  /** `rest_delete`: always the raw response. */
  function RestDelete(c: Client, net: Network, path: string, json: Option<Json>): Exchange<ApiValue>
  {
    RestCall(c, net, Delete, path, false, json, map[])
  }

  /** PUT and DELETE never parse the body; GET and POST do by default. */
  lemma ReturnModes(c: Client, net: Network, path: string, json: Option<Json>, params: map<string, Json>)
    ensures RestPut(c, net, path, json).result.Success? ==> RestPut(c, net, path, json).result.value.RawResponse?
    ensures RestDelete(c, net, path, json).result.Success? ==> RestDelete(c, net, path, json).result.value.RawResponse?
    ensures RestGet(c, net, path, params).result.Success? ==> RestGet(c, net, path, params).result.value.JsonValue?
    ensures RestPost(c, net, path, json).result.Success? ==> RestPost(c, net, path, json).result.value.JsonValue?
  {
  }

  // ---------------------------------------------------------------------------
  // Domain operations and their signatures

  datatype Endpoint =
    | GetCase | GetPlaybook | CreatePlaybook | GetPlaybookAction | CreatePlaybookAction
    | AddActionToPlaybook | GetCasePlaybook | GetCasePlaybooks | CreateCasePlaybook
    | AddWatcherToCase | AddMemberToCase | UpdateCase | UpdateCaseHistory | CreateCase
    | CreateActionInstanceData | CreateCaseDataComment | GetCaseDataList | GetCaseQuickSearch
    | GetCasesFiltered | GetCasesFilteredPaginated | GetUser | GetAcl | AddCaseTag | DeleteCaseTag

  /** A declared parameter of a client method and its default value, if any. */
  datatype Parameter = Parameter(name: string, default: Option<Json>)

  /** A client method's parameter list; `keywords` when it also takes `**kwargs`. */
  datatype Signature = Signature(parameters: seq<Parameter>, keywords: bool)

  function Req(name: string): Parameter { Parameter(name, None) }

  function Opt(name: string, default: Json): Parameter { Parameter(name, Some(default)) }

  /** The declared parameters of `create_case`, before its `**kwargs`. */
  const CreateCaseParameters: seq<Parameter> :=
    [Req("description"), Req("org"), Opt("deletable", JBool(true)), Opt("editable", JBool(true)),
     Opt("manageable", JBool(true)), Opt("readable", JBool(true))]

  /** The Python signature of each client method. */
  function SignatureOf(e: Endpoint): (s: Signature)
    ensures s.keywords <==> e == UpdateCase || e == CreateCase
  {
    match e
    case GetCase => Signature([Req("case_uuid")], false)
    case GetPlaybook => Signature([Req("playbook_uuid")], false)
    case CreatePlaybook => Signature([Opt("name", JNull), Opt("description", JNull), Opt("acl_uuid", JNull)], false)
    case GetPlaybookAction => Signature([Req("action_uuid")], false)
    case CreatePlaybookAction => Signature([Opt("name", JNull), Opt("description", JNull), Opt("acl_uuid", JNull)], false)
    case AddActionToPlaybook => Signature([Req("playbook_uuid"), Req("action_uuid")], false)
    case GetCasePlaybook => Signature([Req("case_uuid"), Req("case_playbook_uuid")], false)
    case GetCasePlaybooks => Signature([Req("case_uuid")], false)
    case CreateCasePlaybook => Signature([Req("case_uuid"), Req("playbook_uuid")], false)
    case AddWatcherToCase => Signature([Req("case_uuid"), Req("user_uuid")], false)
    case AddMemberToCase => Signature([Req("case_uuid"), Req("member_case_uuid")], false)
    case UpdateCase => Signature([Req("case_uuid")], true)
    case UpdateCaseHistory => Signature([Req("case_uuid"), Req("modified"), Req("status")], false)
    case CreateCase => Signature(CreateCaseParameters, true)
    case CreateActionInstanceData => Signature([Req("action_instance_uuid"), Req("comment")], false)
    case CreateCaseDataComment => Signature([Req("case_uuid"), Req("comment")], false)
    case GetCaseDataList => Signature([Req("case_uuid")], false)
    case GetCaseQuickSearch => Signature([Req("search_string")], false)
    case GetCasesFiltered =>
      Signature([Opt("page_size", JNum(1000)), Opt("filter_text", JStr("")), Opt("tags_included", JStr(""))], false)
    case GetCasesFilteredPaginated =>
      Signature([Opt("page_size", JNum(1000)), Opt("page_num", JNum(0)),
                 Opt("filter_text", JNull), Opt("tags_included", JNull)], false)
    case GetUser => Signature([Req("user_uuid")], false)
    case GetAcl => Signature([Req("acl_uuid")], false)
    case AddCaseTag => Signature([Req("case_uuid"), Req("tag_value")], false)
    case DeleteCaseTag => Signature([Req("case_uuid"), Req("tag_value")], false)
  }

  /** The names of the declared parameters. */
  function Names(ps: seq<Parameter>): (r: set<string>)
  {
    if ps == [] then {} else {ps[0].name} + Names(ps[1..])
  }

  /** The first declared parameter called `name`, if any. */
  function FirstNamed(ps: seq<Parameter>, name: string): (r: Option<Parameter>)
    ensures r.Some? ==> r.value in ps && r.value.name == name
  {
    if ps == [] then None
    else if ps[0].name == name then Some(ps[0])
    else FirstNamed(ps[1..], name)
  }

  /** A declaration whose name no earlier declaration has is the one a lookup by that name finds. */
  lemma {:induction false} FirstNamedAt(ps: seq<Parameter>, i: nat)
    requires i < |ps|
    requires forall j :: 0 <= j < i ==> ps[j].name != ps[i].name
    ensures FirstNamed(ps, ps[i].name) == Some(ps[i])
  {
    if i > 0 {
      assert ps[0].name != ps[i].name;
      assert ps[1..][i - 1] == ps[i];
      FirstNamedAt(ps[1..], i - 1);
    }
  }

  /** The arguments of a call: one per declared parameter, and the leftover `**kwargs`. */
  datatype Bound = Bound(args: map<string, Json>, extra: map<string, Json>)

  /** Each declared parameter takes the keyword argument of its name, else its default. */
  function BindParameters(ps: seq<Parameter>, keywords: map<string, Json>): (r: Result<map<string, Json>, Error>)
    ensures r.Success? ==> r.value.Keys == Names(ps)
    ensures r.Success? ==> forall n :: n in keywords && n in r.value ==> r.value[n] == keywords[n]
    ensures r.Success? <==> forall p :: p in ps ==> p.name in keywords || p.default.Some?
    ensures r.Failure? ==> exists p :: p in ps && p.name !in keywords && p.default.None? && r.error == MissingArgument(p.name)
  {
    if ps == [] then Success(map[])
    else
      var p := ps[0];
      assert Names(ps) == {p.name} + Names(ps[1..]);
      if p.name !in keywords && p.default.None? then Failure(MissingArgument(p.name))
      else
        match BindParameters(ps[1..], keywords)
        case Failure(e) => Failure(e)
        case Success(rest) =>
          Success(rest[p.name := if p.name in keywords then keywords[p.name] else p.default.value])
  }

  /**
   * Python's binding of `func(**keywords)`: an undeclared keyword raises
   * unless the method takes `**kwargs`; a required parameter without a
   * keyword raises; everything else is bound.
   */
  function Bind(sig: Signature, keywords: map<string, Json>): (r: Result<Bound, Error>)
    ensures r.Success? ==> r.value.args.Keys == Names(sig.parameters)
    ensures r.Success? ==> forall n :: n in keywords && n in r.value.args ==> r.value.args[n] == keywords[n]
    ensures r.Success? ==> r.value.extra == keywords - Names(sig.parameters)
    ensures r.Success? <==>
      && (sig.keywords || keywords.Keys <= Names(sig.parameters))
      && (forall p :: p in sig.parameters ==> p.name in keywords || p.default.Some?)
  {
    var names := Names(sig.parameters);
    if !sig.keywords && !(keywords.Keys <= names) then Failure(UnexpectedArgument)
    else
      match BindParameters(sig.parameters, keywords)
      case Failure(e) => Failure(e)
      case Success(args) => Success(Bound(args, keywords - names))
  }

  /** The bound value of a declared parameter; `Bind` gives every declared parameter one. */
  function Arg(b: Bound, name: string): Json
  {
    if name in b.args then b.args[name] else JNull
  }

  /** The HTTP call a domain operation makes, in the shape of the `rest_*` helper it uses. */
  datatype Call =
    | GetCall(path: string, params: map<string, Json>)
    | PostCall(path: string, json: Option<Json>, returnJson: bool)
    | PutCall(path: string, json: Option<Json>)
    | DeleteCall(path: string, json: Option<Json>)

  /** The HTTP verb of the `rest_*` helper a call goes through. */
  function VerbOf(call: Call): Verb
  {
    match call
    case GetCall(_, _) => Get
    case PostCall(_, _, _) => Post
    case PutCall(_, _) => Put
    case DeleteCall(_, _) => Delete
  }

  /** The `json=` body of a call; `rest_get` sends none. */
  function BodyOf(call: Call): Option<Json>
  {
    if call.GetCall? then None else call.json
  }

  /** The `params=` query of a call; only `rest_get` sends one. */
  function QueryOf(call: Call): map<string, Json>
  {
    if call.GetCall? then call.params else map[]
  }

  /** Whether the helper returns the parsed body: GET always, POST unless told otherwise, PUT and DELETE never. */
  function ReturnsJson(call: Call): bool
  {
    match call
    case GetCall(_, _) => true
    case PostCall(_, _, returnJson) => returnJson
    case PutCall(_, _) => false
    case DeleteCall(_, _) => false
  }

  /** The request that carries `call` on a session holding the bearer token `token`. */
  function CallRequest(c: Client, token: string, call: Call): Request
  {
    Request(VerbOf(call), Url(c, call.path), c.basicAuthCreds, map[AuthzHeader := token], BodyOf(call), QueryOf(call))
  }

  /** The `json=` body of a playbook or playbook-action creation. */
  function AtcBody(b: Bound): Json
  {
    JObject(map["atc" := JObject(map["name" := Arg(b, "name"), "description" := Arg(b, "description"),
                                     "acl" := Arg(b, "acl_uuid")])])
  }

  /**
   * The body of both comment operations: the comment in Base64, MIME type
   * `text/plain`, significance `Comment`. Raises when the comment is not a
   * string or not ASCII.
   */
  function CommentBody(comment: Json): (r: Result<Json, Error>)
    ensures r.Success? <==> comment.JStr? && IsAscii(comment.s)
    ensures r.Success? ==> r.value.JObject? && r.value.fields.Keys == {"data", "mimeType", "significance"}
    ensures r.Success? ==> r.value.fields["mimeType"] == JStr("text/plain")
    ensures r.Success? ==> r.value.fields["significance"] == JStr("Comment")
    ensures r.Success? ==> r.value.fields["data"].JStr? && FromBase64(r.value.fields["data"].s) == Some(comment.s)
  {
    match comment
    case JStr(text) =>
      (match ToBase64(text)
       case Failure(e) => Failure(e)
       case Success(data) =>
         ToBase64RoundTrip(text);
         Success(JObject(map["data" := JStr(data), "mimeType" := JStr("text/plain"),
                             "significance" := JStr("Comment")])))
    case _ => Failure(NotAString)
  }

  /**
   * The body of `create_case`: the four flags, description and organisation,
   * then every extra keyword argument added on top (`body.update(**kwargs)`).
   */
  function CreateCaseBody(b: Bound): (r: Json)
    ensures r.JObject?
    ensures r.fields.Keys == {"deletable", "description", "editable", "manageable", "org", "readable"} + b.extra.Keys
    ensures forall k :: k in b.extra ==> r.fields[k] == b.extra[k]
    ensures forall k :: k in r.fields && k !in b.extra ==> r.fields[k] == Arg(b, k)
  {
    JObject(map["deletable" := Arg(b, "deletable"), "description" := Arg(b, "description"),
                "editable" := Arg(b, "editable"), "manageable" := Arg(b, "manageable"),
                "org" := Arg(b, "org"), "readable" := Arg(b, "readable")] + b.extra)
  }

  /**
   * The query of one page of the filtered case search: page number and size
   * always, the text filter and the tag filter only when they are truthy.
   */
  function PageQuery(pageNum: Json, pageSize: Json, filterText: Json, tagsIncluded: Json): (q: map<string, Json>)
    ensures "page[number]" in q && q["page[number]"] == pageNum
    ensures "page[size]" in q && q["page[size]"] == pageSize
    ensures "filter[text]" in q <==> Truthy(filterText)
    ensures "filter[text]" in q ==> q["filter[text]"] == filterText
    ensures "filter[inc_tag]" in q <==> Truthy(tagsIncluded)
    ensures "filter[inc_tag]" in q ==> q["filter[inc_tag]"] == tagsIncluded
    ensures q.Keys <= {"page[number]", "page[size]", "filter[text]", "filter[inc_tag]"}
  {
    var params := map["page[number]" := pageNum, "page[size]" := pageSize];
    var params := if Truthy(filterText) then params["filter[text]" := filterText] else params;
    if Truthy(tagsIncluded) then params["filter[inc_tag]" := tagsIncluded] else params
  }

  /**
   * The one HTTP call of each domain operation other than the page walker.
   * Only the comment operations can raise before anything is sent.
   */
  function Route(e: Endpoint, b: Bound): (r: Result<Call, Error>)
    requires !e.GetCasesFiltered?
    ensures r.Failure? ==> e == CreateActionInstanceData || e == CreateCaseDataComment
  {
    match e
    case GetCase => Success(GetCall("/case/" + Str(Arg(b, "case_uuid")), map[]))
    case GetPlaybook => Success(GetCall("/playbook/" + Str(Arg(b, "playbook_uuid")), map[]))
    case CreatePlaybook => Success(PostCall("/playbook", Some(AtcBody(b)), true))
    case GetPlaybookAction => Success(GetCall("/playbook-action/" + Str(Arg(b, "action_uuid")), map[]))
    case CreatePlaybookAction => Success(PostCall("/playbook-action", Some(AtcBody(b)), true))
    case AddActionToPlaybook =>
      Success(PostCall("/playbook/" + Str(Arg(b, "playbook_uuid")) + "/playbook-action/" + Str(Arg(b, "action_uuid")),
                       Some(JObject(map["atc" := JObject(map[])])), false))
    case GetCasePlaybook =>
      Success(GetCall("/case/" + Str(Arg(b, "case_uuid")) + "/playbook/" + Str(Arg(b, "case_playbook_uuid")), map[]))
    case GetCasePlaybooks => Success(GetCall("/case/" + Str(Arg(b, "case_uuid")) + "/playbook", map[]))
    case CreateCasePlaybook =>
      Success(PostCall("/case/" + Str(Arg(b, "case_uuid")) + "/playbook/" + Str(Arg(b, "playbook_uuid")), None, true))
    case AddWatcherToCase =>
      Success(PostCall("/case/" + Str(Arg(b, "case_uuid")) + "/watch",
                       Some(JObject(map["user_uuid" := Arg(b, "user_uuid")])), true))
    case AddMemberToCase =>
      Success(PostCall("/case/" + Str(Arg(b, "case_uuid")) + "/member/" + Str(Arg(b, "member_case_uuid")), None, true))
    case UpdateCase => Success(PutCall("/case/" + Str(Arg(b, "case_uuid")), Some(JObject(b.extra))))
    case UpdateCaseHistory =>
      Success(PutCall("/case/" + Str(Arg(b, "case_uuid")) + "/history",
                      Some(JObject(map["modified" := Arg(b, "modified"), "status" := Arg(b, "status")]))))
    case CreateCase => Success(PostCall("/case", Some(CreateCaseBody(b)), true))
    case CreateActionInstanceData =>
      (match CommentBody(Arg(b, "comment"))
       case Failure(err) => Failure(err)
       case Success(body) =>
         Success(PostCall("/action-instance/" + Str(Arg(b, "action_instance_uuid")) + "/data", Some(body), true)))
    case CreateCaseDataComment =>
      (match CommentBody(Arg(b, "comment"))
       case Failure(err) => Failure(err)
       case Success(body) => Success(PostCall("/case/" + Str(Arg(b, "case_uuid")) + "/data", Some(body), true)))
    case GetCaseDataList => Success(GetCall("/case/" + Str(Arg(b, "case_uuid")) + "/data", map[]))
    case GetCaseQuickSearch =>
      Success(PostCall("/case/quick-search", Some(JObject(map["searchString" := Arg(b, "search_string")])), true))
    case GetCasesFilteredPaginated =>
      Success(GetCall("/case", PageQuery(Arg(b, "page_num"), Arg(b, "page_size"),
                                         Arg(b, "filter_text"), Arg(b, "tags_included"))))
    case GetUser => Success(GetCall("/user/" + Str(Arg(b, "user_uuid")), map[]))
    case GetAcl => Success(GetCall("/acl/" + Str(Arg(b, "acl_uuid")), map[]))
    case AddCaseTag =>
      Success(PostCall("/case/" + Str(Arg(b, "case_uuid")) + "/tag",
                       Some(JObject(map["tagValue" := Arg(b, "tag_value")])), true))
    case DeleteCaseTag =>
      Success(DeleteCall("/case/" + Str(Arg(b, "case_uuid")) + "/tag",
                         Some(JObject(map["tagValue" := Arg(b, "tag_value")]))))
  }

  /** The two case updates are the operations that PUT, and removing a tag the one that DELETEs. */
  lemma RouteVerbs(e: Endpoint, b: Bound)
    requires !e.GetCasesFiltered?
    ensures Route(e, b).Success? ==> (VerbOf(Route(e, b).value) == Put <==> e == UpdateCase || e == UpdateCaseHistory)
    ensures Route(e, b).Success? ==> (VerbOf(Route(e, b).value) == Delete <==> e == DeleteCaseTag)
  {
  }

  /** The lookups and the page fetch are the operations that GET; the rest POST, PUT or DELETE. */
  lemma RouteGets(e: Endpoint, b: Bound)
    requires !e.GetCasesFiltered?
    ensures Route(e, b).Success? ==>
      (VerbOf(Route(e, b).value) == Get <==>
         e in {GetCase, GetPlaybook, GetPlaybookAction, GetCasePlaybook, GetCasePlaybooks, GetCaseDataList,
               GetCasesFilteredPaginated, GetUser, GetAcl})
  {
  }

  /**
   * The PUTs, the DELETE and adding an action to a playbook return the raw
   * response; every other operation returns the parsed body.
   */
  lemma RouteReturnsJson(e: Endpoint, b: Bound)
    requires !e.GetCasesFiltered?
    ensures Route(e, b).Success? ==>
      (!ReturnsJson(Route(e, b).value) <==> e in {AddActionToPlaybook, UpdateCase, UpdateCaseHistory, DeleteCaseTag})
  {
  }

  /** Each declared parameter is bound to its keyword argument when there is one, else to its default. */
  lemma BoundArgument(sig: Signature, keywords: map<string, Json>, b: Bound, p: Parameter)
    requires Bind(sig, keywords) == Success(b)
    requires FirstNamed(sig.parameters, p.name) == Some(p)
    ensures p.name in keywords ==> Arg(b, p.name) == keywords[p.name]
    ensures p.name !in keywords ==> p.default.Some? && Arg(b, p.name) == p.default.value
  {
    BoundDefault(sig.parameters, keywords, p);
  }

  /** The same for the declaration at index `i` when no earlier one shares its name. */
  lemma BoundArgumentAt(sig: Signature, keywords: map<string, Json>, b: Bound, i: nat)
    requires Bind(sig, keywords) == Success(b)
    requires i < |sig.parameters|
    requires forall j :: 0 <= j < i ==> sig.parameters[j].name != sig.parameters[i].name
    ensures var p := sig.parameters[i];
      && (p.name in keywords ==> Arg(b, p.name) == keywords[p.name])
      && (p.name !in keywords ==> p.default.Some? && Arg(b, p.name) == p.default.value)
  {
    FirstNamedAt(sig.parameters, i);
    BoundArgument(sig, keywords, b, sig.parameters[i]);
  }

  /** A parameter without a keyword argument takes the default of its first declaration. */
  lemma {:induction false} BoundDefault(ps: seq<Parameter>, keywords: map<string, Json>, p: Parameter)
    requires BindParameters(ps, keywords).Success?
    requires FirstNamed(ps, p.name) == Some(p)
    ensures p.name in BindParameters(ps, keywords).value
    ensures p.name !in keywords ==> p.default.Some? && BindParameters(ps, keywords).value[p.name] == p.default.value
  {
    if ps[0].name != p.name {
      BoundDefault(ps[1..], keywords, p);
    }
  }

  /** The keyword argument `name` when the caller passed one, else `default`. */
  function KeywordOr(keywords: map<string, Json>, name: string, default: Json): Json
  {
    if name in keywords then keywords[name] else default
  }

  /**
   * `create_case(**keywords)` needs a description and an organisation, and
   * sends every keyword unaltered, plus each of the four flags the caller
   * left out, set to `true`; nothing else.
   */
  lemma CreateCaseSendsKeywords(keywords: map<string, Json>)
    ensures Bind(SignatureOf(CreateCase), keywords).Success? <==> "description" in keywords && "org" in keywords
    ensures Bind(SignatureOf(CreateCase), keywords).Success? ==>
      var body := CreateCaseBody(Bind(SignatureOf(CreateCase), keywords).value).fields;
      && body.Keys == keywords.Keys + {"deletable", "editable", "manageable", "readable"}
      && (forall k :: k in keywords ==> body[k] == keywords[k])
      && body["deletable"] == KeywordOr(keywords, "deletable", JBool(true))
      && body["editable"] == KeywordOr(keywords, "editable", JBool(true))
      && body["manageable"] == KeywordOr(keywords, "manageable", JBool(true))
      && body["readable"] == KeywordOr(keywords, "readable", JBool(true))
  {
    CreateCaseBinding(SignatureOf(CreateCase), keywords);
  }

  lemma CreateCaseBinding(sig: Signature, keywords: map<string, Json>)
    requires sig == Signature(CreateCaseParameters, true)
    ensures Bind(sig, keywords).Success? <==> "description" in keywords && "org" in keywords
    ensures Bind(sig, keywords).Success? ==>
      var body := CreateCaseBody(Bind(sig, keywords).value).fields;
      && body.Keys == keywords.Keys + {"deletable", "editable", "manageable", "readable"}
      && (forall k :: k in keywords ==> body[k] == keywords[k])
      && body["deletable"] == KeywordOr(keywords, "deletable", JBool(true))
      && body["editable"] == KeywordOr(keywords, "editable", JBool(true))
      && body["manageable"] == KeywordOr(keywords, "manageable", JBool(true))
      && body["readable"] == KeywordOr(keywords, "readable", JBool(true))
  {
    assert sig.parameters[0] in sig.parameters && sig.parameters[1] in sig.parameters;
    if Bind(sig, keywords).Success? {
      var b := Bind(sig, keywords).value;
      CreateCaseNames();
      CreateCaseRequiredArgs(sig, keywords, b);
      CreateCaseFlagArgs(sig, keywords, b);
      CreateCaseBodyKeys(keywords, b);
      CreateCaseBodyValues(keywords, b);
    }
  }

  /** The keys `create_case` sends: the keywords and the four flags. */
  lemma CreateCaseBodyKeys(keywords: map<string, Json>, b: Bound)
    requires "description" in keywords && "org" in keywords
    requires b.extra == keywords - {"description", "org", "deletable", "editable", "manageable", "readable"}
    ensures CreateCaseBody(b).fields.Keys == keywords.Keys + {"deletable", "editable", "manageable", "readable"}
  {
  }

  /** The values `create_case` sends: the keywords unaltered, and `true` for a flag left out. */
  lemma CreateCaseBodyValues(keywords: map<string, Json>, b: Bound)
    requires "description" in keywords && "org" in keywords
    requires b.extra == keywords - {"description", "org", "deletable", "editable", "manageable", "readable"}
    requires Arg(b, "description") == keywords["description"] && Arg(b, "org") == keywords["org"]
    requires Arg(b, "deletable") == KeywordOr(keywords, "deletable", JBool(true))
    requires Arg(b, "editable") == KeywordOr(keywords, "editable", JBool(true))
    requires Arg(b, "manageable") == KeywordOr(keywords, "manageable", JBool(true))
    requires Arg(b, "readable") == KeywordOr(keywords, "readable", JBool(true))
    ensures forall k :: k in keywords ==> CreateCaseBody(b).fields[k] == keywords[k]
    ensures CreateCaseBody(b).fields["deletable"] == KeywordOr(keywords, "deletable", JBool(true))
    ensures CreateCaseBody(b).fields["editable"] == KeywordOr(keywords, "editable", JBool(true))
    ensures CreateCaseBody(b).fields["manageable"] == KeywordOr(keywords, "manageable", JBool(true))
    ensures CreateCaseBody(b).fields["readable"] == KeywordOr(keywords, "readable", JBool(true))
  {
  }

  /** The parameter names of `create_case`. */
  lemma CreateCaseNames()
    ensures Names(CreateCaseParameters) == {"description", "org", "deletable", "editable", "manageable", "readable"}
  {
  }

  /** The declarations of the required parameters of `create_case`. */
  lemma CreateCaseRequiredDeclarations()
    ensures FirstNamed(CreateCaseParameters, "description") == Some(Req("description"))
    ensures FirstNamed(CreateCaseParameters, "org") == Some(Req("org"))
  {
  }

  /** No two parameters of `create_case` share a name. */
  lemma CreateCaseNamesDistinct()
    ensures forall i, j :: 0 <= i < j < |CreateCaseParameters| ==> CreateCaseParameters[i].name != CreateCaseParameters[j].name
  {
  }

  /** The description and organisation of `create_case` are the caller's. */
  lemma CreateCaseRequiredArgs(sig: Signature, keywords: map<string, Json>, b: Bound)
    requires sig.parameters == CreateCaseParameters
    requires Bind(sig, keywords) == Success(b)
    ensures Arg(b, "description") == keywords["description"] && Arg(b, "org") == keywords["org"]
  {
    CreateCaseRequiredDeclarations();
    BoundArgument(sig, keywords, b, Req("description"));
    BoundArgument(sig, keywords, b, Req("org"));
  }

  /** The flags of `create_case`: the keyword when given, else `true`. */
  lemma CreateCaseFlagArgs(sig: Signature, keywords: map<string, Json>, b: Bound)
    requires sig.parameters == CreateCaseParameters
    requires Bind(sig, keywords) == Success(b)
    ensures Arg(b, "deletable") == KeywordOr(keywords, "deletable", JBool(true))
    ensures Arg(b, "editable") == KeywordOr(keywords, "editable", JBool(true))
    ensures Arg(b, "manageable") == KeywordOr(keywords, "manageable", JBool(true))
    ensures Arg(b, "readable") == KeywordOr(keywords, "readable", JBool(true))
  {
    CreateCaseNamesDistinct();
    BoundArgumentAt(sig, keywords, b, 2);
    BoundArgumentAt(sig, keywords, b, 3);
    BoundArgumentAt(sig, keywords, b, 4);
    BoundArgumentAt(sig, keywords, b, 5);
  }

  /** `update_case(**keywords)` needs `case_uuid` and PUTs every other keyword as the body. */
  lemma UpdateCaseSendsKeywords(keywords: map<string, Json>)
    ensures Bind(SignatureOf(UpdateCase), keywords).Success? <==> "case_uuid" in keywords
    ensures Bind(SignatureOf(UpdateCase), keywords).Success? ==>
      Route(UpdateCase, Bind(SignatureOf(UpdateCase), keywords).value)
        == Success(PutCall("/case/" + Str(keywords["case_uuid"]), Some(JObject(keywords - {"case_uuid"}))))
  {
    var sig := SignatureOf(UpdateCase);
    assert sig.parameters[0] in sig.parameters;
    assert Names(sig.parameters) == {"case_uuid"};
  }

  /** Both comment operations send the same body for the same comment, and fail alike. */
  lemma CommentOperationsAgree(b1: Bound, b2: Bound)
    requires Arg(b1, "comment") == Arg(b2, "comment")
    ensures Route(CreateActionInstanceData, b1).Success? <==> Route(CreateCaseDataComment, b2).Success?
    ensures Route(CreateActionInstanceData, b1).Failure? ==>
      Route(CreateActionInstanceData, b1).error == Route(CreateCaseDataComment, b2).error
    ensures Route(CreateActionInstanceData, b1).Success? ==>
      Route(CreateActionInstanceData, b1).value.json == Route(CreateCaseDataComment, b2).value.json
  {
  }

  /** The token request carries both credentials, each recoverable from its Base64 text. */
  lemma TokenRequestCarriesCredentials(c: Client, r: Request)
    requires IsTokenRequest(c, r)
    ensures r.json.value.JObject? && r.json.value.fields.Keys == {"username", "password"}
    ensures FromBase64(r.json.value.fields["username"].s) == Some(c.username)
    ensures FromBase64(r.json.value.fields["password"].s) == Some(c.password)
  {
    ToBase64RoundTrip(c.username);
    ToBase64RoundTrip(c.password);
  }

  /** Issue a call through the `rest_*` helper its shape names. */
  function Issue(c: Client, net: Network, call: Call): (x: Exchange<ApiValue>)
    ensures GenerateBearerToken(c, net).result.Failure? ==>
      x == Exchange(Failure(GenerateBearerToken(c, net).result.error), GenerateBearerToken(c, net).sent)
    ensures GenerateBearerToken(c, net).result.Success? ==>
      && |x.sent| == 2 && IsTokenRequest(c, x.sent[0])
      && x.sent[1] == CallRequest(c, GenerateBearerToken(c, net).result.value, call)
    ensures |x.sent| == 2 ==> (x.result.Success? <==> Accepted(net(x.sent[1]), ReturnsJson(call)))
    ensures x.result.Success? ==>
      && |x.sent| == 2 && Accepted(net(x.sent[1]), ReturnsJson(call))
      && x.result.value == Reply(net(x.sent[1]).value, ReturnsJson(call))
  {
    match call
    case GetCall(path, params) => RestGet(c, net, path, params)
    case PostCall(path, json, returnJson) => RestPost(c, net, path, json, returnJson)
    case PutCall(path, json) => RestPut(c, net, path, json)
    case DeleteCall(path, json) => RestDelete(c, net, path, json)
  }

  /**
   * A domain operation other than the page walker: its call, issued on a
   * fresh authenticated session. `update_case` discards the response and
   * returns `None`.
   */
  function Perform(c: Client, net: Network, e: Endpoint, b: Bound): (x: Exchange<ApiValue>)
    requires !e.GetCasesFiltered?
    ensures Route(e, b).Failure? ==> x == Exchange(Failure(Route(e, b).error), [])
    ensures Route(e, b).Success? ==> x.sent == Issue(c, net, Route(e, b).value).sent
    ensures Route(e, b).Success? ==> (x.result.Success? <==> Issue(c, net, Route(e, b).value).result.Success?)
    ensures Route(e, b).Success? && (e != UpdateCase || x.result.Failure?) ==>
      x.result == Issue(c, net, Route(e, b).value).result
    ensures e == UpdateCase && x.result.Success? ==> x.result.value == NoValue
    ensures x.result.Success? ==> |x.sent| == 2 && IsTokenRequest(c, x.sent[0])
  {
    match Route(e, b)
    case Failure(err) => Exchange(Failure(err), [])
    case Success(call) =>
      var x := Issue(c, net, call);
      if e == UpdateCase && x.result.Success? then Exchange(Success(NoValue), x.sent) else x
  }

  // ---------------------------------------------------------------------------
  // get_cases_filtered

  /** One page as the walker reads it: its `data` items and whether `links` has a `next` key. */
  datatype Page = Page(data: seq<Json>, hasNext: bool)

  /** `resp['data']` and `'next' in resp['links']` on the parsed page. */
  function ReadPage(v: ApiValue): (r: Result<Page, Error>)
    ensures r.Success? <==>
      && v.JsonValue? && v.json.JObject?
      && "data" in v.json.fields && v.json.fields["data"].JArray?
      && "links" in v.json.fields && v.json.fields["links"].JObject?
    ensures r.Success? ==> r.value.data == v.json.fields["data"].items
    ensures r.Success? ==> (r.value.hasNext <==> "next" in v.json.fields["links"].fields)
  {
    match v
    case JsonValue(JObject(page)) =>
      if "data" !in page then Failure(KeyError("data"))
      else if !page["data"].JArray? then Failure(MalformedPage)
      else if "links" !in page then Failure(KeyError("links"))
      else if !page["links"].JObject? then Failure(MalformedPage)
      else Success(Page(page["data"].items, "next" in page["links"].fields))
    case _ => Failure(MalformedPage)
  }

  /** The arguments `get_cases_filtered` passes to `get_cases_filtered_paginated` for page `n`. */
  function PageArgs(pageSize: Json, filterText: Json, tagsIncluded: Json, n: nat): Bound
  {
    Bound(map["page_size" := pageSize, "page_num" := JNum(n), "filter_text" := filterText,
              "tags_included" := tagsIncluded], map[])
  }

  /** `get_cases_filtered_paginated` for page `n`, read as a page. */
  function FetchPage(c: Client, net: Network, pageSize: Json, filterText: Json, tagsIncluded: Json, n: nat): (x: Exchange<Page>)
    ensures x.sent == RestGet(c, net, "/case", PageQuery(JNum(n), pageSize, filterText, tagsIncluded)).sent
  {
    var b := PageArgs(pageSize, filterText, tagsIncluded, n);
    assert Route(GetCasesFilteredPaginated, b) == Success(GetCall("/case", PageQuery(JNum(n), pageSize, filterText, tagsIncluded)));
    var call := Perform(c, net, GetCasesFilteredPaginated, b);
    match call.result
    case Failure(e) => Exchange(Failure(e), call.sent)
    case Success(v) => Exchange(ReadPage(v), call.sent)
  }

  /**
   * Page `n` is requested as `GET /case` with the page query, after the
   * token request; the page is the reading of the accepted reply, and any
   * other reply raises.
   */
  lemma FetchPageReads(c: Client, net: Network, pageSize: Json, filterText: Json, tagsIncluded: Json, n: nat)
    ensures var x := FetchPage(c, net, pageSize, filterText, tagsIncluded, n);
      var call := GetCall("/case", PageQuery(JNum(n), pageSize, filterText, tagsIncluded));
      && (GenerateBearerToken(c, net).result.Failure? ==>
            x == Exchange(Failure(GenerateBearerToken(c, net).result.error), GenerateBearerToken(c, net).sent))
      && (GenerateBearerToken(c, net).result.Success? ==>
            |x.sent| == 2 && x.sent[1] == CallRequest(c, GenerateBearerToken(c, net).result.value, call))
      && (|x.sent| == 2 && !Accepted(net(x.sent[1]), true) ==> x.result.Failure?)
      && (|x.sent| == 2 && Accepted(net(x.sent[1]), true) ==>
            x.result == ReadPage(JsonValue(net(x.sent[1]).value.body.value)))
  {
    var b := PageArgs(pageSize, filterText, tagsIncluded, n);
    assert Route(GetCasesFilteredPaginated, b) == Success(GetCall("/case", PageQuery(JNum(n), pageSize, filterText, tagsIncluded)));
  }

  /** The walk ends at page `n`: fetching it fails, or it has no `next` link. */
  predicate StopsAt(c: Client, net: Network, pageSize: Json, filterText: Json, tagsIncluded: Json, n: nat)
  {
    var x := FetchPage(c, net, pageSize, filterText, tagsIncluded, n);
    x.result.Failure? || !x.result.value.hasNext
  }

  /** Every page before `k` was read and links to a next one. */
  ghost predicate ContinuesTo(c: Client, net: Network, pageSize: Json, filterText: Json, tagsIncluded: Json, k: nat)
  {
    forall i: nat :: i < k ==> !StopsAt(c, net, pageSize, filterText, tagsIncluded, i)
  }

  /** The items of pages `0 .. k-1`, in page order. */
  function ItemsBefore(c: Client, net: Network, pageSize: Json, filterText: Json, tagsIncluded: Json, k: nat): seq<Json>
    requires ContinuesTo(c, net, pageSize, filterText, tagsIncluded, k)
  {
    if k == 0 then []
    else
      assert !StopsAt(c, net, pageSize, filterText, tagsIncluded, k - 1);
      ItemsBefore(c, net, pageSize, filterText, tagsIncluded, k - 1)
        + FetchPage(c, net, pageSize, filterText, tagsIncluded, k - 1).result.value.data
  }

  /** The requests sent for pages `0 .. k-1`, in order. */
  function SentBefore(c: Client, net: Network, pageSize: Json, filterText: Json, tagsIncluded: Json, k: nat): seq<Request>
  {
    if k == 0 then []
    else SentBefore(c, net, pageSize, filterText, tagsIncluded, k - 1)
           + FetchPage(c, net, pageSize, filterText, tagsIncluded, k - 1).sent
  }

  /** The service eventually reports a last page (or fails) for these filters. */
  ghost predicate PagingEnds(c: Client, net: Network, pageSize: Json, filterText: Json, tagsIncluded: Json)
  {
    exists n: nat :: StopsAt(c, net, pageSize, filterText, tagsIncluded, n)
  }

  /** One more page read without stopping extends the walk by that page. */
  lemma Advance(c: Client, net: Network, pageSize: Json, filterText: Json, tagsIncluded: Json, k: nat, bound: nat)
    requires ContinuesTo(c, net, pageSize, filterText, tagsIncluded, k)
    requires !StopsAt(c, net, pageSize, filterText, tagsIncluded, k)
    requires StopsAt(c, net, pageSize, filterText, tagsIncluded, bound)
    ensures ContinuesTo(c, net, pageSize, filterText, tagsIncluded, k + 1)
    ensures k + 1 <= bound
    ensures ItemsBefore(c, net, pageSize, filterText, tagsIncluded, k + 1)
            == ItemsBefore(c, net, pageSize, filterText, tagsIncluded, k)
               + FetchPage(c, net, pageSize, filterText, tagsIncluded, k).result.value.data
    ensures SentBefore(c, net, pageSize, filterText, tagsIncluded, k + 1)
            == SentBefore(c, net, pageSize, filterText, tagsIncluded, k)
               + FetchPage(c, net, pageSize, filterText, tagsIncluded, k).sent
  {
  }

  /**
   * What a walk that ended at page `last` returned and sent: every earlier
   * page was read and linked to a next one, page `last` stops the walk, the
   * requests are those of pages `0 .. last` in order, and the result is the
   * items of all those pages in page order, or the error page `last` raised.
   */
  ghost predicate Walked(c: Client, net: Network, pageSize: Json, filterText: Json, tagsIncluded: Json,
                         last: nat, r: Result<seq<Json>, Error>, sent: seq<Request>)
  {
    && ContinuesTo(c, net, pageSize, filterText, tagsIncluded, last)
    && StopsAt(c, net, pageSize, filterText, tagsIncluded, last)
    && sent == SentBefore(c, net, pageSize, filterText, tagsIncluded, last)
               + FetchPage(c, net, pageSize, filterText, tagsIncluded, last).sent
    && (r.Success? <==> FetchPage(c, net, pageSize, filterText, tagsIncluded, last).result.Success?)
    && (r.Success? ==>
          r.value == ItemsBefore(c, net, pageSize, filterText, tagsIncluded, last)
                     + FetchPage(c, net, pageSize, filterText, tagsIncluded, last).result.value.data)
    && (r.Failure? ==> r.error == FetchPage(c, net, pageSize, filterText, tagsIncluded, last).result.error)
  }

  /** A walk that reaches page `k` and cannot fetch it ends there with the error. */
  lemma StopsFailing(c: Client, net: Network, pageSize: Json, filterText: Json, tagsIncluded: Json, k: nat)
    requires ContinuesTo(c, net, pageSize, filterText, tagsIncluded, k)
    requires FetchPage(c, net, pageSize, filterText, tagsIncluded, k).result.Failure?
    ensures Walked(c, net, pageSize, filterText, tagsIncluded, k,
                   Failure(FetchPage(c, net, pageSize, filterText, tagsIncluded, k).result.error),
                   SentBefore(c, net, pageSize, filterText, tagsIncluded, k)
                   + FetchPage(c, net, pageSize, filterText, tagsIncluded, k).sent)
  {
  }

  /** A walk that reaches page `k` and finds no `next` link there ends with every item read. */
  lemma StopsLast(c: Client, net: Network, pageSize: Json, filterText: Json, tagsIncluded: Json, k: nat)
    requires ContinuesTo(c, net, pageSize, filterText, tagsIncluded, k)
    requires FetchPage(c, net, pageSize, filterText, tagsIncluded, k).result.Success?
    requires !FetchPage(c, net, pageSize, filterText, tagsIncluded, k).result.value.hasNext
    ensures Walked(c, net, pageSize, filterText, tagsIncluded, k,
                   Success(ItemsBefore(c, net, pageSize, filterText, tagsIncluded, k)
                           + FetchPage(c, net, pageSize, filterText, tagsIncluded, k).result.value.data),
                   SentBefore(c, net, pageSize, filterText, tagsIncluded, k)
                   + FetchPage(c, net, pageSize, filterText, tagsIncluded, k).sent)
  {
  }

  /** The walk's last page is the first page that stops it, so the walk has one outcome. */
  lemma WalkDeterministic(c: Client, net: Network, pageSize: Json, filterText: Json, tagsIncluded: Json,
                          last1: nat, r1: Result<seq<Json>, Error>, sent1: seq<Request>,
                          last2: nat, r2: Result<seq<Json>, Error>, sent2: seq<Request>)
    requires Walked(c, net, pageSize, filterText, tagsIncluded, last1, r1, sent1)
    requires Walked(c, net, pageSize, filterText, tagsIncluded, last2, r2, sent2)
    ensures last1 == last2 && r1 == r2 && sent1 == sent2
  {
  }

  /**
   * `get_cases_filtered`: request pages 0, 1, 2, ... and concatenate their
   * `data`, stopping at the first page whose `links` has no `next` key.
   * `last` is that page; any error raised on the way ends the walk with it.
   */
  method WalkCasesFiltered(c: Client, net: Network, pageSize: Json, filterText: Json, tagsIncluded: Json)
    returns (r: Result<seq<Json>, Error>, sent: seq<Request>, ghost last: nat)
    requires PagingEnds(c, net, pageSize, filterText, tagsIncluded)
    ensures Walked(c, net, pageSize, filterText, tagsIncluded, last, r, sent)
  {
    ghost var bound: nat :| StopsAt(c, net, pageSize, filterText, tagsIncluded, bound);
    var allData: seq<Json> := [];
    var pageNumber: nat := 0;
    sent := [];
    while true
      invariant pageNumber <= bound
      invariant ContinuesTo(c, net, pageSize, filterText, tagsIncluded, pageNumber)
      invariant allData == ItemsBefore(c, net, pageSize, filterText, tagsIncluded, pageNumber)
      invariant sent == SentBefore(c, net, pageSize, filterText, tagsIncluded, pageNumber)
      decreases bound - pageNumber
    {
      var page := FetchPage(c, net, pageSize, filterText, tagsIncluded, pageNumber);
      if page.result.Failure? {
        StopsFailing(c, net, pageSize, filterText, tagsIncluded, pageNumber);
        return Failure(page.result.error), sent + page.sent, pageNumber;
      }
      if !page.result.value.hasNext {
        StopsLast(c, net, pageSize, filterText, tagsIncluded, pageNumber);
        return Success(allData + page.result.value.data), sent + page.sent, pageNumber;
      }
      Advance(c, net, pageSize, filterText, tagsIncluded, pageNumber, bound);
      allData := allData + page.result.value.data;
      sent := sent + page.sent;
      pageNumber := pageNumber + 1;
    }
  }
}
