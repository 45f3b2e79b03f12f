/**
  The request layer (`api/client.js`): request options with the bearer
  token and a JSON body, the status check, success-body decoding and the
  normalised error. `fetch` is a parameter from a URL and options to what
  came back; `JSON.parse` and `JSON.stringify` are parameters too.
 */
module Client {
  import opened Js
  import opened Storage

  const RequestFailed := "Request failed"
  const JsonType := "application/json"

  // ---------------------------------------------------------------------
  // request options

  /** `REACT_APP_API_BASE_URL || ''` */
  function BaseUrl(env: Option<string>): string {
    if env.Some? && env.value != "" then env.value else ""
  }

  /** `${BASE_URL}${path}` */
  function Url(env: Option<string>, path: string): (url: string)
    ensures env.None? ==> url == path
    ensures env.Some? ==> url == env.value + path
  {
    BaseUrl(env) + path
  }

  /** The stored token, or null when it is missing or storage throws. */
  function GetToken(store: Store): (t: Json)
    ensures t.Str? || t == Null
    ensures t.Str? <==> store.available && TokenKey in store.entries
  {
    ReadItem(store, TokenKey)
  }

  /** A request body as a hook hands it over. */
  datatype Payload = FormData(parts: seq<(string, string)>) | Value(v: Json)

  /** A body as it is handed to `fetch`. */
  datatype Body = Form(parts: seq<(string, string)>) | Serialized(text: string) | PassThrough(v: Json)

  /** The `customConfig` keys that can override a computed option. */
  datatype Config = Config(verb: Option<string>, headers: Option<map<string, string>>, body: Option<Body>)

  const NoConfig := Config(None, None, None)

  datatype Options = Options(verb: string, headers: map<string, string>, body: Body)

  /** A truthy body that is not form data goes out as JSON. */
  predicate SendsJson(payload: Payload) {
    payload.Value? && Truthy(payload.v)
  }

  /** `buildOptions(method, body, customConfig)` */
  function BuildOptions(verb: string, payload: Payload, config: Config, store: Store,
                        stringify: Json -> string): (o: Options)
    // the bearer header is set exactly when a non-empty token is stored
    ensures config.headers.None? ==>
              ("Authorization" in o.headers <==> Truthy(GetToken(store)))
    ensures config.headers.None? && Truthy(GetToken(store)) ==>
              o.headers["Authorization"] == "Bearer " + GetToken(store).s
    // a truthy non-form body is serialised and labelled as JSON
    ensures config.body.None? && SendsJson(payload) ==> o.body == Serialized(stringify(payload.v))
    ensures config.headers.None? ==>
              ("Content-Type" in o.headers <==> SendsJson(payload))
    ensures config.headers.None? && SendsJson(payload) ==> o.headers["Content-Type"] == JsonType
    // form data and falsy bodies pass through untouched
    ensures config.body.None? && payload.FormData? ==> o.body == Form(payload.parts)
    ensures config.body.None? && payload.Value? && !Truthy(payload.v) ==> o.body == PassThrough(payload.v)
    // `...customConfig` comes last, so whatever it names wins
    ensures o.verb == config.verb.GetOr(verb)
    ensures config.headers.Some? ==> o.headers == config.headers.value
    ensures config.body.Some? ==> o.body == config.body.value
  {
    var token := GetToken(store);
    var base := config.headers.GetOr(map[]);
    var withAuth := if Truthy(token) then base["Authorization" := "Bearer " + token.s] else base;
    var headers := if SendsJson(payload) then withAuth["Content-Type" := JsonType] else withAuth;
    var body :=
      if SendsJson(payload) then Serialized(stringify(payload.v))
      else match payload
        case FormData(parts) => Form(parts)
        case Value(v) => PassThrough(v);
    Options(config.verb.GetOr(verb),
            if config.headers.Some? then config.headers.value else headers,
            config.body.GetOr(body))
  }

  // ---------------------------------------------------------------------
  // responses and errors

  /** What `fetch` resolved to; `None` for a body stands for a `text()` that rejects. */
  datatype Response = Response(status: int, url: string, contentType: Option<string>, body: Option<string>) {
    predicate Ok() {
      200 <= status <= 299
    }
  }

  datatype FetchReply = Unreachable | Received(res: Response)

  /** The normalised error thrown for a non-2xx response. */
  datatype HttpError = HttpError(message: string, status: int, details: Json, url: string)

  datatype RequestError =
    | NetworkError          // `fetch` itself rejected
    | HttpFailure(error: HttpError)
    | BodyError             // the success body could not be read or parsed

  datatype HttpResponse = HttpResponse(data: Json, status: int, url: string)

  /** `handleError(response)`: the error `request` throws for a non-2xx response. */
  function HandleError(res: Response, parse: string -> Option<Json>): (e: HttpError)
    ensures e.status == res.status && e.url == res.url
    // an unreadable or empty body: the generic message and no details
    ensures res.body.None? || res.body == Some("") ==> e.message == RequestFailed && e.details == Null
    // a body that is not JSON: the raw text is the message
    ensures res.body.Some? && res.body.value != "" && parse(res.body.value).None? ==>
              e.message == res.body.value && e.details == Null
    // a JSON object: its `message`, else its `detail`, else the generic message
    ensures res.body.Some? && res.body.value != "" && parse(res.body.value).Some? &&
            parse(res.body.value).value.Obj? ==>
              var json := parse(res.body.value).value;
              e.details == json &&
              e.message == ToJsString(Or(Or(Get(json, "message"), Get(json, "detail")), Str(RequestFailed)))
    // JSON `null`: reading its `message` throws, so the raw text is the message and there are no details
    ensures res.body.Some? && res.body.value != "" && parse(res.body.value).Some? &&
            (parse(res.body.value).value.Null? || parse(res.body.value).value.Undefined?) ==>
              e.message == res.body.value && e.details == Null
    // any other JSON value has neither `message` nor `detail`: the generic message, the value as details
    ensures res.body.Some? && res.body.value != "" && parse(res.body.value).Some? ==>
              var json := parse(res.body.value).value;
              !json.Obj? && !json.Null? && !json.Undefined? ==>
                e.message == RequestFailed && e.details == json
  {
    match res.body
    case None => HttpError(RequestFailed, res.status, Null, res.url)
    case Some(text) =>
      if text == "" then HttpError(RequestFailed, res.status, Null, res.url)
      else match parse(text)
        case None => HttpError(text, res.status, Null, res.url)
        case Some(json) =>
          // reading `.message` of a parsed `null` throws; the catch then keeps the raw text
          if json.Null? || json.Undefined? then HttpError(text, res.status, Null, res.url)
          else
            var message := Or(Or(Get(json, "message"), Get(json, "detail")), Str(RequestFailed));
            HttpError(ToJsString(message), res.status, json, res.url)
  }

  /** The success body: parsed JSON when the content type says so, otherwise the text or null. */
  function DecodeBody(res: Response, parse: string -> Option<Json>): (r: Result<Json, RequestError>)
    ensures Includes(res.contentType.GetOr(""), JsonType) ==>
              (r.Ok? <==> res.body.Some? && parse(res.body.value).Some?) &&
              (r.Ok? ==> r.value == parse(res.body.value).value)
    ensures !Includes(res.contentType.GetOr(""), JsonType) ==>
              (r.Ok? <==> res.body.Some?) &&
              (r.Ok? ==> (r.value == Null <==> res.body.value == "")) &&
              (r.Ok? && res.body.value != "" ==> r.value == Str(res.body.value))
  {
    if Includes(res.contentType.GetOr(""), JsonType) then
      match res.body
      case None => Err(BodyError)
      case Some(text) =>
        (match parse(text)
         case Some(json) => Ok(json)
         case None => Err(BodyError))
    else
      match res.body
      case None => Err(BodyError)
      case Some(text) => Ok(if text == "" then Null else Str(text))
  }

  /** `request(path, options)` */
  function Request(env: Option<string>, path: string, options: Options,
                   fetch: (string, Options) -> FetchReply,
                   parse: string -> Option<Json>): (r: Result<HttpResponse, RequestError>)
    ensures var reply := fetch(Url(env, path), options);
            && (reply.Unreachable? ==> r == Err(NetworkError))
            // a response outside 2xx always ends in the normalised error, with its status and url
            && (reply.Received? && !reply.res.Ok() ==>
                  r.Err? && r.error.HttpFailure? &&
                  r.error.error.status == reply.res.status && r.error.error.url == reply.res.url)
            // `request` returns only for a 2xx response, and passes its status and url on
            && (r.Ok? ==> reply.Received? && reply.res.Ok() &&
                          r.value.status == reply.res.status && r.value.url == reply.res.url)
            && (reply.Received? && reply.res.Ok() ==>
                  (r.Ok? <==> DecodeBody(reply.res, parse).Ok?) &&
                  (r.Ok? ==> r.value.data == DecodeBody(reply.res, parse).value))
  {
    match fetch(Url(env, path), options)
    case Unreachable => Err(NetworkError)
    case Received(res) =>
      if !res.Ok() then Err(HttpFailure(HandleError(res, parse)))
      else
        match DecodeBody(res, parse)
        case Err(e) => Err(e)
        case Ok(data) => Ok(HttpResponse(data, res.status, res.url))
  }

  /** `http.get/post/put/patch/delete`: `request(path, buildOptions(method, body, config))`. */
  function Send(verb: string, env: Option<string>, path: string, payload: Payload, config: Config,
                store: Store, fetch: (string, Options) -> FetchReply,
                stringify: Json -> string, parse: string -> Option<Json>): (r: Result<HttpResponse, RequestError>)
    ensures r.Ok? ==> 200 <= r.value.status <= 299
  {
    Request(env, path, BuildOptions(verb, payload, config, store, stringify), fetch, parse)
  }

  /**
    A non-2xx reply whose JSON object names a non-empty `message` makes the
    request throw exactly that message, with the reply's status and URL and
    the parsed body as details.
   */
  lemma ServerMessageReachesCaller(env: Option<string>, path: string, options: Options,
                                   fetch: (string, Options) -> FetchReply, parse: string -> Option<Json>,
                                   m: string)
    requires fetch(Url(env, path), options).Received?
    requires var res := fetch(Url(env, path), options).res;
             && !res.Ok() && res.body.Some? && res.body.value != ""
             && parse(res.body.value).Some? && parse(res.body.value).value.Obj?
             && Get(parse(res.body.value).value, "message") == Str(m) && m != ""
    ensures var res := fetch(Url(env, path), options).res;
            Request(env, path, options, fetch, parse)
            == Err(HttpFailure(HttpError(m, res.status, parse(res.body.value).value, res.url)))
  {
  }

  /**
    A non-2xx reply whose body is JSON but not an object (an array, a
    number, a string, a boolean) throws the generic message; JSON `null`
    throws its own text.
   */
  lemma NonObjectErrorBody(env: Option<string>, path: string, options: Options,
                           fetch: (string, Options) -> FetchReply, parse: string -> Option<Json>)
    requires fetch(Url(env, path), options).Received?
    requires var res := fetch(Url(env, path), options).res;
             && !res.Ok() && res.body.Some? && res.body.value != ""
             && parse(res.body.value).Some? && !parse(res.body.value).value.Obj?
    ensures var res := fetch(Url(env, path), options).res;
            var r := Request(env, path, options, fetch, parse);
            && r.Err? && r.error.HttpFailure?
            && r.error.error.message == (if parse(res.body.value).value in {Null, Undefined} then res.body.value else RequestFailed)
  {
  }

  /** With no custom headers, the server sees the bearer token exactly when one is stored. */
  lemma BearerReachesServer(verb: string, payload: Payload, store: Store, stringify: Json -> string,
                            token: string)
    requires store.available && TokenKey in store.entries && store.entries[TokenKey] == token
    ensures var o := BuildOptions(verb, payload, NoConfig, store, stringify);
            token != "" ==> o.headers["Authorization"] == "Bearer " + token
    ensures var o := BuildOptions(verb, payload, NoConfig, store, stringify);
            token == "" ==> "Authorization" !in o.headers
  {
  }

  /** Blocked storage never fails a request; it only leaves the bearer header out. */
  lemma BlockedStorageSendsNoToken(verb: string, payload: Payload, store: Store, stringify: Json -> string)
    requires !store.available
    ensures "Authorization" !in BuildOptions(verb, payload, NoConfig, store, stringify).headers
  {
  }

  /**
    Custom headers replace the computed ones wholesale: the spread of
    `customConfig` comes after `headers`, so a caller that passes its own
    headers sends neither the bearer token nor the JSON content type.
   */
  lemma CustomHeadersDropBearer(verb: string, payload: Payload, store: Store,
                                stringify: Json -> string, custom: map<string, string>)
    requires "Authorization" !in custom
    ensures "Authorization" !in BuildOptions(verb, payload, Config(None, Some(custom), None), store, stringify).headers
  {
  }
}
