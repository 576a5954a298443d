/**
 * The proxy's `chat()` handler in server.py as a function of the request
 * body and of what the upstream messages API did with the forwarded
 * payload. Python's evaluation is followed step by step: where an
 * expression of the handler would raise (a missing key, a method called on
 * the wrong type), the handler's own `except` clauses decide the reply.
 */
module Proxy {
  import opened Wrappers
  import opened Tags
  import Text

  /** A JSON value as Python's json module returns it. */
  datatype PyJson =
    | PNull
    | PBool(b: bool)
    | PNumber(n: real)
    | PString(s: string)
    | PList(items: seq<PyJson>)
    | PObject(fields: map<string, PyJson>)

  /** Python's `not v` for a JSON value. */
  predicate Falsy(v: PyJson) {
    match v
    case PNull => true
    case PBool(b) => !b
    case PNumber(n) => n == 0.0
    case PString(s) => s == []
    case PList(items) => items == []
    case PObject(fields) => fields == map[]
  }

  /** Python's `key in v`: a key of a dict, an element of a list, a substring of a str; None where it raises TypeError. */
  function Membership(key: string, v: PyJson): Option<bool> {
    match v
    case PObject(fields) => Some(key in fields)
    case PList(items) => Some(PString(key) in items)
    case PString(s) => Some(Text.Contains(s, key))
    case _ => None
  }

  /** What `request.get_json()` returns, or that it raised (a body that is not JSON). */
  datatype RequestBody = Unreadable | Parsed(json: PyJson)

  /** An upstream body: empty text, text that is not JSON, or a JSON value. */
  datatype UpstreamBody = NoText | BadJson | Json(value: PyJson)

  /** What `requests.post` produced: a RequestException, or a response. */
  datatype Upstream = RequestFailed | Responded(status: int, body: UpstreamBody)

  datatype ResponseBody = ErrorBody(error: string) | ContentBody(content: PyJson)

  /** A reply of the handler: a JSON body and an HTTP status. */
  datatype Response = Response(body: ResponseBody, status: int)

  /** The upstream payload; the system prompt it also carries is fixed text and not modelled. */
  datatype Payload = Payload(model: string, maxTokens: nat, messages: PyJson)

  const MODEL := "claude-sonnet-4-20250514"
  const MAX_TOKENS: nat := 300
  const INVALID_REQUEST := "Invalid request: messages required"

  /** What the handler answered, and the payload it forwarded upstream if it called upstream at all. */
  datatype Exchange = Exchange(response: Response, forwarded: Option<Payload>)

  function Tagged(t: Tag, status: int): Response {
    Response(ErrorBody(Name(t)), status)
  }

  /** The two `except` clauses: a RequestException is an API error, anything else a server error. */
  function Caught(requestException: bool): Response {
    if requestException then Tagged(ApiError, 500) else Tagged(ServerError, 500)
  }

  /** `response.ok` in requests: false exactly for the 4xx and 5xx statuses. */
  predicate UpstreamOk(status: int) {
    !(400 <= status < 600)
  }

  /** `error_data.get('error', {}).get('message', '')`; None where a `.get` or the later `.lower()` meets a non-dict or non-str. */
  function ErrorMessage(errorData: PyJson): Option<string> {
    match errorData
    case PObject(fields) =>
      var error := if "error" in fields then fields["error"] else PObject(map[]);
      (match error
       case PObject(inner) =>
         var message := if "message" in inner then inner["message"] else PString("");
         (match message
          case PString(t) => Some(t)
          case _ => None)
       case _ => None)
    case _ => None
  }

  /** The upstream message names a credit or billing problem, in any ASCII letter case. */
  predicate MentionsBilling(message: string) {
    Text.Contains(Text.Lower(message), "credit") || Text.Contains(Text.Lower(message), "billing")
  }

  /** `result['content'][0]['text']`; None where a subscript raises. */
  function ReplyText(result: PyJson): Option<PyJson> {
    match result
    case PObject(fields) =>
      if "content" !in fields then None
      else
        (match fields["content"]
         case PList(items) =>
           if items == [] then None
           else
             (match items[0]
              case PObject(block) => if "text" in block then Some(block["text"]) else None
              case _ => None)
         case _ => None)
    case _ => None
  }

  /** A reply every path of the handler can give: each status goes with its own error tag, and only 200 carries content. */
  ghost predicate WellTagged(r: Response) {
    && r.status in {200, 400, 401, 402, 429, 500}
    && (r.body.ContentBody? <==> r.status == 200)
    && (r.status == 400 ==> r.body == ErrorBody(INVALID_REQUEST))
    && (r.status == 401 ==> r.body == ErrorBody(Name(InvalidApiKey)))
    && (r.status == 402 ==> r.body == ErrorBody(Name(OutOfCredits)))
    && (r.status == 429 ==> r.body == ErrorBody(Name(RateLimited)))
    && (r.status == 500 ==> r.body in {ErrorBody(Name(ApiError)), ErrorBody(Name(ServerError))})
  }

  /** The non-OK branch (after the three fixed statuses). */
  function FailureReply(body: UpstreamBody): (r: Response)
    ensures r.status in {402, 500} && WellTagged(r)
  {
    var errorData := match body
      case NoText => Some(PObject(map[]))
      case BadJson => None
      case Json(v) => Some(v);
    if errorData.None? then Caught(true)   // the JSONDecodeError of requests is a RequestException
    else
      match ErrorMessage(errorData.value)
      case None => Caught(false)
      case Some(t) => if MentionsBilling(t) then Tagged(OutOfCredits, 402) else Tagged(ApiError, 500)
  }

  /** The OK branch: forward the first content block's text. */
  function SuccessReply(body: UpstreamBody): (r: Response)
    ensures r.status in {200, 500} && WellTagged(r)
  {
    match body
    case Json(v) =>
      (match ReplyText(v)
       case Some(text) => Response(ContentBody(text), 200)
       case None => Caught(false))
    case _ => Caught(true)
  }

  /** Everything from `requests.post` on. */
  function Relay(upstream: Upstream): (r: Response)
    ensures WellTagged(r)
  {
    match upstream
    case RequestFailed => Caught(true)
    case Responded(status, body) =>
      if status == 401 then Tagged(InvalidApiKey, 401)
      else if status == 429 then Tagged(RateLimited, 429)
      else if status == 402 then Tagged(OutOfCredits, 402)
      else if !UpstreamOk(status) then FailureReply(body)
      else SuccessReply(body)
  }

  /** The request is usable exactly when it is a JSON object with a `messages` key. */
  predicate Forwardable(body: RequestBody) {
    body.Parsed? && body.json.PObject? && "messages" in body.json.fields
  }

  /** `chat()`, for a request body and the upstream's answer to the payload it forwards. */
  function Chat(body: RequestBody, upstream: Upstream): (r: Exchange)
    ensures WellTagged(r.response)
  {
    match body
    case Unreadable => Exchange(Caught(false), None)
    case Parsed(data) =>
      if Falsy(data) then Exchange(Response(ErrorBody(INVALID_REQUEST), 400), None)
      else
        match Membership("messages", data)
        case None => Exchange(Caught(false), None)
        case Some(false) => Exchange(Response(ErrorBody(INVALID_REQUEST), 400), None)
        case Some(true) =>
          if data.PObject? then
            var payload := Payload(MODEL, MAX_TOKENS, data.fields["messages"]);
            Exchange(Relay(upstream), Some(payload))
          else Exchange(Caught(false), None)  // `data['messages']` on a list or str raises TypeError
  }

  /**
   * A JSON null, a falsy body, or a body in which `'messages' in data` is
   * false is answered 400 with the fixed message, and nothing is forwarded;
   * no other request gets a 400.
   */
  lemma InvalidRequest(body: RequestBody, upstream: Upstream)
    ensures var r := Chat(body, upstream);
      (r.response.status == 400) <==>
        body.Parsed? && (Falsy(body.json) || Membership("messages", body.json) == Some(false))
    ensures var r := Chat(body, upstream);
      r.response.status == 400 ==> r == Exchange(Response(ErrorBody(INVALID_REQUEST), 400), None)
  {
  }

  /** Upstream is called exactly for an object with `messages`, and receives that value unchanged with the fixed model and token limit. */
  lemma ForwardsMessagesUnchanged(body: RequestBody, upstream: Upstream)
    ensures Chat(body, upstream).forwarded.Some? <==> Forwardable(body)
    ensures Forwardable(body) ==>
      Chat(body, upstream) == Exchange(Relay(upstream), Some(Payload(MODEL, 300, body.json.fields["messages"])))
  {
  }

  /** When nothing is forwarded the reply does not depend on the upstream at all. */
  lemma NoCallNoDependence(body: RequestBody, u1: Upstream, u2: Upstream)
    requires Chat(body, u1).forwarded.None?
    ensures Chat(body, u1) == Chat(body, u2)
  {
  }

  /** 401, 429 and 402 from upstream are passed on with their tags whatever the body, before the generic failure branch. */
  lemma FixedStatuses(body: UpstreamBody)
    ensures Relay(Responded(401, body)) == Response(ErrorBody("INVALID_API_KEY"), 401)
    ensures Relay(Responded(429, body)) == Response(ErrorBody("RATE_LIMITED"), 429)
    ensures Relay(Responded(402, body)) == Response(ErrorBody("OUT_OF_CREDITS"), 402)
  {
  }

  /**
   * Any other 4xx or 5xx whose body carries an error message becomes
   * OUT_OF_CREDITS (402) exactly when the lower-cased message mentions
   * credit or billing, and API_ERROR (500) otherwise.
   */
  lemma GenericFailure(status: int, message: string, outer: map<string, PyJson>, extra: map<string, PyJson>)
    requires 400 <= status < 600 && status !in {401, 402, 429}
    ensures var body := Json(PObject(outer["error" := PObject(extra["message" := PString(message)])]));
      && (Relay(Responded(status, body)) == Response(ErrorBody("OUT_OF_CREDITS"), 402) <==> MentionsBilling(message))
      && (!MentionsBilling(message) ==> Relay(Responded(status, body)) == Response(ErrorBody("API_ERROR"), 500))
  {
  }

  /** An empty error body reads as no message: API_ERROR. */
  lemma EmptyFailureBody(status: int)
    requires 400 <= status < 600 && status !in {401, 402, 429}
    ensures Relay(Responded(status, NoText)) == Response(ErrorBody("API_ERROR"), 500)
  {
    assert !Text.Contains(Text.Lower(""), "credit") && !Text.Contains(Text.Lower(""), "billing");
  }

  /** The billing check ignores letter case. */
  lemma MentionsBillingIgnoresCase(message: string)
    ensures MentionsBilling(Text.Lower(message)) == MentionsBilling(message)
  {
    var l := Text.Lower(message);
    assert Text.Lower(l) == l by {
      forall i | 0 <= i < |l| ensures Text.Lower(l)[i] == l[i] {
        assert Text.LowerChar(Text.LowerChar(message[i])) == Text.LowerChar(message[i]);
      }
    }
  }

  /** A successful upstream reply yields exactly `{content: <text of the first block>}` with status 200. */
  lemma SuccessForwardsFirstText(status: int, text: PyJson, first: map<string, PyJson>,
                                 others: seq<PyJson>, result: map<string, PyJson>)
    requires UpstreamOk(status)
    ensures var body := Json(PObject(result["content" := PList([PObject(first["text" := text])] + others)]));
      Relay(Responded(status, body)) == Response(ContentBody(text), 200)
  {
  }

  /** A failed request is an API error; so is an upstream reply that is empty or not JSON where JSON is decoded. */
  lemma RequestExceptions(status: int)
    requires status !in {401, 402, 429}
    ensures Relay(RequestFailed) == Response(ErrorBody("API_ERROR"), 500)
    ensures Relay(Responded(status, BadJson)) == Response(ErrorBody("API_ERROR"), 500)
    ensures UpstreamOk(status) ==> Relay(Responded(status, NoText)) == Response(ErrorBody("API_ERROR"), 500)
  {
  }

  /** A request body that is not JSON, or an OK upstream reply of the wrong shape, is a server error. */
  lemma OtherExceptions(status: int, v: PyJson)
    requires UpstreamOk(status) && ReplyText(v).None?
    ensures Chat(Unreadable, RequestFailed).response == Response(ErrorBody("SERVER_ERROR"), 500)
    ensures Relay(Responded(status, Json(v))) == Response(ErrorBody("SERVER_ERROR"), 500)
  {
  }

  /**
   * A request body on which `'messages' in data` raises (a number or `true`),
   * or a list or string that contains "messages" and so fails at
   * `data['messages']`, reaches the generic handler: SERVER_ERROR 500, and
   * nothing is forwarded.
   */
  lemma MalformedRequestExceptions(v: PyJson, upstream: Upstream)
    ensures !Falsy(v) && Membership("messages", v).None? ==>
      Chat(Parsed(v), upstream) == Exchange(Response(ErrorBody("SERVER_ERROR"), 500), None)
    ensures !Falsy(v) && Membership("messages", v) == Some(true) && !v.PObject? ==>
      Chat(Parsed(v), upstream) == Exchange(Response(ErrorBody("SERVER_ERROR"), 500), None)
  {
  }

  /**
   * A failing upstream reply whose body, or its `error` member, is not an
   * object, or whose `message` is not a string, makes `.get` or `.lower()`
   * raise: SERVER_ERROR 500.
   */
  lemma FailureBodyExceptions(status: int, e: PyJson)
    requires 400 <= status < 600 && status !in {401, 402, 429}
    ensures ErrorMessage(e).None? <==>
      Relay(Responded(status, Json(e))) == Response(ErrorBody("SERVER_ERROR"), 500)
  {
  }
}
