/** The error tags the proxy sends and the widget throws, and their wire names. */
module Tags {
  datatype Tag = InvalidApiKey | RateLimited | OutOfCredits | ApiError | ServerOffline | ServerError

  function Name(t: Tag): string {
    match t
    case InvalidApiKey => "INVALID_API_KEY"
    case RateLimited => "RATE_LIMITED"
    case OutOfCredits => "OUT_OF_CREDITS"
    case ApiError => "API_ERROR"
    case ServerOffline => "SERVER_OFFLINE"
    case ServerError => "SERVER_ERROR"
  }

  /** Distinct tags have distinct wire names, so a name identifies its tag. */
  lemma NameInjective(a: Tag, b: Tag)
    ensures Name(a) == Name(b) ==> a == b
  {
  }
}

/**
 * The pure decisions of the widget's script: how `callClaudeAPI` turns the
 * result of `fetch` into a reply or a thrown error, which notice
 * `handleAPIError` shows for a thrown error, and the text of the
 * remaining-messages counter.
 */
module Client {
  import opened Wrappers
  import opened Tags
  import Text

  /** A JavaScript exception, as far as the script inspects it. */
  datatype JsError = JsError(name: string, message: string)

  /**
   * What `response.json()` makes of a response body: a parse failure
   * (a SyntaxError with the browser's message), the JSON value `null`, or
   * any other JSON value, seen through its `error` and `content` members
   * (None where the member is absent or not a string).
   */
  datatype Body =
    | Unparseable(message: string)
    | JsonNull
    | JsonValue(error: Option<string>, content: Option<string>)

  /** What `fetch` produced: a rejection, or a response with its `ok`, `status` and body. */
  datatype Fetch =
    | FetchRejected(error: JsError)
    | Answered(ok: bool, status: int, body: Body)

  /** How the promise returned by `callClaudeAPI` settles. */
  datatype CallResult = Resolved(content: Option<string>) | Rejected(error: JsError)

  /** `new Error(tag)`. */
  function TagError(t: Tag): JsError {
    JsError("Error", Name(t))
  }

  /** The tag thrown for a response that is not ok: the body's `error` first, the status second, in a fixed order. */
  function StatusTag(status: int, error: Option<string>): Tag {
    if error == Some(Name(InvalidApiKey)) || status == 401 then InvalidApiKey
    else if error == Some(Name(RateLimited)) || status == 429 then RateLimited
    else if error == Some(Name(OutOfCredits)) || status == 402 then OutOfCredits
    else ApiError
  }

  /** The catch block of `callClaudeAPI`: network failures become SERVER_OFFLINE, the rest is rethrown. */
  function Rethrown(e: JsError): JsError {
    if e.message == "Failed to fetch" || e.name == "TypeError" then TagError(ServerOffline) else e
  }

  /** Reading a member of `null` throws a TypeError; its message differs between browsers. */
  const NullMemberAccess := JsError("TypeError", "Cannot read properties of null")

  /** `callClaudeAPI` once `fetch` has produced `f`. */
  function CallClaudeApi(f: Fetch): CallResult {
    match f
    case FetchRejected(e) => Rejected(Rethrown(e))
    case Answered(ok, status, body) =>
      match body
      case Unparseable(m) => Rejected(Rethrown(JsError("SyntaxError", m)))
      case JsonNull => Rejected(Rethrown(NullMemberAccess))
      case JsonValue(error, content) =>
        if !ok then Rejected(Rethrown(TagError(StatusTag(status, error)))) else Resolved(content)
  }

  /** Only an ok response with a parsable, non-null body resolves, and it resolves to that body's `content`. */
  lemma ResolvesOnlyOnOk(f: Fetch)
    ensures CallClaudeApi(f).Resolved? <==> f.Answered? && f.ok && f.body.JsonValue?
    ensures CallClaudeApi(f).Resolved? ==> CallClaudeApi(f).content == f.body.content
  {
  }

  /**
   * A response that is not ok is rejected with one of four tags, chosen in
   * order: INVALID_API_KEY when the body or the status (401) says so, then
   * RATE_LIMITED (429), then OUT_OF_CREDITS (402), otherwise API_ERROR.
   */
  lemma RejectionTagOrder(status: int, error: Option<string>, content: Option<string>)
    ensures var r := CallClaudeApi(Answered(false, status, JsonValue(error, content)));
      && (r == Rejected(TagError(InvalidApiKey)) <==> error == Some("INVALID_API_KEY") || status == 401)
      && (r == Rejected(TagError(RateLimited)) <==>
            !(error == Some("INVALID_API_KEY") || status == 401) && (error == Some("RATE_LIMITED") || status == 429))
      && (r == Rejected(TagError(OutOfCredits)) <==>
            !(error == Some("INVALID_API_KEY") || status == 401) && !(error == Some("RATE_LIMITED") || status == 429)
            && (error == Some("OUT_OF_CREDITS") || status == 402))
      && (r == Rejected(TagError(ApiError)) <==>
            !(error == Some("INVALID_API_KEY") || status == 401) && !(error == Some("RATE_LIMITED") || status == 429)
            && !(error == Some("OUT_OF_CREDITS") || status == 402))
  {
    var t := StatusTag(status, error);
    forall u: Tag ensures Rejected(TagError(t)) == Rejected(TagError(u)) <==> t == u {
      NameInjective(t, u);
    }
  }

  /**
   * A TypeError, or any failure whose message is "Failed to fetch", is
   * reported as SERVER_OFFLINE; every other failure of `fetch` is rethrown
   * unchanged.
   */
  lemma NetworkFailureIsOffline(e: JsError)
    ensures e.name == "TypeError" || e.message == "Failed to fetch" ==>
      CallClaudeApi(FetchRejected(e)) == Rejected(TagError(ServerOffline))
    ensures !(e.name == "TypeError" || e.message == "Failed to fetch") ==>
      CallClaudeApi(FetchRejected(e)) == Rejected(e)
  {
  }

  /** A body that is not JSON is rethrown as the SyntaxError, whatever the status; a `null` body counts as offline. */
  lemma BodyFailures(ok: bool, status: int, m: string)
    ensures m != "Failed to fetch" ==>
      CallClaudeApi(Answered(ok, status, Unparseable(m))) == Rejected(JsError("SyntaxError", m))
    ensures CallClaudeApi(Answered(ok, status, JsonNull)) == Rejected(TagError(ServerOffline))
  {
  }

  /** The notices the widget can show. */
  datatype Notice = LimitNotice | FundingNotice | ConfigurationNotice | OfflineNotice | TechnicalNotice

  /** The notice `handleAPIError` shows for an error with message `m`. */
  function ErrorNotice(m: string): Notice {
    if m == "OUT_OF_CREDITS" || m == "RATE_LIMITED" then FundingNotice
    else if m == "INVALID_API_KEY" then ConfigurationNotice
    else if m == "SERVER_OFFLINE" then OfflineNotice
    else TechnicalNotice
  }

  /** The two funding tags share a notice; each other tag has its own or the generic one; no error shows the limit notice. */
  lemma ErrorNoticeByTag(t: Tag)
    ensures ErrorNotice(Name(t)) == match t
      case RateLimited | OutOfCredits => FundingNotice
      case InvalidApiKey => ConfigurationNotice
      case ServerOffline => OfflineNotice
      case ApiError | ServerError => TechnicalNotice
  {
  }

  lemma ErrorNoticeCategories(m: string)
    ensures ErrorNotice(m) != LimitNotice
    ensures ErrorNotice(m) == TechnicalNotice <==>
      m !in {Name(RateLimited), Name(OutOfCredits), Name(InvalidApiKey), Name(ServerOffline)}
  {
  }

  /** The counter text `updateMessageCounter` writes for `remaining` messages. */
  function CounterLabel(remaining: int): string {
    Text.DecimalString(remaining) + " message" + (if remaining != 1 then "s" else "") + " remaining"
  }

  lemma CounterLabelExamples()
    ensures CounterLabel(5) == "5 messages remaining"
    ensures CounterLabel(1) == "1 message remaining"
    ensures CounterLabel(0) == "0 messages remaining"
  {
    assert Text.DecimalString(5) == "5" && Text.DecimalString(1) == "1" && Text.DecimalString(0) == "0";
  }

  /** The number the counter shows can be read back from its first word. */
  lemma CounterLabelRoundTrip(remaining: int)
    ensures Text.DecimalValue(Text.FirstWord(CounterLabel(remaining))) == remaining
  {
    var w := Text.DecimalString(remaining);
    var rest := " message" + (if remaining != 1 then "s" else "") + " remaining";
    assert CounterLabel(remaining) == w + rest;
    forall i | 0 <= i < |w| ensures w[i] != ' ' {
      if remaining < 0 && i > 0 {
        assert w[i] == Text.NatDigits(-remaining)[i - 1];
      }
    }
    Text.FirstWordOfNumeral(w, rest);
    Text.DecimalRoundTrip(remaining);
  }
}
