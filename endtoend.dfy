/**
 * The widget talking to the proxy: a reply of `chat()` as the browser's
 * `fetch` sees it, and what the widget then shows. This is where the two
 * halves must agree on the error tags.
 */
module EndToEnd {
  import opened Wrappers
  import opened Client
  import opened Session
  import Proxy
  import Text

  /**
   * A proxy reply as `fetch` delivers it: `ok` for a 2xx status, and the
   * JSON body's `error` and `content` members (a `content` that is not a
   * string is seen as absent).
   */
  function Deliver(r: Proxy.Response): Fetch {
    var body :=
      if r.body.ErrorBody? then JsonValue(Some(r.body.error), None)
      else if r.body.content.PString? then JsonValue(None, Some(r.body.content.s))
      else JsonValue(None, None);
    Answered(200 <= r.status <= 299, r.status, body)
  }

  /** The notice a failed reply of the proxy should lead to, by its status. */
  function NoticeForStatus(status: int): Notice {
    if status == 401 then ConfigurationNotice
    else if status == 402 || status == 429 then FundingNotice
    else TechnicalNotice
  }

  /**
   * Every reply of the proxy reaches the widget as intended: a 200 resolves
   * with the proxy's text, and anything else is rejected with an error whose
   * notice is the one its status calls for: a key problem for 401, a
   * funding problem for 402 and 429, a technical one for 400 and 500.
   */
  lemma ProxyReplyReachesWidget(body: Proxy.RequestBody, upstream: Proxy.Upstream)
    ensures var r := Proxy.Chat(body, upstream).response;
      var c := CallClaudeApi(Deliver(r));
      && (c.Resolved? <==> r.status == 200)
      && (r.body.ContentBody? && r.body.content.PString? ==> c == Resolved(Some(r.body.content.s)))
      && (c.Rejected? ==> ErrorNotice(c.error.message) == NoticeForStatus(r.status))
  {
    var r := Proxy.Chat(body, upstream).response;
    assert Proxy.WellTagged(r);
  }

  /**
   * A message the widget sends and the proxy answers with anything but 200
   * ends the session: the typing state is over, the transcript is
   * unchanged, and the one notice added is the one the status calls for.
   */
  lemma FailedReplyEndsSession(s: State, raw: string, body: Proxy.RequestBody, upstream: Proxy.Upstream)
    requires Submit(s, raw).request.Some?
    requires Proxy.Chat(body, upstream).response.status != 200
    ensures var t := Submit(s, raw).state;
      var r := Proxy.Chat(body, upstream).response;
      var o := ToOutcome(CallClaudeApi(Deliver(r)));
      && t.isTyping && o.Some? && o.value.Failure?
      && var u := Session.Complete(t, o.value);
         && u.isDisabled && !u.isTyping && u.history == t.history
         && u.messages == t.messages + [NoticeMessage(NoticeForStatus(r.status))]
  {
    ProxyReplyReachesWidget(body, upstream);
    SentIsTyping(s, raw);
  }

  /** A message the proxy answers with text gets that text shown and recorded as the assistant's turn. */
  lemma TextReplyRecorded(s: State, raw: string, body: Proxy.RequestBody, upstream: Proxy.Upstream, text: string)
    requires Submit(s, raw).request.Some?
    requires Proxy.Chat(body, upstream).response == Proxy.Response(Proxy.ContentBody(Proxy.PString(text)), 200)
    ensures var t := Submit(s, raw).state;
      var o := ToOutcome(CallClaudeApi(Deliver(Proxy.Chat(body, upstream).response)));
      && t.isTyping && o == Some(Success(text))
      && Session.Complete(t, o.value).history == t.history + [Turn(Assistant, text)]
      && Session.Complete(t, o.value).messages == t.messages + [BotMessage(text)]
  {
    SentIsTyping(s, raw);
    TextDelivered(Proxy.Chat(body, upstream).response, text);
    ReplyAppended(Submit(s, raw).state, text);
  }

  /** A 200 reply carrying text reaches the widget's continuation as that text. */
  lemma TextDelivered(r: Proxy.Response, text: string)
    requires r == Proxy.Response(Proxy.ContentBody(Proxy.PString(text)), 200)
    ensures ToOutcome(CallClaudeApi(Deliver(r))) == Some(Success(text))
  {
    assert Deliver(r) == Answered(true, 200, JsonValue(None, Some(text)));
  }

  /** The continuation after a reply appends it to the transcript and to the message list. */
  lemma ReplyAppended(t: State, text: string)
    requires t.isTyping
    ensures Session.Complete(t, Success(text)).history == t.history + [Turn(Assistant, text)]
    ensures Session.Complete(t, Success(text)).messages == t.messages + [BotMessage(text)]
  {
  }

  /** A send that made a call left the widget typing. */
  lemma SentIsTyping(s: State, raw: string)
    requires Submit(s, raw).request.Some?
    ensures Submit(s, raw).state.isTyping
  {
    var m := Text.Trim(raw);
    assert !s.isTyping && !s.isDisabled && m != [] && s.messageCount < MAX_MESSAGES;
    assert Submit(s, raw).state == Accept(s, m);
  }
}
