/**
 * The chat session of the widget as a state machine over values: the
 * module-level variables `isTyping`, `isDisabled`, `messageCount` and
 * `conversationHistory`, the entries appended to the message list, the
 * armed limit timer and the counter label. `sendMessage` is split at its
 * one `await` into Submit (everything before the call) and Complete (the
 * continuation, with the call's outcome supplied).
 */
module Session {
  import opened Wrappers
  import opened Client
  import Text

  const MAX_MESSAGES: nat := 5

  datatype Role = User | Assistant

  /** One entry of `conversationHistory`. */
  datatype Turn = Turn(role: Role, content: string)

  /** An element appended to the message list. */
  datatype Entry = UserMessage(text: string) | BotMessage(text: string) | NoticeMessage(notice: Notice)

  datatype State = State(
    isTyping: bool,
    isDisabled: bool,
    messageCount: nat,
    history: seq<Turn>,
    messages: seq<Entry>,
    limitPending: bool,   // a deferred showLimitReached is armed
    counter: string)      // the text of the remaining-messages counter

  /** How the awaited call settled, as the continuation of sendMessage sees it. */
  datatype Outcome = Success(reply: string) | Failure(error: JsError)

  /** The outcome for a settled call; None for a reply whose `content` is not a string, which the model leaves out. */
  function ToOutcome(c: CallResult): Option<Outcome> {
    match c
    case Resolved(Some(text)) => Some(Success(text))
    case Resolved(None) => None
    case Rejected(e) => Some(Failure(e))
  }

  /** The state after page load: all flags clear, nothing sent, the counter written once. */
  function Init(): State {
    State(false, false, 0, [], [], false, CounterLabel(MAX_MESSAGES))
  }

  function UpdateMessageCounter(s: State): State {
    s.(counter := CounterLabel(MAX_MESSAGES - s.messageCount))
  }

  function ShowTypingIndicator(s: State): State {
    s.(isTyping := true)
  }

  function HideTypingIndicator(s: State): State {
    s.(isTyping := false)
  }

  function ShowLimitReached(s: State): State {
    s.(isDisabled := true, messages := s.messages + [NoticeMessage(LimitNotice)])
  }

  function HandleApiError(s: State, e: JsError): State {
    s.(isDisabled := true, messages := s.messages + [NoticeMessage(ErrorNotice(e.message))])
  }

  /** The state after the synchronous part of sendMessage, and the transcript sent if a call was made. */
  datatype Submitted = Submitted(state: State, request: Option<seq<Turn>>)

  /**
   * The wrapped sendMessage up to its await. On every early return the
   * wrapper's counter refresh follows at once; on the accepted path it
   * follows the continuation (see Complete).
   */
  function Submit(s: State, raw: string): Submitted {
    if s.isTyping || s.isDisabled then Submitted(UpdateMessageCounter(s), None)
    else
      var message := Text.Trim(raw);
      if message == [] then Submitted(UpdateMessageCounter(s), None)
      else if s.messageCount >= MAX_MESSAGES then Submitted(UpdateMessageCounter(ShowLimitReached(s)), None)
      else
        var typing := Accept(s, message);
        Submitted(typing, Some(typing.history))
  }

  /** The accepted path: count the message, show it, record it, show the typing indicator. */
  function Accept(s: State, message: string): State {
    var sent := s.(messageCount := s.messageCount + 1,
                   messages := s.messages + [UserMessage(message)],
                   history := s.history + [Turn(User, message)]);
    ShowTypingIndicator(sent)
  }

  /** The continuation of sendMessage once the awaited call has settled, then the wrapper's counter refresh. */
  function Complete(s: State, outcome: Outcome): State
    requires s.isTyping
  {
    var after := match outcome
      case Success(reply) => Answer(s, reply)
      case Failure(e) => HandleApiError(HideTypingIndicator(s), e);
    UpdateMessageCounter(after)
  }

  /** The success path: hide the indicator, show and record the reply, arm the limit notice if the last message was used. */
  function Answer(s: State, reply: string): State {
    var idle := HideTypingIndicator(s);
    var answered := idle.(messages := idle.messages + [BotMessage(reply)],
                          history := idle.history + [Turn(Assistant, reply)]);
    if answered.messageCount >= MAX_MESSAGES then answered.(limitPending := true) else answered
  }

  /** The deferred showLimitReached fires. */
  function FireLimitTimer(s: State): State
    requires s.limitPending
  {
    ShowLimitReached(s).(limitPending := false)
  }

  /** handleKeyPress: only Enter, and only while neither typing nor disabled, reaches sendMessage. */
  function KeyPress(s: State, key: string, raw: string): Submitted {
    if key == "Enter" && !s.isTyping && !s.isDisabled then Submit(s, raw) else Submitted(s, None)
  }

  // ---------------------------------------------------------------------------
  // What the transcript and the message list hold

  /** The number of user turns. */
  function UserTurns(h: seq<Turn>): nat {
    if h == [] then 0 else UserTurns(h[..|h| - 1]) + (if h[|h| - 1].role == User then 1 else 0)
  }

  /** User and assistant turns alternate, starting with the user. */
  ghost predicate Alternates(h: seq<Turn>) {
    forall i :: 0 <= i < |h| ==> h[i].role == (if i % 2 == 0 then User else Assistant)
  }

  /** The chat bubbles of the message list, read as turns. */
  function Conversation(m: seq<Entry>): seq<Turn> {
    if m == [] then []
    else
      var rest := Conversation(m[..|m| - 1]);
      match m[|m| - 1]
      case UserMessage(t) => rest + [Turn(User, t)]
      case BotMessage(t) => rest + [Turn(Assistant, t)]
      case NoticeMessage(_) => rest
  }

  /** The notices of the message list, in order. */
  function Notices(m: seq<Entry>): seq<Notice> {
    if m == [] then []
    else
      var rest := Notices(m[..|m| - 1]);
      if m[|m| - 1].NoticeMessage? then rest + [m[|m| - 1].notice] else rest
  }

  lemma EntryAppend(m: seq<Entry>, e: Entry)
    ensures Conversation(m + [e]) == Conversation(m) + match e
      case UserMessage(t) => [Turn(User, t)]
      case BotMessage(t) => [Turn(Assistant, t)]
      case NoticeMessage(_) => []
    ensures Notices(m + [e]) == Notices(m) + if e.NoticeMessage? then [e.notice] else []
  {
    assert (m + [e])[..|m|] == m;
  }

  lemma TurnAppend(h: seq<Turn>, t: Turn)
    ensures UserTurns(h + [t]) == UserTurns(h) + if t.role == User then 1 else 0
  {
    assert (h + [t])[..|h|] == h;
  }

  /** The counter shows the remaining messages; while a reply is awaited it may still show the count before the last send. */
  ghost predicate CounterCurrent(s: State) {
    || s.counter == CounterLabel(MAX_MESSAGES - s.messageCount)
    || (s.isTyping && s.counter == CounterLabel(MAX_MESSAGES - s.messageCount + 1))
  }

  /** The count, the flags and the shape of the transcript agree. */
  ghost predicate TranscriptInv(s: State) {
    && s.messageCount <= MAX_MESSAGES
    && s.messageCount == UserTurns(s.history)
    && Alternates(s.history)
    && (s.isTyping ==> !s.isDisabled && !s.limitPending && |s.history| % 2 == 1)
    && (!s.isTyping && !s.isDisabled ==> |s.history| % 2 == 0)
    && (s.limitPending ==> s.messageCount == MAX_MESSAGES)
  }

  /** The message list shows exactly the transcript, and a notice is shown exactly when the session is disabled. */
  ghost predicate ScreenInv(s: State) {
    && Conversation(s.messages) == s.history
    && (s.isDisabled <==> Notices(s.messages) != [])
  }

  /** The invariant of every reachable session state. */
  ghost predicate Inv(s: State) {
    TranscriptInv(s) && ScreenInv(s) && CounterCurrent(s)
  }

  lemma InitInv()
    ensures Inv(Init())
  {
  }

  // ---------------------------------------------------------------------------
  // One step at a time

  /** While a reply is awaited or after the session is disabled, sending changes nothing but the counter text, and no call is made. */
  lemma SubmitIgnoredWhileBusy(s: State, raw: string)
    requires s.isTyping || s.isDisabled
    ensures var r := Submit(s, raw);
      && r.request == None
      && r.state.(counter := s.counter) == s
      && r.state.counter == CounterLabel(MAX_MESSAGES - s.messageCount)
  {
  }

  /** A message that is empty or all whitespace changes nothing but the counter text. */
  lemma SubmitIgnoresBlank(s: State, raw: string)
    requires Text.AllWhitespace(raw)
    ensures var r := Submit(s, raw);
      r.request == None && r.state.(counter := s.counter) == s
  {
    Text.TrimEmptyIffBlank(raw);
  }

  /** Sending once the limit is used up disables the session and shows the limit notice at once, with no call. */
  lemma SubmitAtLimit(s: State, raw: string)
    requires !s.isTyping && !s.isDisabled && !Text.AllWhitespace(raw)
    requires s.messageCount >= MAX_MESSAGES
    ensures var r := Submit(s, raw);
      && r.request == None
      && r.state.isDisabled
      && r.state.messages == s.messages + [NoticeMessage(LimitNotice)]
      && r.state.messageCount == s.messageCount && r.state.history == s.history
      && r.state.isTyping == s.isTyping && r.state.limitPending == s.limitPending
  {
    Text.TrimEmptyIffBlank(raw);
  }

  /**
   * An accepted message counts once, is appended as one user turn holding
   * the trimmed text, starts the typing indicator, and the call carries the
   * whole transcript including that turn.
   */
  lemma SubmitAccepted(s: State, raw: string)
    requires !s.isTyping && !s.isDisabled && !Text.AllWhitespace(raw)
    requires s.messageCount < MAX_MESSAGES
    ensures var r := Submit(s, raw);
      && r.state.messageCount == s.messageCount + 1
      && r.state.history == s.history + [Turn(User, Text.Trim(raw))]
      && r.state.messages == s.messages + [UserMessage(Text.Trim(raw))]
      && r.state.isTyping && !r.state.isDisabled
      && r.state.limitPending == s.limitPending && r.state.counter == s.counter
      && r.request == Some(s.history + [Turn(User, Text.Trim(raw))])
  {
    Text.TrimEmptyIffBlank(raw);
  }

  /** A reply ends the typing state, follows the user turn, and arms the limit notice exactly when the last message is used. */
  lemma CompleteSuccess(s: State, reply: string)
    requires Inv(s) && s.isTyping
    ensures var t := Complete(s, Success(reply));
      && !t.isTyping && !t.isDisabled
      && t.history == s.history + [Turn(Assistant, reply)]
      && s.history[|s.history| - 1].role == User
      && t.messages == s.messages + [BotMessage(reply)]
      && t.messageCount == s.messageCount
      && (t.limitPending <==> s.messageCount == MAX_MESSAGES)
      && t.counter == CounterLabel(MAX_MESSAGES - s.messageCount)
  {
  }

  /** A failed call ends the typing state, disables the session for good, and adds the notice for its error but no turn. */
  lemma CompleteFailure(s: State, e: JsError)
    requires s.isTyping
    ensures var t := Complete(s, Failure(e));
      && !t.isTyping && t.isDisabled
      && t.history == s.history && t.messageCount == s.messageCount
      && t.messages == s.messages + [NoticeMessage(ErrorNotice(e.message))]
      && t.limitPending == s.limitPending
  {
  }

  /** After the reply to the last allowed message, the limit notice follows the reply, not before it. */
  lemma LimitNoticeAfterLastReply(s: State, reply: string)
    requires Inv(s) && s.isTyping && s.messageCount == MAX_MESSAGES
    ensures var t := Complete(s, Success(reply));
      && t.limitPending && !t.isDisabled
      && t.messages[|t.messages| - 1] == BotMessage(reply)
      && FireLimitTimer(t).isDisabled
      && FireLimitTimer(t).messages == t.messages + [NoticeMessage(LimitNotice)]
  {
  }

  /** handleKeyPress does nothing at all for another key, or while typing or disabled. */
  lemma KeyPressGuard(s: State, key: string, raw: string)
    ensures key != "Enter" || s.isTyping || s.isDisabled ==> KeyPress(s, key, raw) == Submitted(s, None)
    ensures key == "Enter" && !s.isTyping && !s.isDisabled ==> KeyPress(s, key, raw) == Submit(s, raw)
  {
  }

  lemma AlternatesAppend(h: seq<Turn>, t: Turn)
    requires Alternates(h) && t.role == (if |h| % 2 == 0 then User else Assistant)
    ensures Alternates(h + [t])
  {
    var h' := h + [t];
    forall i | 0 <= i < |h'| ensures h'[i].role == (if i % 2 == 0 then User else Assistant) {
      if i < |h| { assert h'[i] == h[i]; }
    }
  }

  lemma AcceptInv(s: State, message: string)
    requires Inv(s) && !s.isTyping && !s.isDisabled && s.messageCount < MAX_MESSAGES
    ensures Inv(Accept(s, message))
  {
    var t := Accept(s, message);
    assert TranscriptInv(t) by {
      TurnAppend(s.history, Turn(User, message));
      AlternatesAppend(s.history, Turn(User, message));
    }
    assert ScreenInv(t) by {
      EntryAppend(s.messages, UserMessage(message));
    }
  }

  lemma LimitInv(s: State)
    requires Inv(s) && !s.isTyping
    ensures Inv(UpdateMessageCounter(ShowLimitReached(s)))
  {
    EntryAppend(s.messages, NoticeMessage(LimitNotice));
  }

  lemma SubmitInv(s: State, raw: string)
    requires Inv(s)
    ensures Inv(Submit(s, raw).state)
  {
    var m := Text.Trim(raw);
    if s.isTyping || s.isDisabled || m == [] {
      assert Submit(s, raw).state == UpdateMessageCounter(s);
      RefreshInv(s);
    } else if s.messageCount >= MAX_MESSAGES {
      assert Submit(s, raw).state == UpdateMessageCounter(ShowLimitReached(s));
      LimitInv(s);
    } else {
      assert Submit(s, raw).state == Accept(s, m);
      AcceptInv(s, m);
    }
  }

  lemma RefreshInv(s: State)
    requires Inv(s)
    ensures Inv(UpdateMessageCounter(s))
  {
  }

  lemma AnswerInv(s: State, reply: string)
    requires Inv(s) && s.isTyping
    ensures Inv(UpdateMessageCounter(Answer(s, reply)))
  {
    var t := UpdateMessageCounter(Answer(s, reply));
    assert t.history == s.history + [Turn(Assistant, reply)] && t.messages == s.messages + [BotMessage(reply)];
    assert t.messageCount == s.messageCount && !t.isTyping && t.isDisabled == s.isDisabled;
    assert t.limitPending == (s.messageCount >= MAX_MESSAGES);
    assert CounterCurrent(t);
    assert TranscriptInv(t) by {
      TurnAppend(s.history, Turn(Assistant, reply));
      AlternatesAppend(s.history, Turn(Assistant, reply));
    }
    assert ScreenInv(t) by {
      EntryAppend(s.messages, BotMessage(reply));
    }
  }

  lemma CompleteInv(s: State, outcome: Outcome)
    requires Inv(s) && s.isTyping
    ensures Inv(Complete(s, outcome))
  {
    match outcome
    case Success(reply) => AnswerInv(s, reply);
    case Failure(e) => EntryAppend(s.messages, NoticeMessage(ErrorNotice(e.message)));
  }

  lemma FireLimitTimerInv(s: State)
    requires Inv(s) && s.limitPending
    ensures Inv(FireLimitTimer(s))
  {
    EntryAppend(s.messages, NoticeMessage(LimitNotice));
  }

  // ---------------------------------------------------------------------------
  // Runs of events

  /** What can happen to the widget: a click on send, a key press, the awaited call settling, the limit timer firing. */
  datatype Event = Send(raw: string) | Key(key: string, raw: string) | Settle(outcome: Outcome) | LimitTimer

  /** One event; a settlement with no call in flight, or a timer that is not armed, cannot occur and leaves the state alone. */
  function Step(s: State, e: Event): State {
    match e
    case Send(raw) => Submit(s, raw).state
    case Key(key, raw) => KeyPress(s, key, raw).state
    case Settle(outcome) => if s.isTyping then Complete(s, outcome) else s
    case LimitTimer => if s.limitPending then FireLimitTimer(s) else s
  }

  /** The transcript a single event sends, if it makes a call. */
  function StepRequest(s: State, e: Event): Option<seq<Turn>> {
    match e
    case Send(raw) => Submit(s, raw).request
    case Key(key, raw) => KeyPress(s, key, raw).request
    case _ => None
  }

  function Run(s: State, es: seq<Event>): State
    decreases |es|
  {
    if es == [] then s else Run(Step(s, es[0]), es[1..])
  }

  /** The transcripts sent by the calls of a run, in order. */
  function Requests(s: State, es: seq<Event>): seq<seq<Turn>>
    decreases |es|
  {
    if es == [] then []
    else
      var here := StepRequest(s, es[0]);
      (if here.Some? then [here.value] else []) + Requests(Step(s, es[0]), es[1..])
  }

  lemma StepInv(s: State, e: Event)
    requires Inv(s)
    ensures Inv(Step(s, e))
  {
    match e
    case Send(raw) => SubmitInv(s, raw);
    case Key(key, raw) => SubmitInv(s, raw);
    case Settle(outcome) => if s.isTyping { CompleteInv(s, outcome); }
    case LimitTimer => if s.limitPending { FireLimitTimerInv(s); }
  }

  /** Every state reached from a valid state satisfies the invariant; with InitInv, every reachable state does. */
  lemma {:induction false} RunInv(s: State, es: seq<Event>)
    requires Inv(s)
    ensures Inv(Run(s, es))
    decreases |es|
  {
    if es != [] {
      StepInv(s, es[0]);
      RunInv(Step(s, es[0]), es[1..]);
    }
  }

  lemma SubmitGrows(s: State, raw: string)
    ensures var t := Submit(s, raw).state;
      && s.history <= t.history && s.messages <= t.messages
      && s.messageCount <= t.messageCount && (s.isDisabled ==> t.isDisabled)
  {
    var m := Text.Trim(raw);
    if s.isTyping || s.isDisabled || m == [] {
      assert Submit(s, raw).state == UpdateMessageCounter(s);
    } else if s.messageCount >= MAX_MESSAGES {
      assert Submit(s, raw).state == UpdateMessageCounter(ShowLimitReached(s));
    } else {
      assert Submit(s, raw).state == Accept(s, m);
    }
  }

  lemma StepGrows(s: State, e: Event)
    ensures var t := Step(s, e);
      && s.history <= t.history && s.messages <= t.messages
      && s.messageCount <= t.messageCount && (s.isDisabled ==> t.isDisabled)
  {
    match e
    case Send(raw) => SubmitGrows(s, raw);
    case Key(key, raw) =>
      if key == "Enter" && !s.isTyping && !s.isDisabled {
        SubmitGrows(s, raw);
      } else {
        assert Step(s, e) == s;
      }
    case Settle(outcome) =>
      if s.isTyping {
        CompleteGrows(s, outcome);
      } else {
        assert Step(s, e) == s;
      }
    case LimitTimer =>
  }

  lemma CompleteGrows(s: State, outcome: Outcome)
    requires s.isTyping
    ensures var t := Complete(s, outcome);
      && s.history <= t.history && s.messages <= t.messages
      && s.messageCount <= t.messageCount && (s.isDisabled ==> t.isDisabled)
  {
    match outcome
    case Success(reply) => assert Complete(s, outcome) == UpdateMessageCounter(Answer(s, reply));
    case Failure(e) =>
  }

  /** The transcript and the message list only grow, the count never falls, and a disabled session stays disabled. */
  lemma {:induction false} RunAppendOnly(s: State, es: seq<Event>)
    ensures var t := Run(s, es);
      && s.history <= t.history && s.messages <= t.messages
      && s.messageCount <= t.messageCount
      && (s.isDisabled ==> t.isDisabled)
    decreases |es|
  {
    if es != [] {
      StepGrows(s, es[0]);
      RunAppendOnly(Step(s, es[0]), es[1..]);
    }
  }

  /** Once disabled, no event adds a turn or counts a message. */
  lemma {:induction false} DisabledIsFinal(s: State, es: seq<Event>)
    requires Inv(s) && s.isDisabled
    ensures var t := Run(s, es);
      t.isDisabled && t.history == s.history && t.messageCount == s.messageCount
    decreases |es|
  {
    if es != [] {
      StepInv(s, es[0]);
      DisabledIsFinal(Step(s, es[0]), es[1..]);
    }
  }

  /** A call is made only on the accepted path, and it sends the transcript just extended by the new user turn. */
  lemma StepRequestShape(s: State, e: Event)
    ensures var r := StepRequest(s, e);
      r.Some? ==>
        && r.value == Step(s, e).history && s.history < r.value && |r.value| == |s.history| + 1
        && r.value[|r.value| - 1].role == User
  {
    match e
    case Send(raw) => SubmitRequestShape(s, raw);
    case Key(key, raw) => SubmitRequestShape(s, raw);
    case _ =>
  }

  lemma SubmitRequestShape(s: State, raw: string)
    ensures var r := Submit(s, raw);
      r.request.Some? ==>
        r.request.value == r.state.history && r.state.history == s.history + [Turn(User, Text.Trim(raw))]
  {
    if Submit(s, raw).request.Some? {
      var m := Text.Trim(raw);
      assert !s.isTyping && !s.isDisabled && m != [] && s.messageCount < MAX_MESSAGES;
      assert Submit(s, raw).state == Accept(s, m);
    }
  }

  /**
   * The requests `rs` replay the final transcript `h`: each is a prefix of
   * `h` longer than `lo` turns ending with a user turn, and each is longer
   * than the one before it.
   */
  ghost predicate ReplaysWithin(rs: seq<seq<Turn>>, lo: nat, h: seq<Turn>) {
    && (forall i :: 0 <= i < |rs| ==>
          lo < |rs[i]| <= |h| && rs[i] == h[..|rs[i]|] && rs[i][|rs[i]| - 1].role == User)
    && (forall i, j :: 0 <= i < j < |rs| ==> |rs[i]| < |rs[j]|)
  }

  lemma ReplaysCons(here: Option<seq<Turn>>, rest: seq<seq<Turn>>, lo: nat, mid: nat, h: seq<Turn>)
    requires ReplaysWithin(rest, mid, h) && lo <= mid
    requires here.Some? ==>
      |here.value| == mid && lo < mid <= |h| && here.value == h[..mid] && here.value[mid - 1].role == User
    ensures ReplaysWithin((if here.Some? then [here.value] else []) + rest, lo, h)
  {
    var rs := (if here.Some? then [here.value] else []) + rest;
    if here.Some? {
      forall i | 0 <= i < |rs|
        ensures lo < |rs[i]| <= |h| && rs[i] == h[..|rs[i]|] && rs[i][|rs[i]| - 1].role == User
      {
        if i > 0 { assert rs[i] == rest[i - 1]; }
      }
      forall i, j | 0 <= i < j < |rs| ensures |rs[i]| < |rs[j]| {
        assert rs[j] == rest[j - 1];
        if i > 0 { assert rs[i] == rest[i - 1]; }
      }
    } else {
      assert rs == rest;
    }
  }

  /**
   * Every call of a run replays the whole transcript: each request is a
   * prefix of the transcript held after the run, is longer than the one
   * held before it, ends with a user turn, and each one is longer than the
   * request before it. Nothing is dropped or reordered.
   */
  lemma {:induction false} RequestsReplayTranscript(s: State, es: seq<Event>)
    requires Inv(s)
    ensures ReplaysWithin(Requests(s, es), |s.history|, Run(s, es).history)
    decreases |es|
  {
    if es != [] {
      var s' := Step(s, es[0]);
      var here := StepRequest(s, es[0]);
      var h := Run(s, es).history;
      assert Requests(s, es) == (if here.Some? then [here.value] else []) + Requests(s', es[1..]);
      assert h == Run(s', es[1..]).history;
      StepInv(s, es[0]);
      StepGrows(s, es[0]);
      StepRequestShape(s, es[0]);
      RequestsReplayTranscript(s', es[1..]);
      RunAppendOnly(s', es[1..]);
      RequestFits(here, s.history, s'.history, h);
      ReplaysCons(here, Requests(s', es[1..]), |s.history|, |s'.history|, h);
    }
  }

  /** A request equal to the transcript after its step is a prefix of every later transcript. */
  lemma RequestFits(here: Option<seq<Turn>>, before: seq<Turn>, after: seq<Turn>, h: seq<Turn>)
    requires here.Some? ==> here.value == after && before < after && after[|after| - 1].role == User
    requires after <= h
    ensures here.Some? ==>
      |here.value| == |after| && |before| < |after| <= |h| && here.value == h[..|after|]
      && here.value[|after| - 1].role == User
  {
  }

  /** Hence each call's transcript is a proper prefix of every later call's. */
  lemma RequestsArePrefixes(s: State, es: seq<Event>, i: nat, j: nat)
    requires Inv(s)
    requires i < j < |Requests(s, es)|
    ensures s.history < Requests(s, es)[i] < Requests(s, es)[j]
  {
    var rs := Requests(s, es);
    var h := Run(s, es).history;
    RequestsReplayTranscript(s, es);
    assert |s.history| < |rs[i]| < |rs[j]|;
    RunAppendOnly(s, es);
    assert rs[i] == h[..|rs[i]|] && rs[j] == h[..|rs[j]|];
    assert rs[i] == rs[j][..|rs[i]|];
    assert s.history == rs[i][..|s.history|];
  }

  /**
   * A send within the delay of the armed limit notice shows the limit
   * notice at once, and the timer then shows it a second time.
   */
  lemma LimitNoticeShownTwice(s: State, raw: string)
    requires Inv(s) && s.limitPending && !s.isDisabled && !Text.AllWhitespace(raw)
    ensures Notices(Run(s, [Send(raw), LimitTimer]).messages) == Notices(s.messages) + [LimitNotice, LimitNotice]
  {
    Text.TrimEmptyIffBlank(raw);
    assert !s.isTyping && s.messageCount >= MAX_MESSAGES;
    SendThenTimer(s, raw);
    var n := NoticeMessage(LimitNotice);
    EntryAppend(s.messages, n);
    EntryAppend(s.messages + [n], n);
  }

  /** The messages after a send at the limit followed by the armed timer. */
  lemma SendThenTimer(s: State, raw: string)
    requires !s.isTyping && !s.isDisabled && s.limitPending && s.messageCount >= MAX_MESSAGES
    requires Text.Trim(raw) != []
    ensures Run(s, [Send(raw), LimitTimer]).messages ==
      s.messages + [NoticeMessage(LimitNotice)] + [NoticeMessage(LimitNotice)]
  {
    var t := UpdateMessageCounter(ShowLimitReached(s));
    assert Submit(s, raw).state == t;
    TimerStep(t);
    RunTwo(s, Send(raw), LimitTimer);
  }

  lemma TimerStep(t: State)
    requires t.limitPending
    ensures Step(t, LimitTimer) == FireLimitTimer(t)
  {
  }

  lemma RunTwo(s: State, a: Event, b: Event)
    ensures Run(s, [a, b]) == Step(Step(s, a), b)
  {
    var t := Step(s, a);
    var u := Step(t, b);
    assert [a, b][1..] == [b];
    assert Run(s, [a, b]) == Run(t, [b]);
    assert [b][1..] == [];
    assert Run(t, [b]) == Run(u, []);
  }
}
