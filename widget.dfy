/**
 * The widget's script as objects whose fields change in place: the chat
 * session (the module-level variables and what the message list and counter
 * show) and the panel's two CSS classes. Each method of ChatWidget does what
 * the corresponding function of the script does, and is proved to move the
 * session exactly as the step functions of module Session say, keeping its
 * invariant.
 */
module Widget {
  import opened Wrappers
  import opened Client
  import opened Session
  import Text

  class ChatWidget {
    var isTyping: bool
    var isDisabled: bool
    var messageCount: nat
    var conversationHistory: seq<Turn>
    var messages: seq<Entry>      // what has been appended to the message list
    var limitPending: bool        // a deferred showLimitReached is armed
    var counterText: string       // the counter's text

    /** The session these fields hold. */
    function Snapshot(): State
      reads this
    {
      State(isTyping, isDisabled, messageCount, conversationHistory, messages, limitPending, counterText)
    }

    ghost predicate Valid()
      reads this
    {
      Inv(Snapshot())
    }

    /** Page load, with the DOMContentLoaded handler's first counter update. */
    constructor ()
      ensures Snapshot() == Init() && Valid()
    {
      isTyping := false;
      messageCount := 0;
      conversationHistory := [];
      isDisabled := false;
      messages := [];
      limitPending := false;
      counterText := CounterLabel(MAX_MESSAGES - 0);
      InitInv();
    }

    method UpdateMessageCounter()
      modifies this
      ensures Snapshot() == Session.UpdateMessageCounter(old(Snapshot()))
    {
      var remaining := MAX_MESSAGES - messageCount;
      counterText := CounterLabel(remaining);
    }

    method ShowTypingIndicator()
      modifies this
      ensures Snapshot() == Session.ShowTypingIndicator(old(Snapshot()))
    {
      isTyping := true;
    }

    method HideTypingIndicator()
      modifies this
      ensures Snapshot() == Session.HideTypingIndicator(old(Snapshot()))
    {
      isTyping := false;
    }

    method ShowLimitReached()
      modifies this
      ensures Snapshot() == Session.ShowLimitReached(old(Snapshot()))
    {
      isDisabled := true;
      messages := messages + [NoticeMessage(LimitNotice)];
    }

    method HandleApiError(error: JsError)
      modifies this
      ensures Snapshot() == Session.HandleApiError(old(Snapshot()), error)
    {
      isDisabled := true;
      var notice := ErrorNotice(error.message);
      messages := messages + [NoticeMessage(notice)];
    }

    /**
     * The wrapped sendMessage, with `raw` the input's value, up to the awaited
     * call; `request` is the transcript the call sends, if one is made.
     */
    method SendMessage(raw: string) returns (request: Option<seq<Turn>>)
      requires Valid()
      modifies this
      ensures Valid()
      ensures Snapshot() == Submit(old(Snapshot()), raw).state
      ensures request == Submit(old(Snapshot()), raw).request
    {
      ghost var s := Snapshot();
      SubmitInv(s, raw);
      if isTyping || isDisabled {
        UpdateMessageCounter();
        return None;
      }
      var message := Text.Trim(raw);
      if message == [] {
        UpdateMessageCounter();
        return None;
      }
      if messageCount >= MAX_MESSAGES {
        ShowLimitReached();
        UpdateMessageCounter();
        return None;
      }
      messageCount := messageCount + 1;
      messages := messages + [UserMessage(message)];
      conversationHistory := conversationHistory + [Turn(User, message)];
      ShowTypingIndicator();
      request := Some(conversationHistory);
      assert Snapshot() == Accept(s, message);
    }

    /** The rest of the wrapped sendMessage once the call in flight has settled with `outcome`. */
    method Complete(outcome: Outcome)
      requires Valid() && isTyping
      modifies this
      ensures Valid()
      ensures Snapshot() == Session.Complete(old(Snapshot()), outcome)
    {
      CompleteInv(Snapshot(), outcome);
      HideTypingIndicator();
      match outcome {
        case Success(reply) =>
          messages := messages + [BotMessage(reply)];
          conversationHistory := conversationHistory + [Turn(Assistant, reply)];
          if messageCount >= MAX_MESSAGES {
            limitPending := true;
          }
        case Failure(error) =>
          HandleApiError(error);
      }
      UpdateMessageCounter();
    }

    /** The timer armed by Complete fires. */
    method FireLimitTimer()
      requires Valid() && limitPending
      modifies this
      ensures Valid()
      ensures Snapshot() == Session.FireLimitTimer(old(Snapshot()))
    {
      FireLimitTimerInv(Snapshot());
      limitPending := false;
      ShowLimitReached();
    }

    /** handleKeyPress, for a key named `key` pressed while the input holds `raw`. */
    method HandleKeyPress(key: string, raw: string) returns (request: Option<seq<Turn>>)
      requires Valid()
      modifies this
      ensures Valid()
      ensures Snapshot() == KeyPress(old(Snapshot()), key, raw).state
      ensures request == KeyPress(old(Snapshot()), key, raw).request
    {
      request := None;
      if key == "Enter" && !isTyping && !isDisabled {
        request := SendMessage(raw);
      }
    }
  }

  /** The chat panel's `minimized` and `expanded` classes. */
  class Panel {
    var minimized: bool
    var expanded: bool

    /** The DOMContentLoaded handler starts the panel minimized. */
    constructor ()
      ensures minimized && !expanded
    {
      minimized := true;
      expanded := false;
    }

    /** toggleChatbot: an expanded panel drops to normal size first; otherwise it is minimized or restored. */
    method ToggleChatbot()
      modifies this
      ensures old(expanded) ==> !expanded && minimized == old(minimized)
      ensures !old(expanded) ==> !expanded && minimized == !old(minimized)
    {
      if expanded {
        expanded := false;
      } else {
        minimized := !minimized;
      }
    }

    /** toggleExpand: flips `expanded` and never touches `minimized`. */
    method ToggleExpand()
      modifies this
      ensures expanded == !old(expanded) && minimized == old(minimized)
    {
      expanded := !expanded;
    }
  }
}
