# TrustyBot chat widget and proxy, modelled in Dafny

TrustyBot is a satirical chatbot embedded in a personal web site. It has two parts:

- The browser widget (`script.js`) keeps a short chat session. At most five user messages are allowed. Each one is sent, with the whole transcript so far, to a small proxy. The widget shows the reply or a notice explaining why the bot is unavailable, and it displays how many messages remain.
- The proxy (`server.py`, route `/api/chat`) checks the request and forwards the transcript to the upstream messages API. It then reduces whatever comes back to either `{content}` or one of a fixed set of error tags with an HTTP status.

This project models both decision procedures and proves what they promise.

- **Text** (`text.dfy`): the string operations the code relies on.
  - `String.prototype.trim`, over the exact ECMAScript whitespace and line-terminator set.
  - Python's `in` on strings.
  - `str.lower`, on ASCII letters only.
  - How a number appears in a template literal, with a parser that reads it back.
- **Tags / Client** (`client.dfy`): the pure decisions in the widget.
  - `callClaudeAPI` turns the result of `fetch` into a reply or a thrown tag.
  - `handleAPIError` chooses a notice from the error.
  - `updateMessageCounter` builds the remaining-messages label.
- **Session** (`session.dfy`): the widget's session as a state machine over values.
  - The state is `isTyping`, `isDisabled`, `messageCount` and `conversationHistory`, plus the entries appended to the message list, an armed limit timer and the counter's text.
  - `sendMessage` is split at its single `await`. `Submit` covers everything before the call and `Complete` covers the continuation once the call has settled.
  - The one-second deferred `showLimitReached` is a `limitPending` flag. A separate `FireLimitTimer` step consumes it.
  - The invariant `Inv` holds in every reachable state, and lemmas over arbitrary runs of events (`Run`, `Requests`) state what holds across many steps.
- **Widget** (`widget.dfy`): the same session as the script really holds it, as mutable fields of class `ChatWidget`.
  - The helper methods `UpdateMessageCounter`, `ShowTypingIndicator`, `HideTypingIndicator`, `ShowLimitReached` and `HandleApiError` are each proved to change the fields exactly as their `Session` function does. They are not proved to keep `Inv` on their own, and `ShowTypingIndicator` alone does not.
  - The entry points `SendMessage`, `Complete`, `FireLimitTimer` and `HandleKeyPress` are each proved to move the fields exactly as their step function does and to keep `Inv`.
  - Class `Panel` models the `minimized` and `expanded` classes of the chat panel.
- **Proxy** (`proxy.dfy`): `chat()` as a function of the request body and of what the upstream call produced. Each Python expression that can raise is followed into the handler's two `except` clauses.
- **EndToEnd** (`endtoend.dfy`): a reply of the proxy as `fetch` delivers it to the widget. It proves the two halves agree: 401 leads to the configuration notice, 402 and 429 to the funding notice, 400 and 500 to the technical-difficulties notice, and 200 to the reply text in the transcript.

Points where this model follows the code rather than the general description of the system:

- The counter refresh wrapper (`script.js:324-328`) runs after every send, including one that returns early. A send while a reply is awaited therefore still rewrites the counter, so the session state is otherwise unchanged but the label is refreshed. `SubmitIgnoredWhileBusy` says exactly this.
- A send made in the second after the fifth reply shows the limit notice at once. The armed timer then shows it a second time (`LimitNoticeShownTwice`).
- In `chat()`, only a JSON body that is `null` or otherwise falsy (`{}`, `[]`, `""`, `0`, `false`), or one for which `'messages' in data` is false, gets the 400 answer. A request whose body cannot be read as JSON makes current Flask's `get_json()` raise, so the generic handler answers SERVER_ERROR 500. That includes an empty body and a body without a JSON content type.
- A JSON list or string body that contains `messages` passes the check but then fails at `data['messages']`, which also gives SERVER_ERROR 500.

## Model

| member | source | states |
|---|---|---|
| Text.Trim | script.js:68 | the result is a contiguous piece of the input, and neither its first nor its last character is whitespace |
| Text.TrimRemovesOnlyWhitespace | script.js:68 | everything before and after the trimmed result in the input is whitespace, so trimming removes whitespace at both ends and nothing else |
| Text.TrimEmptyIffBlank | script.js:68-70 | the trimmed message is empty exactly when every character of the input is whitespace |
| Text.TrimIdempotent | script.js:68 | trimming a trimmed string changes nothing |
| Text.Contains | server.py:104 | `sub in s` holds exactly when `sub` occurs at some position of `s` |
| Text.Lower | server.py:104 | lower-casing keeps the length and maps each character on its own |
| Text.DecimalRoundTrip | script.js:319 | the decimal rendering of any integer reads back as that integer |
| Client.CallClaudeApi | script.js:130-165 | how `callClaudeAPI` settles for each result of `fetch`; characterised by ResolvesOnlyOnOk, RejectionTagOrder, NetworkFailureIsOffline and BodyFailures |
| Client.StatusTag | script.js:144-154 | the tag for a response that is not ok; characterised by RejectionTagOrder |
| Client.Rethrown | script.js:158-164 | the catch block of `callClaudeAPI`; characterised by NetworkFailureIsOffline |
| Client.ErrorNotice | script.js:257-288 | the notice for an error message; characterised by ErrorNoticeByTag and ErrorNoticeCategories |
| Client.CounterLabel | script.js:315-321 | the counter text; characterised by CounterLabelExamples and CounterLabelRoundTrip |
| Tags.NameInjective | script.js:146-153 | distinct error tags have distinct wire names |
| Client.ResolvesOnlyOnOk | script.js:142-157 | `callClaudeAPI` resolves exactly for an ok response with a parsable non-null body, and then with that body's `content` |
| Client.RejectionTagOrder | script.js:144-154 | a response that is not ok gets INVALID_API_KEY (body tag or 401), else RATE_LIMITED (429), else OUT_OF_CREDITS (402), else API_ERROR; each as an if-and-only-if |
| Client.NetworkFailureIsOffline | script.js:158-164 | a TypeError or a "Failed to fetch" failure becomes SERVER_OFFLINE; any other failure is rethrown unchanged |
| Client.BodyFailures | script.js:142-164 | a body that is not JSON rethrows its SyntaxError whatever the status; a `null` body ends as SERVER_OFFLINE |
| Client.ErrorNoticeByTag | script.js:257-288 | RATE_LIMITED and OUT_OF_CREDITS give the funding notice, INVALID_API_KEY the configuration notice, SERVER_OFFLINE the offline notice, API_ERROR and SERVER_ERROR the technical notice |
| Client.ErrorNoticeCategories | script.js:257-288 | no error yields the limit notice, and the technical notice is shown exactly for messages other than the four named tags |
| Client.CounterLabelExamples | script.js:315-321 | five, one and zero remaining messages give "5 messages remaining", "1 message remaining" and "0 messages remaining" |
| Client.CounterLabelRoundTrip | script.js:316-319 | the number of remaining messages can be read back from the label's first word |
| Session.Submit | script.js:64-100 | the wrapped `sendMessage` up to its `await`; characterised by SubmitIgnoredWhileBusy, SubmitIgnoresBlank, SubmitAtLimit, SubmitAccepted and SubmitInv |
| Session.Accept | script.js:78-100 | the accepted path of a send; characterised by SubmitAccepted and AcceptInv |
| Session.Complete | script.js:102-128 | the continuation after the call settles, with the wrapper's counter refresh; characterised by CompleteSuccess, CompleteFailure and CompleteInv |
| Session.Answer | script.js:106-122 | the success branch of the continuation; characterised by CompleteSuccess and AnswerInv |
| Session.FireLimitTimer | script.js:119-121 | the deferred `showLimitReached`; characterised by LimitNoticeAfterLastReply and FireLimitTimerInv |
| Session.KeyPress | script.js:58-62 | `handleKeyPress`; characterised by KeyPressGuard |
| Session.InitInv | script.js:36-40 | the page-load state satisfies the session invariant |
| Session.SubmitIgnoredWhileBusy | script.js:65 | while a reply is awaited or after disabling, a send makes no call and changes nothing but a refresh of the counter |
| Session.SubmitIgnoresBlank | script.js:68-70 | an empty or all-whitespace message makes no call and changes nothing but the counter text |
| Session.SubmitAtLimit | script.js:73-76 | a send with the five messages used disables the session and adds the limit notice, without counting, recording or calling |
| Session.SubmitAccepted | script.js:78-100 | an accepted send counts once, appends one user turn holding the trimmed text, shows it, starts typing, and calls with the whole transcript including that turn |
| Session.CompleteSuccess | script.js:104-122 | a reply stops typing, appends one assistant turn after the user turn, shows it, and arms the limit notice exactly when the fifth message was used |
| Session.CompleteFailure | script.js:124-127 | a failed call stops typing, disables the session, adds the notice for its error and no turn |
| Session.LimitNoticeAfterLastReply | script.js:117-122 | right after the fifth reply the session is still enabled, the reply is the last message and the limit notice is armed; when the timer fires it disables the session and adds the limit notice after the reply |
| Session.KeyPressGuard | script.js:58-62 | a key press does nothing unless it is Enter while neither typing nor disabled, and then it is a send |
| Session.AcceptInv | script.js:78-100 | the accepted path keeps the invariant |
| Session.LimitInv | script.js:73-76 | showing the limit notice when sending keeps the invariant |
| Session.AnswerInv | script.js:106-122 | the success path of the continuation keeps the invariant |
| Session.SubmitInv | script.js:64-100 | every send keeps the invariant: count at most five and equal to the user turns, turns alternating, the message list showing exactly the transcript, disabled exactly when a notice was shown, the counter current |
| Session.CompleteInv | script.js:102-128 | the continuation of a send keeps the invariant |
| Session.FireLimitTimerInv | script.js:119-121 | the deferred limit notice keeps the invariant |
| Session.StepInv | script.js:58-128 | every event keeps the invariant |
| Session.RunInv | script.js:36-128 | every state reached by any run of events satisfies the invariant |
| Session.RunAppendOnly | script.js:79-91 | across any run the transcript and message list only grow, the count never falls, and a disabled session stays disabled |
| Session.DisabledIsFinal | script.js:219-245 | once disabled, no run of events re-enables the session, adds a turn or counts a message |
| Session.StepRequestShape | script.js:137-139 | a call sends the new transcript, which is the old one extended by exactly one turn, a user turn |
| Session.RequestsReplayTranscript | script.js:130-140 | every call of a run sends a prefix of the final transcript ending with a user turn, each longer than the one before |
| Session.RequestsArePrefixes | script.js:137-139 | of two calls in a run, the earlier call's transcript is a proper prefix of the later one's |
| Session.LimitNoticeShownTwice | script.js:118-122 | a send made while the limit notice is armed shows it at once, and the timer shows it once more |
| Widget.ChatWidget.constructor | script.js:36-40 | the fields start as the page-load state, which satisfies the invariant |
| Widget.ChatWidget.UpdateMessageCounter | script.js:315-321 | only the counter text changes, to the label of the remaining messages |
| Widget.ChatWidget.ShowTypingIndicator | script.js:167-180 | only `isTyping` changes, to true |
| Widget.ChatWidget.HideTypingIndicator | script.js:182-188 | only `isTyping` changes, to false |
| Widget.ChatWidget.ShowLimitReached | script.js:219-242 | the session is disabled and the limit notice appended |
| Widget.ChatWidget.HandleApiError | script.js:244-295 | the session is disabled and the notice for the error appended |
| Widget.ChatWidget.SendMessage | script.js:64-100 | the fields and the transcript sent move exactly as `Submit` says, keeping the invariant |
| Widget.ChatWidget.Complete | script.js:102-128 | the fields move exactly as `Complete` says, keeping the invariant |
| Widget.ChatWidget.FireLimitTimer | script.js:118-122 | the armed notice is shown and disarmed, keeping the invariant |
| Widget.ChatWidget.HandleKeyPress | script.js:58-62 | the fields and the transcript sent move exactly as `KeyPress` says, keeping the invariant |
| Widget.Panel.constructor | script.js:302 | the panel starts minimized and not expanded |
| Widget.Panel.ToggleChatbot | script.js:42-50 | an expanded panel drops to normal size and keeps its minimized state; otherwise minimized flips |
| Widget.Panel.ToggleExpand | script.js:52-56 | expanded flips, minimized is untouched |
| Proxy.Falsy | server.py:74 | Python's `not data` for a JSON value; used by InvalidRequest |
| Proxy.Membership | server.py:74 | Python's `'messages' in data` for each JSON type; used by InvalidRequest |
| Proxy.ErrorMessage | server.py:102-104 | the upstream error message, or that reading it raises; used by FailureReply and GenericFailure |
| Proxy.MentionsBilling | server.py:104 | the credit and billing test; characterised by GenericFailure and MentionsBillingIgnoresCase |
| Proxy.ReplyText | server.py:109-111 | `result['content'][0]['text']`, or that a subscript raises; characterised by SuccessForwardsFirstText and OtherExceptions |
| Proxy.FailureReply | server.py:101-106 | a failing upstream reply gives OUT_OF_CREDITS with 402 or an API or server error with 500 |
| Proxy.SuccessReply | server.py:108-112 | an OK upstream reply gives content with 200 or an error with 500 |
| Proxy.Relay | server.py:92-119 | every upstream outcome gives a well-tagged reply |
| Proxy.Chat | server.py:68-119 | every reply uses one of six statuses, carries content exactly with 200, and otherwise carries the tag of its status |
| Proxy.InvalidRequest | server.py:74-75 | the 400 reply is given exactly for a falsy body or one without `messages`, always with the fixed message and no upstream call |
| Proxy.ForwardsMessagesUnchanged | server.py:84-92 | upstream is called exactly for an object with `messages`, with that value unchanged, the fixed model and 300 tokens |
| Proxy.NoCallNoDependence | server.py:74-75 | when nothing is forwarded the reply does not depend on upstream |
| Proxy.FixedStatuses | server.py:95-100 | upstream 401, 429 and 402 become INVALID_API_KEY, RATE_LIMITED and OUT_OF_CREDITS with the same status, whatever the body |
| Proxy.GenericFailure | server.py:101-106 | any other 4xx or 5xx with an error message becomes OUT_OF_CREDITS 402 exactly when the lower-cased message mentions credit or billing, and API_ERROR 500 otherwise |
| Proxy.EmptyFailureBody | server.py:102-106 | a failing upstream reply with no text becomes API_ERROR 500 |
| Proxy.MentionsBillingIgnoresCase | server.py:104 | the credit and billing test gives the same answer for a message and its lower-cased form |
| Proxy.SuccessForwardsFirstText | server.py:109-112 | an OK upstream reply yields exactly the text of its first content block, with 200 |
| Proxy.RequestExceptions | server.py:114-116 | a failed upstream request, or an upstream body that is not JSON where it is decoded, becomes API_ERROR 500 |
| Proxy.OtherExceptions | server.py:117-119 | an unreadable request body, or an OK upstream reply of the wrong shape, becomes SERVER_ERROR 500 (the other routes into this handler: MalformedRequestExceptions and FailureBodyExceptions) |
| Proxy.MalformedRequestExceptions | server.py:74-88 | a request body on which `'messages' in data` raises, or a list or string body containing `messages` (so `data['messages']` raises), gets SERVER_ERROR 500 and nothing is forwarded |
| Proxy.FailureBodyExceptions | server.py:101-104 | a failing upstream reply (other than 401, 402 and 429) gets SERVER_ERROR 500 exactly when its body or its `error` is not an object, or its `message` is not a string |
| EndToEnd.Deliver | script.js:132-142 | a proxy reply as `fetch` and `response.json()` hand it to the widget; used by ProxyReplyReachesWidget |
| EndToEnd.NoticeForStatus | script.js:257-288 | the notice each failing proxy status should lead to; used by ProxyReplyReachesWidget and FailedReplyEndsSession |
| EndToEnd.ProxyReplyReachesWidget | server.py:95-119 | a proxy reply resolves in the widget exactly when its status is 200, with its text; otherwise the notice is configuration for 401, funding for 402 and 429, technical for the rest |
| EndToEnd.FailedReplyEndsSession | script.js:124-127 | a send answered by the proxy with anything but 200 ends typing, disables the session, adds the status's notice and no turn |
| EndToEnd.TextReplyRecorded | script.js:106-115 | a send answered by the proxy with text records that text as the assistant's turn and shows it |

## Left out

- The DOM is not modelled. That covers bubble elements, the typing-indicator element, the notices' HTML text, the disabled input and button styling, and the placeholder text. The model keeps only the flags, the kinds of entries appended to the message list and the counter's text.
- Clearing the input on an accepted send (`script.js:94`) is left out, because the input's value is a parameter of each send.
- Scrolling (`scrollToBottom`, `scrollToLastUserMessage`) is left out, because it is pixel geometry under timers.
- The scroll-reveal animator at the top of `script.js` is left out, because it is browser-driven.
- The `transitionend` focus handler is left out, because it only moves keyboard focus.
- Time is not modelled. The 1000 ms limit timer is an explicit event, and the wrapper's counter refresh is placed where it runs relative to the session's own steps.
- `fetch`, `response.json()` and the `async` machinery are not modelled. Their possible results are inputs (`Client.Fetch`, `Client.Body`). JavaScript's error message for reading a member of `null` differs between browsers, so one representative TypeError stands for it.
- A 2xx reply whose `content` is missing or not a string (JavaScript `undefined` or `null`) is given no outcome by `Session.ToOutcome`. The model does not follow the widget rendering such a value.
- A missing `messageCounter` element (the `if (counter)` guard) is left out. The model assumes the element is present.
- Choosing the endpoint from the hostname is left out, because it is a fixed lookup.
- Flask routing, CORS, dotenv and environment loading, the health and root endpoints and the start-up prints are left out. So are the request's headers and API key. The upstream call's result is an input (`Proxy.Upstream`).
- The system prompt text is left out of `Proxy.Payload`. It is a fixed constant.
- Text.Lower: models `str.lower` on ASCII letters only and leaves every other character unchanged. This cannot change the test at server.py:104. The only non-ASCII characters Python lower-cases into ASCII letters are U+212A (to "k") and U+0130 (to "i" followed by U+0307). The first letter appears in neither word. The second always brings U+0307 after its "i", which neither "credit" nor "billing" has.
- Proxy.MentionsBilling: rests on `Text.Lower` and inherits its ASCII-only lower-casing.
- JSON numbers are modelled as reals, and the proxy's `print` logging is left out.
- Proxy.Chat: Flask versions before 2.1 return `None` for a body with the wrong content type, which would give the 400 answer. The model follows current Flask, where `get_json()` raises and the handler answers SERVER_ERROR 500.
- Proxy.RequestExceptions: assumes requests 2.27 or later, where a JSON decoding failure of `response.json()` is a `RequestException`. Older versions raise a plain `ValueError`, which would give SERVER_ERROR instead of API_ERROR.
