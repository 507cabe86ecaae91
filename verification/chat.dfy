/**
 * The chat page's controller (`handleSubmit`) as pure transitions over the
 * state `(messages, input, isLoading)`: `SubmitStart` is everything up to the
 * request to the relay, `SubmitFinish` everything after it, including the
 * `finally` that clears `isLoading`.
 */
module Chat {
  import opened Options
  import opened Json
  import opened Text
  import opened Messages
  import Proxy

  /** The identities the page sends with every message; they are fixed in the page. */
  const UserId := "u_123"
  const SessionId := "s_123"
  const AppName := "planning_agent"

  const ErrorPrefix := "メッセージの送信中にエラーが発生しました: "
  const UnknownSendError := "Unknown error during message sending."
  const ApiErrorPrefix := "API error: "
  /** The TypeError V8 raises when `errorData` is `null` and `.error` is read from it. */
  const NullErrorAccess := "Cannot read properties of null (reading 'error')"
  /** The TypeError V8 raises when `new Error(x)` cannot convert `x` to a string. */
  const PrimitiveConversionError := "Cannot convert object to primitive value"

  datatype ChatState = ChatState(messages: seq<Message>, input: string, isLoading: bool)

  /** The error body of a non-ok relay response, as `response.json()` sees it. */
  datatype ErrorBody = Readable(value: JsonValue) | Unreadable

  /**
   * How the relay request ended, as the page sees it: an ok response whose
   * body is the event list, a non-ok response, or an exception (a rejected
   * `fetch` or an unreadable ok body) carrying its message.
   */
  datatype Reply = Delivered(events: seq<AgentEvent>) | Refused(statusText: string, body: ErrorBody) | Threw(message: string)

  /** The result of pressing send: the new state, and the JSON body posted to the relay if any. */
  datatype Admission = Admission(state: ChatState, request: Option<JsonValue>)

  /** The message appended optimistically for `input`: one part holding the raw, untrimmed input. */
  function UserMessage(input: string): Message {
    Message(User, [Part(input)])
  }

  /** The body posted to the relay for a user message. */
  function SendRequest(userMessage: Message): JsonValue {
    JObj([("type", JStr("sendMessage")), ("app_name", JStr(AppName)), ("user_id", JStr(UserId)),
          ("session_id", JStr(SessionId)), ("new_message", EncodeMessage(userMessage))])
  }

  /**
   * The part of `handleSubmit` before the relay answers: blank input or a send
   * already in flight leaves everything as it was and posts nothing;
   * otherwise the user's message is appended, the input cleared and the page
   * marked as loading.
   */
  function SubmitStart(s: ChatState): (r: Admission)
    ensures r.request.None? <==> IsBlank(s.input) || s.isLoading
    ensures r.request.None? ==> r.state == s
    ensures r.request.Some? ==>
              && r.state.messages == s.messages + [UserMessage(s.input)]
              && r.state.input == ""
              && r.state.isLoading
              && r.request.value == SendRequest(UserMessage(s.input))
  {
    TrimEmptyIffBlank(s.input);
    if Trim(s.input) == "" || s.isLoading then
      Admission(s, None)
    else
      var userMessage := UserMessage(s.input);
      Admission(ChatState(s.messages + [userMessage], "", true), Some(SendRequest(userMessage)))
  }

  /** `errorData`: the parsed error body, or the page's fallback object when it cannot be read. */
  function ErrorData(body: ErrorBody): JsonValue {
    match body
    case Readable(j) => j
    case Unreadable => JObj([("error", JStr(UnknownSendError))])
  }

  /** The message of the error the page raises for a non-ok response: `errorData.error || "API error: " + statusText`. */
  function RefusalMessage(errorData: JsonValue, statusText: string): string {
    if errorData.JNull? then NullErrorAccess
    else
      var field := Get(errorData, "error");
      if !TruthyField(field) then ApiErrorPrefix + statusText
      else
        match ToJsString(field.value)
        case Some(text) => text
        case None => PrimitiveConversionError
  }

  /** `error.message` in the page's `catch`. */
  function FailureMessage(reply: Reply): string
    requires !reply.Delivered?
  {
    match reply
    case Refused(statusText, body) => RefusalMessage(ErrorData(body), statusText)
    case Threw(message) => message
  }

  /** The single synthetic message the `catch` appends. */
  function ErrorMessage(reply: Reply): Message
    requires !reply.Delivered?
  {
    Message(Model, [Part(ErrorPrefix + FailureMessage(reply))])
  }

  /**
   * The part of `handleSubmit` after the relay answers: the assistant's
   * replies, or one error message, are appended after everything already
   * shown, and `isLoading` is cleared on every path.
   */
  function SubmitFinish(s: ChatState, reply: Reply): (r: ChatState)
    ensures !r.isLoading
    ensures r.input == s.input
    ensures s.messages <= r.messages
    ensures reply.Delivered? ==> r.messages[|s.messages|..] == Project(reply.events)
    ensures !reply.Delivered? ==>
              && |r.messages| == |s.messages| + 1
              && r.messages[|s.messages|].role == Model
              && r.messages[|s.messages|].parts == [Part(ErrorPrefix + FailureMessage(reply))]
  {
    var appended := if reply.Delivered? then Project(reply.events) else [ErrorMessage(reply)];
    ChatState(s.messages + appended, s.input, false)
  }

  // ---------------------------------------------------------------------
  // Whole submissions
  // ---------------------------------------------------------------------

  /** One press of send followed, when a request went out, by its reply. */
  function Submit(s: ChatState, reply: Reply): ChatState {
    var start := SubmitStart(s);
    if start.request.Some? then SubmitFinish(start.state, reply) else start.state
  }

  /** An accepted press hands the page over to the in-flight state with the user's message appended. */
  lemma AcceptedSubmit(s: ChatState, reply: Reply)
    requires !IsBlank(s.input) && !s.isLoading
    ensures Submit(s, reply) == SubmitFinish(ChatState(s.messages + [UserMessage(s.input)], "", true), reply)
  {
  }

  /**
   * A successful submission leaves the page idle with every earlier message,
   * then the user's message, then the assistant's replies in order.
   */
  lemma SubmissionSucceeds(s: ChatState, events: seq<AgentEvent>)
    requires !IsBlank(s.input) && !s.isLoading
    ensures var r := Submit(s, Delivered(events));
            && !r.isLoading
            && r.input == ""
            && r.messages == s.messages + [UserMessage(s.input)] + Project(events)
  {
    var mid := ChatState(s.messages + [UserMessage(s.input)], "", true);
    AcceptedSubmit(s, Delivered(events));
    var r := SubmitFinish(mid, Delivered(events));
    assert r.messages == mid.messages + r.messages[|mid.messages|..];
  }

  lemma FailedFinish(s: ChatState, reply: Reply)
    requires !reply.Delivered?
    ensures SubmitFinish(s, reply) == ChatState(s.messages + [ErrorMessage(reply)], s.input, false)
  {
  }

  /**
   * A failed submission leaves the page idle with every earlier message, then
   * the user's message, then exactly one error message.
   */
  lemma SubmissionFails(s: ChatState, reply: Reply)
    requires !IsBlank(s.input) && !s.isLoading
    requires !reply.Delivered?
    ensures Submit(s, reply) == ChatState(s.messages + [UserMessage(s.input), ErrorMessage(reply)], "", false)
  {
    var mid := ChatState(s.messages + [UserMessage(s.input)], "", true);
    FailedFinish(mid, reply);
    AcceptedSubmit(s, reply);
    assert mid.messages + [ErrorMessage(reply)] == s.messages + [UserMessage(s.input), ErrorMessage(reply)];
  }

  /** Blank input, or a press while a send is in flight, changes nothing whatever the reply. */
  lemma RejectedSubmitChangesNothing(s: ChatState, reply: Reply)
    requires IsBlank(s.input) || s.isLoading
    ensures Submit(s, reply) == s
    ensures SubmitStart(s).request == None
  {
  }

  /**
   * The error text is the relay's `error` field when that is a non-empty
   * string (any other truthy `error` as `String()` prints it, or V8's
   * conversion TypeError when it cannot be printed), `"API error: "` and the
   * status text when the body has no truthy `error`, the fixed fallback when
   * the body cannot be read, V8's null-access TypeError when the body is
   * `null`, and the exception's own message when the request threw.
   */
  lemma FailureMessageCases(reply: Reply)
    requires !reply.Delivered?
    ensures reply.Refused? && reply.body.Unreadable? ==> FailureMessage(reply) == UnknownSendError
    ensures reply.Refused? && reply.body == Readable(JNull) ==> FailureMessage(reply) == NullErrorAccess
    ensures reply.Refused? && reply.body.Readable? && !reply.body.value.JNull? ==>
              var field := Get(reply.body.value, "error");
              && (field.Some? && field.value.JStr? && field.value.s != "" ==> FailureMessage(reply) == field.value.s)
              && (!TruthyField(field) ==> FailureMessage(reply) == ApiErrorPrefix + reply.statusText)
              && (TruthyField(field) && ToJsString(field.value).Some? ==>
                    FailureMessage(reply) == ToJsString(field.value).value)
              && (TruthyField(field) && ToJsString(field.value).None? ==>
                    FailureMessage(reply) == PrimitiveConversionError)
    ensures reply.Threw? ==> FailureMessage(reply) == reply.message
  {
  }

  // ---------------------------------------------------------------------
  // The page as a state machine
  // ---------------------------------------------------------------------

  /** What can happen to the page: typing (the input is disabled while loading), pressing send, and the relay answering. */
  datatype UiEvent = Edit(text: string) | Press | Settle(reply: Reply)

  function Step(s: ChatState, e: UiEvent): ChatState {
    match e
    case Edit(text) => if s.isLoading then s else s.(input := text)
    case Press => SubmitStart(s).state
    case Settle(reply) => if s.isLoading then SubmitFinish(s, reply) else s
  }

  function Run(s: ChatState, events: seq<UiEvent>): ChatState
    decreases |events|
  {
    if |events| == 0 then s else Run(Step(s, events[0]), events[1..])
  }

  /** While a send is in flight the input is empty and the last message shown is the user's. */
  predicate InFlightInvariant(s: ChatState) {
    s.isLoading ==> s.input == "" && |s.messages| > 0 && s.messages[|s.messages| - 1].role == User
  }

  lemma StepPreservesInvariant(s: ChatState, e: UiEvent)
    requires InFlightInvariant(s)
    ensures InFlightInvariant(Step(s, e))
  {
  }

  /** From any state satisfying the in-flight invariant, it holds after any sequence of events. */
  lemma {:induction false} RunPreservesInvariant(s: ChatState, events: seq<UiEvent>)
    requires InFlightInvariant(s)
    ensures InFlightInvariant(Run(s, events))
    decreases |events|
  {
    if |events| > 0 {
      StepPreservesInvariant(s, events[0]);
      RunPreservesInvariant(Step(s, events[0]), events[1..]);
    }
  }

  /** No sequence of events ever removes or rewrites a message already shown. */
  lemma {:induction false} RunOnlyAppends(s: ChatState, events: seq<UiEvent>)
    ensures s.messages <= Run(s, events).messages
    decreases |events|
  {
    if |events| > 0 {
      var next := Step(s, events[0]);
      assert s.messages <= next.messages;
      RunOnlyAppends(next, events[1..]);
    }
  }

  /** Pressing send while a send is in flight sends nothing: at most one request is outstanding. */
  lemma NoSecondSendWhileLoading(s: ChatState)
    requires s.isLoading
    ensures SubmitStart(s).request.None?
    ensures Step(s, Press) == s
  {
  }

  // ---------------------------------------------------------------------
  // The page and the relay together
  // ---------------------------------------------------------------------

  /** The fields the relay reads from the page's request body. */
  lemma SendRequestFields(um: Message)
    ensures var request := SendRequest(um);
            && Get(request, "type") == Some(JStr("sendMessage"))
            && Get(request, "app_name") == Some(JStr(AppName))
            && Get(request, "user_id") == Some(JStr(UserId))
            && Get(request, "session_id") == Some(JStr(SessionId))
            && Get(request, "new_message") == Some(EncodeMessage(um))
  {
    var m0 := [("type", JStr("sendMessage"))];
    var m1 := m0 + [("app_name", JStr(AppName))];
    var m2 := m1 + [("user_id", JStr(UserId))];
    var m3 := m2 + [("session_id", JStr(SessionId))];
    var request := SendRequest(um);
    assert request.members == m3 + [("new_message", EncodeMessage(um))];
    assert Get(request, "type") == Some(JStr("sendMessage")) by {
      LookupAppend([], "type", JStr("sendMessage"), "type");
      LookupAppend(m0, "app_name", JStr(AppName), "type");
      LookupAppend(m1, "user_id", JStr(UserId), "type");
      LookupAppend(m2, "session_id", JStr(SessionId), "type");
      LookupAppend(m3, "new_message", EncodeMessage(um), "type");
    }
    assert Get(request, "app_name") == Some(JStr(AppName)) by {
      LookupAppend(m0, "app_name", JStr(AppName), "app_name");
      LookupAppend(m1, "user_id", JStr(UserId), "app_name");
      LookupAppend(m2, "session_id", JStr(SessionId), "app_name");
      LookupAppend(m3, "new_message", EncodeMessage(um), "app_name");
    }
    assert Get(request, "user_id") == Some(JStr(UserId)) by {
      LookupAppend(m1, "user_id", JStr(UserId), "user_id");
      LookupAppend(m2, "session_id", JStr(SessionId), "user_id");
      LookupAppend(m3, "new_message", EncodeMessage(um), "user_id");
    }
    assert Get(request, "session_id") == Some(JStr(SessionId)) by {
      LookupAppend(m2, "session_id", JStr(SessionId), "session_id");
      LookupAppend(m3, "new_message", EncodeMessage(um), "session_id");
    }
    assert Get(request, "new_message") == Some(EncodeMessage(um)) by {
      LookupAppend(m3, "new_message", EncodeMessage(um), "new_message");
    }
  }

  /**
   * With the relay configured, the page's request always passes the relay's
   * checks and becomes one POST to `base + "/run"` carrying the fixed app and
   * ids, and a `new_message` that the external API reads back as exactly the
   * message the page appended.
   */
  lemma PageRequestIsRelayed(base: Option<string>, input: string)
    requires Present(base)
    ensures var plan := Proxy.Decide(base, SendRequest(UserMessage(input)));
            && plan.Forward?
            && plan.call.verb == "POST"
            && plan.call.url == base.value + Proxy.RunPath
            && plan.call.body.Some?
            && var fields := Proxy.ReadRunBody(plan.call.body.value);
               && fields == Some(Proxy.RunFields(JStr(AppName), JStr(UserId), JStr(SessionId), EncodeMessage(UserMessage(input))))
               && DecodeMessage(fields.value.newMessage) == Some(UserMessage(input))
  {
    var um := UserMessage(input);
    SendRequestFields(um);
    MessageRoundTrip(um);
    var plan := Proxy.Decide(base, SendRequest(um));
    assert plan == Proxy.Forward(Proxy.Call("POST", base.value + Proxy.RunPath,
                     Some(Proxy.RunBody(JStr(AppName), JStr(UserId), JStr(SessionId), EncodeMessage(um)))));
    Proxy.RunBodyReadsBack(JStr(AppName), JStr(UserId), JStr(SessionId), EncodeMessage(um));
  }

  /**
   * Every answer the relay gives without calling upstream reaches the chat as
   * the error prefix followed by the relay's own error string.
   */
  lemma RelayRejectionsReachTheChat(base: Option<string>, request: JsonValue, outcome: Proxy.Outcome, statusText: string)
    requires var x := Proxy.Handle(base, request, outcome); x.calls == [] && x.reply.Some?
    ensures var response := Proxy.Handle(base, request, outcome).reply.value;
            ErrorMessage(Refused(statusText, Readable(response.body)))
              == Message(Model, [Part(ErrorPrefix + response.body.members[0].1.s)])
  {
    Proxy.LocalAnswersAreEnvelopes(base, request, outcome);
  }

  /** The body of the overloaded-upstream scenario: no `error` field. */
  const OverloadedBody := JObj([("detail", JStr("overloaded"))])

  /** An upstream 503 answering the page's request is passed on with its status and body. */
  lemma OverloadedUpstreamPassesThrough(base: Option<string>, input: string)
    requires Present(base)
    ensures Proxy.Handle(base, SendRequest(UserMessage(input)), Proxy.Answered(503, Proxy.Parsed(OverloadedBody))).reply
              == Some(Proxy.Response(503, OverloadedBody))
  {
    PageRequestIsRelayed(base, input);
  }

  /**
   * When that 503 reaches the page, the user's message stays and exactly one
   * error message follows it, built from the status text because the body
   * has no `error` field.
   */
  lemma OverloadedUpstreamInChat(s: ChatState, statusText: string)
    requires !IsBlank(s.input) && !s.isLoading
    ensures Submit(s, Refused(statusText, Readable(OverloadedBody))).messages
              == s.messages + [UserMessage(s.input), Message(Model, [Part(ErrorPrefix + ApiErrorPrefix + statusText)])]
  {
    var reply := Refused(statusText, Readable(OverloadedBody));
    assert Get(OverloadedBody, "error") == None by {
      LookupAppend([], "detail", JStr("overloaded"), "error");
    }
    assert FailureMessage(reply) == ApiErrorPrefix + statusText;
    SubmissionFails(s, reply);
    assert ErrorPrefix + (ApiErrorPrefix + statusText) == ErrorPrefix + ApiErrorPrefix + statusText;
  }
}
