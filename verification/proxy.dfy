/**
 * The relay route (`POST /api/proxy`): it checks its configuration, dispatches
 * on the request's `type`, validates the fields with JavaScript truthiness,
 * makes at most one call to the external agent API and turns the outcome of
 * that call into its own response.
 *
 * The route is split into the decision taken before any network traffic
 * (`Decide`) and the translation of the upstream outcome (`Translate`);
 * `Handle` puts them together for one request.
 */
module Proxy {
  import opened Options
  import opened Json

  /** Path prefix of the session-creation endpoint, after the base URL. */
  const UsersPath := "/apps/planning_agent/users/"
  const SessionsPath := "/sessions/"
  const RunPath := "/run"

  const ConfigError := "Server configuration error: API base URL is missing."
  const MissingSessionFields := "Missing userId or sessionId for session initialization."
  const MissingMessageFields := "Missing required fields for sending message."
  const InvalidType := "Invalid request type provided."
  const UnexpectedError := "An unexpected error occurred in the proxy."

  /** The status codes a response the relay builds may carry: `NextResponse.json` throws a RangeError for any other. */
  type HttpStatus = s: int | 200 <= s <= 599 witness 200

  /**
   * The status codes `fetch` hands back for an upstream response: informational
   * codes never surface, and a server may answer with any code up to 999.
   */
  type UpstreamStatus = s: int | 200 <= s <= 999 witness 200

  /**
   * The one non-ok status `fetch` hands back that forbids a response body:
   * `NextResponse.json` throws when asked to answer with it.
   */
  const NotModified: HttpStatus := 304

  /** `fetch`'s `response.ok`. */
  predicate IsOk(status: int) {
    200 <= status <= 299
  }

  /** One outgoing request to the external agent API; `body` is the JSON value that is serialised. */
  datatype Call = Call(verb: string, url: string, body: Option<JsonValue>)

  /** What the relay answers: a status and a JSON body. */
  datatype Response = Response(status: HttpStatus, body: JsonValue)

  /**
   * The decision taken before any network traffic: answer locally, call the
   * external API once, or throw out of the handler (reading `type` of a
   * `null` body happens outside the `try`).
   */
  datatype Plan = Local(response: Response) | Forward(call: Call) | Unhandled

  /** The upstream body as `response.json()` sees it. */
  datatype Body = Parsed(value: JsonValue) | Unparseable

  /** How the one upstream call ended: `fetch` rejected, or a response arrived. */
  datatype Outcome = Threw | Answered(status: UpstreamStatus, body: Body)

  /** The whole effect of one request: the upstream calls made, and the relay's answer (`None` when the handler throws). */
  datatype Exchange = Exchange(calls: seq<Call>, reply: Option<Response>)

  /** URL of the session-creation endpoint; the ids are interpolated verbatim, without URL encoding. */
  function SessionUrl(base: string, userId: string, sessionId: string): string {
    base + UsersPath + userId + SessionsPath + sessionId
  }

  /** The JSON body of the `/run` call: exactly the four forwarded fields, in this order. */
  function RunBody(appName: JsonValue, userId: JsonValue, sessionId: JsonValue, newMessage: JsonValue): JsonValue {
    JObj([("app_name", appName), ("user_id", userId), ("session_id", sessionId), ("new_message", newMessage)])
  }

  /** The decision `POST` takes from its configuration and the parsed request body. */
  function Decide(base: Option<string>, request: JsonValue): Plan {
    if !Present(base) then
      Local(Response(500, Envelope(ConfigError)))
    else if request.JNull? then
      Unhandled
    else
      var kind := Get(request, "type");
      if kind == Some(JStr("initializeSession")) then
        var userId := Get(request, "userId");
        var sessionId := Get(request, "sessionId");
        if !TruthyField(userId) || !TruthyField(sessionId) then
          Local(Response(400, Envelope(MissingSessionFields)))
        else
          // Interpolating an id that cannot be converted throws inside the `try`.
          var userText := ToJsString(userId.value);
          var sessionText := ToJsString(sessionId.value);
          if userText.None? || sessionText.None? then
            Local(Response(500, Envelope(UnexpectedError)))
          else
            Forward(Call("POST", SessionUrl(base.value, userText.value, sessionText.value), None))
      else if kind == Some(JStr("sendMessage")) then
        var appName := Get(request, "app_name");
        var userId := Get(request, "user_id");
        var sessionId := Get(request, "session_id");
        var newMessage := Get(request, "new_message");
        if !TruthyField(appName) || !TruthyField(userId) || !TruthyField(sessionId) || !TruthyField(newMessage) then
          Local(Response(400, Envelope(MissingMessageFields)))
        else
          Forward(Call("POST", base.value + RunPath, Some(RunBody(appName.value, userId.value, sessionId.value, newMessage.value))))
      else
        Local(Response(400, Envelope(InvalidType)))
  }

  /**
   * The relay's answer once the upstream call has ended. Both request types
   * share this translation.
   */
  function Translate(outcome: Outcome): (r: Response)
    // Only the readable success path produces a 2xx, and then always 200.
    ensures IsOk(r.status) <==> outcome.Answered? && IsOk(outcome.status) && outcome.body.Parsed?
    ensures IsOk(r.status) ==> r.status == 200 && r.body == outcome.body.value
    // Upstream failures keep their status; their body is kept when readable.
    ensures outcome.Answered? && !IsOk(outcome.status) && outcome.status != NotModified && outcome.status <= 599 ==>
              r.status == outcome.status
              && (outcome.body.Parsed? ==> r.body == outcome.body.value)
              && (outcome.body.Unparseable? ==> r.body == JObj([]))
    // A transport failure, or a success whose body is unreadable, becomes the generic 500 envelope.
    ensures outcome.Threw? || (IsOk(outcome.status) && outcome.body.Unparseable?) ==>
              r == Response(500, Envelope(UnexpectedError))
    // Relaying an upstream 304, or a status above 599, throws, so it becomes the generic 500 envelope as well.
    ensures outcome.Answered? && (outcome.status == NotModified || outcome.status > 599) ==>
              r == Response(500, Envelope(UnexpectedError))
  {
    match outcome
    case Threw => Response(500, Envelope(UnexpectedError))
    case Answered(status, body) =>
      if status == NotModified || status > 599 then
        Response(500, Envelope(UnexpectedError))
      else if !IsOk(status) then
        Response(status, if body.Parsed? then body.value else JObj([]))
      else if body.Parsed? then
        Response(200, body.value)
      else
        Response(500, Envelope(UnexpectedError))
  }

  /**
   * One request from start to finish, given how the upstream call would end
   * if it were made.
   */
  function Handle(base: Option<string>, request: JsonValue, outcome: Outcome): (r: Exchange)
    ensures |r.calls| <= 1
    ensures r.reply.None? ==> r.calls == []
  {
    match Decide(base, request)
    case Local(response) => Exchange([], Some(response))
    case Forward(call) => Exchange([call], Some(Translate(outcome)))
    case Unhandled => Exchange([], None)
  }

  // ---------------------------------------------------------------------
  // Properties of the relay
  // ---------------------------------------------------------------------

  /** Without a base URL every request gets the configuration-error 500 and no call is made. */
  lemma UnconfiguredRejectsEverything(base: Option<string>, request: JsonValue, outcome: Outcome)
    requires !Present(base)
    ensures Handle(base, request, outcome) == Exchange([], Some(Response(500, Envelope(ConfigError))))
  {
  }

  /**
   * An `initializeSession` request makes a call exactly when both ids are
   * truthy and convert to strings; the call is one body-less POST to the
   * session URL, and its outcome decides the answer. A missing or falsy id
   * gets a local 400; an id that cannot be converted makes the URL template
   * throw, which the `catch` answers with the generic 500.
   */
  lemma InitializeSessionContract(base: Option<string>, request: JsonValue, outcome: Outcome)
    requires Present(base)
    requires Get(request, "type") == Some(JStr("initializeSession"))
    ensures var r := Handle(base, request, outcome);
            var userId := Get(request, "userId");
            var sessionId := Get(request, "sessionId");
            && (|r.calls| == 1 <==>
                  TruthyField(userId) && TruthyField(sessionId)
                  && ToJsString(userId.value).Some? && ToJsString(sessionId.value).Some?)
            && (!TruthyField(userId) || !TruthyField(sessionId) ==>
                  r == Exchange([], Some(Response(400, Envelope(MissingSessionFields)))))
            && (TruthyField(userId) && TruthyField(sessionId)
                && (ToJsString(userId.value).None? || ToJsString(sessionId.value).None?) ==>
                  r == Exchange([], Some(Response(500, Envelope(UnexpectedError)))))
            && (|r.calls| == 1 ==>
                  && r.calls[0] == Call("POST", SessionUrl(base.value, ToJsString(userId.value).value, ToJsString(sessionId.value).value), None)
                  && r.reply == Some(Translate(outcome)))
  {
  }

  /**
   * A `sendMessage` request makes a call exactly when all four fields are
   * truthy; the call is one POST to `base + "/run"` whose body reads back as
   * exactly those four fields, unchanged. Otherwise the answer is a local 400.
   */
  lemma SendMessageContract(base: Option<string>, request: JsonValue, outcome: Outcome)
    requires Present(base)
    requires Get(request, "type") == Some(JStr("sendMessage"))
    ensures var r := Handle(base, request, outcome);
            var fields := [Get(request, "app_name"), Get(request, "user_id"), Get(request, "session_id"), Get(request, "new_message")];
            && (|r.calls| == 1 <==> forall k :: 0 <= k < 4 ==> TruthyField(fields[k]))
            && (r.calls == [] ==> r.reply == Some(Response(400, Envelope(MissingMessageFields))))
            && (|r.calls| == 1 ==>
                  && r.calls[0].verb == "POST"
                  && r.calls[0].url == base.value + RunPath
                  && r.calls[0].body == Some(RunBody(fields[0].value, fields[1].value, fields[2].value, fields[3].value))
                  && ReadRunBody(r.calls[0].body.value) == Some(RunFields(fields[0].value, fields[1].value, fields[2].value, fields[3].value))
                  && r.reply == Some(Translate(outcome)))
  {
    var r := Handle(base, request, outcome);
    var fields := [Get(request, "app_name"), Get(request, "user_id"), Get(request, "session_id"), Get(request, "new_message")];
    if forall k :: 0 <= k < 4 ==> TruthyField(fields[k]) {
      assert TruthyField(fields[0]) && TruthyField(fields[1]) && TruthyField(fields[2]) && TruthyField(fields[3]);
      RunBodyReadsBack(fields[0].value, fields[1].value, fields[2].value, fields[3].value);
    } else {
      var k :| 0 <= k < 4 && !TruthyField(fields[k]);
      assert !TruthyField(Get(request, "app_name")) || !TruthyField(Get(request, "user_id"))
          || !TruthyField(Get(request, "session_id")) || !TruthyField(Get(request, "new_message"));
    }
  }

  /**
   * A `null` request body makes reading its `type` throw before the `try`:
   * no call is made and the relay sends no envelope of its own.
   */
  lemma NullBodyThrows(base: Option<string>, outcome: Outcome)
    requires Present(base)
    ensures Handle(base, JNull, outcome) == Exchange([], None)
  {
  }

  /** Any `type` other than the two known ones gets the invalid-type 400 and no call. */
  lemma UnknownTypeRejected(base: Option<string>, request: JsonValue, outcome: Outcome)
    requires Present(base) && !request.JNull?
    requires Get(request, "type") != Some(JStr("initializeSession"))
    requires Get(request, "type") != Some(JStr("sendMessage"))
    ensures Handle(base, request, outcome) == Exchange([], Some(Response(400, Envelope(InvalidType))))
  {
  }

  /**
   * Whatever the relay decides on its own is a 400 or a 500 carrying a
   * non-empty error envelope; every 2xx it sends is a 200 relaying an
   * upstream body.
   */
  lemma LocalAnswersAreEnvelopes(base: Option<string>, request: JsonValue, outcome: Outcome)
    ensures var r := Handle(base, request, outcome);
            && (r.calls == [] && r.reply.Some? ==>
                  (r.reply.value.status == 400 || r.reply.value.status == 500) && IsEnvelope(r.reply.value.body))
            && (r.reply.Some? && IsOk(r.reply.value.status) ==>
                  |r.calls| == 1 && r.reply.value.status == 200
                  && outcome == Answered(outcome.status, Parsed(r.reply.value.body)))
  {
  }

  /** The four fields of a `/run` body. */
  datatype RunFields = RunFields(appName: JsonValue, userId: JsonValue, sessionId: JsonValue, newMessage: JsonValue)

  /** Reads the four fields back out of a `/run` body, as the external API would. */
  function ReadRunBody(body: JsonValue): Option<RunFields> {
    var appName := Get(body, "app_name");
    var userId := Get(body, "user_id");
    var sessionId := Get(body, "session_id");
    var newMessage := Get(body, "new_message");
    if appName.Some? && userId.Some? && sessionId.Some? && newMessage.Some? then
      Some(RunFields(appName.value, userId.value, sessionId.value, newMessage.value))
    else
      None
  }

  /** The `/run` body carries exactly the four forwarded fields and each reads back unchanged. */
  lemma RunBodyReadsBack(appName: JsonValue, userId: JsonValue, sessionId: JsonValue, newMessage: JsonValue)
    ensures var body := RunBody(appName, userId, sessionId, newMessage);
            && (forall i :: 0 <= i < |body.members| ==>
                  body.members[i].0 in {"app_name", "user_id", "session_id", "new_message"})
            && ReadRunBody(body) == Some(RunFields(appName, userId, sessionId, newMessage))
  {
    var body := RunBody(appName, userId, sessionId, newMessage);
    var m0 := [("app_name", appName)];
    var m1 := m0 + [("user_id", userId)];
    var m2 := m1 + [("session_id", sessionId)];
    assert body.members == m2 + [("new_message", newMessage)];
    assert Get(body, "app_name") == Some(appName) by {
      LookupAppend([], "app_name", appName, "app_name");
      LookupAppend(m0, "user_id", userId, "app_name");
      LookupAppend(m1, "session_id", sessionId, "app_name");
      LookupAppend(m2, "new_message", newMessage, "app_name");
    }
    assert Get(body, "user_id") == Some(userId) by {
      LookupAppend(m0, "user_id", userId, "user_id");
      LookupAppend(m1, "session_id", sessionId, "user_id");
      LookupAppend(m2, "new_message", newMessage, "user_id");
    }
    assert Get(body, "session_id") == Some(sessionId) by {
      LookupAppend(m1, "session_id", sessionId, "session_id");
      LookupAppend(m2, "new_message", newMessage, "session_id");
    }
    assert Get(body, "new_message") == Some(newMessage) by {
      LookupAppend(m2, "new_message", newMessage, "new_message");
    }
  }

  /** Index of the first occurrence of `c` in `s`. */
  function IndexOf(s: string, c: char): (r: Option<nat>)
    ensures r.Some? ==> r.value < |s| && s[r.value] == c && c !in s[..r.value]
    ensures r.None? ==> c !in s
  {
    if |s| == 0 then None
    else if s[0] == c then Some(0)
    else
      match IndexOf(s[1..], c)
      case None => None
      case Some(i) =>
        assert s[..i + 1] == [s[0]] + s[1..][..i];
        Some(i + 1)
  }

  /**
   * Recovers the two ids from a session URL, splitting at the first `/`
   * after the users prefix.
   */
  function ParseSessionUrl(base: string, url: string): Option<(string, string)> {
    var prefix := base + UsersPath;
    if |url| < |prefix| || url[..|prefix|] != prefix then None
    else
      var rest := url[|prefix|..];
      match IndexOf(rest, '/')
      case None => None
      case Some(i) =>
        if |rest| - i >= |SessionsPath| && rest[i..i + |SessionsPath|] == SessionsPath then
          Some((rest[..i], rest[i + |SessionsPath|..]))
        else
          None
  }

  /** The session URL determines the ids again, provided the user id contains no `/`. */
  lemma {:induction false} SessionUrlRoundTrip(base: string, userId: string, sessionId: string)
    requires '/' !in userId
    ensures ParseSessionUrl(base, SessionUrl(base, userId, sessionId)) == Some((userId, sessionId))
  {
    var url := SessionUrl(base, userId, sessionId);
    var prefix := base + UsersPath;
    assert url == prefix + (userId + SessionsPath + sessionId);
    var rest := url[|prefix|..];
    assert rest == userId + SessionsPath + sessionId;
    assert rest[..|userId|] == userId;
    assert rest[|userId|] == '/';
    var j := IndexOf(rest, '/');
    assert j == Some(|userId|);
    assert rest[|userId|..|userId| + |SessionsPath|] == SessionsPath;
    assert rest[|userId| + |SessionsPath|..] == sessionId;
  }

  /**
   * Because the ids are not URL-encoded, two different pairs of ids can
   * address the same session when a user id contains `/sessions/`.
   */
  lemma SessionUrlNotInjective(base: string)
    ensures SessionUrl(base, "a/sessions/b", "c") == SessionUrl(base, "a", "b/sessions/c")
  {
  }
}
