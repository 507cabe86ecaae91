/**
 * The chat page's data: conversation messages, the agent events the external
 * API returns for one `/run` call, the JSON form in which a message travels
 * to the relay, and the projection of the event list onto the assistant's
 * replies.
 */
module Messages {
  import opened Options
  import opened Json

  /** The `author` the page treats as the assistant. */
  const AssistantAuthor := "kaosai_planning_agent"

  datatype Role = User | Model
  datatype Part = Part(text: string)
  datatype Message = Message(role: Role, parts: seq<Part>)

  /**
   * An upstream event, validated only for the fields the page reads; `parts`
   * is `None` when it is absent or `null`.
   */
  datatype Content = Content(parts: Option<seq<Part>>)
  datatype AgentEvent = AgentEvent(author: Option<string>, content: Option<Content>)

  // ---------------------------------------------------------------------
  // JSON form of a message
  // ---------------------------------------------------------------------

  function EncodeRole(role: Role): JsonValue {
    match role
    case User => JStr("user")
    case Model => JStr("model")
  }

  function EncodeParts(parts: seq<Part>): seq<JsonValue> {
    if |parts| == 0 then [] else [JObj([("text", JStr(parts[0].text))])] + EncodeParts(parts[1..])
  }

  /** The value `JSON.stringify` serialises for a message: `{ role, parts: [{ text }, ...] }`. */
  function EncodeMessage(m: Message): JsonValue {
    JObj([("role", EncodeRole(m.role)), ("parts", JArr(EncodeParts(m.parts)))])
  }

  function DecodeRole(j: JsonValue): Option<Role> {
    if j == JStr("user") then Some(User)
    else if j == JStr("model") then Some(Model)
    else None
  }

  function DecodeParts(items: seq<JsonValue>): Option<seq<Part>> {
    if |items| == 0 then Some([])
    else
      match (Get(items[0], "text"), DecodeParts(items[1..]))
      case (Some(JStr(t)), Some(rest)) => Some([Part(t)] + rest)
      case _ => None
  }

  /** Reads a message back out of its JSON form, as the external API does with `new_message`. */
  function DecodeMessage(j: JsonValue): Option<Message> {
    match (Get(j, "role"), Get(j, "parts"))
    case (Some(r), Some(JArr(items))) =>
      (match (DecodeRole(r), DecodeParts(items))
       case (Some(role), Some(parts)) => Some(Message(role, parts))
       case _ => None)
    case _ => None
  }

  lemma {:induction false} PartsRoundTrip(parts: seq<Part>)
    ensures DecodeParts(EncodeParts(parts)) == Some(parts)
  {
    if |parts| > 0 {
      PartsRoundTrip(parts[1..]);
      assert EncodeParts(parts)[1..] == EncodeParts(parts[1..]);
      assert [parts[0]] + parts[1..] == parts;
    }
  }

  /** A message survives the trip to the external API unchanged. */
  lemma MessageRoundTrip(m: Message)
    ensures DecodeMessage(EncodeMessage(m)) == Some(m)
    ensures Truthy(EncodeMessage(m))
  {
    PartsRoundTrip(m.parts);
    LookupAppend([("role", EncodeRole(m.role))], "parts", JArr(EncodeParts(m.parts)), "role");
    assert [("role", EncodeRole(m.role))] + [("parts", JArr(EncodeParts(m.parts)))] == EncodeMessage(m).members;
  }

  // ---------------------------------------------------------------------
  // Projection of the event list
  // ---------------------------------------------------------------------

  /**
   * The filter of the page: the author is the assistant and `content?.parts`
   * is truthy. An array is truthy even when empty, so an event whose `parts`
   * is `[]` passes.
   */
  predicate IsReply(e: AgentEvent) {
    e.author == Some(AssistantAuthor) && e.content.Some? && e.content.value.parts.Some?
  }

  /** The map of the page: a kept event becomes a `model` message with its parts unchanged. */
  function ToMessage(e: AgentEvent): Message
    requires IsReply(e)
  {
    Message(Model, e.content.value.parts.value)
  }

  /** `events.filter(IsReply).map(ToMessage)`. */
  function Project(events: seq<AgentEvent>): (r: seq<Message>)
    ensures |r| <= |events|
    ensures forall k :: 0 <= k < |r| ==> r[k].role == Model
  {
    if |events| == 0 then []
    else (if IsReply(events[0]) then [ToMessage(events[0])] else []) + Project(events[1..])
  }

  /** Projection commutes with concatenation of event lists; with `ProjectSingle` this pins `Project` down completely. */
  lemma {:induction false} ProjectAppend(a: seq<AgentEvent>, b: seq<AgentEvent>)
    ensures Project(a + b) == Project(a) + Project(b)
    decreases |a|
  {
    if |a| > 0 {
      assert (a + b)[1..] == a[1..] + b;
      ProjectAppend(a[1..], b);
    } else {
      assert a + b == b;
    }
  }

  /** A single event projects to its message when it is a reply and to nothing otherwise. */
  lemma ProjectSingle(e: AgentEvent)
    ensures Project([e]) == if IsReply(e) then [ToMessage(e)] else []
  {
  }

  lemma PrefixOfConcat<T>(a: seq<T>, b: seq<T>)
    ensures a <= a + b
  {
    assert (a + b)[..|a|] == a;
  }

  /** Projecting a prefix of the events gives a prefix of the projection: the order of replies is kept. */
  lemma ProjectPrefix(front: seq<AgentEvent>, back: seq<AgentEvent>)
    ensures Project(front) <= Project(front + back)
  {
    ProjectAppend(front, back);
    PrefixOfConcat(Project(front), Project(back));
  }

  /**
   * Every reply among the events appears in the projection, and everything
   * in the projection is the message of some reply.
   */
  lemma {:induction false} ProjectMembers(events: seq<AgentEvent>)
    ensures forall j :: 0 <= j < |events| && IsReply(events[j]) ==> ToMessage(events[j]) in Project(events)
    ensures forall m :: m in Project(events) ==> exists j :: 0 <= j < |events| && IsReply(events[j]) && m == ToMessage(events[j])
    decreases |events|
  {
    if |events| > 0 {
      ProjectMembers(events[1..]);
      var head := if IsReply(events[0]) then [ToMessage(events[0])] else [];
      assert Project(events) == head + Project(events[1..]);
      forall j | 0 < j < |events| && IsReply(events[j])
        ensures ToMessage(events[j]) in Project(events)
      {
        assert events[1..][j - 1] == events[j];
      }
      forall m | m in Project(events)
        ensures exists j :: 0 <= j < |events| && IsReply(events[j]) && m == ToMessage(events[j])
      {
        if m !in head {
          var j :| 0 <= j < |events[1..]| && IsReply(events[1..][j]) && m == ToMessage(events[1..][j]);
          assert events[j + 1] == events[1..][j];
        }
      }
    }
  }

  /** The projection is empty exactly when no event is a reply. */
  lemma ProjectEmptyIffNoReply(events: seq<AgentEvent>)
    ensures Project(events) == [] <==> forall j :: 0 <= j < |events| ==> !IsReply(events[j])
  {
    ProjectMembers(events);
  }

  /** When every event is a reply the projection maps them one to one, in order. */
  lemma {:induction false} ProjectOfReplies(events: seq<AgentEvent>)
    requires forall j :: 0 <= j < |events| ==> IsReply(events[j])
    ensures |Project(events)| == |events|
    ensures forall j :: 0 <= j < |events| ==> Project(events)[j] == ToMessage(events[j])
    decreases |events|
  {
    if |events| > 0 {
      ProjectOfReplies(events[1..]);
    }
  }

  /**
   * A reply is determined by the message it projects to: two replies with
   * the same message are the same event, so the projection loses no reply.
   */
  lemma ReplyDeterminedByMessage(a: AgentEvent, b: AgentEvent)
    requires IsReply(a) && IsReply(b)
    ensures ToMessage(a) == ToMessage(b) <==> a == b
  {
    if ToMessage(a) == ToMessage(b) {
      assert a.content.value == b.content.value;
    }
  }

  /** The page's `filter` pass as a loop: the replies among the events, in order, and no others. */
  method KeepReplies(events: seq<AgentEvent>) returns (kept: seq<AgentEvent>)
    ensures forall k :: 0 <= k < |kept| ==> IsReply(kept[k]) && kept[k] in events
    ensures forall k :: 0 <= k < |events| && IsReply(events[k]) ==> events[k] in kept
    ensures Project(kept) == Project(events)
  {
    kept := [];
    var i := 0;
    while i < |events|
      invariant i <= |events|
      invariant forall k :: 0 <= k < |kept| ==> IsReply(kept[k]) && kept[k] in events
      invariant forall k :: 0 <= k < i && IsReply(events[k]) ==> events[k] in kept
      invariant Project(kept) == Project(events[..i])
    {
      assert events[..i + 1] == events[..i] + [events[i]];
      ProjectAppend(events[..i], [events[i]]);
      ProjectSingle(events[i]);
      if IsReply(events[i]) {
        ProjectAppend(kept, [events[i]]);
        kept := kept + [events[i]];
      }
      i := i + 1;
    }
    assert events[..i] == events;
  }

  /**
   * The page's two passes, `filter` then `map`, as loops. Their result is the
   * projection.
   */
  method ProjectPipeline(events: seq<AgentEvent>) returns (out: seq<Message>)
    ensures out == Project(events)
  {
    var kept := KeepReplies(events);
    out := [];
    var k := 0;
    while k < |kept|
      invariant k <= |kept|
      invariant |out| == k
      invariant forall n :: 0 <= n < k ==> out[n] == ToMessage(kept[n])
    {
      out := out + [ToMessage(kept[k])];
      k := k + 1;
    }
    ProjectOfReplies(kept);
  }

  /** A user message echoed back by the assistant projects to a `model` message with the same parts. */
  lemma EchoRoundTrip(m: Message)
    ensures Project([AgentEvent(Some(AssistantAuthor), Some(Content(Some(m.parts))))]) == [Message(Model, m.parts)]
  {
  }

  /** `content.parts` only has to be present: an assistant event with an empty `parts` array yields an empty message. */
  lemma EmptyPartsAreKept(others: seq<AgentEvent>)
    ensures Project([AgentEvent(Some(AssistantAuthor), Some(Content(Some([]))))] + others)
              == [Message(Model, [])] + Project(others)
  {
    ProjectAppend([AgentEvent(Some(AssistantAuthor), Some(Content(Some([]))))], others);
  }

  /**
   * A reply and a tool event: only an event whose author is exactly
   * `kaosai_planning_agent` is shown, so a reply signed `planning_agent` (the
   * app's name) is dropped like the tool event.
   */
  lemma ProjectionScenario(author: string)
    ensures var events := [AgentEvent(Some(author), Some(Content(Some([Part("Hi there")])))),
                           AgentEvent(Some("tool"), Some(Content(Some([Part("ignored")]))))];
            Project(events) == if author == AssistantAuthor then [Message(Model, [Part("Hi there")])] else []
  {
  }
}
