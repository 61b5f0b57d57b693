/** `tuple2message` of the OpenAI client: message tuples back to chat
    completion message parameters. Chat parameters and the input of
    `message2tuple` are the same OpenAI type, so both sides use ChatMessage. */
module OpenAIClient {
  import opened Wrappers
  import opened Seqs
  import opened Messages

  /** The content-part dict the user branch builds for one tuple part; an
      image URL always gets detail "low". */
  function PartParam(p: ContentPart): InputPart
  {
    match p.kind
    case Text => TextPart(p.content)
    case ImageUrl => ImageUrlPart(p.content, "low")
  }

  function PartParams(ps: seq<ContentPart>): seq<InputPart>
  {
    seq(|ps|, k requires 0 <= k < |ps| => PartParam(ps[k]))
  }

  /** What the loop appends for one tuple, as written: a user tuple whose
      content is a tuple of parts appends nothing. */
  function ParamOf(t: TupleMessage): (r: Option<ChatMessage>)
    ensures r.None? <==> t.UserTuple? && t.content.Parts?
    ensures r.Some? && r.value.ToolMessage? ==> r.value.toolCallId == ""
  {
    match t
    case UserTuple(Plain(s)) => Some(UserMessage(Str(s)))
    case UserTuple(Parts(_)) => None
    case RoleTuple(Assistant, s) => Some(AssistantMessage(s))
    case RoleTuple(System, s) => Some(SystemMessage(s))
    case RoleTuple(Tool, s) => Some(ToolMessage(s, ""))
  }

  function ChatParams(ts: seq<TupleMessage>): seq<ChatMessage>
  {
    FilterMap(ParamOf, ts)
  }

  predicate IsPartsUser(t: TupleMessage) { t.UserTuple? && t.content.Parts? }

  /** `tuple2message`, as written: the part dicts of a list-content user
      message are built and then dropped. */
  method TupleToMessage(tuples: seq<TupleMessage>) returns (messages: seq<ChatMessage>)
    ensures messages == ChatParams(tuples)
  {
    messages := [];
    for i := 0 to |tuples|
      invariant messages == ChatParams(tuples[..i])
    {
      FilterMapSnoc(ParamOf, tuples, i);
      match tuples[i]
      case UserTuple(content) =>
        match content {
          case Plain(s) =>
            messages := messages + [UserMessage(Str(s))];
          case Parts(ps) =>
            var contents: seq<InputPart> := [];
            for j := 0 to |ps| {
              match ps[j].kind
              case Text =>
                contents := contents + [TextPart(ps[j].content)];
              case ImageUrl =>
                contents := contents + [ImageUrlPart(ps[j].content, "low")];
            }
        }
      case RoleTuple(role, s) =>
        match role
        case Assistant =>
          messages := messages + [AssistantMessage(s)];
        case System =>
          messages := messages + [SystemMessage(s)];
        case Tool =>
          messages := messages + [ToolMessage(s, "")];
    }
    assert tuples[..|tuples|] == tuples;
  }

  /** One message per tuple except the list-content user tuples. */
  lemma {:induction false} ChatParamsLength(ts: seq<TupleMessage>)
    ensures |ChatParams(ts)| == |ts| - |Filter(IsPartsUser, ts)|
  {
    if ts != [] {
      ChatParamsLength(ts[1..]);
    }
  }

  /** The messages of a longer conversation start with those of its prefix:
      relative order is kept. */
  lemma ChatParamsAppend(a: seq<TupleMessage>, b: seq<TupleMessage>)
    ensures ChatParams(a + b) == ChatParams(a) + ChatParams(b)
  {
    FilterMapAppend(ParamOf, a, b);
  }

  /** Tuples survive the trip to chat parameters and back exactly when none is
      a user tuple with a list of parts. */
  lemma {:induction false} ChatParamsRoundTrip(ts: seq<TupleMessage>)
    ensures TuplesOf(ChatParams(ts)) == ts <==> Filter(IsPartsUser, ts) == []
  {
    ChatParamsLength(ts);
    if Filter(IsPartsUser, ts) == [] {
      NoPartsUsersRoundTrip(ts);
    }
  }

  lemma {:induction false} NoPartsUsersRoundTrip(ts: seq<TupleMessage>)
    requires Filter(IsPartsUser, ts) == []
    ensures TuplesOf(ChatParams(ts)) == ts
  {
    if ts != [] {
      assert !IsPartsUser(ts[0]);
      assert Filter(IsPartsUser, ts) == Filter(IsPartsUser, ts[1..]);
      NoPartsUsersRoundTrip(ts[1..]);
      assert ChatParams(ts) == [ParamOf(ts[0]).value] + ChatParams(ts[1..]);
    }
  }

  /** Chat messages without list content and with empty tool call ids come
      back unchanged from `message2tuple` followed by `tuple2message`. */
  lemma {:induction false} TuplesRoundTrip(ms: seq<ChatMessage>)
    requires forall i :: 0 <= i < |ms| ==> !(ms[i].UserMessage? && ms[i].content.PartList?)
    requires forall i :: 0 <= i < |ms| ==> ms[i].ToolMessage? ==> ms[i].toolCallId == ""
    ensures ChatParams(TuplesOf(ms)) == ms
  {
    if ms != [] {
      TuplesRoundTrip(ms[1..]);
      assert TuplesOf(ms) == [TupleOf(ms[0])] + TuplesOf(ms[1..]);
      assert ChatParams(TuplesOf(ms)) == [ms[0]] + ChatParams(TuplesOf(ms[1..]));
    }
  }

  /** The part dicts the user branch builds convert back to the same tuple parts. */
  lemma {:induction false} PartParamsRoundTrip(ps: seq<ContentPart>)
    ensures KeptParts(PartParams(ps)) == ps
  {
    if ps != [] {
      PartParamsRoundTrip(ps[1..]);
      assert PartParams(ps) == [PartParam(ps[0])] + PartParams(ps[1..]);
    }
  }

  /** A conversation made of one list-content user message maps to no message at all. */
  lemma DropsPartsUser(text: string)
    ensures ChatParams([UserTuple(Parts([ContentPart(Text, text)]))]) == []
  {
    assert [UserTuple(Parts([ContentPart(Text, text)]))][1..] == [];
  }

  // ---- the evidently intended user branch ----

  /** The user branch with the part dicts appended as the message content. */
  function IntendedParamOf(t: TupleMessage): ChatMessage
  {
    match t
    case UserTuple(Parts(ps)) => UserMessage(PartList(PartParams(ps)))
    case _ => ParamOf(t).value
  }

  function IntendedChatParams(ts: seq<TupleMessage>): seq<ChatMessage>
  {
    seq(|ts|, i requires 0 <= i < |ts| => IntendedParamOf(ts[i]))
  }

  /** `tuple2message` with the one missing append put back: the user branch
      appends a user message whose content is the part dicts it built. */
  method IntendedTupleToMessage(tuples: seq<TupleMessage>) returns (messages: seq<ChatMessage>)
    ensures messages == IntendedChatParams(tuples)
  {
    messages := [];
    for i := 0 to |tuples|
      invariant |messages| == i
      invariant forall j :: 0 <= j < i ==> messages[j] == IntendedParamOf(tuples[j])
    {
      match tuples[i]
      case UserTuple(content) =>
        match content {
          case Plain(s) =>
            messages := messages + [UserMessage(Str(s))];
          case Parts(ps) =>
            var contents: seq<InputPart> := [];
            for j := 0 to |ps|
              invariant contents == PartParams(ps[..j])
            {
              match ps[j].kind
              case Text =>
                contents := contents + [TextPart(ps[j].content)];
              case ImageUrl =>
                contents := contents + [ImageUrlPart(ps[j].content, "low")];
            }
            assert ps[..|ps|] == ps;
            messages := messages + [UserMessage(PartList(contents))];
        }
      case RoleTuple(role, s) =>
        match role
        case Assistant =>
          messages := messages + [AssistantMessage(s)];
        case System =>
          messages := messages + [SystemMessage(s)];
        case Tool =>
          messages := messages + [ToolMessage(s, "")];
    }
  }

  /** With the part dicts appended, every conversation survives the round trip. */
  lemma IntendedRoundTrip(ts: seq<TupleMessage>)
    ensures TuplesOf(IntendedChatParams(ts)) == ts
  {
    forall i | 0 <= i < |ts|
      ensures TupleOf(IntendedParamOf(ts[i])) == ts[i]
    {
      if ts[i].UserTuple? && ts[i].content.Parts? {
        PartParamsRoundTrip(ts[i].content.parts);
      }
    }
  }
}
