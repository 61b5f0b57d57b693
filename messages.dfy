/** The hashable message tuples of llm_clients and `message2tuple`, which
    turns OpenAI-style chat messages into them so that a conversation can serve
    as a cache key. */
module Messages {
  import opened Wrappers
  import opened Seqs

  // ---- OpenAI-style chat messages (the input of message2tuple) ----

  /** A content part of a user message. `OtherPart` is any part type besides
      "text" and "image_url" (the SDK also knows "input_audio", for one). */
  datatype InputPart =
    | TextPart(text: string)
    | ImageUrlPart(url: string, detail: string)
    | OtherPart(kind: string)

  /** A user message's content: a plain string or a list of parts. */
  datatype UserInput = Str(text: string) | PartList(parts: seq<InputPart>)

  /** A chat message, by role. A tool message also names the call it answers. */
  datatype ChatMessage =
    | UserMessage(content: UserInput)
    | AssistantMessage(text: string)
    | SystemMessage(text: string)
    | ToolMessage(text: string, toolCallId: string)

  // ---- the tuple forms ----

  datatype PartKind = Text | ImageUrl

  /** TupleContentParam: a part's type and its text or URL. */
  datatype ContentPart = ContentPart(kind: PartKind, content: string)

  datatype UserContent = Plain(text: string) | Parts(parts: seq<ContentPart>)

  datatype Role = Assistant | System | Tool

  /** TupleMessageUser, or TupleMessage for the other three roles. Python's
      named tuples list their fields in different orders in types.py and
      util.py; the model names the fields, so the order does not matter. */
  datatype TupleMessage =
    | UserTuple(content: UserContent)
    | RoleTuple(role: Role, text: string)

  // ---- message2tuple, specified ----

  /** The tuple a part becomes; parts of any other type are skipped. The
      detail of an image URL is not kept. */
  function PartTuple(p: InputPart): Option<ContentPart>
  {
    match p
    case TextPart(t) => Some(ContentPart(Text, t))
    case ImageUrlPart(u, _) => Some(ContentPart(ImageUrl, u))
    case OtherPart(_) => None
  }

  predicate IsKnownPart(p: InputPart) { !p.OtherPart? }

  function KeptParts(ps: seq<InputPart>): seq<ContentPart>
  {
    FilterMap(PartTuple, ps)
  }

  /** The role of a message that is not a user message. */
  function RoleOf(m: ChatMessage): Role
    requires !m.UserMessage?
  {
    match m
    case AssistantMessage(_) => Assistant
    case SystemMessage(_) => System
    case ToolMessage(_, _) => Tool
  }

  /** The tuple one message becomes. */
  function TupleOf(m: ChatMessage): TupleMessage
  {
    match m
    case UserMessage(Str(s)) => UserTuple(Plain(s))
    case UserMessage(PartList(ps)) => UserTuple(Parts(KeptParts(ps)))
    case _ => RoleTuple(RoleOf(m), m.text)
  }

  function TuplesOf(ms: seq<ChatMessage>): seq<TupleMessage>
  {
    seq(|ms|, i requires 0 <= i < |ms| => TupleOf(ms[i]))
  }

  /** `message2tuple`: one tuple per message, in the same order. */
  method MessageToTuple(messages: seq<ChatMessage>) returns (tuples: seq<TupleMessage>)
    ensures |tuples| == |messages|
    ensures forall i :: 0 <= i < |messages| ==> tuples[i] == TupleOf(messages[i])
  {
    tuples := [];
    for i := 0 to |messages|
      invariant |tuples| == i
      invariant forall j :: 0 <= j < i ==> tuples[j] == TupleOf(messages[j])
    {
      var message := messages[i];
      match message
      case UserMessage(content) =>
        match content {
          case Str(s) =>
            tuples := tuples + [UserTuple(Plain(s))];
          case PartList(ps) =>
            var contents: seq<ContentPart> := [];
            for j := 0 to |ps|
              invariant contents == KeptParts(ps[..j])
            {
              FilterMapSnoc(PartTuple, ps, j);
              match ps[j]
              case TextPart(t) =>
                contents := contents + [ContentPart(Text, t)];
              case ImageUrlPart(u, _) =>
                contents := contents + [ContentPart(ImageUrl, u)];
              case OtherPart(_) =>
            }
            assert ps[..|ps|] == ps;
            tuples := tuples + [UserTuple(Parts(contents))];
        }
      case _ =>
        tuples := tuples + [RoleTuple(RoleOf(message), message.text)];
    }
  }

  /** The parts kept are exactly the text and image_url parts, in their
      original order, each turned into its tuple. */
  lemma {:induction false} KeptPartsAre(ps: seq<InputPart>)
    ensures var known := Filter(IsKnownPart, ps);
      |KeptParts(ps)| == |known|
      && forall k :: 0 <= k < |known| ==> PartTuple(known[k]) == Some(KeptParts(ps)[k])
  {
    if ps != [] {
      KeptPartsAre(ps[1..]);
      var known := Filter(IsKnownPart, ps);
      var rest := Filter(IsKnownPart, ps[1..]);
      if IsKnownPart(ps[0]) {
        assert known == [ps[0]] + rest;
        assert KeptParts(ps) == [PartTuple(ps[0]).value] + KeptParts(ps[1..]);
      } else {
        assert known == rest;
        assert KeptParts(ps) == KeptParts(ps[1..]);
      }
    }
  }

  /** The URL's detail setting never shows in the tuple. */
  lemma KeptPartsIgnoreDetail(ps: seq<InputPart>, k: nat, detail: string)
    requires k < |ps| && ps[k].ImageUrlPart?
    ensures KeptParts(ps[k := ImageUrlPart(ps[k].url, detail)]) == KeptParts(ps)
  {
    var qs := ps[k := ImageUrlPart(ps[k].url, detail)];
    assert ps == ps[..k] + [ps[k]] + ps[k + 1..];
    assert qs == ps[..k] + [qs[k]] + ps[k + 1..];
    FilterMapAppend(PartTuple, ps[..k] + [ps[k]], ps[k + 1..]);
    FilterMapAppend(PartTuple, ps[..k], [ps[k]]);
    FilterMapAppend(PartTuple, ps[..k] + [qs[k]], ps[k + 1..]);
    FilterMapAppend(PartTuple, ps[..k], [qs[k]]);
  }
}
