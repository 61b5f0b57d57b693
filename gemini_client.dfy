/** `tuple2message` of the Gemini client: message tuples to Gemini content
    dicts. Uploading a file is a call into the Gemini SDK; the model takes it
    as a function `upload` from a path to whatever handle the SDK returns. */
module GeminiClient {
  import opened Wrappers
  import opened Seqs
  import opened Messages

  /** An entry of a content dict's parts: text, or an uploaded file. */
  datatype GeminiPart<F> = TextItem(text: string) | FileItem(file: F)

  /** ContentDict: a role ("user" or "model") and its parts. */
  datatype ContentDict<F> = ContentDict(role: string, parts: seq<GeminiPart<F>>)

  /** Text parts are kept verbatim; an image_url part is replaced by the upload of its path. */
  function PartItem<F>(upload: string -> F, p: ContentPart): GeminiPart<F>
  {
    match p.kind
    case Text => TextItem(p.content)
    case ImageUrl => FileItem(upload(p.content))
  }

  /** The content dict appended for one tuple. */
  function ContentOf<F>(upload: string -> F, t: TupleMessage): (c: ContentDict<F>)
    ensures c.role == "user" || c.role == "model"
    ensures c.role == "model" <==> t.RoleTuple? && t.role == Assistant
    ensures t.RoleTuple? ==> c.parts == [TextItem(t.text)]
    ensures t.UserTuple? && t.content.Plain? ==> c.parts == [TextItem(t.content.text)]
    ensures t.UserTuple? && t.content.Parts? ==>
              |c.parts| == |t.content.parts|
              && forall k :: 0 <= k < |c.parts| ==> c.parts[k] == PartItem(upload, t.content.parts[k])
  {
    match t
    case UserTuple(Plain(s)) => ContentDict("user", [TextItem(s)])
    case UserTuple(Parts(ps)) =>
      ContentDict("user", seq(|ps|, k requires 0 <= k < |ps| => PartItem(upload, ps[k])))
    case RoleTuple(Assistant, s) => ContentDict("model", [TextItem(s)])
    case RoleTuple(System, s) => ContentDict("user", [TextItem(s)])
    case RoleTuple(Tool, s) => ContentDict("user", [TextItem(s)])
  }

  function Contents<F>(upload: string -> F, ts: seq<TupleMessage>): seq<ContentDict<F>>
  {
    seq(|ts|, i requires 0 <= i < |ts| => ContentOf(upload, ts[i]))
  }

  /** `tuple2message`: exactly one content dict per tuple, in order, and
      every role is "user" or "model". */
  method TupleToMessage<F>(upload: string -> F, tuples: seq<TupleMessage>)
    returns (messages: seq<ContentDict<F>>)
    ensures |messages| == |tuples|
    ensures forall i :: 0 <= i < |tuples| ==> messages[i] == ContentOf(upload, tuples[i])
    ensures forall i :: 0 <= i < |messages| ==> messages[i].role in {"user", "model"}
  {
    messages := [];
    for i := 0 to |tuples|
      invariant |messages| == i
      invariant forall j :: 0 <= j < i ==> messages[j] == ContentOf(upload, tuples[j])
    {
      match tuples[i]
      case UserTuple(content) =>
        match content {
          case Plain(s) =>
            messages := messages + [ContentDict("user", [TextItem(s)])];
          case Parts(ps) =>
            var contents: seq<GeminiPart<F>> := [];
            for j := 0 to |ps|
              invariant |contents| == j
              invariant forall k :: 0 <= k < j ==> contents[k] == PartItem(upload, ps[k])
            {
              match ps[j].kind
              case Text =>
                contents := contents + [TextItem(ps[j].content)];
              case ImageUrl =>
                var file := upload(ps[j].content);
                contents := contents + [FileItem(file)];
            }
            messages := messages + [ContentDict("user", contents)];
        }
      case RoleTuple(role, s) =>
        match role
        case Assistant =>
          messages := messages + [ContentDict("model", [TextItem(s)])];
        case System =>
          messages := messages + [ContentDict("user", [TextItem(s)])];
        case Tool =>
          messages := messages + [ContentDict("user", [TextItem(s)])];
    }
  }

  /** Gemini has no system or tool role: a system, a tool and a plain user
      message with the same text become the same content dict. */
  lemma SystemAndToolBecomeUser<F>(upload: string -> F, s: string)
    ensures ContentOf(upload, RoleTuple(System, s)) == ContentOf(upload, UserTuple(Plain(s)))
    ensures ContentOf(upload, RoleTuple(Tool, s)) == ContentOf(upload, UserTuple(Plain(s)))
  {
  }
}
