/** The audio-based aligner of vocacolle (`AlignmentWithAudio`): it sends
    Gemini the numbered lyrics and the song's audio file, cuts the JSON object
    out of the reply and turns its "mm:ss.fff" time stamps into seconds. */
module AlignmentWithAudio {
  import opened Wrappers
  import opened Seqs
  import opened Text
  import opened Messages
  import opened Types
  import opened Clients
  import GeminiClient
  import OpenAIClient
  import LyricsBlock

  /** PROMPT up to its `{lyrics}` field, with the doubled braces of the
      format string already undoubled. */
  const PromptHead: string :=
    "次の音声データの曲にタイムスタンプを付けて、例のようなJSON形式で出力してください。\n" +
    "提示したすべての<歌詞>を一行ずつ出力してください。\n" +
    "## 例\n" +
    "{\n" +
    "    \"lyrics_list\": [\n" +
    "        {\n" +
    "            \"start_time\": \"00:10.003\",\n" +
    "            \"end_time\": \"00:12.455\",\n" +
    "            \"lyrics\": あいうえお,\n" +
    "            \"lyrics_row\": 1\n" +
    "        },\n" +
    "        {\n" +
    "            \"start_time\": \"00:12.562\",\n" +
    "            \"end_time\": \"00:16.419\",\n" +
    "            \"lyrics\": かきくけこ,\n" +
    "            \"lyrics_row\": 2\n" +
    "        },\n" +
    "        {\n" +
    "            \"start_time\": \"01:02.110\",\n" +
    "            \"end_time\": \"01:08.978\",\n" +
    "            \"lyrics\": さしすせそ,\n" +
    "            \"lyrics_row\": 3\n" +
    "        }\n" +
    "    ]\n" +
    "}\n" +
    "\n" +
    "「歌詞」\n"

  /** `PROMPT.format(lyrics=block)` */
  function AudioPrompt(block: string): string
  {
    PromptHead + block + "\n"
  }

  /** The two user messages `run` stores in `self.messages`: the prompt with
      the numbered lyrics, and the audio file as an image_url part with detail "auto". */
  function AudioConversation(lyrics: string, audioPath: string): seq<ChatMessage>
  {
    [ UserMessage(Str(AudioPrompt(LyricsBlock.BlockText(NonBlankLines(lyrics))))),
      UserMessage(PartList([ImageUrlPart(audioPath, "auto")])) ]
  }

  /** Why `run` fails: no JSON object in the reply (ValueError), a JSON object
      that does not validate as a Response (pydantic's ValidationError), or a
      time stamp segment `float()` rejects (ValueError). */
  datatype RunError =
    | CannotParse(response: string)
    | InvalidResponse(json: string)
    | BadTime(segment: string)

  /** The client `__init__` picks: only Gemini models take audio. */
  function AudioClient(apiKey: string, model: string): (r: Result<Client, ConfigError>)
    ensures r.Ok? <==> "gemini" <= model
    ensures r.Ok? ==> r.value.Gemini? && r.value.apiKey == apiKey && r.value.model == model
  {
    if "gemini" <= model then Ok(Gemini(apiKey, model)) else Err(UnsupportedModel(model))
  }

  // ---- _str2sec ----

  /** `x * (60**i)`, written as i multiplications by 60. */
  function Times60(x: real, i: nat): real
  {
    if i == 0 then x else 60.0 * Times60(x, i - 1)
  }

  /** `sum(parse(n) * (60**i) for i, n in enumerate(rev))` with the first
      index `i`, `parse` being `float` in `_str2sec`. The generator runs front
      to back, so the first segment `parse` rejects is the one reported. */
  function WeightedSum(parse: string -> Option<real>, rev: seq<string>, i: nat): (r: Result<real, string>)
    ensures r.Err? ==> r.error in rev && parse(r.error).None?
    ensures r.Ok? ==> forall k :: 0 <= k < |rev| ==> parse(rev[k]).Some?
  {
    if rev == [] then Ok(0.0)
    else match parse(rev[0])
      case None => Err(rev[0])
      case Some(v) =>
        match WeightedSum(parse, rev[1..], i + 1)
        case Err(e) => Err(e)
        case Ok(w) => Ok(Times60(v, i) + w)
  }

  function Reversed(s: seq<string>): seq<string>
  {
    seq(|s|, k requires 0 <= k < |s| => s[|s| - 1 - k])
  }

  /** The value of a ':'-separated time stamp with each segment read by `parse`. */
  function SecondsOf(parse: string -> Option<real>, s: string): (r: Result<real, string>)
    ensures r.Err? ==> ':' !in r.error && parse(r.error).None?
  {
    var nums := Split(s, ':');
    var rev := Reversed(nums);
    assert forall x :: x in rev ==> x in nums;
    WeightedSum(parse, rev, 0)
  }

  /** `_str2sec`: "hh:mm:ss.fff" (any number of segments) to seconds; the
      error is the first segment, from the right, that `float()` rejects. */
  function Str2Sec(s: string): (r: Result<real, string>)
    ensures r.Err? ==> ':' !in r.error && ParseFloat(r.error).None?
  {
    SecondsOf(ParseFloat, s)
  }

  /** Starting the weights one power of 60 higher multiplies the sum by 60. */
  lemma {:induction false} WeightedSumShift(parse: string -> Option<real>, rev: seq<string>, i: nat)
    ensures WeightedSum(parse, rev, i + 1) ==
      match WeightedSum(parse, rev, i)
      case Ok(w) => Ok(60.0 * w)
      case Err(e) => Err(e)
  {
    if rev != [] {
      WeightedSumShift(parse, rev[1..], i + 1);
    }
  }

  /** A segment in front of the reversed list is taken once; the rest weigh 60 times more. */
  lemma WeightedSumCons(parse: string -> Option<real>, x: string, rest: seq<string>)
    ensures WeightedSum(parse, [x] + rest, 0) ==
      match parse(x)
      case None => Err(x)
      case Some(v) =>
        match WeightedSum(parse, rest, 0)
        case Err(e) => Err(e)
        case Ok(w) => Ok(60.0 * w + v)
  {
    assert ([x] + rest)[0] == x;
    assert ([x] + rest)[1..] == rest;
    WeightedSumShift(parse, rest, 0);
  }

  /** Horner's rule for time stamps: one more segment on the right multiplies
      what came before by 60 and adds the new segment. */
  lemma SecondsOfAppend(parse: string -> Option<real>, a: string, b: string)
    requires ':' !in b
    ensures SecondsOf(parse, a + ":" + b) ==
      match parse(b)
      case None => Err(b)
      case Some(v) =>
        match SecondsOf(parse, a)
        case Err(e) => Err(e)
        case Ok(w) => Ok(60.0 * w + v)
  {
    var nums := Split(a, ':');
    SplitLast(a, b);
    ReversedSnoc(nums, b);
    WeightedSumCons(parse, b, Reversed(nums));
  }

  /** `_str2sec` of "a:b" is 60 times `_str2sec` of "a" plus `float(b)`. */
  lemma Str2SecAppend(a: string, b: string)
    requires ':' !in b
    ensures Str2Sec(a + ":" + b) ==
      match ParseFloat(b)
      case None => Err(b)
      case Some(v) =>
        match Str2Sec(a)
        case Err(e) => Err(e)
        case Ok(w) => Ok(60.0 * w + v)
  {
    SecondsOfAppend(ParseFloat, a, b);
  }

  lemma SplitLast(a: string, b: string)
    requires ':' !in b
    ensures Split(a + ":" + b, ':') == Split(a, ':') + [b]
  {
    SplitConcat(a, b, ':');
    SplitNoSeparator(b, ':');
  }

  lemma ReversedSnoc(s: seq<string>, x: string)
    ensures Reversed(s + [x]) == [x] + Reversed(s)
  {
  }

  /** A time stamp without ':' is read by `float()` alone. */
  lemma Str2SecSingle(s: string)
    requires ':' !in s
    ensures Str2Sec(s) == match ParseFloat(s) case None => Err(s) case Some(v) => Ok(v)
  {
    SecondsOfSingle(ParseFloat, s);
  }

  lemma SecondsOfSingle(parse: string -> Option<real>, s: string)
    requires ':' !in s
    ensures SecondsOf(parse, s) == match parse(s) case None => Err(s) case Some(v) => Ok(v)
  {
    SplitNoSeparator(s, ':');
    assert Reversed([s]) == [s];
    WeightedSumCons(parse, s, []);
    assert [s] + [] == [s];
  }

  /** "m:s" is 60 m + s seconds. */
  lemma Str2SecMinutes(m: nat, s: nat)
    ensures Str2Sec(NatToString(m) + ":" + NatToString(s)) == Ok(60.0 * m as real + s as real)
  {
    NatDigitsOnly(m);
    NatDigitsOnly(s);
    ParseFloatNat(m);
    ParseFloatNat(s);
    SecondsOfPair(ParseFloat, NatToString(m), NatToString(s), m as real, s as real);
  }

  /** "h:m:s" is 3600 h + 60 m + s seconds. */
  lemma Str2SecHours(h: nat, m: nat, s: nat)
    ensures Str2Sec(NatToString(h) + ":" + NatToString(m) + ":" + NatToString(s))
      == Ok(3600.0 * h as real + 60.0 * m as real + s as real)
  {
    NatDigitsOnly(h);
    NatDigitsOnly(m);
    NatDigitsOnly(s);
    ParseFloatNat(h);
    ParseFloatNat(m);
    ParseFloatNat(s);
    SecondsOfTriple(ParseFloat, NatToString(h), NatToString(m), NatToString(s), h as real, m as real, s as real);
  }

  lemma SecondsOfTriple(parse: string -> Option<real>, a: string, b: string, c: string, x: real, y: real, z: real)
    requires ':' !in a && ':' !in b && ':' !in c
    requires parse(a) == Some(x) && parse(b) == Some(y) && parse(c) == Some(z)
    ensures SecondsOf(parse, a + ":" + b + ":" + c) == Ok(3600.0 * x + 60.0 * y + z)
  {
    SecondsOfPair(parse, a, b, x, y);
    SecondsOfAppend(parse, a + ":" + b, c);
  }

  lemma SecondsOfPair(parse: string -> Option<real>, a: string, b: string, x: real, y: real)
    requires ':' !in a && ':' !in b
    requires parse(a) == Some(x) && parse(b) == Some(y)
    ensures SecondsOf(parse, a + ":" + b) == Ok(60.0 * x + y)
  {
    SecondsOfAppend(parse, a, b);
    SecondsOfSingle(parse, a);
  }

  lemma NatDigitsOnly(n: nat)
    ensures ':' !in NatToString(n)
  {
    var s := NatToString(n);
    assert forall k :: 0 <= k < |s| ==> s[k] != ':';
  }

  // ---- the reply ----

  /** The span `re.search(r"{.*}", response, flags=re.DOTALL)` matches, as
      [start, end): the leftmost '{' up to and including the last '}'. */
  function JsonSpan(s: string): (r: Option<(nat, nat)>)
    ensures r.Some? <==> exists i, j :: 0 <= i < j < |s| && s[i] == '{' && s[j] == '}'
    ensures r.Some? ==>
      var (b, e) := r.value;
      b < e <= |s| && s[b] == '{' && s[e - 1] == '}'
      && (forall k :: 0 <= k < b ==> s[k] != '{')
      && (forall k :: e <= k < |s| ==> s[k] != '}')
  {
    match (FirstIndexOf(s, '{'), LastIndexOf(s, '}'))
    case (Some(b), Some(e)) => if b < e then Some((b, e + 1)) else None
    case _ => None
  }

  /** One entry of the reply's "lyrics_list" (the module's own Lyrics model). */
  datatype ReplyEntry = ReplyEntry(startTime: string, endTime: string, lyrics: string, lyricsRow: int)

  /** The `types.Lyrics` built for one entry; the start is converted before the end. */
  function LyricsOf(e: ReplyEntry): (r: Result<Lyrics, RunError>)
    ensures r.Ok? <==> Str2Sec(e.startTime).Ok? && Str2Sec(e.endTime).Ok?
    ensures r.Ok? ==> r.value == Lyrics(Some(Str2Sec(e.startTime).value), Some(Str2Sec(e.endTime).value), e.lyrics, e.lyricsRow)
  {
    match Str2Sec(e.startTime)
    case Err(seg) => Err(BadTime(seg))
    case Ok(start) =>
      match Str2Sec(e.endTime)
      case Err(seg) => Err(BadTime(seg))
      case Ok(end) => Ok(Lyrics(Some(start), Some(end), e.lyrics, e.lyricsRow))
  }

  /** The closing list comprehension of `run`: it fails on the first entry
      with a bad time stamp; otherwise one Lyrics per entry, in order. */
  function ToLyrics(es: seq<ReplyEntry>): (r: Result<seq<Lyrics>, RunError>)
    ensures r.Ok? <==> forall k :: 0 <= k < |es| ==> LyricsOf(es[k]).Ok?
    ensures r.Ok? ==> |r.value| == |es| && forall k :: 0 <= k < |es| ==> r.value[k] == LyricsOf(es[k]).value
    ensures r.Err? ==> exists k :: 0 <= k < |es| && LyricsOf(es[k]) == Err(r.error)
  {
    if es == [] then Ok([])
    else match LyricsOf(es[0])
      case Err(e) => Err(e)
      case Ok(l) =>
        match ToLyrics(es[1..])
        case Err(e) => Err(e)
        case Ok(ls) => Ok([l] + ls)
  }

  /** What `run` makes of the reply text: the JSON object cut out of it,
      validated by `validate` (Response.model_validate_json), then converted. */
  function ParseReply(response: string, validate: string -> Option<seq<ReplyEntry>>): (r: Result<seq<Lyrics>, RunError>)
    ensures r == Err(CannotParse(response)) <==> JsonSpan(response).None?
    ensures r.Ok? ==>
      var (b, e) := JsonSpan(response).value;
      validate(response[b..e]).Some? && r == ToLyrics(validate(response[b..e]).value)
  {
    match JsonSpan(response)
    case None => Err(CannotParse(response))
    case Some((b, e)) =>
      match validate(response[b..e])
      case None => Err(InvalidResponse(response[b..e]))
      case Some(es) => ToLyrics(es)
  }

  /** The aligner: the client it was built with and the conversation of its last run. */
  class AlignmentWithAudio {
    var messages: seq<ChatMessage>
    const llm: Client

    constructor Init(c: Client)
      requires c.Gemini?
      ensures llm == c && messages == []
    {
      llm := c;
      messages := [];
    }

    /** `__init__`: a Gemini model gives an aligner with no messages yet;
        any other model is a ValueError. */
    static method Create(apiKey: string, model: string) returns (r: Result<AlignmentWithAudio, ConfigError>)
      ensures r.Ok? <==> "gemini" <= model
      ensures r.Ok? ==> fresh(r.value) && r.value.llm == Gemini(apiKey, model) && r.value.messages == []
      ensures r.Err? ==> r.error == UnsupportedModel(model)
    {
      var c := AudioClient(apiKey, model);
      if c.Ok? {
        var a := new AlignmentWithAudio.Init(c.value);
        r := Ok(a);
      } else {
        r := Err(c.error);
      }
    }

    /** `run`: stores the two-message conversation, sends its tuples through
        the client (`service` stands for the vendor's API, `upload` for the
        file upload) and parses the reply. */
    method Run(lyrics: string, audioPath: string, upload: string -> UploadedFile,
               service: Request -> string, validate: string -> Option<seq<ReplyEntry>>)
      returns (r: Result<seq<Lyrics>, RunError>)
      modifies this
      ensures messages == AudioConversation(lyrics, audioPath)
      ensures r == ParseReply(service(RequestOf(llm, upload, TuplesOf(messages))), validate)
    {
      var lyricsList := NonBlankLines(lyrics);
      var block := LyricsBlock.LyricsToString(lyricsList);
      messages := [
        UserMessage(Str(AudioPrompt(block))),
        UserMessage(PartList([ImageUrlPart(audioPath, "auto")]))
      ];
      var tuples := MessageToTuple(messages);
      assert tuples == TuplesOf(messages);
      var request := BuildRequest(llm, upload, tuples);
      var response := service(request);
      r := ParseReply(response, validate);
    }
  }

  // ---- what reaches the model ----

  /** Gemini receives the prompt as user text and the audio as the uploaded
      file of its path, in that order. */
  lemma GeminiReceivesAudio(apiKey: string, model: string, upload: string -> UploadedFile, lyrics: string, audioPath: string)
    ensures RequestOf(Gemini(apiKey, model), upload, TuplesOf(AudioConversation(lyrics, audioPath)))
      == GeminiRequest([
           GeminiClient.ContentDict("user", [GeminiClient.TextItem(AudioPrompt(LyricsBlock.BlockText(NonBlankLines(lyrics))))]),
           GeminiClient.ContentDict("user", [GeminiClient.FileItem(upload(audioPath))])])
  {
    var ms := AudioConversation(lyrics, audioPath);
    var ps := [ImageUrlPart(audioPath, "auto")];
    assert KeptParts(ps) == [ContentPart(ImageUrl, audioPath)] by {
      assert ps[1..] == [];
    }
    var ts := TuplesOf(ms);
    assert ts == [UserTuple(Plain(ms[0].content.text)), UserTuple(Parts([ContentPart(ImageUrl, audioPath)]))];
    var cs := GeminiClient.Contents(upload, ts);
    assert cs[1] == GeminiClient.ContentDict("user", [GeminiClient.FileItem(upload(audioPath))]);
  }

  /** Through the OpenAI client's `tuple2message` as written, the audio
      message would never be sent: only the prompt survives. */
  lemma OpenAIWouldDropAudio(lyrics: string, audioPath: string)
    ensures OpenAIClient.ChatParams(TuplesOf(AudioConversation(lyrics, audioPath)))
      == [UserMessage(Str(AudioPrompt(LyricsBlock.BlockText(NonBlankLines(lyrics)))))]
  {
    var ms := AudioConversation(lyrics, audioPath);
    var ts := TuplesOf(ms);
    assert ts == [ts[0]] + [ts[1]];
    assert ts[1].UserTuple? && ts[1].content.Parts?;
    OpenAIClient.ChatParamsAppend([ts[0]], [ts[1]]);
    assert OpenAIClient.ChatParams([ts[1]]) == [] by {
      assert [ts[1]][1..] == [];
    }
    assert OpenAIClient.ChatParams([ts[0]]) == [ms[0]] by {
      assert [ts[0]][1..] == [];
    }
  }

  /** Every line of the lyric block in the audio prompt is numbered, from 1
      up, in the order of the non-blank lyric lines. */
  lemma AudioBlockAllNumbered(lyrics: string)
    ensures var text := NonBlankLines(lyrics);
      LyricsBlock.BlockText(text)
        == LyricsBlock.Header + Flatten(seq(|text|, j requires 0 <= j < |text| => LyricsBlock.RowLine(1 + j, text[j])))
  {
    NonBlankLinesAreContent(lyrics);
    LyricsBlock.NumberedWithoutBlanks(NonBlankLines(lyrics), 1);
  }
}
