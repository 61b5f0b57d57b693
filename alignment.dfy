/** The transcript-based aligner of vocacolle (`Alignment`): it sends the
    LLM a system prompt and one user message holding the numbered lyrics and
    the numbered transcripts, and takes the structured reply as it is. */
module Alignment {
  import opened Wrappers
  import opened Seqs
  import opened Text
  import opened Messages
  import opened Types
  import opened Transcripts
  import opened Clients
  import GeminiClient
  import OpenAIClient
  import LyricsBlock

  const SystemPrompt: string :=
    "## 役割\n" +
    "あなたはプロの編集者です。ルールを遵守し、出力の形式に沿って「歌詞」と「歌の自動文字起こし結果」の位置合わせをしてください。\n" +
    "## ルール\n" +
    "- 全ての「歌詞」を一行ずつ出力してください。\n" +
    "- 「歌詞」と「歌の自動文字起こし結果」の文字の一致度が50%を超える箇所だけ位置合わせしてください。\n" +
    "- 「歌の自動文字起こし結果」には誤字があります。適宜誤字を推測して、文字が合っている位置に合わせてください。\n" +
    "- 「歌詞」には同じ文が何度も登場することがあります。「歌の自動文字起こし結果」の発話開始秒と「歌詞」のパラグラフも考慮して適切な位置に合わせてください。\n" +
    "- 「歌詞」と「歌の自動文字起こし結果」の改行位置は異なる場合があります。「歌詞」に準拠して位置合わせをしてください。\n"

  /** `INFORMATION_PROMPT.format(lyrics=..., transcripts=...)` */
  function InformationPrompt(lyricsBlock: string, transcriptsBlock: string): string
  {
    "「歌詞」\n" + lyricsBlock + "\n\n\n「歌の自動文字起こし結果」\n" + transcriptsBlock + "\n"
  }

  /** The client `__init__` picks: "gpt..." models go to OpenAI, "gemini..."
      models to Gemini, anything else is a ValueError. */
  function AlignmentClient(apiKey: string, model: string): (r: Result<Client, ConfigError>)
    ensures r.Ok? <==> "gpt" <= model || "gemini" <= model
    ensures r.Ok? ==> r.value.apiKey == apiKey && r.value.model == model
    ensures r.Ok? ==> (r.value.OpenAI? <==> "gpt" <= model)
    ensures r.Err? ==> r.error == UnsupportedModel(model)
  {
    if "gpt" <= model then Ok(OpenAI(apiKey, model))
    else if "gemini" <= model then Ok(Gemini(apiKey, model))
    else Err(UnsupportedModel(model))
  }

  // ---- _transcripts2str ----

  const TranscriptsHeaderLine := "行番号. 発話開始秒: 文字起こし内容"

  const TranscriptsHeader := TranscriptsHeaderLine + "\n"

  /** The entry of the `n`-th transcript; `show` stands for Python's `str`
      of the float start time. */
  function TranscriptLine(n: nat, t: Transcript, show: real -> string): string
  {
    NatToString(n) + ". " + show(t.start) + ": " + t.text
  }

  /** The entries numbered from 1, in transcript order. */
  function TranscriptEntries(ts: seq<Transcript>, show: real -> string): (r: seq<string>)
    ensures |r| == |ts|
  {
    seq(|ts|, i requires 0 <= i < |ts| => TranscriptLine(i + 1, ts[i], show))
  }

  /** The block `_transcripts2str` returns as written: the entries follow one
      another with nothing between them. */
  function TranscriptsBlock(ts: seq<Transcript>, show: real -> string): string
  {
    TranscriptsHeader + Flatten(TranscriptEntries(ts, show))
  }

  /** `_transcripts2str` as written. */
  method TranscriptsToString(transcripts: seq<Transcript>, show: real -> string) returns (s: string)
    ensures s == TranscriptsBlock(transcripts, show)
  {
    var entries := TranscriptEntries(transcripts, show);
    var body: string := "";
    for i := 0 to |transcripts|
      invariant body == Flatten(entries[..i])
    {
      FlattenSnoc(entries, i);
      body := body + NatToString(i + 1) + ". " + show(transcripts[i].start) + ": " + transcripts[i].text;
    }
    assert entries[..|transcripts|] == entries;
    s := TranscriptsHeader + body;
  }

  /** The block with each entry on a line of its own, as the lyric block has. */
  function IntendedTranscriptsBlock(ts: seq<Transcript>, show: real -> string): string
  {
    TranscriptsHeader + Flatten(Terminated(TranscriptEntries(ts, show), '\n'))
  }

  /** `_transcripts2str` with the line break after each entry. */
  method IntendedTranscriptsToString(transcripts: seq<Transcript>, show: real -> string) returns (s: string)
    ensures s == IntendedTranscriptsBlock(transcripts, show)
  {
    var lines := Terminated(TranscriptEntries(transcripts, show), '\n');
    var body: string := "";
    for i := 0 to |transcripts|
      invariant body == Flatten(lines[..i])
    {
      FlattenSnoc(lines, i);
      body := body + NatToString(i + 1) + ". " + show(transcripts[i].start) + ": " + transcripts[i].text + "\n";
    }
    assert lines[..|transcripts|] == lines;
    s := TranscriptsHeader + body;
  }

  /** Line-break free start times and texts (whisper's texts are stripped
      and filtered to letters, kana, "！？" and spaces). */
  predicate SingleLine(ts: seq<Transcript>, show: real -> string)
  {
    forall k :: 0 <= k < |ts| ==> '\n' !in show(ts[k].start) && '\n' !in ts[k].text
  }

  lemma EntriesSingleLine(ts: seq<Transcript>, show: real -> string)
    requires SingleLine(ts, show)
    ensures forall k :: 0 <= k < |ts| ==> '\n' !in TranscriptEntries(ts, show)[k]
  {
    forall k | 0 <= k < |ts|
      ensures '\n' !in TranscriptEntries(ts, show)[k]
    {
      var digits := NatToString(k + 1);
      assert forall j :: 0 <= j < |digits| ==> digits[j] != '\n';
    }
  }

  lemma HeaderLineSingle()
    ensures '\n' !in TranscriptsHeaderLine
  {
    assert forall k :: 0 <= k < |TranscriptsHeaderLine| ==> TranscriptsHeaderLine[k] != '\n';
  }

  /** As written, the whole transcript lands on the line after the header:
      the block has exactly two lines however many transcripts there are. */
  lemma TranscriptsRunTogether(ts: seq<Transcript>, show: real -> string)
    requires SingleLine(ts, show)
    ensures Split(TranscriptsBlock(ts, show), '\n') == [TranscriptsHeaderLine, Flatten(TranscriptEntries(ts, show))]
  {
    var body := Flatten(TranscriptEntries(ts, show));
    EntriesSingleLine(ts, show);
    FlattenExcludes(TranscriptEntries(ts, show), '\n');
    HeaderLineSingle();
    SplitHeaderBody(TranscriptsHeaderLine, body, '\n');
  }

  /** With the line break, the block's lines are the header, then one line
      per transcript in order, then the empty rest after the final break. */
  lemma IntendedTranscriptsLines(ts: seq<Transcript>, show: real -> string)
    requires SingleLine(ts, show)
    ensures Split(IntendedTranscriptsBlock(ts, show), '\n') == [TranscriptsHeaderLine] + TranscriptEntries(ts, show) + [""]
  {
    var body := Flatten(Terminated(TranscriptEntries(ts, show), '\n'));
    EntriesSingleLine(ts, show);
    HeaderLineSingle();
    SplitHeaderLines(TranscriptsHeaderLine, TranscriptEntries(ts, show), '\n');
  }

  // ---- run ----

  /** The two messages `run` stores: the system prompt, then the lyric block
      of every line of the lyrics (blank ones included) and the transcript
      block as `_transcripts2str` writes it, in the user message. */
  function Conversation(lyrics: string, transcripts: seq<Transcript>, show: real -> string): seq<ChatMessage>
  {
    [ SystemMessage(SystemPrompt),
      UserMessage(Str(InformationPrompt(
        LyricsBlock.BlockText(Split(lyrics, '\n')),
        TranscriptsBlock(transcripts, show)))) ]
  }

  /** The ValueError `run` raises when `fetch` returns None. */
  datatype RunError = NoResponse

  /** The aligner: the client it was built with and the conversation of its last run. */
  class Alignment {
    var messages: seq<ChatMessage>
    const llm: Client

    constructor Init(c: Client)
      ensures llm == c && messages == []
    {
      llm := c;
      messages := [];
    }

    /** `__init__`: a GPT or Gemini model gives an aligner with no messages
        yet; any other model is a ValueError. */
    static method Create(apiKey: string, model: string) returns (r: Result<Alignment, ConfigError>)
      ensures r.Ok? <==> "gpt" <= model || "gemini" <= model
      ensures r.Ok? ==> fresh(r.value) && r.value.llm == AlignmentClient(apiKey, model).value && r.value.messages == []
      ensures r.Err? ==> r.error == UnsupportedModel(model)
    {
      var c := AlignmentClient(apiKey, model);
      if c.Ok? {
        var a := new Alignment.Init(c.value);
        r := Ok(a);
      } else {
        r := Err(c.error);
      }
    }

    /** `run`: stores the conversation, sends its tuples through the client
        (`service` stands for the vendor's structured-output API, None being
        a reply without a parsed Response) and returns the reply's lyric list. */
    method Run(lyrics: string, transcripts: seq<Transcript>, show: real -> string,
               upload: string -> UploadedFile, service: Request -> Option<seq<Lyrics>>)
      returns (r: Result<seq<Lyrics>, RunError>)
      modifies this
      ensures messages == Conversation(lyrics, transcripts, show)
      ensures r.Err? <==> service(RequestOf(llm, upload, TuplesOf(messages))).None?
      ensures r.Ok? ==> r.value == service(RequestOf(llm, upload, TuplesOf(messages))).value
    {
      var lyricsList := Split(lyrics, '\n');
      var lyricsBlock := LyricsBlock.LyricsToString(lyricsList);
      var transcriptsBlock := TranscriptsToString(transcripts, show);
      messages := [
        SystemMessage(SystemPrompt),
        UserMessage(Str(InformationPrompt(lyricsBlock, transcriptsBlock)))
      ];
      var tuples := MessageToTuple(messages);
      assert tuples == TuplesOf(messages);
      var request := BuildRequest(llm, upload, tuples);
      var response := service(request);
      if response.None? {
        r := Err(NoResponse);
      } else {
        r := Ok(response.value);
      }
    }
  }

  // ---- what reaches the model ----

  /** OpenAI receives exactly the stored conversation: it survives the trip
      through the cache tuples unchanged. */
  lemma OpenAIReceivesConversation(apiKey: string, model: string, upload: string -> UploadedFile,
                                   lyrics: string, transcripts: seq<Transcript>, show: real -> string)
    ensures RequestOf(OpenAI(apiKey, model), upload, TuplesOf(Conversation(lyrics, transcripts, show)))
      == ChatRequest(Conversation(lyrics, transcripts, show))
  {
    var ms := Conversation(lyrics, transcripts, show);
    var ts := TuplesOf(ms);
    assert ts == [ts[0]] + [ts[1]];
    OpenAIClient.ChatParamsAppend([ts[0]], [ts[1]]);
    assert OpenAIClient.ChatParams([ts[0]]) == [ms[0]] by {
      assert [ts[0]][1..] == [];
    }
    assert OpenAIClient.ChatParams([ts[1]]) == [ms[1]] by {
      assert [ts[1]][1..] == [];
    }
  }

  /** Gemini, which has no system role, receives the system prompt as a user message. */
  lemma GeminiReceivesSystemAsUser(apiKey: string, model: string, upload: string -> UploadedFile,
                                   lyrics: string, transcripts: seq<Transcript>, show: real -> string)
    ensures var ms := Conversation(lyrics, transcripts, show);
      RequestOf(Gemini(apiKey, model), upload, TuplesOf(ms))
        == GeminiRequest([
             GeminiClient.ContentDict("user", [GeminiClient.TextItem(SystemPrompt)]),
             GeminiClient.ContentDict("user", [GeminiClient.TextItem(ms[1].content.text)])])
  {
  }

  /** The two `__init__`s agree: every model the audio aligner accepts, this
      one accepts too, with the same (Gemini) client. */
  lemma ClientsAgree(apiKey: string, model: string)
    requires "gemini" <= model
    ensures AlignmentClient(apiKey, model) == Ok(Gemini(apiKey, model))
  {
    assert model[1] == 'e';
  }
}
