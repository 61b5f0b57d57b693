# Lyric alignment through LLM clients — a Dafny model

This project models the core of a small set of tools that align song lyrics
with time stamps by asking a large language model.

- **llm_clients**:
  - `message2tuple` turns OpenAI-style chat messages into hashable tuples.
    The tuples serve as the cache key of a fetch.
  - Each vendor client turns the tuples back into its own request form with
    `tuple2message`. The OpenAI client builds chat parameters; the Gemini
    client builds content dicts and uploads files for image_url parts.
- **vocacolle entities**:
  - `Alignment` accepts a GPT or Gemini model. It sends a system prompt, a
    numbered lyric block and a numbered transcript block, and returns the
    model's lyric list.
  - `AlignmentWithAudio` accepts only Gemini models. It sends the lyric
    block and the audio file, cuts the JSON object out of the reply, and
    converts each entry's "hh:mm:ss.fff" time stamps to seconds.
- **front ends** (vocacolle/main.py and sync_lyrics/main.py):
  - `sec2str` prints seconds as an SRT time stamp.
  - `output_srt` prints one SRT block, highlighting a time stamp that is new.
  - `write_srt` joins the blocks into HTML.
  - `_display` builds the untimed lyric list that a first alignment is shown
    against.

Files:

| file | contents |
|---|---|
| `wrappers.dfy` | `Option`, `Result` |
| `seqs.dfy` | comprehension with a filter, `"".join`, `sep.join`, and their lemmas |
| `text.dfy` | `\s`, `str.split`, `str(int)`, `str.zfill`, `float()` on decimal literals |
| `messages.dfy` | chat messages, tuple messages, `message2tuple` |
| `transcripts.dfy` | `Transcript` of llm_clients/types.py |
| `openai_client.dfy` | the OpenAI `tuple2message`, as written and corrected |
| `gemini_client.dfy` | the Gemini `tuple2message` |
| `clients.dfy` | the two clients and the request each builds from tuples |
| `lyrics_block.dfy` | `_lyrics2str`, common to both entities |
| `types.dfy` | `Lyrics` of sync_lyrics/types.py |
| `alignment_with_audio.dfy` | `AlignmentWithAudio`, `_str2sec`, reply parsing |
| `alignment.dfy` | `Alignment`, `_transcripts2str` |
| `srt_display.dfy` | `sec2str`, `output_srt`, `write_srt`, `_display` |

How the model treats state, calls and numbers:

- The entities are classes whose `messages` field `run` replaces. The client
  is a constant field chosen by the constructor.
- The loops of the source (`message2tuple`, both `tuple2message`s,
  `_lyrics2str`, `_transcripts2str`, the list loop of `_display`) are
  methods with loop invariants. `output_srt`, which has no loop, is a method
  of successive appends. Each method is proved equal to a specification
  function, and the lemmas are about those functions.
- Vendor calls are parameters of `Run`:
  - `service` is the network call that returns the reply;
  - `validate` is pydantic's `Response.model_validate_json`;
  - `upload` is the Gemini SDK's file upload.
- Seconds are exact reals (`real`). Python floats are not modelled.

## Model

| member | source | states |
|---|---|---|
| Messages.MessageToTuple | llm_clients/llm_clients/util.py:21-53 | one tuple per message, in order; each is the message's role and content, with list content reduced to its text and image_url parts |
| Messages.KeptPartsAre | llm_clients/llm_clients/util.py:33-46 | the parts of a list-content message that survive are exactly its text and image_url parts, in their original order |
| Messages.KeptPartsIgnoreDetail | llm_clients/llm_clients/util.py:40-45 | an image URL's detail setting does not reach the tuple: changing it leaves the tuple unchanged |
| OpenAIClient.ParamOf | llm_clients/llm_clients/openai.py:15-59 | a tuple yields no message exactly when it is a user tuple with a list of parts; a tool message gets an empty tool call id |
| OpenAIClient.TupleToMessage | llm_clients/llm_clients/openai.py:11-61 | the messages are the per-tuple messages, in order, with list-content user tuples dropped (as written) |
| OpenAIClient.ChatParamsLength | llm_clients/llm_clients/openai.py:14-61 | one message per tuple, less one per list-content user tuple |
| OpenAIClient.ChatParamsAppend | llm_clients/llm_clients/openai.py:15-59 | converting a concatenation is concatenating the conversions: relative order is kept |
| OpenAIClient.ChatParamsRoundTrip | llm_clients/llm_clients/openai.py:11-61 | tuples come back unchanged through `message2tuple` if and only if none is a list-content user tuple |
| OpenAIClient.NoPartsUsersRoundTrip | llm_clients/llm_clients/openai.py:11-61 | without list-content user tuples, `message2tuple` after `tuple2message` is the identity |
| OpenAIClient.TuplesRoundTrip | llm_clients/llm_clients/openai.py:11-61 | string-content conversations with empty tool call ids come back unchanged from `message2tuple` followed by `tuple2message` |
| OpenAIClient.PartParamsRoundTrip | llm_clients/llm_clients/openai.py:25-41 | the part dicts built for a tuple's parts convert back to the same parts |
| OpenAIClient.DropsPartsUser | llm_clients/llm_clients/openai.py:24-41 | a conversation of one list-content user message converts to no message at all |
| OpenAIClient.IntendedTupleToMessage | llm_clients/llm_clients/openai.py:11-61 | with the missing append restored, one message per tuple, in order, list content as part dicts with detail "low" |
| OpenAIClient.IntendedRoundTrip | llm_clients/llm_clients/openai.py:11-61 | with the missing append restored, every tuple conversation comes back unchanged through `message2tuple` |
| GeminiClient.ContentOf | llm_clients/llm_clients/gemini.py:17-55 | role "model" exactly for assistant tuples and "user" otherwise; text kept verbatim; one part per tuple part, an image_url part becoming the upload of its path |
| GeminiClient.TupleToMessage | llm_clients/llm_clients/gemini.py:13-57 | one content dict per tuple, in order, each with role "user" or "model" |
| GeminiClient.SystemAndToolBecomeUser | llm_clients/llm_clients/gemini.py:44-55 | system and tool tuples become the same content dict as a plain user tuple with that text |
| Clients.BuildRequest | llm_clients/llm_clients/openai.py:128-142 | a chat request exactly for the OpenAI client, made by that client's `tuple2message` as written (list-content user tuples dropped); Gemini content dicts otherwise |
| LyricsBlock.LyricsToString | vocacolle/vocacolle/entities/alignment.py:66-75 | the header, then for each line in order a numbered entry if it is not blank or a bare line break if it is |
| LyricsBlock.NumberedAppend | vocacolle/vocacolle/entities/alignment_with_audio.py:105-114 | numbering continues across a concatenation from the count of non-blank lines before it |
| LyricsBlock.NumberedSnoc | vocacolle/vocacolle/entities/alignment_with_audio.py:108-113 | one more line adds one entry, numbered one past the non-blank lines before it |
| LyricsBlock.NumberedAt | vocacolle/vocacolle/entities/alignment_with_audio.py:108-113 | entry k is "\n" for a blank line, or else the line numbered 1 + the count of non-blank lines before it |
| LyricsBlock.NumberedLength | vocacolle/vocacolle/entities/alignment_with_audio.py:108-113 | exactly one entry per line |
| LyricsBlock.NumberedRows | vocacolle/vocacolle/entities/alignment_with_audio.py:106-113 | the numbered entries are the non-blank lines numbered consecutively from 1, in order, with no gaps or repeats |
| LyricsBlock.NumberedWithoutBlanks | vocacolle/vocacolle/entities/alignment_with_audio.py:106-113 | without blank lines, the entry of line j is "j+1. line" |
| AlignmentWithAudio.AudioClient | vocacolle/vocacolle/entities/alignment_with_audio.py:54-59 | a client exactly when the model starts with "gemini", and then a Gemini client with the given key and model |
| AlignmentWithAudio.AlignmentWithAudio.Create | vocacolle/vocacolle/entities/alignment_with_audio.py:54-59 | a fresh aligner with a Gemini client and no messages exactly for "gemini…" models; otherwise the unsupported-model error |
| AlignmentWithAudio.AlignmentWithAudio.Run | vocacolle/vocacolle/entities/alignment_with_audio.py:61-91 | stores the prompt message and the audio message; the result is the parsed reply to the request the client builds from their tuples |
| AlignmentWithAudio.WeightedSum | vocacolle/vocacolle/entities/alignment_with_audio.py:102 | an error names a segment that does not parse; success means every segment parses |
| AlignmentWithAudio.SecondsOf | vocacolle/vocacolle/entities/alignment_with_audio.py:101-102 | an error names a segment without ':' that does not parse |
| AlignmentWithAudio.Str2Sec | vocacolle/vocacolle/entities/alignment_with_audio.py:94-102 | an error names a ':'-free segment that `float()` rejects |
| AlignmentWithAudio.WeightedSumShift | vocacolle/vocacolle/entities/alignment_with_audio.py:102 | weights starting one power of 60 higher multiply the sum by 60 |
| AlignmentWithAudio.WeightedSumCons | vocacolle/vocacolle/entities/alignment_with_audio.py:102 | the sum is the last segment plus 60 times the sum of the others |
| AlignmentWithAudio.SecondsOfAppend | vocacolle/vocacolle/entities/alignment_with_audio.py:101-102 | Horner's rule: "a:b" is 60 times the value of "a" plus the value of "b" |
| AlignmentWithAudio.Str2SecAppend | vocacolle/vocacolle/entities/alignment_with_audio.py:94-102 | `_str2sec("a:b")` is 60 × `_str2sec("a")` + `float(b)`, failing when either side fails |
| AlignmentWithAudio.SplitLast | vocacolle/vocacolle/entities/alignment_with_audio.py:101 | splitting "a:b" at ':' gives the pieces of "a" followed by "b" |
| AlignmentWithAudio.ReversedSnoc | vocacolle/vocacolle/entities/alignment_with_audio.py:102 | reversing a sequence with one more element puts that element first |
| AlignmentWithAudio.Str2SecSingle | vocacolle/vocacolle/entities/alignment_with_audio.py:94-102 | a time stamp without ':' is read by `float()` alone |
| AlignmentWithAudio.SecondsOfSingle | vocacolle/vocacolle/entities/alignment_with_audio.py:101-102 | a single segment is read by the segment reader alone |
| AlignmentWithAudio.Str2SecMinutes | vocacolle/vocacolle/entities/alignment_with_audio.py:94-102 | "m:s" is 60m + s seconds |
| AlignmentWithAudio.Str2SecHours | vocacolle/vocacolle/entities/alignment_with_audio.py:94-102 | "h:m:s" is 3600h + 60m + s seconds |
| AlignmentWithAudio.SecondsOfPair | vocacolle/vocacolle/entities/alignment_with_audio.py:101-102 | two segments that parse give 60 × first + second |
| AlignmentWithAudio.SecondsOfTriple | vocacolle/vocacolle/entities/alignment_with_audio.py:101-102 | three segments that parse give 3600 × first + 60 × second + third |
| AlignmentWithAudio.NatDigitsOnly | vocacolle/vocacolle/entities/alignment_with_audio.py:101 | a printed natural number holds no ':' |
| AlignmentWithAudio.JsonSpan | vocacolle/vocacolle/entities/alignment_with_audio.py:78-80 | a match exactly when some '{' precedes some '}'; it runs from the leftmost '{' through the last '}' |
| AlignmentWithAudio.LyricsOf | vocacolle/vocacolle/entities/alignment_with_audio.py:84-89 | succeeds exactly when both time stamps convert, and then carries the converted times, the lyric and the row |
| AlignmentWithAudio.ToLyrics | vocacolle/vocacolle/entities/alignment_with_audio.py:83-91 | succeeds exactly when every entry converts; then one Lyrics per entry, in order; an error comes from some entry |
| AlignmentWithAudio.ParseReply | vocacolle/vocacolle/entities/alignment_with_audio.py:77-91 | "cannot parse" exactly when the reply has no braced span; on success, the lyric list of the validated span |
| AlignmentWithAudio.GeminiReceivesAudio | vocacolle/vocacolle/entities/alignment_with_audio.py:64-77 | Gemini receives the prompt as user text and then the upload of the audio path, both as user content |
| AlignmentWithAudio.OpenAIWouldDropAudio | vocacolle/vocacolle/entities/alignment_with_audio.py:64-75 | through the OpenAI conversion as written, only the prompt message of the audio conversation survives |
| AlignmentWithAudio.AudioBlockAllNumbered | vocacolle/vocacolle/entities/alignment_with_audio.py:62-67 | in the audio prompt every lyric line is numbered, 1 up, in the order of the non-blank lines |
| Alignment.AlignmentClient | vocacolle/vocacolle/entities/alignment.py:36-43 | a client exactly for "gpt…" or "gemini…" models; OpenAI exactly for "gpt…"; otherwise the unsupported-model error |
| Alignment.Alignment.Create | vocacolle/vocacolle/entities/alignment.py:36-43 | a fresh aligner with the selected client and no messages, or the unsupported-model error |
| Alignment.Alignment.Run | vocacolle/vocacolle/entities/alignment.py:45-63 | stores the system message and the information message built from `_lyrics2str` of every line and `_transcripts2str` as written; an error exactly when the service gives no parsed response to the client's request from the stored messages' tuples, otherwise its lyric list |
| Alignment.TranscriptEntries | vocacolle/vocacolle/entities/alignment.py:80-81 | one entry per transcript, numbered from 1 |
| Alignment.TranscriptsToString | vocacolle/vocacolle/entities/alignment.py:78-82 | the header followed by the numbered entries, with nothing between them (as written) |
| Alignment.TranscriptsRunTogether | vocacolle/vocacolle/entities/alignment.py:78-82 | as written, the transcript block splits into only two lines: the header and all entries run together |
| Alignment.IntendedTranscriptsToString | vocacolle/vocacolle/entities/alignment.py:78-82 | the header followed by each numbered entry on a line of its own |
| Alignment.IntendedTranscriptsLines | vocacolle/vocacolle/entities/alignment.py:78-82 | corrected, the block splits into the header line, one line per transcript, and a final empty piece |
| Alignment.EntriesSingleLine | vocacolle/vocacolle/entities/alignment.py:81 | an entry holds no line break when the transcript text and the printed start time hold none |
| Alignment.HeaderLineSingle | vocacolle/vocacolle/entities/alignment.py:79 | the transcript header line holds no line break |
| Alignment.OpenAIReceivesConversation | vocacolle/vocacolle/entities/alignment.py:48-59 | the OpenAI client, through `tuple2message` as written, receives exactly the stored conversation |
| Alignment.GeminiReceivesSystemAsUser | vocacolle/vocacolle/entities/alignment.py:48-59 | the Gemini client receives the system prompt as a user message, followed by the information prompt |
| Alignment.ClientsAgree | vocacolle/vocacolle/entities/alignment.py:38-41 | every model the audio aligner accepts, this aligner accepts too, with the same Gemini client |
| SrtDisplay.SecToString | vocacolle/main.py:15-24 | the placeholder exactly for a missing time; otherwise only digits, ':', ',' and '-' |
| SrtDisplay.SecToStringReadsBack | vocacolle/main.py:18-24 | for a time that is not negative, reading back the printed "hh:mm:ss,mmm" gives the time truncated to whole milliseconds |
| SrtDisplay.SecToStringWidth | sync_lyrics/main.py:21-28 | under 100 hours the time stamp is 12 characters, with ':' at 2 and 5 and ',' at 8 |
| SrtDisplay.SecToStringFields | vocacolle/main.py:18-24 | for a time that is not negative, each field is the zero-padded value of hours, minutes, seconds and milliseconds |
| SrtDisplay.ClockReadBack | vocacolle/main.py:19-24 | whole seconds and milliseconds, formatted, read back as their total in milliseconds |
| SrtDisplay.ClockFields | vocacolle/main.py:19-23 | hours, minutes and seconds as computed make up the whole seconds |
| SrtDisplay.MillisecondsSplit | vocacolle/main.py:18-19 | whole seconds and truncated milliseconds make up the truncated time in milliseconds |
| SrtDisplay.FractionMilliseconds | vocacolle/main.py:18 | the millisecond field is below 1000 |
| SrtDisplay.ParseFormatTime | vocacolle/main.py:24 | digit fields formatted as "hh:mm:ss,mmm" read back as their value in milliseconds |
| SrtDisplay.FormatTime | vocacolle/main.py:24 | the stamp is three separators longer than its fields and ends with the millisecond field |
| SrtDisplay.OutputSrt | vocacolle/main.py:27-39 | the row, the time line and the lyric, joined by the line break |
| SrtDisplay.HighlightShows | sync_lyrics/main.py:48-53 | the time line carries markup exactly when a previous version exists and had no start time |
| SrtDisplay.TimeLineSingle | vocacolle/main.py:32-37 | the time line holds no line break |
| SrtDisplay.SrtBlockLines | vocacolle/main.py:27-39 | with the newline default and a one-line lyric, the block splits back into its three SRT lines |
| SrtDisplay.SrtBlocks | vocacolle/main.py:43-49 | one block per lyric without a previous list, otherwise as many as the shorter list, as `zip` gives |
| SrtDisplay.SrtHtml | vocacolle/main.py:42-50 | the blocks inside the scrolling box: the opening markup first, the closing markup last, a single block alone between them |
| SrtDisplay.BuildDisplayList | vocacolle/main.py:54-61 | the untimed list of the non-blank lines, in order |
| SrtDisplay.Untimed | sync_lyrics/main.py:87-93 | one entry per line, without times |
| SrtDisplay.DisplayLyricsLines | sync_lyrics/main.py:87-93 | the display list holds the non-blank lyric lines, in order, each a content line |
| SrtDisplay.NoPreviousNoHighlight | vocacolle/main.py:32-44 | without a previous list every block is joined from its plain SRT lines, and no time line is highlighted |
| SrtDisplay.AlignmentAllHighlighted | vocacolle/main.py:42-61 | shown against the display list, every block is highlighted |
| Text.Split | vocacolle/vocacolle/entities/alignment_with_audio.py:62 | `str.split` with one separator: at least one piece, no piece holds the separator, and joining the pieces with it gives the input back |
| Text.SplitJoin | vocacolle/vocacolle/entities/alignment_with_audio.py:62 | joining separator-free pieces and splitting again gives the pieces back |
| Text.NonBlankLinesAreContent | vocacolle/vocacolle/entities/alignment_with_audio.py:62 | every line kept by the comprehension has a non-space character |
| Text.NatToStringValue | vocacolle/main.py:21-23 | reading back a printed natural number gives the number |
| Text.ZFillDigits | vocacolle/main.py:21-23 | zero-padding a digit string keeps its digits and its value |
| Text.ParseFloatNat | vocacolle/vocacolle/entities/alignment_with_audio.py:102 | `float()` of a printed natural number is that number |

## Left out

- Python floats: seconds are exact reals, and `_str2sec`'s float sums are
  not rounded here.
- SrtDisplay.SecToString: the model's millisecond field is the exact
  fraction of a second truncated to whole milliseconds. The source prints
  the first three digits of the float repr of `second % 1`. That remainder
  is computed in binary and is often just below the decimal value, so the
  source's field is then one millisecond lower than the model's. For
  example, the reply stamp "00:02.300" becomes the float 2.3, and
  `2.3 % 1` is 0.2999999999999998, so the source prints `00:00:02,299`. The
  model prints `00:00:02,300`. The two also differ when the remainder prints
  in exponent form (below 0.0001).
- `Text.ParseFloat` reads plain decimal literals with ASCII digits only.
  Python's `float()` also accepts surrounding white space, exponents, `inf`,
  `nan`, underscores between digits, and non-ASCII decimal digits such as
  fullwidth "１２.５". A time stamp written with such digits is a `BadTime`
  error here, where Python would convert it.
- `Alignment.TranscriptLine`: the start time is printed by a `show`
  parameter. Python's `str` of a float is not modelled.
- The network calls, their `@functools.cache`-style caching (`_cached_fetch`),
  structured output, and the fee computation (`calc_fee`) are left out.
  `Run` takes the reply from a `service` parameter.
- The Gemini file upload is left out; it is the `upload` parameter.
- Pydantic validation is left out. `Response.model_validate_json` is the
  `validate` parameter of `AlignmentWithAudio.AlignmentWithAudio.Run`.
- The Streamlit UI (tabs, session state, audio players, file downloads)
  and whisper transcription are left out.
- The logger is left out, and so is the rest of `_display` after its list loop.
- vocacolle's own `types` module is not part of this model. Its `Lyrics` is
  taken to be the one of sync_lyrics/sync_lyrics/types.py.
- Message roles other than user, assistant, system and tool (function,
  developer) are left out. Content-part types other than text and image_url
  are kept only in the input of `message2tuple`, which skips them.
- Assistant, system and tool messages carry string content only (the
  `ChatMessage` datatype). `message2tuple` copies whatever content they have. The
  OpenAI types also allow a list of text parts there, or None for an
  assistant message that only makes tool calls. Those contents are not
  modelled. The entities send only string content in these roles.
- `SrtDisplay.BuildDisplayList`: every row number is 0, as in the source,
  whose counter `i` is never advanced.
- Exceptions are modelled as `Result` errors. `ValueError` for a bad model
  becomes `UnsupportedModel`; a reply without JSON becomes `CannotParse`; a
  pydantic failure becomes `InvalidResponse`; a `float()` failure becomes
  `BadTime`; a missing parsed response becomes `NoResponse`.

## Findings

| source | as written | input that shows it | evidently intended | confidence | as-written member | corrected member |
|---|---|---|---|---|---|---|
| llm_clients/llm_clients/openai.py:24-41 | the user branch with list content builds the part dicts and never appends a message | the tuples of one user message with content `[{"type": "text", "text": "hi"}]` give an empty message list | append a user message whose content is the part dicts | not executed | OpenAIClient.DropsPartsUser | OpenAIClient.IntendedRoundTrip |
| vocacolle/vocacolle/entities/alignment.py:78-82 | each transcript entry is appended with no line break after it | two transcripts give "1. 0.0: a2. 1.5: b" on one line after the header | one entry per line, as the header line and `_lyrics2str` have | not executed | Alignment.TranscriptsRunTogether | Alignment.IntendedTranscriptsLines |
