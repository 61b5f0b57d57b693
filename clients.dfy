/** The two LLM clients of llm_clients as the alignment entities hold them,
    and the request each one hands to its vendor's SDK. The SDK call itself
    is not part of this model. */
module Clients {
  import opened Messages
  import OpenAIClient
  import GeminiClient

  /** What `genai.upload_file` returns for a path: a handle naming the uploaded file. */
  datatype UploadedFile = UploadedFile(name: string)

  /** `llm_clients.OpenAI(api_key, model)` or `llm_clients.Gemini(api_key, model)`. */
  datatype Client =
    | OpenAI(apiKey: string, model: string)
    | Gemini(apiKey: string, model: string)

  /** The messages `fetch` passes to the SDK: chat parameters for OpenAI,
      content dicts for Gemini. */
  datatype Request =
    | ChatRequest(messages: seq<ChatMessage>)
    | GeminiRequest(contents: seq<GeminiClient.ContentDict<UploadedFile>>)

  /** The ValueError of an entity's `__init__` for a model it does not support. */
  datatype ConfigError = UnsupportedModel(model: string)

  /** The request `fetch` builds from the cached tuples, through the client's
      own `tuple2message` as written (for OpenAI, list-content user messages
      are dropped). */
  function RequestOf(c: Client, upload: string -> UploadedFile, tuples: seq<TupleMessage>): Request
  {
    match c
    case OpenAI(_, _) => ChatRequest(OpenAIClient.ChatParams(tuples))
    case Gemini(_, _) => GeminiRequest(GeminiClient.Contents(upload, tuples))
  }

  /** The conversion step of `fetch`: the client's `tuple2message` applied to the tuples. */
  method BuildRequest(c: Client, upload: string -> UploadedFile, tuples: seq<TupleMessage>)
    returns (request: Request)
    ensures request == RequestOf(c, upload, tuples)
    ensures request.ChatRequest? <==> c.OpenAI?
  {
    match c
    case OpenAI(_, _) =>
      var messages := OpenAIClient.TupleToMessage(tuples);
      request := ChatRequest(messages);
    case Gemini(_, _) =>
      var contents := GeminiClient.TupleToMessage(upload, tuples);
      request := GeminiRequest(contents);
  }
}
