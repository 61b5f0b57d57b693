/** The speech-to-text record of llm_clients' types.py. */
module Transcripts {
  /** One transcribed utterance: when it starts and ends, in seconds, and its text. */
  datatype Transcript = Transcript(start: real, end: real, text: string)
}
