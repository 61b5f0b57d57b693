/** The lyric record the alignment entities return and the player displays
    (`Lyrics` in sync_lyrics/types.py). */
module Types {
  import opened Wrappers

  /** A lyric line with its start and end in seconds (either may be missing)
      and its 1-based line number in the numbered lyric block. */
  datatype Lyrics = Lyrics(startSecond: Option<real>, endSecond: Option<real>, lyrics: string, lyricsRow: int)
}
