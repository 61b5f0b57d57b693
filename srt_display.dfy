/** The display helpers the two front ends (vocacolle/main.py and
    sync_lyrics/main.py) define with the same bodies: `sec2str`, `output_srt`,
    the text `write_srt` renders, and the untimed lyric list `_display` builds
    to compare an alignment against. */
module SrtDisplay {
  import opened Wrappers
  import opened Seqs
  import opened Text
  import opened Types

  /** The default line break of `output_srt`: vocacolle uses a newline,
      sync_lyrics an HTML break; both `write_srt`s use the HTML break. */
  const VocacolleLinebreak := "\n"
  const SyncLyricsLinebreak := "<br>"

  /** What `sec2str` shows for a missing time. */
  const Placeholder := "--:--:--,---"

  predicate IsTimeChar(c: char) { IsDigit(c) || c == ':' || c == ',' || c == '-' }

  predicate TimeChars(s: string) { forall k :: 0 <= k < |s| ==> IsTimeChar(s[k]) }

  lemma TimeCharsConcat(a: string, b: string)
    requires TimeChars(a) && TimeChars(b)
    ensures TimeChars(a + b)
  {
  }

  /** The f-string "{hh}:{mm}:{ss},{ms}". */
  function FormatTime(hh: string, mm: string, ss: string, ms: string): (r: string)
    ensures |r| == |hh| + |mm| + |ss| + |ms| + 3
    ensures |ms| > 0 ==> r[|r| - 1] == ms[|ms| - 1]
  {
    hh + [':'] + mm + [':'] + (ss + [','] + ms)
  }

  lemma FormatTimeChars(hh: string, mm: string, ss: string, ms: string)
    requires TimeChars(hh) && TimeChars(mm) && TimeChars(ss) && TimeChars(ms)
    ensures TimeChars(FormatTime(hh, mm, ss, ms))
  {
    TimeCharsConcat(ss, [',']);
    TimeCharsConcat(ss + [','], ms);
    TimeCharsConcat(hh, [':']);
    TimeCharsConcat(hh + [':'], mm);
    TimeCharsConcat(hh + [':'] + mm, [':']);
    TimeCharsConcat(hh + [':'] + mm + [':'], ss + [','] + ms);
  }

  /** `str(n).zfill(width)` for an int: digits and at most a sign. */
  lemma PaddedIntChars(i: int, width: nat)
    ensures TimeChars(ZFill(IntToString(i), width))
  {
  }

  /** `sec2str`: "hh:mm:ss,mmm", the milliseconds truncated, or the
      placeholder for None. Python's `%` and `//` by a positive divisor floor,
      as Dafny's `%` and `/` do; the millisecond field is the first three
      decimals of `second % 1`. */
  function SecToString(t: Option<real>): (r: string)
    ensures t.None? <==> r == Placeholder
    ensures TimeChars(r)
  {
    match t
    case None => Placeholder
    case Some(x) =>
      var f := x.Floor;
      var msDigits := NatToString(((x - f as real) * 1000.0).Floor);
      var ms := ZFill(msDigits, 3);
      var minute := f / 60;
      var ss := ZFill(IntToString(f % 60), 2);
      var mm := ZFill(IntToString(minute % 60), 2);
      var hh := ZFill(IntToString(minute / 60), 2);
      ZFillDigits(msDigits, 3);
      PaddedIntChars(f % 60, 2);
      PaddedIntChars(minute % 60, 2);
      PaddedIntChars(minute / 60, 2);
      assert IsDigit(ms[|ms| - 1]);
      assert TimeChars(ms);
      FormatTimeChars(hh, mm, ss, ms);
      FormatTime(hh, mm, ss, ms)
  }

  /** A field of decimal digits. */
  predicate DecimalField(s: string) { |s| > 0 && AllDigits(s) }

  /** A reader for "h:m:s,mmm" time stamps (three-digit milliseconds),
      giving the time in whole milliseconds. */
  function ParseSrtTime(s: string): Option<int>
  {
    var parts := Split(s, ':');
    if |parts| != 3 then None
    else
      var tail := Split(parts[2], ',');
      if |tail| == 2 && |tail[1]| == 3
         && DecimalField(parts[0]) && DecimalField(parts[1]) && DecimalField(tail[0]) && DecimalField(tail[1])
      then Some(((DigitsValue(parts[0]) * 60 + DigitsValue(parts[1])) * 60 + DigitsValue(tail[0])) * 1000 + DigitsValue(tail[1]))
      else None
  }

  /** A zero-padded `str(n)` holds only digits and reads back as `n`. */
  lemma PaddedValue(n: nat, width: nat)
    ensures DecimalField(ZFill(NatToString(n), width))
    ensures DigitsValue(ZFill(NatToString(n), width)) == n
  {
    ZFillDigits(NatToString(n), width);
    NatToStringValue(n);
  }

  lemma DigitsHaveNo(s: string, c: char)
    requires AllDigits(s) && !IsDigit(c)
    ensures c !in s
  {
    assert forall k :: 0 <= k < |s| ==> s[k] != c;
  }

  /** Adding a whole number to a real shifts its floor by that number. */
  lemma FloorShift(k: int, y: real)
    ensures (k as real + y).Floor == k + y.Floor
  {
  }

  /** Reading back formatted digit fields gives their value in milliseconds. */
  lemma ParseFormatTime(hh: string, mm: string, ss: string, ms: string)
    requires DecimalField(hh) && DecimalField(mm) && DecimalField(ss) && DecimalField(ms) && |ms| == 3
    ensures ParseSrtTime(FormatTime(hh, mm, ss, ms))
      == Some(((DigitsValue(hh) * 60 + DigitsValue(mm)) * 60 + DigitsValue(ss)) * 1000 + DigitsValue(ms))
  {
    DigitsHaveNo(hh, ':');
    DigitsHaveNo(mm, ':');
    DigitsHaveNo(ss, ':');
    DigitsHaveNo(ms, ':');
    DigitsHaveNo(ss, ',');
    DigitsHaveNo(ms, ',');
    SplitHeaderBody(ss, ms, ',');
    assert ':' !in ss + [','] + ms;
    SplitThree(hh, mm, ss + [','] + ms, ':');
  }

  /** Hours, minutes and seconds as `sec2str` computes them make up the seconds. */
  lemma ClockFields(f: int)
    requires f >= 0
    ensures (f / 60 / 60 * 60 + f / 60 % 60) * 60 + f % 60 == f
  {
  }

  /** Whole seconds and the truncated milliseconds make up the truncated
      time in milliseconds. */
  lemma MillisecondsSplit(x: real)
    ensures var f := x.Floor;
      f * 1000 + ((x - f as real) * 1000.0).Floor == (x * 1000.0).Floor
  {
    var f := x.Floor;
    FloorShift(f * 1000, (x - f as real) * 1000.0);
    assert x * 1000.0 == (f * 1000) as real + (x - f as real) * 1000.0;
  }

  /** For a time that is not negative every field is a padded `str` of a
      natural number. */
  lemma SecToStringFields(x: real)
    requires x >= 0.0
    ensures var f := x.Floor;
      var minute := f / 60;
      SecToString(Some(x)) == FormatTime(ZFill(NatToString(minute / 60), 2), ZFill(NatToString(minute % 60), 2),
                                         ZFill(NatToString(f % 60), 2), ZFill(NatToString(((x - f as real) * 1000.0).Floor), 3))
  {
  }

  /** Whole seconds `f` and milliseconds `n` below a second, formatted the
      way `sec2str` does, read back as `f * 1000 + n`. */
  lemma ClockReadBack(f: int, n: int)
    requires f >= 0 && 0 <= n < 1000
    ensures ParseSrtTime(FormatTime(ZFill(NatToString(f / 60 / 60), 2), ZFill(NatToString(f / 60 % 60), 2),
                                    ZFill(NatToString(f % 60), 2), ZFill(NatToString(n), 3)))
      == Some(f * 1000 + n)
  {
    var h, m, sec := f / 60 / 60, f / 60 % 60, f % 60;
    ClockFields(f);
    PaddedReadBack(h, m, sec, n);
    assert ((h * 60 + m) * 60 + sec) * 1000 + n == f * 1000 + n;
  }

  /** Padded fields with the given values read back as their total in milliseconds. */
  lemma PaddedReadBack(h: nat, m: nat, sec: nat, n: nat)
    requires n < 1000
    ensures ParseSrtTime(FormatTime(ZFill(NatToString(h), 2), ZFill(NatToString(m), 2),
                                    ZFill(NatToString(sec), 2), ZFill(NatToString(n), 3)))
      == Some(((h * 60 + m) * 60 + sec) * 1000 + n)
  {
    var hh, mm, ss, ms := ZFill(NatToString(h), 2), ZFill(NatToString(m), 2),
                          ZFill(NatToString(sec), 2), ZFill(NatToString(n), 3);
    PaddedValue(n, 3);
    PaddedValue(sec, 2);
    PaddedValue(m, 2);
    PaddedValue(h, 2);
    PaddedWidth(n);
    FieldsWithValues(h, m, sec, n, hh, mm, ss, ms);
  }

  lemma PaddedWidth(n: nat)
    requires n < 1000
    ensures |ZFill(NatToString(n), 3)| == 3
  {
    assert |NatToString(n)| <= 3;
  }

  /** Digit fields read back as the total of their values in milliseconds. */
  lemma FieldsWithValues(h: nat, m: nat, sec: nat, n: nat, hh: string, mm: string, ss: string, ms: string)
    requires DecimalField(hh) && DecimalField(mm) && DecimalField(ss) && DecimalField(ms) && |ms| == 3
    requires DigitsValue(hh) == h && DigitsValue(mm) == m && DigitsValue(ss) == sec && DigitsValue(ms) == n
    ensures ParseSrtTime(FormatTime(hh, mm, ss, ms)) == Some(((h * 60 + m) * 60 + sec) * 1000 + n)
  {
    ParseFormatTime(hh, mm, ss, ms);
  }

  /** The fraction of a second, in whole milliseconds, is below 1000. */
  lemma FractionMilliseconds(x: real)
    ensures 0 <= ((x - x.Floor as real) * 1000.0).Floor < 1000
  {
  }

  /** For a time that is not negative, reading back what `sec2str` prints
      gives the time truncated to whole milliseconds. */
  lemma SecToStringReadsBack(x: real)
    requires x >= 0.0
    ensures ParseSrtTime(SecToString(Some(x))) == Some((x * 1000.0).Floor)
  {
    SecToStringFields(x);
    FractionMilliseconds(x);
    ClockReadBack(x.Floor, ((x - x.Floor as real) * 1000.0).Floor);
    MillisecondsSplit(x);
  }

  /** Under 100 hours, the shown time is always 12 characters wide, with the
      separators in place. */
  lemma SecToStringWidth(x: real)
    requires 0.0 <= x < 360000.0
    ensures var r := SecToString(Some(x));
      |r| == 12 && r[2] == ':' && r[5] == ':' && r[8] == ','
  {
    var f := x.Floor;
    var minute := f / 60;
    assert minute / 60 < 100;
  }

  // ---- output_srt ----

  /** "start --> end" */
  function TimeRange(l: Lyrics): string
  {
    SecToString(l.startSecond) + " --> " + SecToString(l.endSecond)
  }

  /** The time line, in bold blue when highlighted. */
  function TimeLine(l: Lyrics, highlight: bool): string
  {
    if highlight then "<b><font color=\"blue\">" + TimeRange(l) + "</font></b>" else TimeRange(l)
  }

  /** A block is highlighted when there is a previous version of the line and
      it had no start time: the time stamp is new. */
  predicate Highlighted(prev: Option<Lyrics>)
  {
    prev.Some? && prev.value.startSecond.None?
  }

  /** The three lines of an SRT block: row number, time line, lyric. */
  function SrtLines(l: Lyrics, prev: Option<Lyrics>): seq<string>
  {
    [IntToString(l.lyricsRow), TimeLine(l, Highlighted(prev)), l.lyrics]
  }

  /** `output_srt`: the SRT lines joined by `linebreak`. */
  function SrtBlock(l: Lyrics, prev: Option<Lyrics>, linebreak: string): string
  {
    Join(SrtLines(l, prev), linebreak)
  }

  /** `output_srt`, appending the three lines to a list and joining it. */
  method OutputSrt(l: Lyrics, prev: Option<Lyrics>, linebreak: string) returns (s: string)
    ensures s == SrtBlock(l, prev, linebreak)
  {
    var srtList: seq<string> := [];
    srtList := srtList + [IntToString(l.lyricsRow)];
    if prev.Some? && prev.value.startSecond.None? {
      srtList := srtList + ["<b><font color=\"blue\">" + TimeRange(l) + "</font></b>"];
    } else {
      srtList := srtList + [TimeRange(l)];
    }
    srtList := srtList + [l.lyrics];
    assert srtList == SrtLines(l, prev);
    s := Join(srtList, linebreak);
  }

  /** The time line opens with markup exactly when the block is highlighted
      (a plain time line opens with a digit, a sign or the placeholder). */
  lemma HighlightShows(l: Lyrics, prev: Option<Lyrics>)
    ensures SrtLines(l, prev)[1][0] == '<' <==> Highlighted(prev)
  {
    var t := SecToString(l.startSecond);
    assert IsTimeChar(t[0]);
  }

  lemma TimeLineSingle(l: Lyrics, highlight: bool)
    ensures '\n' !in TimeLine(l, highlight)
  {
    var a := SecToString(l.startSecond);
    var b := SecToString(l.endSecond);
    assert forall k :: 0 <= k < |a| ==> a[k] != '\n';
    assert forall k :: 0 <= k < |b| ==> b[k] != '\n';
    var range := TimeRange(l);
    assert forall k :: 0 <= k < |range| ==> range[k] != '\n';
    var line := TimeLine(l, highlight);
    assert forall k :: 0 <= k < |line| ==> line[k] != '\n';
  }

  /** With vocacolle's newline default and a one-line lyric, the block reads
      back as its three SRT lines. */
  lemma SrtBlockLines(l: Lyrics, prev: Option<Lyrics>)
    requires '\n' !in l.lyrics
    ensures Split(SrtBlock(l, prev, VocacolleLinebreak), '\n') == SrtLines(l, prev)
  {
    var row := IntToString(l.lyricsRow);
    assert forall k :: 0 <= k < |row| ==> row[k] != '\n';
    TimeLineSingle(l, Highlighted(prev));
    SplitJoin(SrtLines(l, prev), '\n');
  }

  // ---- write_srt ----

  /** The blocks `write_srt` joins: one per lyric without a previous list,
      otherwise one per pair of `zip(lyrics_list, prev_lyrics_list)`, which
      stops at the shorter list. */
  function SrtBlocks(ls: seq<Lyrics>, prevs: Option<seq<Lyrics>>): (r: seq<string>)
    ensures prevs.None? ==> |r| == |ls|
    ensures prevs.Some? ==> |r| == if |ls| <= |prevs.value| then |ls| else |prevs.value|
  {
    match prevs
    case None => seq(|ls|, i requires 0 <= i < |ls| => SrtBlock(ls[i], None, SyncLyricsLinebreak))
    case Some(ps) =>
      var n := if |ls| <= |ps| then |ls| else |ps|;
      seq(n, i requires 0 <= i < n => SrtBlock(ls[i], Some(ps[i]), SyncLyricsLinebreak))
  }

  const HtmlOpen := "<div style=\"max-width: 600px; max-height: 600px; overflow: auto; overflow-y: scroll;\"><span style=\"white-space: nowrap; font-family: monospace; font-size: 90%;\">"
  const HtmlClose := "</br></span></div>"

  /** The HTML `write_srt` hands to the page: the blocks joined by "<br>"
      inside a scrolling monospace box. */
  function SrtHtml(ls: seq<Lyrics>, prevs: Option<seq<Lyrics>>): (r: string)
    ensures |r| >= |HtmlOpen| + |HtmlClose|
    ensures r[..|HtmlOpen|] == HtmlOpen && r[|r| - |HtmlClose|..] == HtmlClose
    ensures |ls| == 1 && prevs.None? ==> r == HtmlOpen + SrtBlock(ls[0], None, SyncLyricsLinebreak) + HtmlClose
  {
    HtmlOpen + Join(SrtBlocks(ls, prevs), SyncLyricsLinebreak) + HtmlClose
  }

  // ---- _display ----

  /** Untimed lyrics, one per line, every row 0 (the counter of `_display`
      starts at 0 and is never advanced). */
  function Untimed(lines: seq<string>): (r: seq<Lyrics>)
    ensures |r| == |lines|
  {
    seq(|lines|, j requires 0 <= j < |lines| => Lyrics(None, None, lines[j], 0))
  }

  /** The list `_display` builds from the lyrics. */
  function DisplayLyrics(lyrics: string): seq<Lyrics>
  {
    Untimed(NonBlankLines(lyrics))
  }

  /** The loop of `_display` that builds the untimed list. */
  method BuildDisplayList(lyrics: string) returns (lyricsList: seq<Lyrics>)
    ensures lyricsList == DisplayLyrics(lyrics)
  {
    var i := 0;
    lyricsList := [];
    var lines := Split(lyrics, '\n');
    for k := 0 to |lines|
      invariant lyricsList == Untimed(Filter(IsContentLine, lines[..k]))
    {
      FilterSnoc(IsContentLine, lines, k);
      if IsContentLine(lines[k]) {
        lyricsList := lyricsList + [Lyrics(None, None, lines[k], i)];
      }
    }
    assert lines[..|lines|] == lines;
  }

  /** The display list holds the lyric lines that are not blank, in order:
      the same lines, in the same order, as the numbered block of the audio
      prompt. */
  lemma DisplayLyricsLines(lyrics: string)
    ensures var ls := DisplayLyrics(lyrics);
      |ls| == |NonBlankLines(lyrics)|
      && forall j :: 0 <= j < |ls| ==> ls[j].lyrics == NonBlankLines(lyrics)[j] && IsContentLine(ls[j].lyrics)
  {
    NonBlankLinesAreContent(lyrics);
  }

  /** Without a previous list no block is highlighted: each time line is
      the plain time range. */
  lemma NoPreviousNoHighlight(ls: seq<Lyrics>)
    ensures var blocks := SrtBlocks(ls, None);
      forall i :: 0 <= i < |blocks| ==>
        blocks[i] == Join(SrtLines(ls[i], None), SyncLyricsLinebreak)
        && SrtLines(ls[i], None)[1] == TimeRange(ls[i])
  {
  }

  /** Shown against the display list, every time stamp of an alignment
      counts as new: each block `write_srt` shows is highlighted. */
  lemma AlignmentAllHighlighted(ls: seq<Lyrics>, lyrics: string)
    ensures var prevs := DisplayLyrics(lyrics);
      var blocks := SrtBlocks(ls, Some(prevs));
      forall i :: 0 <= i < |blocks| ==>
        blocks[i] == Join(SrtLines(ls[i], Some(prevs[i])), SyncLyricsLinebreak)
        && SrtLines(ls[i], Some(prevs[i]))[1] == "<b><font color=\"blue\">" + TimeRange(ls[i]) + "</font></b>"
  {
  }
}
