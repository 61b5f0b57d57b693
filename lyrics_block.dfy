/** `_lyrics2str`, which alignment.py and alignment_with_audio.py define
    with the same body: the numbered lyric block put into the prompt. */
module LyricsBlock {
  import opened Seqs
  import opened Text

  const Header := "行番号. 歌詞\n"

  /** The entry of a non-blank line numbered `row`. */
  function RowLine(row: nat, line: string): string
  {
    NatToString(row) + ". " + line + "\n"
  }

  /** The entries `_lyrics2str` appends, the first non-blank line being
      numbered `row`: a blank line gives a bare line break and does not use
      up a number. */
  function Numbered(lines: seq<string>, row: nat): seq<string>
  {
    if lines == [] then []
    else if IsContentLine(lines[0]) then [RowLine(row, lines[0])] + Numbered(lines[1..], row + 1)
    else ["\n"] + Numbered(lines[1..], row)
  }

  function BlockText(lines: seq<string>): string
  {
    Header + Flatten(Numbered(lines, 1))
  }

  /** The numbering picks up after a prefix where the prefix's non-blank lines left it. */
  lemma {:induction false} NumberedAppend(a: seq<string>, b: seq<string>, row: nat)
    ensures Numbered(a + b, row) == Numbered(a, row) + Numbered(b, row + |Filter(IsContentLine, a)|)
  {
    if a == [] {
      assert a + b == b;
    } else {
      assert (a + b)[0] == a[0];
      assert (a + b)[1..] == a[1..] + b;
      NumberedAppend(a[1..], b, if IsContentLine(a[0]) then row + 1 else row);
    }
  }

  /** `_lyrics2str`: the header, then one entry per line in line order. */
  method LyricsToString(lyrics: seq<string>) returns (s: string)
    ensures s == BlockText(lyrics)
  {
    var i: nat := 1;
    var body: string := "";
    for k := 0 to |lyrics|
      invariant i == 1 + |Filter(IsContentLine, lyrics[..k])|
      invariant body == Flatten(Numbered(lyrics[..k], 1))
    {
      NumberedSnoc(lyrics, k);
      FlattenAppend(Numbered(lyrics[..k], 1), Numbered([lyrics[k]], i));
      FilterSnoc(IsContentLine, lyrics, k);
      if IsContentLine(lyrics[k]) {
        body := body + RowLine(i, lyrics[k]);
        i := i + 1;
      } else {
        body := body + "\n";
      }
    }
    assert lyrics[..|lyrics|] == lyrics;
    s := Header + body;
  }

  lemma NumberedSnoc(lines: seq<string>, k: nat)
    requires k < |lines|
    ensures Numbered(lines[..k + 1], 1)
      == Numbered(lines[..k], 1) + Numbered([lines[k]], 1 + |Filter(IsContentLine, lines[..k])|)
  {
    assert lines[..k + 1] == lines[..k] + [lines[k]];
    NumberedAppend(lines[..k], [lines[k]], 1);
  }

  /** One entry per line; a blank line gives "\n" and a non-blank line is
      numbered one past the count of non-blank lines before it. */
  lemma {:induction false} NumberedAt(lines: seq<string>, row: nat, k: nat)
    requires k < |lines|
    ensures |Numbered(lines, row)| == |lines|
    ensures Numbered(lines, row)[k] ==
      if IsContentLine(lines[k]) then RowLine(row + |Filter(IsContentLine, lines[..k])|, lines[k])
      else "\n"
  {
    assert lines == lines[..k] + [lines[k]] + lines[k + 1..];
    NumberedAppend(lines[..k] + [lines[k]], lines[k + 1..], row);
    NumberedAppend(lines[..k], [lines[k]], row);
    NumberedLength(lines[..k], row);
    NumberedLength(lines[k + 1..], row);
    NumberedLength(lines, row);
  }

  lemma {:induction false} NumberedLength(lines: seq<string>, row: nat)
    ensures |Numbered(lines, row)| == |lines|
  {
    if lines != [] {
      NumberedLength(lines[1..], if IsContentLine(lines[0]) then row + 1 else row);
    }
  }

  predicate IsRowEntry(e: string) { e != "\n" }

  /** The numbered entries are "1. l1", "2. l2", ... for the non-blank lines
      l1, l2, ... in order: numbers run consecutively and there are exactly
      as many as there are non-blank lines. */
  lemma {:induction false} NumberedRows(lines: seq<string>, row: nat)
    ensures var text := Filter(IsContentLine, lines);
      Filter(IsRowEntry, Numbered(lines, row))
        == seq(|text|, j requires 0 <= j < |text| => RowLine(row + j, text[j]))
  {
    if lines != [] {
      var text := Filter(IsContentLine, lines);
      if IsContentLine(lines[0]) {
        NumberedRows(lines[1..], row + 1);
        var rest := Filter(IsContentLine, lines[1..]);
        assert text == [lines[0]] + rest;
        assert |RowLine(row, lines[0])| > 1;
        assert Numbered(lines, row) == [RowLine(row, lines[0])] + Numbered(lines[1..], row + 1);
        FilterAppend(IsRowEntry, [RowLine(row, lines[0])], Numbered(lines[1..], row + 1));
      } else {
        NumberedRows(lines[1..], row);
        assert Numbered(lines, row) == ["\n"] + Numbered(lines[1..], row);
        FilterAppend(IsRowEntry, ["\n"], Numbered(lines[1..], row));
      }
    }
  }

  /** Without blank lines every entry is numbered: the entry of line j is "j+1. line". */
  lemma NumberedWithoutBlanks(lines: seq<string>, row: nat)
    requires forall k :: 0 <= k < |lines| ==> IsContentLine(lines[k])
    ensures Numbered(lines, row) == seq(|lines|, j requires 0 <= j < |lines| => RowLine(row + j, lines[j]))
  {
    NumberedLength(lines, row);
    forall j | 0 <= j < |lines|
      ensures Numbered(lines, row)[j] == RowLine(row + j, lines[j])
    {
      NumberedAt(lines, row, j);
      AllKept(lines[..j]);
    }
  }

  lemma {:induction false} AllKept(lines: seq<string>)
    requires forall k :: 0 <= k < |lines| ==> IsContentLine(lines[k])
    ensures Filter(IsContentLine, lines) == lines
  {
    if lines != [] {
      AllKept(lines[1..]);
    }
  }
}
