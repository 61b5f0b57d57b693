/** The pieces of Python's string handling the core relies on: the `\s`
    character class, `str.split` with one separator character, `str(int)`,
    `str.zfill` and `float()` on plain decimal literals. */
module Text {
  import opened Wrappers
  import opened Seqs

  /** Python's `str.isspace`, which is also what `\s` matches in a `str` pattern:
      the ASCII controls tab to carriage return and 0x1c-0x1f, space, NEL,
      no-break space and the Unicode separators up to the ideographic space. */
  predicate IsSpace(c: char)
  {
    var n := c as int;
    n == 0x20 || 0x09 <= n <= 0x0d || 0x1c <= n <= 0x1f || n == 0x85 || n == 0xa0
    || n == 0x1680 || 0x2000 <= n <= 0x200a || n == 0x2028 || n == 0x2029
    || n == 0x202f || n == 0x205f || n == 0x3000
  }

  /** `re.sub(r"^\s+$", "", line) != ""`: the line has a character that is not
      white space. (An empty line and a line of white space both become "".) */
  predicate IsContentLine(line: string)
  {
    exists k | 0 <= k < |line| :: !IsSpace(line[k])
  }

  /** `[l for l in s.split("\n") if re.sub(r"^\s+$", "", l) != ""]`: the lines
      of `s` that are not blank. */
  function NonBlankLines(s: string): seq<string>
  {
    Filter(IsContentLine, Split(s, '\n'))
  }

  /** Every line `NonBlankLines` keeps is a content line. */
  lemma NonBlankLinesAreContent(s: string)
    ensures forall k :: 0 <= k < |NonBlankLines(s)| ==> IsContentLine(NonBlankLines(s)[k])
  {
    var lines := NonBlankLines(s);
    FilterMembers(IsContentLine, Split(s, '\n'));
    assert forall k :: 0 <= k < |lines| ==> lines[k] in lines;
  }

  /** `s.split(sep)` for a one-character separator. */
  function Split(s: string, sep: char): (r: seq<string>)
    ensures |r| >= 1
    ensures forall k :: 0 <= k < |r| ==> sep !in r[k]
    ensures Join(r, [sep]) == s
  {
    if s == [] then [""]
    else
      var rest := Split(s[1..], sep);
      if s[0] == sep then [""] + rest
      else [[s[0]] + rest[0]] + rest[1..]
  }

  /** Splitting a joined list gives the list back when no piece holds the separator. */
  lemma {:induction false} SplitJoin(parts: seq<string>, sep: char)
    requires |parts| >= 1
    requires forall k :: 0 <= k < |parts| ==> sep !in parts[k]
    ensures Split(Join(parts, [sep]), sep) == parts
  {
    if |parts| == 1 {
      SplitNoSeparator(parts[0], sep);
    } else {
      SplitJoin(parts[1..], sep);
      assert Join(parts, [sep]) == parts[0] + [sep] + Join(parts[1..], [sep]);
      SplitConcat(parts[0], Join(parts[1..], [sep]), sep);
      SplitNoSeparator(parts[0], sep);
    }
  }

  lemma {:induction false} SplitNoSeparator(s: string, sep: char)
    requires sep !in s
    ensures Split(s, sep) == [s]
  {
    if s != [] {
      SplitNoSeparator(s[1..], sep);
    }
  }

  /** A separator between `a` and `b` splits them apart. */
  lemma {:induction false} SplitConcat(a: string, b: string, sep: char)
    ensures Split(a + [sep] + b, sep) == Split(a, sep) + Split(b, sep)
  {
    if a == [] {
      assert a + [sep] + b == [sep] + b;
      assert ([sep] + b)[1..] == b;
    } else {
      assert (a + [sep] + b)[0] == a[0];
      assert (a + [sep] + b)[1..] == a[1..] + [sep] + b;
      SplitConcat(a[1..], b, sep);
    }
  }

  /** Each piece followed by the separator, as a loop of `acc += piece + sep` builds them. */
  function Terminated(pieces: seq<string>, sep: char): seq<string>
  {
    seq(|pieces|, i requires 0 <= i < |pieces| => pieces[i] + [sep])
  }

  /** Splitting separator-terminated pieces gives the pieces back, then the
      empty string after the last separator. */
  lemma {:induction false} SplitTerminated(pieces: seq<string>, sep: char)
    requires forall k :: 0 <= k < |pieces| ==> sep !in pieces[k]
    ensures Split(Flatten(Terminated(pieces, sep)), sep) == pieces + [""]
  {
    if pieces != [] {
      var t := Terminated(pieces, sep);
      assert t[1..] == Terminated(pieces[1..], sep);
      SplitTerminated(pieces[1..], sep);
      assert Flatten(t) == pieces[0] + [sep] + Flatten(t[1..]);
      SplitConcat(pieces[0], Flatten(t[1..]), sep);
      SplitNoSeparator(pieces[0], sep);
      assert pieces == [pieces[0]] + pieces[1..];
    }
  }

  /** A header line, the separator and a body without it split into those two lines. */
  lemma SplitHeaderBody(header: string, body: string, sep: char)
    requires sep !in header && sep !in body
    ensures Split(header + [sep] + body, sep) == [header, body]
  {
    SplitConcat(header, body, sep);
    SplitNoSeparator(header, sep);
    SplitNoSeparator(body, sep);
  }

  /** Three pieces without the separator, joined by it, split back into them. */
  lemma SplitThree(a: string, b: string, c: string, sep: char)
    requires sep !in a && sep !in b && sep !in c
    ensures Split(a + [sep] + b + [sep] + c, sep) == [a, b, c]
  {
    SplitHeaderBody(b, c, sep);
    assert a + [sep] + b + [sep] + c == a + [sep] + (b + [sep] + c);
    SplitConcat(a, b + [sep] + c, sep);
    SplitNoSeparator(a, sep);
  }

  /** A header line, the separator and separator-terminated pieces split into
      the header, the pieces and a final empty string. */
  lemma SplitHeaderLines(header: string, pieces: seq<string>, sep: char)
    requires sep !in header
    requires forall k :: 0 <= k < |pieces| ==> sep !in pieces[k]
    ensures Split(header + [sep] + Flatten(Terminated(pieces, sep)), sep) == [header] + pieces + [""]
  {
    SplitConcat(header, Flatten(Terminated(pieces, sep)), sep);
    SplitNoSeparator(header, sep);
    SplitTerminated(pieces, sep);
  }

  // ---- decimal digits ----

  predicate IsDigit(c: char) { '0' <= c <= '9' }

  predicate AllDigits(s: string) { forall k :: 0 <= k < |s| ==> IsDigit(s[k]) }

  function DigitChar(d: nat): (c: char)
    requires d < 10
    ensures IsDigit(c)
  {
    ('0' as int + d) as char
  }

  function DigitValue(c: char): nat
  {
    if IsDigit(c) then c as int - '0' as int else 0
  }

  /** The number a string of decimal digits denotes (leading zeros allowed). */
  function DigitsValue(s: string): nat
  {
    if s == [] then 0 else DigitsValue(s[..|s| - 1]) * 10 + DigitValue(s[|s| - 1])
  }

  /** `str(n)` for a non-negative int. */
  function NatToString(n: nat): (r: string)
    ensures |r| >= 1 && AllDigits(r)
    ensures r[0] == '0' ==> n == 0
    ensures n < 10 <==> |r| == 1
    ensures 10 <= n < 100 ==> |r| == 2
    ensures 100 <= n < 1000 ==> |r| == 3
  {
    if n < 10 then [DigitChar(n)] else NatToString(n / 10) + [DigitChar(n % 10)]
  }

  /** Reading back what `str(n)` printed gives `n`. */
  lemma {:induction false} NatToStringValue(n: nat)
    ensures DigitsValue(NatToString(n)) == n
  {
    if n >= 10 {
      var s := NatToString(n);
      assert s[..|s| - 1] == NatToString(n / 10);
      NatToStringValue(n / 10);
    }
  }

  /** `str(i)` for any int. */
  function IntToString(i: int): (r: string)
    ensures |r| >= 1
    ensures i >= 0 ==> r == NatToString(i)
    ensures i < 0 ==> r[0] == '-' && r[1..] == NatToString(-i)
    ensures forall k :: 0 <= k < |r| ==> IsDigit(r[k]) || r[k] == '-'
  {
    if i < 0 then "-" + NatToString(-i) else NatToString(i)
  }

  function Zeros(n: nat): (r: string)
    ensures |r| == n && AllDigits(r)
    ensures forall k :: 0 <= k < n ==> r[k] == '0'
  {
    if n == 0 then "" else "0" + Zeros(n - 1)
  }

  /** Python's `s.zfill(width)`: pad on the left with '0' up to `width`,
      keeping a leading sign in front of the padding. */
  function ZFill(s: string, width: nat): (r: string)
    ensures |r| == if |s| >= width then |s| else width
    ensures forall k :: 0 <= k < |r| ==> r[k] == '0' || r[k] in s
  {
    if |s| >= width then s
    else if |s| > 0 && (s[0] == '+' || s[0] == '-') then [s[0]] + Zeros(width - |s|) + s[1..]
    else Zeros(width - |s|) + s
  }

  /** Padding a digit string with zeros keeps it a digit string with the same value. */
  lemma ZFillDigits(s: string, width: nat)
    requires AllDigits(s)
    ensures AllDigits(ZFill(s, width))
    ensures DigitsValue(ZFill(s, width)) == DigitsValue(s)
  {
    if |s| < width {
      if |s| > 0 {
        assert IsDigit(s[0]);
      }
      LeadingZeros(Zeros(width - |s|), s);
    }
  }

  lemma {:induction false} LeadingZeros(z: string, s: string)
    requires forall k :: 0 <= k < |z| ==> z[k] == '0'
    ensures DigitsValue(z + s) == DigitsValue(s)
  {
    if s == [] {
      assert z + s == z;
      AllZerosValue(z);
    } else {
      var t := s[..|s| - 1];
      assert (z + s)[..|z + s| - 1] == z + t;
      LeadingZeros(z, t);
    }
  }

  lemma {:induction false} AllZerosValue(z: string)
    requires forall k :: 0 <= k < |z| ==> z[k] == '0'
    ensures DigitsValue(z) == 0
  {
    if z != [] {
      AllZerosValue(z[..|z| - 1]);
    }
  }

  function Pow10(n: nat): (r: nat)
    ensures r >= 1
  {
    if n == 0 then 1 else 10 * Pow10(n - 1)
  }

  /** Index of the first occurrence of `c` in `s`. */
  function FirstIndexOf(s: string, c: char): (r: Option<nat>)
    ensures r.Some? <==> c in s
    ensures r.Some? ==> r.value < |s| && s[r.value] == c
                        && forall k :: 0 <= k < r.value ==> s[k] != c
  {
    if s == [] then None
    else if s[0] == c then Some(0)
    else match FirstIndexOf(s[1..], c)
      case None => None
      case Some(i) => Some(i + 1)
  }

  /** Index of the last occurrence of `c` in `s`. */
  function LastIndexOf(s: string, c: char): (r: Option<nat>)
    ensures r.Some? <==> c in s
    ensures r.Some? ==> r.value < |s| && s[r.value] == c
                        && forall k :: r.value < k < |s| ==> s[k] != c
  {
    if s == [] then None
    else if s[|s| - 1] == c then Some(|s| - 1)
    else LastIndexOf(s[..|s| - 1], c)
  }

  /** `float(s)` for a plain decimal literal: an optional sign, then digits with
      at most one '.', and at least one digit. Anything else raises ValueError
      in Python and is None here. */
  function ParseFloat(s: string): (r: Option<real>)
  {
    if |s| > 0 && s[0] == '-' then
      match ParseUnsigned(s[1..]) case Some(v) => Some(-v) case None => None
    else if |s| > 0 && s[0] == '+' then ParseUnsigned(s[1..])
    else ParseUnsigned(s)
  }

  function ParseUnsigned(s: string): (r: Option<real>)
    ensures r.Some? ==> r.value >= 0.0
  {
    match FirstIndexOf(s, '.')
    case None =>
      if |s| > 0 && AllDigits(s) then Some(DigitsValue(s) as real) else None
    case Some(p) =>
      var whole, frac := s[..p], s[p + 1..];
      if |whole| + |frac| > 0 && AllDigits(whole) && AllDigits(frac)
      then Some(DigitsValue(whole) as real + DigitsValue(frac) as real / Pow10(|frac|) as real)
      else None
  }

  /** `float(str(n))` is `n`. */
  lemma ParseFloatNat(n: nat)
    ensures ParseFloat(NatToString(n)) == Some(n as real)
  {
    var s := NatToString(n);
    assert forall k :: 0 <= k < |s| ==> s[k] != '.';
    NatToStringValue(n);
  }
}
