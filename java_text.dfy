/** The java.lang.String and java.lang.Integer behaviour the core relies on:
    32-bit int arithmetic, Integer.parseInt, Integer.toString, String.trim,
    String.split for the single-character and whitespace-run patterns, and
    the line splitting of java.util.Scanner.nextLine. */
module JavaText {
  import opened Wrappers

  const INT_MIN: int := -0x8000_0000
  const INT_MAX: int := 0x7fff_ffff

  predicate IsInt(n: int)
  {
    INT_MIN <= n <= INT_MAX
  }

  /** Java `int` addition and subtraction wrap around modulo 2^32. */
  function WrapInt(n: int): (r: int)
    ensures IsInt(r)
    ensures (r - n) % 0x1_0000_0000 == 0
    ensures IsInt(n) ==> r == n
  {
    (n - INT_MIN) % 0x1_0000_0000 + INT_MIN
  }

  // ---------------------------------------------------------------- digits

  predicate IsDigit(c: char)
  {
    '0' <= c <= '9'
  }

  predicate AllDigits(s: string)
  {
    forall i :: 0 <= i < |s| ==> IsDigit(s[i])
  }

  /** The value of a string of decimal digits, most significant first. */
  function DigitsValue(s: string): nat
    requires AllDigits(s)
  {
    if s == [] then 0
    else DigitsValue(s[..|s| - 1]) * 10 + (s[|s| - 1] as int - '0' as int)
  }

  /** A signed decimal numeral: an optional '+' or '-', then one or more
      ASCII digits. */
  predicate IsNumeral(s: string)
  {
    if |s| > 0 && (s[0] == '-' || s[0] == '+') then |s| > 1 && AllDigits(s[1..])
    else |s| > 0 && AllDigits(s)
  }

  /** The value a numeral denotes. */
  function NumeralValue(s: string): int
    requires IsNumeral(s)
  {
    if s[0] == '-' then -(DigitsValue(s[1..]) as int)
    else if s[0] == '+' then DigitsValue(s[1..])
    else DigitsValue(s)
  }

  /** Integer.parseInt(s): an optional '+' or '-', then one or more ASCII
      digits, denoting a value in the 32-bit range; anything else is a
      NumberFormatException (None). */
  function ParseInt(s: string): (r: Option<int>)
    ensures r.Some? <==> IsNumeral(s) && IsInt(NumeralValue(s))
    ensures r.Some? ==> r.value == NumeralValue(s)
    ensures r.Some? ==> IsInt(r.value)
  {
    if |s| > 0 && (s[0] == '-' || s[0] == '+') then
      var digits := s[1..];
      if |digits| > 0 && AllDigits(digits) then
        var magnitude: int := DigitsValue(digits);
        var v := if s[0] == '-' then -magnitude else magnitude;
        if IsInt(v) then Some(v) else None
      else None
    else if |s| > 0 && AllDigits(s) && IsInt(DigitsValue(s)) then
      Some(DigitsValue(s))
    else None
  }

  /** The decimal digits of a natural number, without leading zeros. */
  function NatToString(n: nat): (s: string)
    ensures |s| > 0 && AllDigits(s)
  {
    var d := [(('0' as int) + n % 10) as char];
    if n < 10 then d else NatToString(n / 10) + d
  }

  /** Integer.toString(n), which is also what StringBuilder.append(int) and
      String.format("%d") produce. */
  function IntToString(n: int): (s: string)
    ensures |s| > 0
    ensures forall i :: 0 <= i < |s| ==> s[i] == '-' || IsDigit(s[i])
  {
    if n < 0 then "-" + NatToString(-n) else NatToString(n)
  }

  lemma {:induction false} NatToStringValue(n: nat)
    ensures DigitsValue(NatToString(n)) == n
  {
    var s := NatToString(n);
    if n >= 10 {
      NatToStringValue(n / 10);
      assert s[..|s| - 1] == NatToString(n / 10);
    }
  }

  /** Printing an int and parsing it back gives the same int. */
  lemma ParseIntToString(n: int)
    requires IsInt(n)
    ensures ParseInt(IntToString(n)) == Some(n)
  {
    var s := IntToString(n);
    if n < 0 {
      var t := NatToString(-n);
      NatToStringValue(-n);
      assert s[0] == '-' && s[1..] == t;
      assert |t| > 0 && AllDigits(t) && DigitsValue(t) == -n;
    } else {
      NatToStringValue(n);
      assert IsDigit(s[0]);
      assert AllDigits(s) && DigitsValue(s) == n;
    }
  }

  // ---------------------------------------------------------------- trim

  /** The characters String.trim removes: every code unit up to U+0020. */
  predicate IsTrimmable(c: char)
  {
    c <= ' '
  }

  function TrimStart(s: string): (r: string)
    ensures |r| <= |s| && r == s[|s| - |r|..]
    ensures r == [] || !IsTrimmable(r[0])
    ensures forall i :: 0 <= i < |s| - |r| ==> IsTrimmable(s[i])
  {
    if |s| > 0 && IsTrimmable(s[0]) then TrimStart(s[1..]) else s
  }

  function TrimEnd(s: string): (r: string)
    ensures |r| <= |s| && r == s[..|r|]
    ensures r == [] || !IsTrimmable(r[|r| - 1])
    ensures forall i :: |r| <= i < |s| ==> IsTrimmable(s[i])
  {
    if |s| > 0 && IsTrimmable(s[|s| - 1]) then TrimEnd(s[..|s| - 1]) else s
  }

  /** r is s[i..j], and everything of s outside that slice is trimmable. */
  predicate TrimmedAt(s: string, r: string, i: int, j: int)
  {
    && 0 <= i <= j <= |s| && r == s[i..j]
    && (forall k :: 0 <= k < i ==> IsTrimmable(s[k]))
    && (forall k :: j <= k < |s| ==> IsTrimmable(s[k]))
  }

  /** String.trim: the slice of s left after removing the trimmable
      characters at both ends, and no more. */
  function Trim(s: string): (r: string)
    ensures r == [] || (!IsTrimmable(r[0]) && !IsTrimmable(r[|r| - 1]))
    ensures exists i, j :: TrimmedAt(s, r, i, j)
  {
    TrimIsSlice(s, TrimStart(s), TrimEnd(TrimStart(s)));
    TrimEnd(TrimStart(s))
  }

  lemma TrimIsSlice(s: string, t: string, r: string)
    requires t == TrimStart(s) && r == TrimEnd(t)
    ensures TrimmedAt(s, r, |s| - |t|, |s| - |t| + |r|)
  {
    TrimmedSuffix(s, t, r);
    TrimmedSlice(s, t, r);
  }

  lemma TrimmedSuffix(s: string, t: string, r: string)
    requires |t| <= |s| && t == s[|s| - |t|..] && |r| <= |t|
    requires forall k :: |r| <= k < |t| ==> IsTrimmable(t[k])
    ensures forall k :: |s| - |t| + |r| <= k < |s| ==> IsTrimmable(s[k])
  {
    forall k | |s| - |t| + |r| <= k < |s|
      ensures IsTrimmable(s[k])
    {
      assert s[k] == t[k - (|s| - |t|)];
    }
  }

  lemma TrimmedSlice(s: string, t: string, r: string)
    requires |t| <= |s| && t == s[|s| - |t|..] && |r| <= |t| && r == t[..|r|]
    ensures r == s[|s| - |t|..|s| - |t| + |r|]
  {
  }

  /** String.startsWith. */
  predicate StartsWith(s: string, prefix: string)
  {
    |prefix| <= |s| && s[..|prefix|] == prefix
  }

  // ---------------------------------------------------------------- split

  /** The regex class `\s`: space, \t, \n, \x0B, \f and \r. */
  predicate IsSpace(c: char)
  {
    c == ' ' || c == '\t' || c == '\n' || c == '\U{000B}' || c == '\U{000C}' || c == '\r'
  }

  predicate HasSpace(s: string)
  {
    exists i :: 0 <= i < |s| && IsSpace(s[i])
  }

  /** The pieces of `s` between occurrences of `sep`, all of them kept
      (String.split with a negative limit). */
  function Fields(s: string, sep: char): (r: seq<string>)
    ensures |r| >= 1
    ensures forall i, j :: 0 <= i < |r| && 0 <= j < |r[i]| ==> r[i][j] != sep
  {
    if s == [] then [""]
    else
      var rest := Fields(s[1..], sep);
      if s[0] == sep then [""] + rest else [[s[0]] + rest[0]] + rest[1..]
  }

  /** The pieces of `s` between single whitespace characters, all kept. */
  function SpaceFields(s: string): (r: seq<string>)
    ensures |r| >= 1
    ensures forall i, j :: 0 <= i < |r| && 0 <= j < |r[i]| ==> !IsSpace(r[i][j])
  {
    if s == [] then [""]
    else
      var rest := SpaceFields(s[1..]);
      if IsSpace(s[0]) then [""] + rest else [[s[0]] + rest[0]] + rest[1..]
  }

  /** Merges runs of separators: the first piece is kept even when empty
      (a match at position 0 yields a leading empty string), later empty
      pieces lie inside a run and disappear. */
  function KeepFirstDropEmpty(pieces: seq<string>): (r: seq<string>)
    requires |pieces| >= 1
    ensures |r| >= 1 && r[0] == pieces[0]
    ensures forall i :: 1 <= i < |r| ==> r[i] != ""
    ensures forall i :: 0 <= i < |r| ==> r[i] in pieces
  {
    if |pieces| == 1 then pieces
    else
      var rest := KeepFirstDropEmpty(pieces[1..]);
      if rest[0] == "" then [pieces[0]] + rest[1..] else [pieces[0]] + rest
  }

  /** String.split drops trailing empty strings. */
  function DropTrailingEmpty(pieces: seq<string>): (r: seq<string>)
    ensures r <= pieces
    ensures r == [] || r[|r| - 1] != ""
    ensures forall i :: |r| <= i < |pieces| ==> pieces[i] == ""
  {
    if |pieces| > 0 && pieces[|pieces| - 1] == "" then DropTrailingEmpty(pieces[..|pieces| - 1])
    else pieces
  }

  /** s.split(String.valueOf(sep)) for a non-metacharacter `sep`, such as "/".
      A string without `sep` splits to itself, so "" splits to [""]. */
  function SplitOn(s: string, sep: char): (r: seq<string>)
    ensures forall i, j :: 0 <= i < |r| && 0 <= j < |r[i]| ==> r[i][j] != sep
  {
    if sep !in s then [s] else DropTrailingEmpty(Fields(s, sep))
  }

  /** s.split("\\s+"). A string without whitespace splits to itself; other
      strings give their non-empty words, preceded by "" when `s` starts
      with whitespace; a string of whitespace only gives []. */
  function SplitOnSpaces(s: string): (r: seq<string>)
    ensures forall i, j :: 0 <= i < |r| && 0 <= j < |r[i]| ==> !IsSpace(r[i][j])
    ensures forall i :: 1 <= i < |r| ==> r[i] != ""
  {
    if !HasSpace(s) then [s]
    else
      var pieces := KeepFirstDropEmpty(SpaceFields(s));
      assert forall i, j :: 0 <= i < |pieces| && 0 <= j < |pieces[i]| ==> !IsSpace(pieces[i][j]);
      DropTrailingEmpty(pieces)
  }

  lemma {:induction false} FieldsWithoutSep(s: string, sep: char)
    requires sep !in s
    ensures Fields(s, sep) == [s]
  {
    if s != [] {
      assert sep !in s[1..];
      FieldsWithoutSep(s[1..], sep);
      assert [s[0]] + s[1..] == s;
    }
  }

  lemma {:induction false} FieldsAppend(a: string, sep: char, b: string)
    requires sep !in a
    ensures Fields(a + [sep] + b, sep) == [a] + Fields(b, sep)
  {
    if a == [] {
      assert a + [sep] + b == [sep] + b;
    } else {
      var s := a + [sep] + b;
      assert s[0] == a[0] && s[1..] == a[1..] + [sep] + b;
      assert sep !in a[1..];
      FieldsAppend(a[1..], sep, b);
      assert [a[0]] + a[1..] == a;
    }
  }

  lemma {:induction false} SpaceFieldsWithoutSpace(s: string)
    requires !HasSpace(s)
    ensures SpaceFields(s) == [s]
  {
    if s != [] {
      assert !HasSpace(s[1..]) by {
        forall i | 0 <= i < |s[1..]| ensures !IsSpace(s[1..][i]) { assert s[1..][i] == s[i + 1]; }
      }
      SpaceFieldsWithoutSpace(s[1..]);
      assert [s[0]] + s[1..] == s;
    }
  }

  lemma {:induction false} SpaceFieldsAppend(a: string, b: string)
    requires !HasSpace(a)
    ensures SpaceFields(a + " " + b) == [a] + SpaceFields(b)
  {
    if a == [] {
      assert a + " " + b == " " + b;
    } else {
      var s := a + " " + b;
      assert s[0] == a[0] && s[1..] == a[1..] + " " + b;
      assert !HasSpace(a[1..]) by {
        forall i | 0 <= i < |a[1..]| ensures !IsSpace(a[1..][i]) { assert a[1..][i] == a[i + 1]; }
      }
      SpaceFieldsAppend(a[1..], b);
      assert [a[0]] + a[1..] == a;
    }
  }

  /** Splitting two or three slash-free fields joined by '/' gives them back. */
  lemma SplitOnTwo(a: string, b: string)
    requires '/' !in a && '/' !in b && b != ""
    ensures SplitOn(a + "/" + b, '/') == [a, b]
  {
    FieldsWithoutSep(b, '/');
    FieldsAppend(a, '/', b);
    assert a + "/" + b == a + ['/'] + b;
    assert '/' in a + "/" + b by { assert (a + "/" + b)[|a|] == '/'; }
  }

  lemma SplitOnThree(a: string, b: string, c: string)
    requires '/' !in a && '/' !in b && '/' !in c && c != ""
    ensures SplitOn(a + "/" + b + "/" + c, '/') == [a, b, c]
  {
    FieldsWithoutSep(c, '/');
    FieldsAppend(b, '/', c);
    FieldsAppend(a, '/', b + "/" + c);
    assert b + "/" + c == b + ['/'] + c;
    assert a + "/" + b + "/" + c == a + ['/'] + (b + ['/'] + c);
    assert '/' in a + "/" + b + "/" + c by { assert (a + "/" + b + "/" + c)[|a|] == '/'; }
  }

  /** Words joined by single spaces. */
  function JoinSpace(words: seq<string>): string
  {
    if |words| == 0 then ""
    else if |words| == 1 then words[0]
    else words[0] + " " + JoinSpace(words[1..])
  }

  /** Non-empty words without whitespace, joined by single spaces, split
      back into the same words. */
  lemma SplitOnSpacesJoin(words: seq<string>)
    requires |words| >= 1
    requires forall i :: 0 <= i < |words| ==> words[i] != "" && !HasSpace(words[i])
    ensures SplitOnSpaces(JoinSpace(words)) == words
  {
    if |words| == 1 {
    } else {
      JoinSpaceHasSpace(words);
      SpaceFieldsJoin(words);
      KeepFirstDropEmptyOfNonEmpty(words);
      assert words[|words| - 1] != "";
    }
  }

  lemma JoinSpaceHasSpace(words: seq<string>)
    requires |words| >= 2
    ensures HasSpace(JoinSpace(words))
  {
    var first, rest := words[0], JoinSpace(words[1..]);
    assert JoinSpace(words) == first + " " + rest;
    assert (first + " " + rest)[|first|] == ' ';
  }

  lemma {:induction false} SpaceFieldsJoin(words: seq<string>)
    requires |words| >= 1
    requires forall i :: 0 <= i < |words| ==> !HasSpace(words[i])
    ensures SpaceFields(JoinSpace(words)) == words
  {
    if |words| == 1 {
      SpaceFieldsWithoutSpace(words[0]);
    } else {
      SpaceFieldsJoin(words[1..]);
      SpaceFieldsAppend(words[0], JoinSpace(words[1..]));
      assert [words[0]] + words[1..] == words;
    }
  }

  lemma {:induction false} KeepFirstDropEmptyOfNonEmpty(pieces: seq<string>)
    requires |pieces| >= 1
    requires forall i :: 1 <= i < |pieces| ==> pieces[i] != ""
    ensures KeepFirstDropEmpty(pieces) == pieces
  {
    if |pieces| > 1 {
      KeepFirstDropEmptyOfNonEmpty(pieces[1..]);
      assert [pieces[0]] + pieces[1..] == pieces;
    }
  }

  // ---------------------------------------------------------------- lines

  /** The line terminators of java.util.Scanner: \r\n, \n, \r, U+2028, U+2029, U+0085. */
  predicate IsLineBreak(c: char)
  {
    c == '\n' || c == '\r' || c == '\U{2028}' || c == '\U{2029}' || c == '\U{0085}'
  }

  /** The successive results of Scanner.nextLine while hasNextLine holds:
      the text is cut at every line terminator, and a final empty line
      after the last terminator is not reported. */
  function ScannerLines(s: string): (r: seq<string>)
    ensures s == [] ==> r == []
    ensures forall i, j :: 0 <= i < |r| && 0 <= j < |r[i]| ==> !IsLineBreak(r[i][j])
    decreases |s|
  {
    LinesFrom(s, 0)
  }

  /** Where the next line starts after the terminator at k: \r\n is one
      terminator, any other line break is one on its own. */
  function NextLineStart(s: string, k: nat): (next: nat)
    requires k < |s|
    ensures k < next <= |s|
  {
    if s[k] == '\r' && k + 1 < |s| && s[k + 1] == '\n' then k + 2 else k + 1
  }

  function LinesFrom(s: string, k: nat): (r: seq<string>)
    requires k <= |s|
    requires forall j :: 0 <= j < k ==> !IsLineBreak(s[j])
    ensures s == [] ==> r == []
    ensures forall i, j :: 0 <= i < |r| && 0 <= j < |r[i]| ==> !IsLineBreak(r[i][j])
    decreases |s|, |s| - k
  {
    if k == |s| then
      if s == [] then [] else [s]
    else if IsLineBreak(s[k]) then
      var next := NextLineStart(s, k);
      assert forall j :: 0 <= j < |s[..k]| ==> !IsLineBreak(s[..k][j]);
      [s[..k]] + LinesFrom(s[next..], 0)
    else LinesFrom(s, k + 1)
  }

  /** What Scanner.nextLine consumes after a line: \r\n or one terminator. */
  predicate IsTerminator(t: string)
  {
    t == "\r\n" || (|t| == 1 && IsLineBreak(t[0]))
  }

  /** Each line followed by its terminator, in order. */
  function Unlines(lines: seq<string>, ends: seq<string>): string
    requires |lines| == |ends|
  {
    if lines == [] then "" else lines[0] + ends[0] + Unlines(lines[1..], ends[1..])
  }

  /** The terminator after each line ScannerLines reports, and "" after a
      last line that runs to the end of the text. */
  function ScannerLineEnds(s: string): seq<string>
  {
    LineEndsFrom(s, 0)
  }

  function LineEndsFrom(s: string, k: nat): seq<string>
    requires k <= |s|
    decreases |s|, |s| - k
  {
    if k == |s| then
      if s == [] then [] else [""]
    else if IsLineBreak(s[k]) then
      var next := NextLineStart(s, k);
      [s[k..next]] + LineEndsFrom(s[next..], 0)
    else LineEndsFrom(s, k + 1)
  }

  /** The reported lines, each given back the terminator that ended it,
      rebuild the text exactly; every line but the last ended at a
      terminator, and so did the last unless the text ran out first. */
  lemma ScannerLinesRejoin(s: string)
    ensures |ScannerLineEnds(s)| == |ScannerLines(s)|
    ensures Unlines(ScannerLines(s), ScannerLineEnds(s)) == s
    ensures forall i :: 0 <= i < |ScannerLineEnds(s)| - 1 ==> IsTerminator(ScannerLineEnds(s)[i])
    ensures |ScannerLineEnds(s)| > 0 ==>
              IsTerminator(ScannerLineEnds(s)[|ScannerLineEnds(s)| - 1]) || ScannerLineEnds(s)[|ScannerLineEnds(s)| - 1] == ""
  {
    LinesFromRejoin(s, 0);
    assert Rejoins(s, ScannerLines(s), ScannerLineEnds(s));
  }

  /** The three facts ScannerLinesRejoin states, for the lines from s. */
  predicate Rejoins(s: string, lines: seq<string>, ends: seq<string>)
  {
    && |ends| == |lines|
    && Unlines(lines, ends) == s
    && (forall i :: 0 <= i < |ends| - 1 ==> IsTerminator(ends[i]))
    && (|ends| > 0 ==> IsTerminator(ends[|ends| - 1]) || ends[|ends| - 1] == "")
  }

  lemma {:induction false} LinesFromRejoin(s: string, k: nat)
    requires k <= |s|
    requires forall j :: 0 <= j < k ==> !IsLineBreak(s[j])
    ensures Rejoins(s, LinesFrom(s, k), LineEndsFrom(s, k))
    decreases |s|, |s| - k
  {
    if k == |s| {
      if s != [] {
        assert Unlines([s], [""]) == s + "" + Unlines([], []);
      }
    } else if IsLineBreak(s[k]) {
      LinesFromRejoin(s[NextLineStart(s, k)..], 0);
      RejoinAtBreak(s, k);
    } else {
      LinesFromRejoin(s, k + 1);
    }
  }

  /** The step of LinesFromRejoin at a line break. */
  lemma RejoinAtBreak(s: string, k: nat)
    requires k < |s| && IsLineBreak(s[k])
    requires forall j :: 0 <= j < k ==> !IsLineBreak(s[j])
    requires Rejoins(s[NextLineStart(s, k)..], LinesFrom(s[NextLineStart(s, k)..], 0), LineEndsFrom(s[NextLineStart(s, k)..], 0))
    ensures Rejoins(s, LinesFrom(s, k), LineEndsFrom(s, k))
  {
    var next := NextLineStart(s, k);
    var rest := s[next..];
    LinesFromAtBreak(s, k);
    LineEndsFromAtBreak(s, k);
    ThreeParts(s, k, next);
    RejoinCons(s, s[..k], s[k..next], rest, LinesFrom(rest, 0), LineEndsFrom(rest, 0), LinesFrom(s, k), LineEndsFrom(s, k));
  }

  lemma ThreeParts(s: string, k: nat, next: nat)
    requires k <= next <= |s|
    ensures s == s[..k] + s[k..next] + s[next..]
  {
  }

  lemma LinesFromAtBreak(s: string, k: nat)
    requires k < |s| && IsLineBreak(s[k])
    requires forall j :: 0 <= j < k ==> !IsLineBreak(s[j])
    ensures LinesFrom(s, k) == [s[..k]] + LinesFrom(s[NextLineStart(s, k)..], 0)
  {
    assert forall j :: 0 <= j < |s[..k]| ==> !IsLineBreak(s[..k][j]);
  }

  lemma LineEndsFromAtBreak(s: string, k: nat)
    requires k < |s| && IsLineBreak(s[k])
    ensures LineEndsFrom(s, k) == [s[k..NextLineStart(s, k)]] + LineEndsFrom(s[NextLineStart(s, k)..], 0)
    ensures IsTerminator(s[k..NextLineStart(s, k)])
  {
  }

  /** One more terminated line in front keeps the three facts. */
  lemma RejoinCons(s: string, line: string, end: string, rest: string, lines: seq<string>, ends: seq<string>,
                   allLines: seq<string>, allEnds: seq<string>)
    requires Rejoins(rest, lines, ends) && IsTerminator(end)
    requires s == line + end + rest && allLines == [line] + lines && allEnds == [end] + ends
    ensures Rejoins(s, allLines, allEnds)
  {
    assert allLines[1..] == lines;
    assert allEnds[1..] == ends;
  }
}
