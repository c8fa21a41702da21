/**
 Text as lines: the splitting that an event stream's parser and Python's str.splitlines() share, up to
 which characters end a line and what becomes of an unterminated last one.
 */
module TextLines {

  predicate OneLine(s: string, isBreak: char -> bool) {
    forall i | 0 <= i < |s| :: !isBreak(s[i])
  }

  predicate AllOneLine(lines: seq<string>, isBreak: char -> bool) {
    forall i | 0 <= i < |lines| :: OneLine(lines[i], isBreak)
  }

  /** The lines of `line + s`; "\r\n" is one break. `keepRest` keeps an unterminated last line. */
  function SplitAt(isBreak: char -> bool, keepRest: bool, s: string, line: string := ""): seq<string>
    decreases |s|
  {
    if s == "" then if keepRest && line != "" then [line] else []
    else if s[0] == '\r' && |s| > 1 && s[1] == '\n' then [line] + SplitAt(isBreak, keepRest, s[2..])
    else if isBreak(s[0]) then [line] + SplitAt(isBreak, keepRest, s[1..])
    else SplitAt(isBreak, keepRest, s[1..], line + [s[0]])
  }

  /** Lines with their terminators. */
  function Unlines(lines: seq<string>): string {
    if lines == [] then "" else lines[0] + "\n" + Unlines(lines[1..])
  }

  lemma {:induction false} UnlinesConcat(a: seq<string>, b: seq<string>)
    ensures Unlines(a + b) == Unlines(a) + Unlines(b)
  {
    if a == [] {
      assert a + b == b;
    } else {
      UnlinesConcat(a[1..], b);
      assert (a + b)[1..] == a[1..] + b;
      assert a[0] + "\n" + (Unlines(a[1..]) + Unlines(b)) == (a[0] + "\n" + Unlines(a[1..])) + Unlines(b);
    }
  }

  lemma {:induction false} FirstLine(
      isBreak: char -> bool, keepRest: bool, line: string, rest: string, before: string)
    requires isBreak('\r') && isBreak('\n') && OneLine(line, isBreak)
    ensures SplitAt(isBreak, keepRest, line + "\n" + rest, before)
      == [before + line] + SplitAt(isBreak, keepRest, rest)
    decreases |line|
  {
    var s := line + "\n" + rest;
    if line == "" {
      assert s[0] == '\n' && s[1..] == rest;
      assert before + line == before;
    } else {
      assert s[0] == line[0] && s[1..] == line[1..] + "\n" + rest;
      assert !isBreak(line[0]);
      FirstLine(isBreak, keepRest, line[1..], rest, before + [line[0]]);
      assert before + [line[0]] + line[1..] == before + line;
    }
  }

  /** Lines that are joined and split again are the same lines. */
  lemma {:induction false} SplitUnlines(isBreak: char -> bool, keepRest: bool, lines: seq<string>)
    requires isBreak('\r') && isBreak('\n') && AllOneLine(lines, isBreak)
    ensures SplitAt(isBreak, keepRest, Unlines(lines)) == lines
  {
    if lines != [] {
      assert OneLine(lines[0], isBreak) && AllOneLine(lines[1..], isBreak);
      FirstLine(isBreak, keepRest, lines[0], Unlines(lines[1..]), "");
      SplitUnlines(isBreak, keepRest, lines[1..]);
      assert "" + lines[0] == lines[0];
      assert [lines[0]] + lines[1..] == lines;
    }
  }

  /** What splitting yields has no line break left in it. */
  lemma {:induction false} SplitIsLines(isBreak: char -> bool, keepRest: bool, s: string, line: string)
    requires isBreak('\r') && isBreak('\n') && OneLine(line, isBreak)
    ensures AllOneLine(SplitAt(isBreak, keepRest, s, line), isBreak)
    decreases |s|
  {
    if s != "" {
      if s[0] == '\r' && |s| > 1 && s[1] == '\n' {
        SplitIsLines(isBreak, keepRest, s[2..], "");
      } else if isBreak(s[0]) {
        SplitIsLines(isBreak, keepRest, s[1..], "");
      } else {
        SplitIsLines(isBreak, keepRest, s[1..], line + [s[0]]);
      }
    }
  }
}
