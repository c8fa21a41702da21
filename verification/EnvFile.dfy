/**
 The `.env` upsert of apps/hexis_init.py: every line that sets the key is rewritten, or one is added,
 and the file is written back.
 */
module EnvFile {
  import opened Prelude
  import opened Chunking
  import Text = TextLines

  // ---------- Python's lines ----------

  /** The characters at which str.splitlines() breaks. */
  predicate IsBreak(c: char) {
    var n := c as int;
    0x0A <= n <= 0x0D || 0x1C <= n <= 0x1E || n == 0x85 || n == 0x2028 || n == 0x2029
  }

  /** str.splitlines(): an empty last line is no line. */
  function SplitLines(s: string): seq<string> {
    Text.SplitAt(IsBreak, true, s)
  }

  predicate OneLine(s: string) {
    Text.OneLine(s, IsBreak)
  }

  // ---------- The upsert ----------

  function Setting(key: string, value: string): string {
    key + "=" + value
  }

  predicate Sets(line: string, key: string) {
    key + "=" <= LStrip(line) || key + " =" <= LStrip(line)
  }

  function Rewrite(lines: seq<string>, key: string, value: string): seq<string> {
    seq(|lines|, i requires 0 <= i < |lines| => if Sets(lines[i], key) then Setting(key, value) else lines[i])
  }

  predicate AnySets(lines: seq<string>, key: string) {
    exists i :: 0 <= i < |lines| && Sets(lines[i], key)
  }

  function Upsert(lines: seq<string>, key: string, value: string): seq<string> {
    Rewrite(lines, key, value) + if AnySets(lines, key) then [] else [Setting(key, value)]
  }

  method WriteEnvVar(file: Option<string>, key: string, value: string) returns (text: string)
    ensures text == Text.Unlines(Upsert(if file.None? then [] else SplitLines(file.value), key, value))
  {
    var before := if file.None? then [] else SplitLines(file.value);
    var lines: seq<string>, replaced := [], false;
    for i := 0 to |before|
      invariant lines == Rewrite(before[..i], key, value)
      invariant replaced <==> AnySets(before[..i], key)
    {
      AnySetsStep(before, i, key);
      RewriteStep(before, i, key, value);
      if Sets(before[i], key) {
        lines := lines + [Setting(key, value)];
        replaced := true;
      } else {
        lines := lines + [before[i]];
      }
    }
    assert before[..|before|] == before;
    if !replaced {
      lines := lines + [Setting(key, value)];
    } else {
      assert lines + [] == lines;
    }
    text := Text.Unlines(lines);
  }

  lemma RewriteStep(lines: seq<string>, n: nat, key: string, value: string)
    requires n < |lines|
    ensures Rewrite(lines[..n + 1], key, value)
      == Rewrite(lines[..n], key, value) + [if Sets(lines[n], key) then Setting(key, value) else lines[n]]
  {
  }

  lemma AnySetsStep(lines: seq<string>, n: nat, key: string)
    requires n < |lines|
    ensures AnySets(lines[..n + 1], key) <==> AnySets(lines[..n], key) || Sets(lines[n], key)
  {
    var before, after := lines[..n], lines[..n + 1];
    assert forall i | 0 <= i < n :: after[i] == before[i];
    assert after[n] == lines[n];
  }

  // ---------- What the file says afterwards ----------

  /** A key that the written line is recognized by: one that does not start with whitespace. */
  lemma WrittenLineSets(key: string, value: string)
    ensures Sets(Setting(key, value), key) <==> key == "" || !IsSpace(key[0])
  {
    var line := Setting(key, value);
    assert key + "=" <= line;
    assert '=' as int == 0x3D;
    if key == "" || !IsSpace(key[0]) {
      assert line[0] == if key == "" then '=' else key[0];
      assert LStrip(line) == line;
    } else {
      var pad := LStripContent(line);
      if LStrip(line) != "" {
        assert LStrip(line)[0] != key[0];
      }
    }
  }

  /** The first "=" of a line, or its length. */
  function FirstEquals(line: string): (i: nat)
    ensures i <= |line| && (i < |line| ==> line[i] == '=') && forall j | 0 <= j < i :: line[j] != '='
  {
    if line == "" || line[0] == '=' then 0 else 1 + FirstEquals(line[1..])
  }

  /** Splitting the written line at its first "=" gives back key and value exactly when the key has none. */
  lemma SettingReadsBack(key: string, value: string)
    ensures var line := Setting(key, value); var i := FirstEquals(line);
      i < |line| && (line[..i] == key && line[i + 1..] == value <==> '=' !in key)
  {
    var line := Setting(key, value);
    var i := FirstEquals(line);
    assert line[|key|] == '=' && line[..|key|] == key && line[|key| + 1..] == value;
    assert forall j | 0 <= j < |key| :: line[j] == key[j];
    if '=' in key {
      var j :| 0 <= j < |key| && key[j] == '=';
      assert |line[..i]| != |key|;
    }
  }

  /** Indented lines, and lines with a space before the "=", are recognized as well. */
  lemma SpacedLineSets(indent: string, key: string, value: string)
    requires Blank(indent) && key != "" && !IsSpace(key[0])
    ensures Sets(indent + key + "=" + value, key) && Sets(indent + key + " =" + value, key)
  {
    LStripIndent(indent, key + "=" + value);
    LStripIndent(indent, key + " =" + value);
    assert indent + key + "=" + value == indent + (key + "=" + value);
    assert indent + key + " =" + value == indent + (key + " =" + value);
    assert key + " =" <= key + " =" + value && key + "=" <= key + "=" + value;
  }

  lemma {:induction false} LStripIndent(indent: string, text: string)
    requires Blank(indent) && text != "" && !IsSpace(text[0])
    ensures LStrip(indent + text) == text
  {
    if indent == "" {
      assert indent + text == text;
    } else {
      LStripIndent(indent[1..], text);
      assert (indent + text)[1..] == indent[1..] + text;
    }
  }

  /** A line that sets another key is left alone. */
  lemma OtherKeysKept(key: string, other: string, value: string)
    requires key != other && '=' !in key && '=' !in other
    requires key != "" && other != "" && !IsSpace(other[0]) && !IsSpace(other[|other| - 1])
    ensures !Sets(Setting(other, value), key)
  {
    var line := Setting(other, value);
    assert line[0] == other[0];
    assert LStrip(line) == line;
    assert line[|other|] == '=' && forall j | 0 <= j < |other| :: line[j] == other[j] && line[j] != '=';
    if key + "=" <= line {
      SamePrefix(key, other, line);
    }
    var spaced := key + " ";
    assert spaced[|spaced| - 1] == ' ' && IsSpace(' ') && spaced + "=" == key + " =";
    if spaced + "=" <= line {
      SamePrefix(spaced, other, line);
    }
  }

  lemma SamePrefix(a: string, b: string, line: string)
    requires a + "=" <= line && '=' !in a && |b| < |line| && line[|b|] == '=' && line[..|b|] == b && '=' !in b
    ensures a == b
  {
    assert (a + "=")[|a|] == '=' && line[|a|] == '=';
    assert forall j | 0 <= j < |a| :: line[j] == (a + "=")[j] == a[j] && a[j] in a;
    assert forall j | 0 <= j < |b| :: line[j] == b[j] && b[j] in b;
    assert |a| == |b|;
    assert line[..|a|] == a;
  }

  /** After a write, exactly the lines that set the key are the written one, and there is one. */
  lemma LastWriteWins(lines: seq<string>, key: string, value: string)
    requires key == "" || !IsSpace(key[0])
    ensures var after := Upsert(lines, key, value);
      && AnySets(after, key)
      && forall i | 0 <= i < |after| :: Sets(after[i], key) <==> after[i] == Setting(key, value)
  {
    WrittenLineSets(key, value);
    var after := Upsert(lines, key, value);
    if AnySets(lines, key) {
      var i :| 0 <= i < |lines| && Sets(lines[i], key);
      assert Sets(after[i], key);
    } else {
      assert Sets(after[|lines|], key);
    }
  }

  /** A later write replaces an earlier one completely. */
  lemma WriteTwice(lines: seq<string>, key: string, first: string, second: string)
    requires key == "" || !IsSpace(key[0])
    ensures Upsert(Upsert(lines, key, first), key, second) == Upsert(lines, key, second)
  {
    LastWriteWins(lines, key, first);
    WrittenLineSets(key, first);
  }

  function Unrelated(lines: seq<string>, key: string): seq<string> {
    if lines == [] then []
    else (if Sets(lines[0], key) then [] else [lines[0]]) + Unrelated(lines[1..], key)
  }

  /** Lines that do not set the key are kept, in order. */
  lemma {:induction false} UnrelatedKept(lines: seq<string>, key: string, value: string)
    requires key == "" || !IsSpace(key[0])
    ensures Unrelated(Upsert(lines, key, value), key) == Unrelated(lines, key)
  {
    WrittenLineSets(key, value);
    UnrelatedRewritten(lines, key, value);
    var written := [Setting(key, value)];
    assert written[1..] == [];
    UnrelatedConcat(Rewrite(lines, key, value), if AnySets(lines, key) then [] else written, key);
  }

  lemma {:induction false} UnrelatedRewritten(lines: seq<string>, key: string, value: string)
    requires Sets(Setting(key, value), key)
    ensures Unrelated(Rewrite(lines, key, value), key) == Unrelated(lines, key)
  {
    if lines != [] {
      UnrelatedRewritten(lines[1..], key, value);
      assert Rewrite(lines, key, value)[1..] == Rewrite(lines[1..], key, value);
    }
  }

  lemma {:induction false} UnrelatedConcat(a: seq<string>, b: seq<string>, key: string)
    ensures Unrelated(a + b, key) == Unrelated(a, key) + Unrelated(b, key)
  {
    if a == [] {
      assert a + b == b;
    } else {
      assert (a + b)[1..] == a[1..] + b;
      UnrelatedConcat(a[1..], b, key);
    }
  }

  // ---------- Through the file ----------

  /** The written file reads back as the updated lines, so the line properties are the file's. */
  lemma FileRoundTrip(file: Option<string>, key: string, value: string)
    requires OneLine(key) && OneLine(value)
    ensures var lines := Upsert(if file.None? then [] else SplitLines(file.value), key, value);
      SplitLines(Text.Unlines(lines)) == lines
  {
    var before := if file.None? then [] else SplitLines(file.value);
    if file.Some? {
      Text.SplitIsLines(IsBreak, true, file.value, "");
    }
    assert OneLine(Setting(key, value));
    var lines := Upsert(before, key, value);
    assert forall i | 0 <= i < |lines| :: OneLine(lines[i]);
    Text.SplitUnlines(IsBreak, true, lines);
  }
}
