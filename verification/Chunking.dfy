/**
 The greedy message splitter of channels/base.py: a text longer than a channel's limit is cut at
 the last paragraph break, line break, sentence end or space that lies past a third of the limit,
 and hard at the limit when there is none.
 */
module Chunking {
  import opened Prelude

  // ---------- Python's string primitives ----------

  /** str.isspace for one character, which is what strip() removes. */
  predicate IsSpace(c: char) {
    var n := c as int;
    || 0x09 <= n <= 0x0D || 0x1C <= n <= 0x20 || n == 0x85 || n == 0xA0 || n == 0x1680
    || 0x2000 <= n <= 0x200A || n == 0x2028 || n == 0x2029 || n == 0x202F || n == 0x205F || n == 0x3000
  }

  predicate Blank(s: string) {
    forall i | 0 <= i < |s| :: IsSpace(s[i])
  }

  function RStrip(s: string): (r: string)
    ensures |r| <= |s|
  {
    if s == "" || !IsSpace(s[|s| - 1]) then s else RStrip(s[..|s| - 1])
  }

  function LStrip(s: string): (r: string)
    ensures |r| <= |s|
  {
    if s == "" || !IsSpace(s[0]) then s else LStrip(s[1..])
  }

  lemma {:induction false} RStripContent(s: string) returns (pad: string)
    ensures Blank(pad) && s == RStrip(s) + pad
    ensures RStrip(s) != "" ==> !IsSpace(RStrip(s)[|RStrip(s)| - 1])
  {
    if s == "" || !IsSpace(s[|s| - 1]) {
      return "";
    }
    var front, last := s[..|s| - 1], [s[|s| - 1]];
    var inner := RStripContent(front);
    pad := inner + last;
    assert s == front + last;
    Assoc(RStrip(front), inner, last);
  }

  lemma {:induction false} LStripContent(s: string) returns (pad: string)
    ensures Blank(pad) && s == pad + LStrip(s)
    ensures LStrip(s) != "" ==> !IsSpace(LStrip(s)[0])
  {
    if s == "" || !IsSpace(s[0]) {
      return "";
    }
    var inner := LStripContent(s[1..]);
    pad := [s[0]] + inner;
    assert s == [s[0]] + s[1..];
    Assoc([s[0]], inner, LStrip(s[1..]));
  }

  /** `sep` occurs at index `i`, wholly inside s[..end]. */
  predicate OccursAt(s: string, sep: string, i: int, end: nat) {
    0 <= i && i + |sep| <= |s| && i + |sep| <= end && s[i..i + |sep|] == sep
  }

  /** s.rfind(sep, 0, end): the last occurrence inside s[..end], or -1. */
  function RFind(s: string, sep: string, end: nat): (r: int)
    ensures r == -1 || (0 <= r && r + |sep| <= |s| && r + |sep| <= end)
  {
    RFindFrom(s, sep, end, |s|)
  }

  function RFindFrom(s: string, sep: string, end: nat, top: int): (r: int)
    requires -1 <= top
    ensures r == -1 || (0 <= r <= top && r + |sep| <= |s| && r + |sep| <= end)
    decreases top
  {
    if top == -1 then -1
    else if OccursAt(s, sep, top, end) then top
    else RFindFrom(s, sep, end, top - 1)
  }

  lemma {:induction false} RFindFromIsLast(s: string, sep: string, end: nat, top: int)
    requires -1 <= top
    ensures var r := RFindFrom(s, sep, end, top);
      && (r == -1 || OccursAt(s, sep, r, end))
      && forall i | r < i <= top :: !OccursAt(s, sep, i, end)
    decreases top
  {
    if top != -1 && !OccursAt(s, sep, top, end) {
      RFindFromIsLast(s, sep, end, top - 1);
    }
  }

  lemma RFindIsLast(s: string, sep: string, end: nat)
    ensures var r := RFind(s, sep, end);
      && (r == -1 || OccursAt(s, sep, r, end))
      && forall i | r < i :: !OccursAt(s, sep, i, end)
  {
    RFindFromIsLast(s, sep, end, |s|);
  }

  // ---------- The splitting rule ----------

  const SEPARATORS: nat := 6

  /** In order of preference: paragraph, line, the three sentence ends, space. */
  function Separator(k: nat): (sep: string)
    ensures 1 <= |sep| <= 2
    ensures Kept(k) < |sep|
  {
    if k == 0 then "\n\n" else if k == 1 then "\n"
    else if k == 2 then ". " else if k == 3 then "! " else if k == 4 then "? "
    else " "
  }

  /** How many characters of the separator stay with the chunk before the cut. */
  function Kept(k: nat): nat {
    if 2 <= k <= 4 then 1 else 0
  }

  /** Separator `k` occurs at `i` in the window of `limit` characters, past its first third. */
  predicate Usable(rest: string, limit: nat, k: nat, i: int) {
    limit / 3 < i && OccursAt(rest, Separator(k), i, limit)
  }

  ghost predicate NoneUsable(rest: string, limit: nat, k: nat) {
    forall i :: !Usable(rest, limit, k, i)
  }

  datatype Cut = SoftCut(kind: nat, at: nat) | HardCut

  /** The cut the rule asks for: the most preferred usable separator at its last usable place. */
  ghost predicate IsCut(rest: string, limit: nat, cut: Cut, from: nat := 0) {
    match cut
    case SoftCut(k, at) =>
      && from <= k < SEPARATORS
      && Usable(rest, limit, k, at)
      && (forall i | at < i :: !Usable(rest, limit, k, i))
      && (forall j: nat | from <= j < k :: NoneUsable(rest, limit, j))
    case HardCut =>
      forall j: nat | from <= j < SEPARATORS :: NoneUsable(rest, limit, j)
  }

  function FindCut(rest: string, limit: nat, k: nat := 0): (cut: Cut)
    requires k <= SEPARATORS
    ensures cut.SoftCut? ==> limit / 3 < cut.at && cut.at + Kept(cut.kind) <= limit
    decreases SEPARATORS - k
  {
    if k == SEPARATORS then HardCut else
    var at := RFind(rest, Separator(k), limit);
    if at > limit / 3 then SoftCut(k, at) else FindCut(rest, limit, k + 1)
  }

  lemma UsableLast(rest: string, limit: nat, k: nat, at: int)
    requires at == RFind(rest, Separator(k), limit)
    ensures at > limit / 3 ==> Usable(rest, limit, k, at) && forall i | at < i :: !Usable(rest, limit, k, i)
    ensures at <= limit / 3 ==> NoneUsable(rest, limit, k)
  {
    RFindIsLast(rest, Separator(k), limit);
  }

  lemma CutFromEarlier(rest: string, limit: nat, cut: Cut, k: nat)
    requires IsCut(rest, limit, cut, k + 1) && NoneUsable(rest, limit, k)
    ensures IsCut(rest, limit, cut, k)
  {
  }

  lemma {:induction false} FindCutIsCut(rest: string, limit: nat, k: nat)
    requires k <= SEPARATORS
    ensures IsCut(rest, limit, FindCut(rest, limit, k), k)
    decreases SEPARATORS - k
  {
    if k < SEPARATORS {
      var at := RFind(rest, Separator(k), limit);
      UsableLast(rest, limit, k, at);
      if at <= limit / 3 {
        FindCutIsCut(rest, limit, k + 1);
        CutFromEarlier(rest, limit, FindCut(rest, limit, k + 1), k);
      }
    }
  }

  /** How many characters the cut removes from the front before any stripping. */
  function Taken(cut: Cut, limit: nat): nat {
    match cut
    case SoftCut(k, at) => at + Kept(k)
    case HardCut => limit
  }

  function Head(rest: string, limit: nat): (chunk: string)
    requires limit < |rest|
    ensures |chunk| <= limit
  {
    var cut := FindCut(rest, limit);
    if cut.HardCut? then rest[..limit] else RStrip(rest[..Taken(cut, limit)])
  }

  function Tail(rest: string, limit: nat): (remaining: string)
    requires limit < |rest|
    ensures 1 <= limit ==> |remaining| + limit / 3 + 1 <= |rest|
  {
    var cut := FindCut(rest, limit);
    if cut.HardCut? then rest[limit..] else LStrip(rest[Taken(cut, limit)..])
  }

  lemma BlankConcat(a: string, b: string)
    requires Blank(a) && Blank(b)
    ensures Blank(a + b)
  {
  }

  lemma Regroup(a: string, b: string, c: string, d: string)
    ensures (a + b) + (c + d) == a + (b + c) + d
  {
  }

  /** Stripping both sides of a cut leaves a gap of whitespace. */
  lemma StripContent(left: string, right: string) returns (gap: string)
    ensures Blank(gap) && left + right == RStrip(left) + gap + LStrip(right)
  {
    var before := RStripContent(left);
    var after := LStripContent(right);
    gap := before + after;
    BlankConcat(before, after);
    Regroup(RStrip(left), before, after, LStrip(right));
  }

  /** The pieces of one cut and the gap between them make up the text. */
  lemma StepContent(rest: string, limit: nat) returns (gap: string)
    requires limit < |rest|
    ensures Blank(gap) && rest == Head(rest, limit) + gap + Tail(rest, limit)
  {
    var cut := FindCut(rest, limit);
    if cut.HardCut? {
      return "";
    }
    var n := Taken(cut, limit);
    gap := StripContent(rest[..n], rest[n..]);
    assert rest == rest[..n] + rest[n..];
  }

  /** The separators by preference: paragraph, line, the three sentence ends, space. */
  lemma SeparatorsInOrder()
    ensures seq(SEPARATORS, k requires 0 <= k < SEPARATORS => Separator(k)) == ["\n\n", "\n", ". ", "! ", "? ", " "]
  {
  }

  /** RStrip leaves a text alone that does not end with whitespace. */
  lemma RStripKeeps(s: string)
    requires s != "" && !IsSpace(s[|s| - 1])
    ensures RStrip(s) == s
  {
  }

  /** A sentence's punctuation stays with it; at any other soft cut the chunk ends before the separator. */
  lemma PunctuationStays(rest: string, limit: nat)
    requires limit < |rest| && FindCut(rest, limit).SoftCut?
    ensures var cut := FindCut(rest, limit);
      && cut.at < |rest|
      && (rest[cut.at] in {'.', '!', '?'} ==> Head(rest, limit) == rest[..cut.at + 1])
      && (rest[cut.at] !in {'.', '!', '?'} ==>
            rest[cut.at] in {'\n', ' '} && Head(rest, limit) == RStrip(rest[..cut.at]))
  {
    var cut := FindCut(rest, limit);
    FindCutIsCut(rest, limit, 0);
    assert OccursAt(rest, Separator(cut.kind), cut.at, limit);
    assert rest[cut.at] == rest[cut.at..cut.at + |Separator(cut.kind)|][0] == Separator(cut.kind)[0];
    var head := rest[..cut.at + 1];
    if rest[cut.at] in {'.', '!', '?'} {
      assert head[|head| - 1] == rest[cut.at];
      RStripKeeps(head);
    }
  }

  /** After a soft cut the rest starts with no whitespace. */
  lemma RestIsStripped(rest: string, limit: nat)
    requires limit < |rest| && FindCut(rest, limit).SoftCut?
    ensures Tail(rest, limit) == "" || !IsSpace(Tail(rest, limit)[0])
  {
    var _ := LStripContent(rest[Taken(FindCut(rest, limit), limit)..]);
  }

  /** Without a positive limit no cut makes progress: the loop is only usable from limit 1 up. */
  lemma ProgressNeedsPositiveLimit(rest: string, limit: nat)
    requires limit < |rest|
    ensures Tail(rest, limit) != rest <==> 1 <= limit
  {
    if limit == 0 {
      assert FindCut(rest, 0).HardCut?;
      assert rest[0..] == rest;
    } else {
    }
  }

  function Split(rest: string, limit: nat): (chunks: seq<string>)
    requires 1 <= limit
    decreases |rest|
  {
    if rest == "" then []
    else if |rest| <= limit then [rest]
    else [Head(rest, limit)] + Split(Tail(rest, limit), limit)
  }

  lemma SplitStep(rest: string, limit: nat)
    requires 1 <= limit < |rest|
    ensures Split(rest, limit) == [Head(rest, limit)] + Split(Tail(rest, limit), limit)
  {
  }

  lemma SplitAfter(chunks: seq<string>, rest: string, limit: nat)
    requires 1 <= limit < |rest|
    ensures chunks + Split(rest, limit) == (chunks + [Head(rest, limit)]) + Split(Tail(rest, limit), limit)
  {
    SplitStep(rest, limit);
    Assoc(chunks, [Head(rest, limit)], Split(Tail(rest, limit), limit));
  }

  function Chunks(text: string, limit: nat): (chunks: seq<string>)
    requires 1 <= limit
  {
    if |text| <= limit then [text] else Split(text, limit)
  }

  // ---------- The loop ----------

  /** One test of the loop body: whether separator `k` decides the cut. */
  lemma TrySeparator(rest: string, limit: nat, k: nat, at: int)
    requires limit < |rest| && k < SEPARATORS && at == RFind(rest, Separator(k), limit)
    requires FindCut(rest, limit) == FindCut(rest, limit, k)
    ensures at <= limit / 3 ==> FindCut(rest, limit) == FindCut(rest, limit, k + 1)
    ensures at > limit / 3 ==>
      && 0 <= at + Kept(k) <= |rest|
      && Head(rest, limit) == RStrip(rest[..at + Kept(k)])
      && Tail(rest, limit) == LStrip(rest[at + Kept(k)..])
  {
  }

  method ChunkText(text: string, maxLength: nat) returns (chunks: seq<string>)
    requires 1 <= maxLength
    ensures chunks == Chunks(text, maxLength) && chunks != []
    ensures |text| <= maxLength ==> chunks == [text]
  {
    if |text| <= maxLength {
      return [text];
    }
    chunks := [];
    var remaining := text;
    while remaining != ""
      invariant chunks + Split(remaining, maxLength) == Split(text, maxLength)
      invariant chunks != [] || remaining == text
      decreases |remaining|
    {
      if |remaining| <= maxLength {
        chunks := chunks + [remaining];
        return;
      }
      var chunk, rest := NextChunk(remaining, maxLength);
      SplitAfter(chunks, remaining, maxLength);
      chunks, remaining := chunks + [chunk], rest;
    }
    assert chunks + [] == chunks;
  }

  /**
   * The body of the loop: the chunk it appends and what it leaves. The source writes the first
   * two and the last separator out as `if` blocks around a `for` over the sentence ends.
   */
  method NextChunk(remaining: string, maxLength: nat) returns (chunk: string, rest: string)
    requires maxLength < |remaining|
    ensures chunk == Head(remaining, maxLength) && rest == Tail(remaining, maxLength)
  {
    for k := 0 to SEPARATORS
      invariant FindCut(remaining, maxLength) == FindCut(remaining, maxLength, k)
    {
      var splitAt := RFind(remaining, Separator(k), maxLength);
      TrySeparator(remaining, maxLength, k, splitAt);
      if splitAt > maxLength / 3 {
        chunk := RStrip(remaining[..splitAt + Kept(k)]);
        rest := LStrip(remaining[splitAt + Kept(k)..]);
        return;
      }
    }
    chunk, rest := remaining[..maxLength], remaining[maxLength..];
  }

  /** The last chunk is all that is left, as it is. */
  lemma {:induction false} LastChunkIsRest(text: string, limit: nat)
    requires 1 <= limit < |text|
    ensures var chunks, tail := Split(text, limit), Tail(text, limit);
      0 < |tail| <= limit ==> chunks == [Head(text, limit), tail]
  {
    var tail := Tail(text, limit);
    SplitStep(text, limit);
    if 0 < |tail| <= limit {
      assert Split(tail, limit) == [tail];
    }
  }

  // ---------- What the chunks are ----------

  /** Chunks and gaps laid end to end: c0 + w0 + c1 + w1 + ... */
  function Weave(chunks: seq<string>, gaps: seq<string>): string
    requires |chunks| == |gaps|
  {
    if chunks == [] then "" else chunks[0] + gaps[0] + Weave(chunks[1..], gaps[1..])
  }

  ghost predicate Gaps(text: string, chunks: seq<string>, gaps: seq<string>) {
    && |gaps| == |chunks|
    && (forall i | 0 <= i < |gaps| :: Blank(gaps[i]))
    && Weave(chunks, gaps) == text
  }

  /** The text is its chunks with only whitespace between and after them. */
  lemma {:induction false} SplitContent(text: string, limit: nat) returns (gaps: seq<string>)
    requires 1 <= limit
    ensures Gaps(text, Split(text, limit), gaps)
    decreases |text|
  {
    if text == "" {
      return [];
    }
    if |text| <= limit {
      assert Weave([text], [""]) == text + "" + Weave([], []);
      return [""];
    }
    var gap := StepContent(text, limit);
    var rest := SplitContent(Tail(text, limit), limit);
    gaps := [gap] + rest;
    var chunks := Split(text, limit);
    assert chunks[1..] == Split(Tail(text, limit), limit) && gaps[1..] == rest;
  }

  lemma ChunksContent(text: string, limit: nat) returns (gaps: seq<string>)
    requires 1 <= limit
    ensures Gaps(text, Chunks(text, limit), gaps)
  {
    if |text| <= limit {
      assert Weave([text], [""]) == text + "" + Weave([], []);
      gaps := [""];
    } else {
      gaps := SplitContent(text, limit);
    }
  }

  /** The characters of a text that are not whitespace, in order. */
  function Ink(s: string): string {
    if s == "" then "" else InkOf(s[0]) + Ink(s[1..])
  }

  function InkOf(c: char): string {
    if IsSpace(c) then "" else [c]
  }

  lemma {:induction false} InkConcat(a: string, b: string)
    ensures Ink(a + b) == Ink(a) + Ink(b)
  {
    if a == "" {
      assert a + b == b;
    } else {
      InkConcat(a[1..], b);
      assert (a + b)[1..] == a[1..] + b;
      assert (a + b)[0] == a[0];
      Assoc(InkOf(a[0]), Ink(a[1..]), Ink(b));
    }
  }

  lemma {:induction false} InkOfBlank(s: string)
    requires Blank(s)
    ensures Ink(s) == ""
  {
    if s != "" {
      assert forall i | 0 <= i < |s[1..]| :: s[1..][i] == s[i + 1];
      InkOfBlank(s[1..]);
    }
  }

  lemma InkAcrossGap(chunk: string, gap: string, later: string)
    requires Blank(gap)
    ensures Ink(chunk + gap + later) == Ink(chunk) + Ink(later)
  {
    InkConcat(chunk + gap, later);
    InkConcat(chunk, gap);
    InkOfBlank(gap);
    assert Ink(chunk) + "" == Ink(chunk);
  }

  lemma {:induction false} InkOfWeave(chunks: seq<string>, gaps: seq<string>)
    requires |chunks| == |gaps| && forall i | 0 <= i < |gaps| :: Blank(gaps[i])
    ensures Ink(Weave(chunks, gaps)) == Ink(Join(chunks))
  {
    if chunks != [] {
      var rest, later := chunks[1..], gaps[1..];
      InkOfWeave(rest, later);
      InkAcrossGap(chunks[0], gaps[0], Weave(rest, later));
      InkConcat(chunks[0], Join(rest));
    }
  }

  /** No non-whitespace character is lost, added or reordered. */
  lemma ChunksKeepInk(text: string, limit: nat)
    requires 1 <= limit
    ensures Ink(Join(Chunks(text, limit))) == Ink(text)
  {
    var gaps := ChunksContent(text, limit);
    InkOfWeave(Chunks(text, limit), gaps);
  }

  lemma {:induction false} SplitFits(text: string, limit: nat)
    requires 1 <= limit
    ensures forall c | c in Split(text, limit) :: |c| <= limit
    decreases |text|
  {
    if |text| > limit {
      SplitFits(Tail(text, limit), limit);
    }
  }

  lemma ChunksFit(text: string, limit: nat)
    requires 1 <= limit
    ensures forall c | c in Chunks(text, limit) :: |c| <= limit
  {
    SplitFits(text, limit);
  }

  function Times(n: nat, unit: nat): nat {
    if n == 0 then 0 else unit + Times(n - 1, unit)
  }

  lemma {:induction false} TimesIsProduct(n: nat, unit: nat)
    ensures Times(n, unit) == n * unit
  {
    if n > 0 {
      TimesIsProduct(n - 1, unit);
      assert n * unit == (n - 1) * unit + unit;
    }
  }

  lemma ProductBelow(n: nat, unit: nat, bound: nat)
    requires Times(n, unit) < bound
    ensures n * unit < bound
  {
    TimesIsProduct(n, unit);
  }

  lemma Progress(rest: string, limit: nat, third: nat)
    requires 1 <= limit < |rest| && third == limit / 3 + 1
    ensures |Tail(rest, limit)| + third <= |rest|
  {
  }

  /** Each chunk but the last accounts for more than a third of the limit. */
  lemma {:induction false} SplitCount(text: string, limit: nat, third: nat)
    requires 1 <= limit && text != "" && third == limit / 3 + 1
    ensures Split(text, limit) != [] && Times(|Split(text, limit)| - 1, third) < |text|
    decreases |text|
  {
    if |text| > limit {
      var tail := Tail(text, limit);
      Progress(text, limit, third);
      assert |Split(text, limit)| == 1 + |Split(tail, limit)|;
      if tail != "" {
        SplitCount(tail, limit, third);
      }
    }
  }

  lemma ChunksTake(text: string, limit: nat, third: nat)
    requires 1 <= limit && text != "" && third == limit / 3 + 1
    ensures Chunks(text, limit) != [] && Times(|Chunks(text, limit)| - 1, third) < |text|
  {
    if |text| > limit {
      SplitCount(text, limit, third);
    } else {
      assert Chunks(text, limit) == [text];
    }
  }

  /** So a text has few chunks. */
  lemma ChunksCount(text: string, limit: nat)
    requires 1 <= limit && text != ""
    ensures (|Chunks(text, limit)| - 1) * (limit / 3 + 1) < |text|
  {
    var n, third := |Chunks(text, limit)| - 1, limit / 3 + 1;
    ChunksTake(text, limit, third);
    ProductBelow(n, third, |text|);
  }

  lemma CutIsUnique(rest: string, limit: nat, a: Cut, b: Cut)
    requires IsCut(rest, limit, a) && IsCut(rest, limit, b)
    requires a.SoftCut?
    ensures b.SoftCut? && b.kind <= a.kind && (b.kind == a.kind ==> a.at <= b.at)
  {
    assert Usable(rest, limit, a.kind, a.at);
    assert !NoneUsable(rest, limit, a.kind);
  }

  /**
   * The rule leaves no choice: it is met by one cut only, which is the one taken; and a
   * full-length, unstripped chunk is cut exactly when no separator is usable.
   */
  lemma CutIsDetermined(rest: string, limit: nat, cut: Cut)
    requires limit < |rest| && IsCut(rest, limit, cut)
    ensures cut == FindCut(rest, limit)
    ensures cut.HardCut? <==> forall k: nat | k < SEPARATORS :: NoneUsable(rest, limit, k)
    ensures cut.HardCut? ==> Head(rest, limit) == rest[..limit] && Tail(rest, limit) == rest[limit..]
  {
    var found := FindCut(rest, limit);
    FindCutIsCut(rest, limit, 0);
    if cut.SoftCut? {
      CutIsUnique(rest, limit, cut, found);
      assert Usable(rest, limit, cut.kind, cut.at);
      assert !NoneUsable(rest, limit, cut.kind);
    }
    if found.SoftCut? {
      CutIsUnique(rest, limit, found, cut);
    }
  }
}
