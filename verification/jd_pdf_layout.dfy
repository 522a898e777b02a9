/**
 * The text side of the HR dashboard's job-description PDF export: the fold that merges
 * consecutive non-blank lines into paragraphs, and the loop that sorts every paragraph into
 * heading, bullet, numbered point, inline-bold text or plain paragraph and turns it into draw
 * operations. Fonts, line wrapping, the vertical cursor and page breaks are outside the model:
 * a draw operation records the text and its style, and `Gap` stands for one blank line of space.
 */
module JdPdfLayout {
  import opened Wrappers
  import opened JsText

  // ---------------------------------------------------------------------------
  // Paragraph folding

  /** One step of the `combinedLines` reduce: a blank line pushes an empty entry, a non-blank
      line is glued with one space onto a non-empty last entry, and otherwise starts a new entry. */
  function CombineStep(acc: seq<string>, line: string): seq<string> {
    if Trim(line) == "" then acc + [""]
    else if |acc| > 0 && acc[|acc| - 1] != "" then acc[|acc| - 1 := acc[|acc| - 1] + " " + Trim(line)]
    else acc + [Trim(line)]
  }

  /** The reduce over all lines, starting from an empty accumulator. */
  function Combined(lines: seq<string>): seq<string> {
    if lines == [] then [] else CombineStep(Combined(lines[..|lines| - 1]), lines[|lines| - 1])
  }

  /** How many of `lines` are blank. */
  function BlankLines(lines: seq<string>): nat {
    if lines == [] then 0
    else BlankLines(lines[..|lines| - 1]) + (if IsBlank(lines[|lines| - 1]) then 1 else 0)
  }

  /** `lines.map(l => l.trim()).join(" ")`: the paragraph a run of non-blank lines should become. */
  function JoinTrimmed(lines: seq<string>): string
    requires lines != []
  {
    if |lines| == 1 then Trim(lines[0])
    else JoinTrimmed(lines[..|lines| - 1]) + " " + Trim(lines[|lines| - 1])
  }

  /** Two non-empty trimmed strings joined by a space are trimmed. */
  lemma JoinIsTrimmed(a: string, b: string)
    requires a != "" && b != "" && IsTrimmed(a) && IsTrimmed(b)
    ensures IsTrimmed(a + " " + b) && a + " " + b != ""
  {
    assert (a + " " + b)[0] == a[0];
    assert (a + " " + b)[|a + " " + b| - 1] == b[|b| - 1];
  }

  /** Replacing a non-empty entry by another non-empty one keeps the number of empty entries. */
  lemma ReplaceNonEmpty(acc: seq<string>, v: string)
    requires |acc| > 0 && acc[|acc| - 1] != "" && v != ""
    ensures multiset(acc[|acc| - 1 := v])[""] == multiset(acc)[""]
  {
    var k := |acc| - 1;
    assert acc == acc[..k] + [acc[k]];
    assert acc[k := v] == acc[..k] + [v];
  }

  /** The fold never adds entries, leaves no whitespace at either end of any entry, and emits
      exactly one empty entry per blank input line. */
  lemma {:induction false} CombinedShape(lines: seq<string>)
    ensures |Combined(lines)| <= |lines|
    ensures forall k :: 0 <= k < |Combined(lines)| ==> IsTrimmed(Combined(lines)[k])
    ensures multiset(Combined(lines))[""] == BlankLines(lines)
  {
    if lines != [] {
      var init, line := lines[..|lines| - 1], lines[|lines| - 1];
      CombinedShape(init);
      StepShape(Combined(init), line);
    }
  }

  /** One step adds at most one entry, keeps every entry trimmed, and adds an empty entry
      exactly for a blank line. */
  lemma StepShape(acc: seq<string>, line: string)
    requires forall k :: 0 <= k < |acc| ==> IsTrimmed(acc[k])
    ensures |CombineStep(acc, line)| <= |acc| + 1
    ensures forall k :: 0 <= k < |CombineStep(acc, line)| ==> IsTrimmed(CombineStep(acc, line)[k])
    ensures multiset(CombineStep(acc, line))[""] == multiset(acc)[""] + (if IsBlank(line) then 1 else 0)
  {
    var t := Trim(line);
    if t == "" {
      AppendShape(acc, "");
    } else if |acc| > 0 && acc[|acc| - 1] != "" {
      JoinIsTrimmed(acc[|acc| - 1], t);
      var v := acc[|acc| - 1] + " " + t;
      ReplaceShape(acc, v, acc[|acc| - 1 := v]);
    } else {
      AppendShape(acc, t);
    }
  }

  lemma ReplaceShape(acc: seq<string>, v: string, r: seq<string>)
    requires forall k :: 0 <= k < |acc| ==> IsTrimmed(acc[k])
    requires |acc| > 0 && acc[|acc| - 1] != "" && v != "" && IsTrimmed(v)
    requires r == acc[|acc| - 1 := v]
    ensures forall k :: 0 <= k < |r| ==> IsTrimmed(r[k])
    ensures multiset(r)[""] == multiset(acc)[""]
  {
    ReplaceNonEmpty(acc, v);
  }

  lemma AppendShape(acc: seq<string>, v: string)
    requires forall k :: 0 <= k < |acc| ==> IsTrimmed(acc[k])
    requires IsTrimmed(v)
    ensures forall k :: 0 <= k < |acc| + 1 ==> IsTrimmed((acc + [v])[k])
    ensures multiset(acc + [v])[""] == multiset(acc)[""] + (if v == "" then 1 else 0)
  {
  }

  /** A step over an accumulator that ends with an empty entry only touches what follows it. */
  lemma StepAfterBreak(p: seq<string>, q: seq<string>, line: string)
    requires |p| > 0 && p[|p| - 1] == ""
    ensures CombineStep(p + q, line) == p + CombineStep(q, line)
  {
    var pq := p + q;
    assert pq[|pq| - 1] == if q == [] then "" else q[|q| - 1];
    if Trim(line) == "" {
      assert pq + [""] == p + (q + [""]);
    } else if q != [] && q[|q| - 1] != "" {
      var v := q[|q| - 1] + " " + Trim(line);
      assert pq[|pq| - 1 := v] == p + q[|q| - 1 := v];
    } else {
      assert pq + [Trim(line)] == p + (q + [Trim(line)]);
    }
  }

  lemma CombinedSnoc(lines: seq<string>, line: string)
    ensures Combined(lines + [line]) == CombineStep(Combined(lines), line)
  {
    assert (lines + [line])[..|lines|] == lines;
  }

  /** A blank line is a paragraph break: what comes after it is folded as if from the start. */
  lemma {:induction false} CombinedBreak(before: seq<string>, blank: string, after: seq<string>)
    requires IsBlank(blank)
    ensures Combined(before + [blank] + after) == Combined(before) + [""] + Combined(after)
  {
    if after == [] {
      assert before + [blank] + after == before + [blank];
      CombinedSnoc(before, blank);
    } else {
      var init, line := after[..|after| - 1], after[|after| - 1];
      var p := Combined(before) + [""];
      assert after == init + [line];
      assert before + [blank] + after == (before + [blank] + init) + [line];
      calc {
        Combined(before + [blank] + after);
        Combined((before + [blank] + init) + [line]);
        { CombinedSnoc(before + [blank] + init, line); }
        CombineStep(Combined(before + [blank] + init), line);
        { CombinedBreak(before, blank, init); }
        CombineStep(p + Combined(init), line);
        { StepAfterBreak(p, Combined(init), line); }
        p + CombineStep(Combined(init), line);
        { CombinedSnoc(init, line); }
        p + Combined(after);
      }
    }
  }

  /** A run of non-blank lines folds into the single entry that joins their trimmed texts. */
  lemma {:induction false} CombinedRun(lines: seq<string>)
    requires lines != []
    requires forall k :: 0 <= k < |lines| ==> !IsBlank(lines[k])
    ensures Combined(lines) == [JoinTrimmed(lines)]
  {
    var init, line := lines[..|lines| - 1], lines[|lines| - 1];
    assert Trim(line) != "";
    if |lines| == 1 {
      assert init == [];
    } else {
      CombinedRun(init);
      CombinedShape(init);
      assert Trim(init[|init| - 1]) != "";
      JoinTrimmedNonEmpty(init);
    }
  }

  lemma {:induction false} JoinTrimmedNonEmpty(lines: seq<string>)
    requires lines != []
    requires !IsBlank(lines[|lines| - 1])
    ensures JoinTrimmed(lines) != ""
  {
  }

  lemma CombinedPrefixStep(lines: seq<string>, i: nat)
    requires i < |lines|
    ensures Combined(lines[..i + 1]) == CombineStep(Combined(lines[..i]), lines[i])
  {
    assert lines[..i + 1][..i] == lines[..i];
  }

  /** `cleanJD.split(/\n/).reduce(...)`: the accumulator is updated in place, line by line. */
  method CombineLines(text: string) returns (entries: seq<string>)
    ensures entries == Combined(Split(text, '\n'))
  {
    var lines := Split(text, '\n');
    entries := [];
    for i := 0 to |lines|
      invariant entries == Combined(lines[..i])
    {
      CombinedPrefixStep(lines, i);
      var line := lines[i];
      if Trim(line) == "" {
        entries := entries + [""];
      } else if |entries| > 0 && entries[|entries| - 1] != "" {
        entries := entries[|entries| - 1 := entries[|entries| - 1] + " " + Trim(line)];
      } else {
        entries := entries + [Trim(line)];
      }
    }
    assert lines[..|lines|] == lines;
  }

  // ---------------------------------------------------------------------------
  // Line classification

  /** The section titles a heading starts with, in lower case since they are matched without
      regard to ASCII case. */
  const HEADING_TITLES: seq<string> := [
    "role overview", "key responsibilities", "required skills",
    "preferred qualifications", "education", "why join us"]

  /** Every title starts with a letter. */
  lemma HeadingTitlesStartWithLetter()
    ensures forall t :: t in HEADING_TITLES ==> t != "" && 'a' <= t[0] <= 'z'
  {
  }

  /** One of the six heading patterns (`/^Role Overview:?/i`, ...) matches at the start. The
      optional colon never changes whether they match. */
  predicate IsHeading(line: string) {
    StartsWithTitle(line, HEADING_TITLES)
  }

  /** `line` starts with one of `titles`, without regard to ASCII case; the titles are tried in order. */
  predicate StartsWithTitle(line: string, titles: seq<string>) {
    titles != [] && (StartsWith(Lower(line), titles[0]) || StartsWithTitle(line, titles[1..]))
  }

  lemma {:induction false} StartsWithTitleWitness(line: string, titles: seq<string>)
    requires StartsWithTitle(line, titles)
    ensures exists t :: t in titles && StartsWith(Lower(line), t)
  {
    if !StartsWith(Lower(line), titles[0]) {
      StartsWithTitleWitness(line, titles[1..]);
      var t :| t in titles[1..] && StartsWith(Lower(line), t);
      assert t in titles;
    }
  }

  /** A heading starts with a letter, so it neither starts with whitespace nor with a `*`. */
  lemma HeadingStartsWithLetter(line: string)
    requires IsHeading(line)
    ensures line != [] && line[0] != '*' && !IsWhitespace(line[0])
  {
    StartsWithTitleWitness(line, HEADING_TITLES);
    var t :| t in HEADING_TITLES && StartsWith(Lower(line), t);
    HeadingTitlesStartWithLetter();
    assert Lower(line)[0] == t[0];
    assert 'a' <= LowerChar(line[0]) <= 'z';
  }

  lemma {:induction false} StartsWithTitleLower(a: string, b: string, titles: seq<string>)
    requires Lower(a) == Lower(b)
    ensures StartsWithTitle(a, titles) == StartsWithTitle(b, titles)
  {
    if titles != [] {
      StartsWithTitleLower(a, b, titles[1..]);
    }
  }

  /** `/^[-*]\s+/`. */
  predicate IsBulletLine(line: string) {
    |line| >= 2 && (line[0] == '-' || line[0] == '*') && IsWhitespace(line[1])
  }

  predicate IsAsciiDigit(c: char) {
    '0' <= c <= '9'
  }

  /** The length of the run of ASCII digits `s` starts with. */
  function LeadingDigits(s: string): (n: nat)
    ensures n <= |s| && (n < |s| ==> !IsAsciiDigit(s[n]))
    ensures forall i :: 0 <= i < n ==> IsAsciiDigit(s[i])
  {
    if |s| > 0 && IsAsciiDigit(s[0]) then 1 + LeadingDigits(s[1..]) else 0
  }

  /** `/^\d+\.\s+/`: the greedy digit run is the only one a dot can follow. */
  predicate IsNumberedLine(line: string) {
    var d := LeadingDigits(line);
    0 < d && d + 1 < |line| && line[d] == '.' && IsWhitespace(line[d + 1])
  }

  /** Where the lazy `.*?\*\*` that starts at `j` finds its closing `**`, if anywhere: the first
      `**` from `j` on, provided no line terminator comes before it. */
  function ClosingStars(s: string, j: nat): (r: Option<nat>)
    ensures r.Some? ==> j <= r.value && OccursAt(s, "**", r.value)
    decreases |s| - j
  {
    if j + 2 > |s| then None
    else if s[j..j + 2] == "**" then Some(j)
    else if IsLineTerminator(s[j]) then None
    else ClosingStars(s, j + 1)
  }

  /** The closing `**` is the first one from `j` on, and no line terminator precedes it; when
      there is none, every later `**` has a line terminator before it. */
  lemma {:induction false} ClosingStarsIsLazy(s: string, j: nat)
    ensures ClosingStars(s, j).Some? ==>
              forall i :: j <= i < ClosingStars(s, j).value ==> !IsLineTerminator(s[i]) && !OccursAt(s, "**", i)
    ensures ClosingStars(s, j).None? ==>
              forall k :: j <= k && OccursAt(s, "**", k) ==> exists i :: j <= i < k && IsLineTerminator(s[i])
    decreases |s| - j
  {
    if j + 2 <= |s| && s[j..j + 2] != "**" {
      assert !OccursAt(s, "**", j);
      if !IsLineTerminator(s[j]) {
        ClosingStarsIsLazy(s, j + 1);
      }
    }
  }

  /** The pattern `\*\*(.*?)\*\*` matches at index `q`. */
  predicate BoldAt(s: string, q: nat) {
    OccursAt(s, "**", q) && ClosingStars(s, q + 2).Some?
  }

  /** The pattern `\*\*(.*?)\*\*` matches somewhere in `s` (its `test`). */
  predicate HasInlineBold(s: string) {
    FirstBold(s, 0).Some?
  }

  datatype LineKind = Blank | Heading | Bullet | Numbered | InlineBold | Paragraph

  /** The branch the loop takes for a trimmed line; the tests run in this order and the first
      that matches wins. */
  function Classify(line: string): (kind: LineKind)
    ensures kind == Blank <==> line == ""
    ensures kind == Heading <==> line != "" && IsHeading(line)
    ensures kind == Heading ==> line[0] != '*'
    ensures kind == Bullet <==> line != "" && !IsHeading(line) && IsBulletLine(line)
    ensures kind == Numbered <==>
      line != "" && !IsHeading(line) && !IsBulletLine(line) && IsNumberedLine(line)
    ensures kind == InlineBold <==>
      line != "" && !IsHeading(line) && !IsBulletLine(line) && !IsNumberedLine(line) && HasInlineBold(line)
    ensures kind == Paragraph <==>
      line != "" && !IsHeading(line) && !IsBulletLine(line) && !IsNumberedLine(line) && !HasInlineBold(line)
  {
    if line == "" then Blank
    else if IsHeading(line) then
      HeadingStartsWithLetter(line);
      Heading
    else if IsBulletLine(line) then Bullet
    else if IsNumberedLine(line) then Numbered
    else if HasInlineBold(line) then InlineBold
    else Paragraph
  }

  lemma {:induction false} LeadingDigitsLower(s: string)
    ensures LeadingDigits(Lower(s)) == LeadingDigits(s)
  {
    if |s| > 0 && IsAsciiDigit(s[0]) {
      LowerSlice(s, 1, |s|);
      LeadingDigitsLower(s[1..]);
    }
  }

  lemma {:induction false} ClosingStarsLower(s: string, j: nat)
    ensures ClosingStars(Lower(s), j) == ClosingStars(s, j)
    decreases |s| - j
  {
    if j + 2 <= |s| {
      assert Lower(s)[j..j + 2] == "**" <==> s[j..j + 2] == "**" by {
        LowerSlice(s, j, j + 2);
      }
      ClosingStarsLower(s, j + 1);
    }
  }

  lemma BoldAtLower(s: string, q: nat)
    ensures BoldAt(Lower(s), q) <==> BoldAt(s, q)
  {
    ClosingStarsLower(s, q + 2);
    if q + 2 <= |s| {
      LowerSlice(s, q, q + 2);
      assert OccursAt(Lower(s), "**", q) <==> OccursAt(s, "**", q);
    }
  }

  lemma {:induction false} FirstBoldLower(s: string, q: nat)
    ensures FirstBold(Lower(s), q) == FirstBold(s, q)
    decreases |s| - q
  {
    if q < |s| {
      BoldAtLower(s, q);
      FirstBoldLower(s, q + 1);
    }
  }

  /** Lower-casing a line never changes its branch: headings are matched case-insensitively and
      the other tests look only at digits, punctuation and whitespace. */
  lemma ClassifyIgnoresCase(line: string)
    ensures Classify(Lower(line)) == Classify(line)
  {
    LowerIdempotent(line);
    StartsWithTitleLower(Lower(line), line, HEADING_TITLES);
    BulletLower(line);
    NumberedLower(line);
    FirstBoldLower(line, 0);
  }

  lemma BulletLower(line: string)
    ensures IsBulletLine(Lower(line)) == IsBulletLine(line)
  {
  }

  lemma NumberedLower(line: string)
    ensures IsNumberedLine(Lower(line)) == IsNumberedLine(line)
  {
    LeadingDigitsLower(line);
  }

  // ---------------------------------------------------------------------------
  // Bold markers and the inline-bold split

  /** `s` holds two asterisks in a row at index `i`. */
  predicate StarPairAt(s: string, i: int) {
    0 <= i < |s| - 1 && s[i] == '*' && s[i + 1] == '*'
  }

  /** No two adjacent asterisks. */
  predicate NoDoubleStar(s: string) {
    forall i | 0 <= i < |s| :: !StarPairAt(s, i)
  }

  lemma NoDoubleStarTail(s: string)
    requires s != [] && NoDoubleStar(s)
    ensures NoDoubleStar(s[1..])
  {
    forall i | 0 <= i < |s[1..]| ensures !StarPairAt(s[1..], i) {
      assert StarPairAt(s[1..], i) ==> StarPairAt(s, i + 1);
    }
  }

  lemma ConsNoDoubleStar(c: char, t: string)
    requires NoDoubleStar(t) && (c == '*' ==> t == [] || t[0] != '*')
    ensures NoDoubleStar([c] + t)
  {
    forall i | 0 <= i < |[c] + t| ensures !StarPairAt([c] + t, i) {
      if i > 0 {
        assert StarPairAt([c] + t, i) ==> StarPairAt(t, i - 1);
      }
    }
  }

  /** `s.replace(/\*\*\/g, "")`: every `**` found scanning left to right is deleted. */
  function RemoveStars(s: string): (r: string)
    ensures NoDoubleStar(r)
    ensures |r| <= |s|
    ensures s != [] && s[0] != '*' ==> r != [] && r[0] == s[0]
    ensures NoDoubleStar(s) ==> r == s
  {
    if |s| >= 2 && s[0] == '*' && s[1] == '*' then
      assert StarPairAt(s, 0);
      RemoveStars(s[2..])
    else if s == [] then []
    else
      var rest := RemoveStars(s[1..]);
      ConsNoDoubleStar(s[0], rest);
      if NoDoubleStar(s) then
        NoDoubleStarTail(s);
        assert s == [s[0]] + s[1..];
        [s[0]] + rest
      else [s[0]] + rest
  }

  lemma RemoveStarsIdempotent(s: string)
    ensures RemoveStars(RemoveStars(s)) == RemoveStars(s)
  {
  }

  /** Any substring of a string without `**` has none either. */
  lemma NoDoubleStarSub(s: string, t: string, i: int)
    requires NoDoubleStar(s) && OccursAt(s, t, i)
    ensures NoDoubleStar(t)
  {
    forall k | 0 <= k < |t| ensures !StarPairAt(t, k) {
      if 0 <= k < |t| - 1 {
        assert t[k] == s[i + k] && t[k + 1] == s[i + k + 1];
        assert StarPairAt(t, k) ==> StarPairAt(s, i + k);
      }
    }
  }

  lemma TrimKeepsNoDoubleStar(s: string)
    requires NoDoubleStar(s)
    ensures NoDoubleStar(Trim(s))
  {
    var i :| OccursAt(s, Trim(s), i);
    NoDoubleStarSub(s, Trim(s), i);
  }

  /** The first index from `q` on where the bold pattern matches. */
  function FirstBold(s: string, q: nat): (r: Option<nat>)
    ensures r.Some? ==> q <= r.value < |s| && BoldAt(s, r.value)
    ensures forall i: nat | q <= i < (if r.Some? then r.value else |s|) :: !BoldAt(s, i)
    decreases |s| - q
  {
    if q >= |s| then None
    else if BoldAt(s, q) then Some(q)
    else FirstBold(s, q + 1)
  }

  /** The first match of the pattern in `s`, as the index it starts at and the index after it. */
  function FirstBoldMatch(s: string): (m: Option<(nat, nat)>)
    ensures m.None? ==> !HasInlineBold(s)
    ensures m.Some? ==> m.value.0 + 4 <= m.value.1 <= |s|
    ensures m.Some? ==> OccursAt(s, "**", m.value.0) && OccursAt(s, "**", m.value.1 - 2)
    ensures m.Some? ==> forall i: nat | i < m.value.0 :: !BoldAt(s, i)
    ensures m.Some? ==> ClosingStars(s, m.value.0 + 2) == Some(m.value.1 - 2)
  {
    match FirstBold(s, 0)
    case None => None
    case Some(q) => Some((q, ClosingStars(s, q + 2).value + 2))
  }

  /** `s.split(/(\*\*.*?\*\*)/)`: the text before each match, then the match itself (the capture),
      and finally the text after the last match. A match at index `q` depends only on `s[q..]`,
      so splitting the rest after a match is the same as resuming the scan there. */
  function BoldSplit(s: string): (parts: seq<string>)
    ensures parts != []
    decreases |s|
  {
    match FirstBoldMatch(s)
    case None => [s]
    case Some((q, e)) => [s[..q], s[q..e]] + BoldSplit(s[e..])
  }

  /** Text and matches alternate: an odd number of pieces, every odd-indexed one a bold piece. */
  predicate AlternatesBold(parts: seq<string>) {
    |parts| % 2 == 1 && forall k :: 0 <= k < |parts| && k % 2 == 1 ==> IsBoldPiece(parts[k])
  }

  /** A piece wrapped in `**` on both sides, with the markers not overlapping, and with neither
      a `**` nor a line terminator between them: what the lazy `.*?` can capture. */
  predicate IsBoldPiece(p: string) {
    |p| >= 4 && StartsWith(p, "**") && EndsWith(p, "**") &&
    forall i | 2 <= i < |p| - 2 :: !IsLineTerminator(p[i]) && !StarPairAt(p, i)
  }

  /** Between the scan start and the closing `**` there is neither a line terminator nor a `**`. */
  lemma LazyGap(s: string, j: nat, v: nat)
    requires ClosingStars(s, j) == Some(v)
    ensures forall k | j <= k < v :: !IsLineTerminator(s[k]) && !StarPairAt(s, k)
  {
    ClosingStarsIsLazy(s, j);
    forall k | j <= k < v ensures !IsLineTerminator(s[k]) && !StarPairAt(s, k) {
      if k + 1 < |s| {
        assert s[k..k + 2] == [s[k], s[k + 1]];
      }
    }
  }

  lemma SliceInterior(s: string, q: nat, e: nat)
    requires q + 4 <= e <= |s|
    requires forall k | q + 2 <= k < e - 2 :: !IsLineTerminator(s[k]) && !StarPairAt(s, k)
    ensures forall i | 2 <= i < e - q - 2 :: !IsLineTerminator(s[q..e][i]) && !StarPairAt(s[q..e], i)
  {
    forall i | 2 <= i < e - q - 2
      ensures !IsLineTerminator(s[q..e][i]) && !StarPairAt(s[q..e], i)
    {
      assert s[q..e][i] == s[q + i] && s[q..e][i + 1] == s[q + i + 1];
      assert !StarPairAt(s, q + i);
    }
  }

  /** A match, cut out of the line, is a bold piece. */
  lemma MatchIsWrapped(s: string, q: nat, e: nat)
    requires q + 4 <= e <= |s| && OccursAt(s, "**", q) && OccursAt(s, "**", e - 2)
    requires ClosingStars(s, q + 2) == Some(e - 2)
    ensures IsBoldPiece(s[q..e])
  {
    var p := s[q..e];
    assert p[..2] == s[q..q + 2];
    assert p[|p| - 2..] == s[e - 2..e];
    LazyGap(s, q + 2, e - 2);
    SliceInterior(s, q, e);
  }

  lemma OddPiecesCons2(a: string, b: string, rest: seq<string>)
    requires IsBoldPiece(b) && AlternatesBold(rest)
    ensures AlternatesBold([a, b] + rest)
  {
    var parts := [a, b] + rest;
    forall k | 0 <= k < |parts| && k % 2 == 1 ensures IsBoldPiece(parts[k]) {
      if k >= 2 {
        assert parts[k] == rest[k - 2];
      }
    }
  }

  /** The split alternates text and matches: an odd number of pieces, and every piece at an odd
      index is a match, at least four characters long, opening and closing with `**`, with no
      `**` and no line terminator in between (the capture stops at the nearest `**`). */
  lemma {:induction false} BoldSplitShape(s: string)
    ensures AlternatesBold(BoldSplit(s))
    decreases |s|
  {
    match FirstBoldMatch(s)
    case None =>
    case Some((q, e)) =>
      BoldSplitShape(s[e..]);
      ShapeStep(s, q, e);
  }

  lemma ShapeStep(s: string, q: nat, e: nat)
    requires FirstBoldMatch(s) == Some((q, e))
    requires AlternatesBold(BoldSplit(s[e..]))
    ensures AlternatesBold(BoldSplit(s))
  {
    MatchIsBold(s, q, e);
    OddPiecesCons2(s[..q], s[q..e], BoldSplit(s[e..]));
    BoldSplitUnfold(s, q, e);
  }

  lemma MatchIsBold(s: string, q: nat, e: nat)
    requires FirstBoldMatch(s) == Some((q, e))
    ensures IsBoldPiece(s[q..e])
  {
    MatchIsWrapped(s, q, e);
  }

  lemma BoldSplitUnfold(s: string, q: nat, e: nat)
    requires FirstBoldMatch(s) == Some((q, e))
    ensures BoldSplit(s) == [s[..q], s[q..e]] + BoldSplit(s[e..])
  {
  }

  /** The pieces, joined back together. */
  function Concat(parts: seq<string>): string {
    if parts == [] then "" else parts[0] + Concat(parts[1..])
  }

  lemma ConcatCons2(a: string, b: string, rest: seq<string>)
    ensures Concat([a, b] + rest) == a + b + Concat(rest)
  {
    var parts := [a, b] + rest;
    assert parts[1..] == [b] + rest;
    assert parts[1..][1..] == rest;
  }

  lemma SliceJoin(s: string, q: nat, e: nat)
    requires q <= e <= |s|
    ensures s[..q] + s[q..e] + s[e..] == s
  {
  }

  /** Splitting loses no character: the pieces put back together are the line. */
  lemma {:induction false} BoldSplitConcat(s: string)
    ensures Concat(BoldSplit(s)) == s
    decreases |s|
  {
    match FirstBoldMatch(s)
    case None =>
      assert Concat([s]) == s + Concat([]);
    case Some((q, e)) =>
      var rest := BoldSplit(s[e..]);
      BoldSplitConcat(s[e..]);
      assert BoldSplit(s) == [s[..q], s[q..e]] + rest;
      ConcatCons2(s[..q], s[q..e], rest);
      SliceJoin(s, q, e);
  }

  /** A closing `**` found in a prefix is found at the same place in the whole string. */
  lemma {:induction false} ClosingStarsPrefix(s: string, n: nat, j: nat)
    requires n <= |s| && ClosingStars(s[..n], j).Some?
    ensures ClosingStars(s, j) == ClosingStars(s[..n], j)
    decreases |s| - j
  {
    assert s[..n][j..j + 2] == s[j..j + 2];
    assert s[..n][j] == s[j];
    if s[j..j + 2] != "**" {
      ClosingStarsPrefix(s, n, j + 1);
    }
  }

  /** A match inside a prefix is a match in the whole string. */
  lemma BoldAtPrefix(s: string, n: nat, q: nat)
    requires n <= |s| && BoldAt(s[..n], q)
    ensures BoldAt(s, q)
  {
    assert s[..n][q..q + 2] == s[q..q + 2];
    ClosingStarsPrefix(s, n, q + 2);
  }

  /** The text before the first match holds no match of its own. */
  lemma PrefixHasNoBold(s: string, q: nat)
    requires q <= |s| && forall i: nat | i < q :: !BoldAt(s, i)
    ensures !HasInlineBold(s[..q])
  {
    var r := FirstBold(s[..q], 0);
    if r.Some? {
      BoldAtPrefix(s, q, r.value);
    }
  }

  /** The text between matches holds no match of its own, so it never renders bold. */
  lemma {:induction false} BoldSplitPlainParts(s: string)
    ensures forall k :: 0 <= k < |BoldSplit(s)| && k % 2 == 0 ==> !HasInlineBold(BoldSplit(s)[k])
    decreases |s|
  {
    match FirstBoldMatch(s)
    case None =>
    case Some((q, e)) =>
      var rest := BoldSplit(s[e..]);
      BoldSplitPlainParts(s[e..]);
      PrefixHasNoBold(s, q);
      var parts := [s[..q], s[q..e]] + rest;
      assert parts == BoldSplit(s);
      forall k | 0 <= k < |parts| && k % 2 == 0 ensures !HasInlineBold(parts[k]) {
        if k >= 2 {
          assert parts[k] == rest[k - 2];
        }
      }
  }

  // ---------------------------------------------------------------------------
  // Drawing

  datatype Rgb = Rgb(red: nat, green: nat, blue: nat)

  const BLACK: Rgb := Rgb(0, 0, 0)
  const SECTION_BLUE: Rgb := Rgb(0, 102, 204)
  const BULLET_PREFIX: string := "\U{2022} "

  /** The options `addLine` takes, with their defaults in `DEFAULT_STYLE`. */
  datatype LineStyle = LineStyle(bold: bool, indent: nat, bullet: bool, numbered: bool, color: Rgb, fontSize: nat)

  const DEFAULT_STYLE: LineStyle := LineStyle(false, 0, false, false, BLACK, 11)

  /** What the PDF receives: one blank line of space, or a text in a given style. */
  datatype DrawOp = Gap | Text(content: string, bold: bool, indent: nat, fontSize: nat, color: Rgb)

  /** A draw operation that never puts blank or untrimmed text on the page. */
  predicate Drawable(op: DrawOp) {
    op.Text? ==> op.content != "" && IsTrimmed(op.content)
  }

  /** `addLine`: a blank text only advances the cursor; any other text is trimmed, given the bullet
      prefix when asked for, and drawn in the requested style. */
  function AddLine(text: string, style: LineStyle): (op: DrawOp)
    ensures op == Gap <==> IsBlank(text)
    ensures Drawable(op)
    ensures op.Text? && style.bullet ==> op.content == BULLET_PREFIX + Trim(text)
    ensures op.Text? && !style.bullet ==> op.content == Trim(text)
    ensures op.Text? ==> op.bold == style.bold && op.indent == style.indent &&
                         op.fontSize == style.fontSize && op.color == style.color
  {
    if Trim(text) == "" then Gap
    else
      var t := Trim(text);
      var content := if style.bullet then BULLET_PREFIX + t else t;
      assert content[|content| - 1] == t[|t| - 1];
      Text(content, style.bold, style.indent, style.fontSize, style.color)
  }

  /** `line.replace(/^[-*]\s*\/, "")` on a bullet line: the marker and the whitespace after it. */
  function StripBulletMarker(line: string): (r: string)
    requires IsBulletLine(line) && IsTrimmed(line)
    ensures exists n :: 2 <= n < |line| && IsBlank(line[1..n]) && r == line[n..]
    ensures r != "" && IsTrimmed(r)
  {
    var rest := line[1..];
    var n := LeadingBlank(rest);
    assert n < |rest| by {
      assert !IsWhitespace(rest[|rest| - 1]);
    }
    assert IsBlank(line[1..1 + n]) by {
      forall i | 0 <= i < n ensures line[1..1 + n][i] == rest[i] { }
    }
    assert rest[n..] == line[1 + n..];
    rest[n..]
  }

  /** The operations for one piece of an inline-bold line: a piece wrapped in `**` is drawn bold
      without any `**`, any other non-blank piece is drawn trimmed in the default style. */
  function SegmentOps(seg: string): (ops: seq<DrawOp>)
    ensures |ops| <= 1
    ensures forall op :: op in ops && op.Text? && op.bold ==> NoDoubleStar(op.content)
    ensures StartsWith(seg, "**") && EndsWith(seg, "**") ==>
      |ops| == 1 && (ops[0] == Gap <==> IsBlank(RemoveStars(seg))) &&
      (ops[0].Text? ==> ops[0] == Text(Trim(RemoveStars(seg)), true, 0, 11, BLACK))
    ensures !(StartsWith(seg, "**") && EndsWith(seg, "**")) && !IsBlank(seg) ==>
      ops == [Text(Trim(seg), false, 0, 11, BLACK)]
    ensures !(StartsWith(seg, "**") && EndsWith(seg, "**")) && IsBlank(seg) ==> ops == []
  {
    TrimIdempotent(seg);
    if StartsWith(seg, "**") && EndsWith(seg, "**") then
      TrimKeepsNoDoubleStar(RemoveStars(seg));
      [AddLine(RemoveStars(seg), DEFAULT_STYLE.(bold := true))]
    else if Trim(seg) != "" then [AddLine(Trim(seg), DEFAULT_STYLE)]
    else []
  }

  /** The inner `for (const seg of parts)` loop, as a fold from the back: every text it draws is
      trimmed and non-empty, and no bold text keeps a `**`. */
  function PartsOps(parts: seq<string>): (ops: seq<DrawOp>)
    ensures |ops| <= |parts|
    ensures forall op :: op in ops ==> Drawable(op)
    ensures forall op :: op in ops && op.Text? && op.bold ==> NoDoubleStar(op.content)
  {
    if parts == [] then []
    else PartsOps(parts[..|parts| - 1]) + SegmentOps(parts[|parts| - 1])
  }

  /** A heading: `**` removed, drawn bold, blue and at size 13. A heading starts with the first
      letter of its title, which survives the star removal, so the heading is never blank. */
  function HeadingOp(line: string): (op: DrawOp)
    requires line != "" && IsTrimmed(line) && line[0] != '*'
    ensures op.Text? && op.bold && op.color == SECTION_BLUE && op.fontSize == 13 && op.indent == 0
    ensures op.content == Trim(RemoveStars(line))
    ensures Drawable(op) && NoDoubleStar(op.content)
  {
    var title := RemoveStars(line);
    assert title[0] == line[0] && !IsBlank(title);
    TrimKeepsNoDoubleStar(title);
    AddLine(title, LineStyle(true, 0, false, false, SECTION_BLUE, 13))
  }

  /** A bullet: the marker and the whitespace after it replaced by the bullet prefix, indented by 5. */
  function BulletOp(line: string): (op: DrawOp)
    requires IsBulletLine(line) && IsTrimmed(line)
    ensures op.Text? && !op.bold && op.indent == 5 && op.fontSize == 11 && op.color == BLACK
    ensures exists n :: 2 <= n < |line| && IsBlank(line[1..n]) && op.content == BULLET_PREFIX + line[n..]
    ensures op.content == BULLET_PREFIX + StripBulletMarker(line)
    ensures Drawable(op)
  {
    var rest := StripBulletMarker(line);
    TrimOfTrimmed(rest);
    AddLine(rest, DEFAULT_STYLE.(bullet := true, indent := 5))
  }

  /** A numbered point, drawn as it stands and in bold. */
  function NumberedOp(line: string): (op: DrawOp)
    requires line != "" && IsTrimmed(line)
    ensures op.Text? && op.content == line && op.bold && op.indent == 0 && op.color == BLACK
    ensures op.fontSize == 11
    ensures Drawable(op)
  {
    TrimOfTrimmed(line);
    AddLine(line, DEFAULT_STYLE.(numbered := true, bold := true, indent := 0))
  }

  /** A plain paragraph, drawn as it stands in the default style. */
  function ParagraphOp(line: string): (op: DrawOp)
    requires line != "" && IsTrimmed(line)
    ensures op.Text? && op.content == line && !op.bold && op.indent == 0 && op.color == BLACK
    ensures op.fontSize == 11
    ensures Drawable(op)
  {
    TrimOfTrimmed(line);
    AddLine(line, DEFAULT_STYLE)
  }

  /** An inline-bold line: split around its `**...**` matches and every piece drawn on its own. */
  function InlineBoldOps(line: string): (ops: seq<DrawOp>)
    ensures forall op :: op in ops ==> Drawable(op)
    ensures forall op :: op in ops && op.Text? && op.bold ==> NoDoubleStar(op.content)
  {
    PartsOps(BoldSplit(line))
  }

  /** The operations for a trimmed line already sorted into `kind`. */
  function KindOps(line: string, kind: LineKind): (ops: seq<DrawOp>)
    requires IsTrimmed(line) && (kind == Blank <==> line == "")
    requires kind == Heading ==> line[0] != '*'
    requires kind == Bullet ==> IsBulletLine(line)
    ensures kind == Blank ==> ops == [Gap]
    ensures forall op :: op in ops ==> Drawable(op)
  {
    match kind
    case Blank => [Gap]
    case Heading => [HeadingOp(line)]
    case Bullet => [BulletOp(line)]
    case Numbered => [NumberedOp(line)]
    case InlineBold => InlineBoldOps(line)
    case Paragraph => [ParagraphOp(line)]
  }

  /** The operations the loop body emits for one combined entry: trim it, sort it, draw it. */
  function RenderEntry(raw: string): (ops: seq<DrawOp>)
    ensures Classify(Trim(raw)) == Blank ==> ops == [Gap]
    ensures forall op :: op in ops ==> Drawable(op)
  {
    var line := Trim(raw);
    KindOps(line, Classify(line))
  }

  /** The operations for all combined entries, in order. */
  function RenderAll(entries: seq<string>): (ops: seq<DrawOp>)
    ensures forall op :: op in ops ==> Drawable(op)
  {
    if entries == [] then []
    else RenderAll(entries[..|entries| - 1]) + RenderEntry(entries[|entries| - 1])
  }

  /** The pieces are drawn one after the other: the operations of two runs of pieces are those
      of the first run followed by those of the second. */
  lemma {:induction false} PartsOpsAppend(a: seq<string>, b: seq<string>)
    ensures PartsOps(a + b) == PartsOps(a) + PartsOps(b)
    decreases |b|
  {
    if b != [] {
      var b' := b[..|b| - 1];
      assert (a + b)[..|a + b| - 1] == a + b';
      PartsOpsAppend(a, b');
    } else {
      assert a + b == a;
    }
  }

  lemma PartsOpsPair(a: string, b: string)
    ensures PartsOps([a, b]) == SegmentOps(a) + SegmentOps(b)
  {
    assert [a, b][..1] == [a];
    assert [a][..0] == [];
  }

  /** An inline-bold line draws the text before its first match as plain text, the match in
      bold without its `**`, and then the rest of the line the same way. */
  lemma InlineBoldOpsUnfold(line: string)
    ensures FirstBoldMatch(line).None? ==> InlineBoldOps(line) == SegmentOps(line)
    ensures FirstBoldMatch(line).Some? ==>
      var q, e := FirstBoldMatch(line).value.0, FirstBoldMatch(line).value.1;
      InlineBoldOps(line) == SegmentOps(line[..q]) + SegmentOps(line[q..e]) + InlineBoldOps(line[e..])
  {
    var m := FirstBoldMatch(line);
    if m.None? {
      assert BoldSplit(line) == [line];
      assert [line][..0] == [];
    } else {
      var q, e := m.value.0, m.value.1;
      var rest := BoldSplit(line[e..]);
      assert BoldSplit(line) == [line[..q], line[q..e]] + rest;
      PartsOpsAppend([line[..q], line[q..e]], rest);
      PartsOpsPair(line[..q], line[q..e]);
    }
  }

  lemma PartsOpsStep(parts: seq<string>, i: nat)
    requires i < |parts|
    ensures PartsOps(parts[..i + 1]) == PartsOps(parts[..i]) + SegmentOps(parts[i])
  {
    assert parts[..i + 1][..i] == parts[..i];
  }

  /** `for (const seg of parts)` on an inline-bold line. */
  method RenderInlineBold(line: string) returns (ops: seq<DrawOp>)
    ensures ops == InlineBoldOps(line)
  {
    var parts := BoldSplit(line);
    ops := [];
    for i := 0 to |parts|
      invariant ops == PartsOps(parts[..i])
    {
      PartsOpsStep(parts, i);
      var seg := parts[i];
      if StartsWith(seg, "**") && EndsWith(seg, "**") {
        ops := ops + [AddLine(RemoveStars(seg), DEFAULT_STYLE.(bold := true))];
      } else if Trim(seg) != "" {
        ops := ops + [AddLine(Trim(seg), DEFAULT_STYLE)];
      }
    }
    assert parts[..|parts|] == parts;
  }

  lemma RenderAllStep(entries: seq<string>, i: nat)
    requires i < |entries|
    ensures RenderAll(entries[..i + 1]) == RenderAll(entries[..i]) + KindOps(Trim(entries[i]), Classify(Trim(entries[i])))
  {
    assert entries[..i + 1][..i] == entries[..i];
  }

  /** `for (let rawLine of combinedLines)`: each entry is trimmed and drawn by the first branch
      that matches it. */
  method RenderEntries(entries: seq<string>) returns (ops: seq<DrawOp>)
    ensures ops == RenderAll(entries)
    ensures forall op :: op in ops ==> Drawable(op)
  {
    ops := [];
    for i := 0 to |entries|
      invariant ops == RenderAll(entries[..i])
    {
      RenderAllStep(entries, i);
      var line := Trim(entries[i]);
      var kind := Classify(line);
      if kind == Blank {
        ops := ops + [Gap];
      } else if kind == Heading {
        ops := ops + [HeadingOp(line)];
      } else if kind == Bullet {
        ops := ops + [BulletOp(line)];
      } else if kind == Numbered {
        ops := ops + [NumberedOp(line)];
      } else if kind == InlineBold {
        var pieces := RenderInlineBold(line);
        ops := ops + pieces;
      } else {
        ops := ops + [ParagraphOp(line)];
      }
    }
    assert entries[..|entries|] == entries;
  }

  /** The text side of the export: fold the cleaned description into paragraphs, then draw them. */
  method LayoutJobDescription(cleanJd: string) returns (ops: seq<DrawOp>)
    ensures ops == RenderAll(Combined(Split(cleanJd, '\n')))
    ensures forall op :: op in ops ==> Drawable(op)
  {
    var entries := CombineLines(cleanJd);
    ops := RenderEntries(entries);
  }
}
