/** Cutting a pasted note into question blocks, `splitIntoBlocks`
    (popup.js:212-234). */
module Blocks {
  import opened Text
  import opened Patterns

  /** `map(cleanText).filter(Boolean)`. */
  function CleanPieces(pieces: seq<string>): (r: seq<string>)
    ensures |r| <= |pieces|
    ensures forall k :: 0 <= k < |r| ==> r[k] != [] && IsTrimmed(r[k])
  {
    if |pieces| == 0 then []
    else
      var piece := CleanText(pieces[0]);
      (if piece == [] then [] else [piece]) + CleanPieces(pieces[1..])
  }

  /** The pieces between blank lines (popup.js:215). */
  function BlankLinePieces(text: string): (r: seq<string>)
    ensures forall k :: 0 <= k < |r| ==> r[k] != [] && IsTrimmed(r[k])
  {
    CleanPieces(SplitOnBlankLines(text))
  }

  /** Increasing line indices below `total`. */
  predicate ValidStarts(starts: seq<nat>, total: nat) {
    && (forall k :: 0 <= k < |starts| ==> starts[k] < total)
    && (forall k, l :: 0 <= k < l < |starts| ==> starts[k] < starts[l])
  }

  /** For each line, whether it opens a numbered question
      (popup.js:221-222). */
  function StartFlags(lines: seq<string>): (r: seq<bool>)
    ensures |r| == |lines|
  {
    seq(|lines|, i requires 0 <= i < |lines| => IsNumberedMarker(Trim(lines[i])))
  }

  /** The indices below `n` whose flag is set, in increasing order. */
  function SetIndices(flags: seq<bool>, n: nat): seq<nat>
    requires n <= |flags|
  {
    if n == 0 then []
    else SetIndices(flags, n - 1) + (if flags[n - 1] then [n - 1] else [])
  }

  /** `SetIndices` lists exactly the set flags, in increasing order. */
  lemma {:induction false} SetIndicesExact(flags: seq<bool>, n: nat)
    requires n <= |flags|
    ensures ValidStarts(SetIndices(flags, n), n)
    ensures forall k :: 0 <= k < |SetIndices(flags, n)| ==> flags[SetIndices(flags, n)[k]]
    ensures forall i :: 0 <= i < n && flags[i] ==> i in SetIndices(flags, n)
  {
    if n > 0 {
      SetIndicesExact(flags, n - 1);
      var prev := SetIndices(flags, n - 1);
      assert SetIndices(flags, n) == prev + (if flags[n - 1] then [n - 1] else []);
    }
  }

  /** The `starts` array of popup.js:219-223: the indices of the lines that
      open a numbered question. */
  function Starts(lines: seq<string>): seq<nat> {
    SetIndices(StartFlags(lines), |lines|)
  }

  /** `starts` lists exactly the lines that open a numbered question, in
      increasing order. */
  lemma StartsExact(lines: seq<string>)
    ensures ValidStarts(Starts(lines), |lines|)
    ensures forall k :: 0 <= k < |Starts(lines)| ==> IsNumberedMarker(Trim(lines[Starts(lines)[k]]))
    ensures forall i :: 0 <= i < |lines| && IsNumberedMarker(Trim(lines[i])) ==> i in Starts(lines)
  {
    var flags := StartFlags(lines);
    SetIndicesExact(flags, |lines|);
    forall i | 0 <= i < |lines| && IsNumberedMarker(Trim(lines[i]))
      ensures i in Starts(lines)
    {
      assert flags[i];
    }
  }

  /** Where block `i` ends: the next start, or the end of the text. */
  function BlockEnd(starts: seq<nat>, i: nat, total: nat): nat
    requires i < |starts|
  {
    if i + 1 < |starts| then starts[i + 1] else total
  }

  /** The lines of block `i`. */
  function BlockLines(lines: seq<string>, starts: seq<nat>, i: nat): (r: seq<string>)
    requires ValidStarts(starts, |lines|) && i < |starts|
  {
    lines[starts[i]..BlockEnd(starts, i, |lines|)]
  }

  /** The non-blank blocks among the first `n`, each cleaned
      (popup.js:226-232). */
  function BlocksUpTo(lines: seq<string>, starts: seq<nat>, n: nat): (r: seq<string>)
    requires ValidStarts(starts, |lines|) && n <= |starts|
    ensures |r| <= n
    ensures forall k :: 0 <= k < |r| ==> r[k] != [] && IsTrimmed(r[k])
  {
    if n == 0 then []
    else
      var block := CleanText(Join(BlockLines(lines, starts, n - 1), "\n"));
      BlocksUpTo(lines, starts, n - 1) + (if block != [] then [block] else [])
  }

  /** `splitIntoBlocks`, popup.js:212-234, as a value. */
  function SplitBlocks(raw: string): (r: seq<string>)
    ensures r == [] <==> AllSpace(raw)
    ensures forall k :: 0 <= k < |r| ==> r[k] != [] && IsTrimmed(r[k])
  {
    var text := CleanText(raw);
    if text == [] then []
    else
      var byBlankLines := BlankLinePieces(text);
      if |byBlankLines| > 1 then byBlankLines
      else
        var lines := Split(text, '\n');
        var starts := Starts(lines);
        SetIndicesExact(StartFlags(lines), |lines|);
        if |starts| < 2 then [text]
        else
          var blocks := BlocksUpTo(lines, starts, |starts|);
          if |blocks| > 0 then blocks else [text]
  }

  /** Two or more pieces between blank lines are the blocks. */
  lemma SplitByBlankLines(raw: string)
    requires |BlankLinePieces(CleanText(raw))| > 1
    ensures SplitBlocks(raw) == BlankLinePieces(CleanText(raw))
  {
  }

  /** Cleaning a paragraph without a carriage return changes nothing. */
  lemma CleanParagraph(p: string)
    requires IsParagraph(p) && '\r' !in p
    ensures CleanText(p) == p
  {
    TrimKeepsTrimmed(p);
  }

  /** Paragraphs pass `CleanPieces` unchanged. */
  lemma {:induction false} CleanPiecesKeeps(ps: seq<string>)
    requires forall k :: 0 <= k < |ps| ==> IsParagraph(ps[k]) && '\r' !in ps[k]
    ensures CleanPieces(ps) == ps
  {
    if |ps| > 0 {
      CleanParagraph(ps[0]);
      CleanPiecesKeeps(ps[1..]);
      assert ps == [ps[0]] + ps[1..];
    }
  }

  /** Two or more paragraphs separated by blank lines are exactly the
      blocks: k questions pasted with blank lines between them give k
      blocks. */
  lemma SplitParagraphBlocks(ps: seq<string>)
    requires |ps| >= 2
    requires forall k :: 0 <= k < |ps| ==> IsParagraph(ps[k]) && '\r' !in ps[k]
    ensures SplitBlocks(Join(ps, "\n\n")) == ps
  {
    JoinedParagraphPieces(ps);
    SplitByBlankLines(Join(ps, "\n\n"));
  }

  /** Paragraphs joined with blank lines survive cleaning and come back as
      the blank-line pieces. */
  lemma JoinedParagraphPieces(ps: seq<string>)
    requires |ps| >= 1
    requires forall k :: 0 <= k < |ps| ==> IsParagraph(ps[k]) && '\r' !in ps[k]
    ensures BlankLinePieces(CleanText(Join(ps, "\n\n"))) == ps
  {
    var raw := Join(ps, "\n\n");
    JoinWithout(ps, "\n\n", '\r');
    JoinTrimmed(ps, "\n\n");
    TrimKeepsTrimmed(raw);
    assert CleanText(raw) == raw;
    SplitParagraphs(ps);
    CleanPiecesKeeps(ps);
  }

  /** Scenario 3 of the design: two questions separated by a blank line
      are two blocks. */
  lemma SplitTwoParagraphs(first: string, second: string)
    requires IsParagraph(first) && '\r' !in first
    requires IsParagraph(second) && '\r' !in second
    ensures SplitBlocks(first + "\n\n" + second) == [first, second]
  {
    var ps := [first, second];
    assert Join(ps, "\n\n") == first + "\n\n" + second;
    SplitParagraphBlocks(ps);
  }

  /** Without two blank-line pieces and without two numbered questions,
      the whole cleaned text is one block. */
  lemma SplitSingleBlock(raw: string)
    requires !AllSpace(raw)
    requires |BlankLinePieces(CleanText(raw))| <= 1
    requires |Starts(Split(CleanText(raw), '\n'))| < 2
    ensures SplitBlocks(raw) == [CleanText(raw)]
  {
  }

  /** With two or more numbered questions (and no blank-line split), block
      `i` runs from the `i`-th numbered line up to the next one: the
      lines before the first numbered line belong to no block. */
  lemma {:induction false} BlockLinesCover(lines: seq<string>, starts: seq<nat>, n: nat)
    requires ValidStarts(starts, |lines|) && 0 < n <= |starts|
    ensures Concat(seq(n, (i: nat) requires i < n => BlockLines(lines, starts, i)))
      == lines[starts[0]..BlockEnd(starts, n - 1, |lines|)]
  {
    var parts := seq(n, (i: nat) requires i < n => BlockLines(lines, starts, i));
    if n > 1 {
      BlockLinesCover(lines, starts, n - 1);
      var init := seq(n - 1, (i: nat) requires i < n - 1 => BlockLines(lines, starts, i));
      assert parts[..n - 1] == init;
      ConcatSnoc(parts);
      var mid := BlockEnd(starts, n - 2, |lines|);
      assert mid == starts[n - 1];
      assert lines[starts[0]..mid] + lines[mid..BlockEnd(starts, n - 1, |lines|)]
        == lines[starts[0]..BlockEnd(starts, n - 1, |lines|)];
    } else {
      assert Concat(parts) == parts[0] + Concat(parts[1..]);
      assert Concat(parts[1..]) == [];
    }
  }

  /** Flattening a sequence of line lists. */
  function Concat(parts: seq<seq<string>>): seq<string> {
    if |parts| == 0 then [] else parts[0] + Concat(parts[1..])
  }

  lemma {:induction false} ConcatSnoc(parts: seq<seq<string>>)
    requires |parts| > 0
    ensures Concat(parts) == Concat(parts[..|parts| - 1]) + parts[|parts| - 1]
  {
    if |parts| > 1 {
      ConcatSnoc(parts[1..]);
      assert parts[1..][..|parts[1..]| - 1] == parts[..|parts| - 1][1..];
    }
  }

  /** `splitIntoBlocks`, popup.js:212-234. */
  method SplitIntoBlocks(raw: string) returns (blocks: seq<string>)
    ensures blocks == SplitBlocks(raw)
  {
    var text := CleanText(raw);
    if text == [] {
      return [];
    }
    var byBlankLines := BlankLinePieces(text);
    if |byBlankLines| > 1 {
      return byBlankLines;
    }
    var lines := Split(text, '\n');
    var starts := FindStarts(lines);
    SetIndicesExact(StartFlags(lines), |lines|);
    if |starts| < 2 {
      return [text];
    }
    blocks := CutBlocks(lines, starts);
    if |blocks| == 0 {
      blocks := [text];
    }
  }

  /** The first loop of `splitIntoBlocks`, popup.js:219-223. */
  method FindStarts(lines: seq<string>) returns (starts: seq<nat>)
    ensures starts == Starts(lines)
  {
    starts := [];
    var i := 0;
    while i < |lines|
      invariant 0 <= i <= |lines|
      invariant starts == SetIndices(StartFlags(lines), i)
    {
      starts := NoteStart(lines, starts, i);
      i := i + 1;
    }
  }

  /** One pass of the first loop: records line `i` when it opens a
      numbered question (popup.js:221-222). */
  method NoteStart(lines: seq<string>, starts0: seq<nat>, i: nat) returns (starts: seq<nat>)
    requires i < |lines| && starts0 == SetIndices(StartFlags(lines), i)
    ensures starts == SetIndices(StartFlags(lines), i + 1)
  {
    ghost var flags := StartFlags(lines);
    var line := Trim(lines[i]);
    assert flags[i] == IsNumberedMarker(line);
    starts := starts0;
    if IsNumberedMarker(line) {
      starts := starts + [i];
    }
  }

  /** One pass of the second loop: cleans block `i` and keeps it when it
      is not blank (popup.js:227-231). */
  method CutBlock(lines: seq<string>, starts: seq<nat>, blocks0: seq<string>, i: nat) returns (blocks: seq<string>)
    requires ValidStarts(starts, |lines|) && i < |starts|
    requires blocks0 == BlocksUpTo(lines, starts, i)
    ensures blocks == BlocksUpTo(lines, starts, i + 1)
  {
    var start := starts[i];
    var end := if i + 1 < |starts| then starts[i + 1] else |lines|;
    assert lines[start..end] == BlockLines(lines, starts, i);
    var block := CleanText(Join(lines[start..end], "\n"));
    blocks := blocks0;
    if block != [] {
      blocks := blocks + [block];
    }
  }

  /** The second loop of `splitIntoBlocks`, popup.js:226-232. */
  method CutBlocks(lines: seq<string>, starts: seq<nat>) returns (blocks: seq<string>)
    requires ValidStarts(starts, |lines|)
    ensures blocks == BlocksUpTo(lines, starts, |starts|)
  {
    blocks := [];
    var i := 0;
    while i < |starts|
      invariant 0 <= i <= |starts|
      invariant blocks == BlocksUpTo(lines, starts, i)
    {
      blocks := CutBlock(lines, starts, blocks, i);
      i := i + 1;
    }
  }
}
