/** Reading one question block, popup.js:113-210: answer tokens, answer
    detection, the block parser and its confidence score. */
module Parser {
  import opened Text
  import opened Patterns

  // ---- answer tokens, popup.js:113-127 ----

  /** `parseInt(s, 10)` of a string of decimal digits. */
  function DigitsValue(s: string): nat
    requires AreAsciiDigits(s)
  {
    if |s| == 0 then 0 else 10 * DigitsValue(s[..|s| - 1]) + (s[|s| - 1] as int - '0' as int)
  }

  /** `String(token || '').trim().toLowerCase()`. */
  function Normalized(token: string): string {
    Lower(Trim(token))
  }

  /** The token is one letter naming option `i` (`a` is the first). */
  predicate ByLetter(n: string, i: nat) {
    |n| == 1 && IsAsciiLower(n[0]) && n[0] as int - 'a' as int == i
  }

  /** The token is a number naming option `i` (`1` is the first). */
  predicate ByNumber(n: string, i: nat) {
    n != [] && AreAsciiDigits(n) && DigitsValue(n) == i + 1
  }

  /** Option `i` spells the token, ignoring case, spaces and punctuation. */
  predicate ByText(n: string, options: seq<string>, i: nat)
    requires i < |options|
  {
    Compact(Lower(options[i])) == Compact(n)
  }

  /** `options.findIndex(...)` from index `i` on, for popup.js:125. */
  function FindByText(n: string, options: seq<string>, i: nat): (r: Option<nat>)
    requires i <= |options|
    ensures r.Some? ==> i <= r.value < |options| && ByText(n, options, r.value)
    ensures r.Some? ==> forall j :: i <= j < r.value ==> !ByText(n, options, j)
    ensures r.None? ==> forall j :: i <= j < |options| ==> !ByText(n, options, j)
    decreases |options| - i
  {
    if i == |options| then None
    else if ByText(n, options, i) then Some(i)
    else FindByText(n, options, i + 1)
  }

  /** `parseAnswerTokenToIndex`, popup.js:113-127: a letter, then a number,
      then an option's text, and None when nothing names an option. */
  function ResolveToken(token: string, options: seq<string>): (r: Option<nat>)
    ensures r.Some? ==> r.value < |options|
    ensures forall i :: 0 <= i < |options| && ByLetter(Normalized(token), i) ==> r == Some(i)
    ensures forall i :: 0 <= i < |options| && ByNumber(Normalized(token), i) ==> r == Some(i)
    ensures r.Some? ==>
      || ByLetter(Normalized(token), r.value)
      || ByNumber(Normalized(token), r.value)
      || (ByText(Normalized(token), options, r.value)
          && forall j :: 0 <= j < r.value ==> !ByText(Normalized(token), options, j))
    ensures r.None? <==>
      || Normalized(token) == []
      || forall i :: 0 <= i < |options| ==>
           !ByLetter(Normalized(token), i) && !ByNumber(Normalized(token), i) && !ByText(Normalized(token), options, i)
  {
    var n := Normalized(token);
    if n == [] || |options| == 0 then None
    else
      var byLetter := if |n| == 1 && IsAsciiLower(n[0]) && n[0] as int - 'a' as int < |options| then Some((n[0] as int - 'a' as int) as nat) else None;
      if byLetter.Some? then byLetter
      else
        var byNumber := if AreAsciiDigits(n) && 1 <= DigitsValue(n) <= |options| then Some(DigitsValue(n) - 1) else None;
        if byNumber.Some? then byNumber
        else FindByText(n, options, 0)
  }

  lemma LowerDigits(s: string)
    requires AreAsciiDigits(s)
    ensures Lower(s) == s
  {
    if |s| > 0 {
      LowerDigits(s[1..]);
    }
  }

  /** A single letter, of either case, names the option at its position in
      the alphabet. */
  lemma LetterToken(token: string, options: seq<string>)
    requires |Trim(token)| == 1 && IsAsciiLetter(Trim(token)[0])
    requires FoldAscii(Trim(token)[0]) as int - 'a' as int < |options|
    ensures ResolveToken(token, options) == Some((FoldAscii(Trim(token)[0]) as int - 'a' as int) as nat)
  {
    var t := Trim(token);
    assert t[1..] == [];
    assert Normalized(token) == Lower(t) == LowerChar(t[0]) + Lower(t[1..]);
    assert ByLetter(Normalized(token), (FoldAscii(t[0]) as int - 'a' as int) as nat);
  }

  /** A decimal number `k` names option `k`, counting from one. */
  lemma NumberToken(token: string, options: seq<string>)
    requires Trim(token) != [] && AreAsciiDigits(Trim(token))
    requires 1 <= DigitsValue(Trim(token)) <= |options|
    ensures ResolveToken(token, options) == Some(DigitsValue(Trim(token)) - 1)
  {
    LowerDigits(Trim(token));
    assert ByNumber(Normalized(token), DigitsValue(Trim(token)) - 1);
  }

  // ---- answer detection, popup.js:129-152 ----

  /** The answer one non-blank line names, for popup.js:131-150: an option
      line carrying a correctness marker, by its label and then by its text;
      otherwise an answer declaration, by a bare label and then by the whole
      declared token. */
  function DetectInLine(line: string, options: seq<string>): (r: Option<nat>)
    ensures r.Some? ==> r.value < |options|
    ensures r.Some? ==> MarkedOption(line).Some? || IsAnswerLead(line)
  {
    var marked :=
      match MarkedOption(line)
      case Some(m) =>
        var byTag := ResolveToken(m.tag, options);
        if byTag.Some? then byTag else ResolveToken(m.text, options)
      case None => None;
    if marked.Some? then marked
    else
      match DeclarationAt(line)
      case None => None
      case Some(capture) =>
        var token := CleanText(capture);
        var byLabel :=
          match TokenOnly(token)
          case Some(tag) => ResolveToken(tag, options)
          case None => None;
        if byLabel.Some? then byLabel else ResolveToken(token, options)
  }

  /** The answer each line names on its own. */
  function LineAnswers(lines: seq<string>, options: seq<string>): (r: seq<Option<nat>>)
    ensures |r| == |lines|
    ensures forall k :: 0 <= k < |lines| ==> r[k] == DetectInLine(lines[k], options)
  {
    seq(|lines|, k requires 0 <= k < |lines| => DetectInLine(lines[k], options))
  }

  /** The first answer from position `i` on: the loop of popup.js:131-150
      returns as soon as a line names an option. */
  function FirstAnswer(answers: seq<Option<nat>>, i: nat): (r: Option<nat>)
    requires i <= |answers|
    ensures r.Some? ==> exists k :: i <= k < |answers| && answers[k] == r && forall j :: i <= j < k ==> answers[j].None?
    ensures r.None? ==> forall k :: i <= k < |answers| ==> answers[k].None?
    decreases |answers| - i
  {
    if i == |answers| then None
    else if answers[i].Some? then answers[i]
    else FirstAnswer(answers, i + 1)
  }

  /** `detectAnswerFromRaw`, popup.js:129-152. */
  function DetectAnswer(raw: string, options: seq<string>): (r: Option<nat>)
    ensures r.Some? ==> r.value < |options|
  {
    FirstAnswer(LineAnswers(Lines(CleanText(raw)), options), 0)
  }

  /** An answer is only ever read from a marked option line or an answer
      declaration line, and the first line that names an option wins; with
      no options nothing is detected. */
  lemma DetectAnswerSource(raw: string, options: seq<string>)
    ensures DetectAnswer(raw, options).Some? ==>
      exists k :: 0 <= k < |Lines(CleanText(raw))|
        && DetectInLine(Lines(CleanText(raw))[k], options) == DetectAnswer(raw, options)
        && (MarkedOption(Lines(CleanText(raw))[k]).Some? || IsAnswerLead(Lines(CleanText(raw))[k]))
        && forall j :: 0 <= j < k ==> DetectInLine(Lines(CleanText(raw))[j], options).None?
    ensures DetectAnswer(raw, options).None? <==>
      forall k :: 0 <= k < |Lines(CleanText(raw))| ==> DetectInLine(Lines(CleanText(raw))[k], options).None?
    ensures |options| == 0 ==> DetectAnswer(raw, options).None?
  {
  }

  // ---- the block parser, popup.js:154-199 ----

  /** The object `parseQuestionBlock` returns. */
  datatype ParsedBlock = ParsedBlock(front: string, back: string, options: seq<string>, correctIndex: Option<nat>)

  const EmptyParse := ParsedBlock([], [], [], None)

  /** Index of the first option line, or `|lines|` (`findIndex`, popup.js:160). */
  function FirstOptionLine(lines: seq<string>): (i: nat)
    ensures i <= |lines|
    ensures i < |lines| ==> IsOptionLine(lines[i])
    ensures forall j :: 0 <= j < i ==> !IsOptionLine(lines[j])
  {
    if |lines| == 0 then 0
    else if IsOptionLine(lines[0]) then 0
    else 1 + FirstOptionLine(lines[1..])
  }

  /** The variables of the loop at popup.js:172-183. */
  datatype Sorting = Sorting(optionLines: seq<string>, trailingLines: seq<string>, inOptions: bool)

  /** One pass of that loop, given whether `line` matches the option
      pattern and whether it begins like an answer declaration: an option
      line starts an option, any other line continues the last one until an
      answer line ends the options, and everything from there on is
      trailing text. */
  function SortStep(st: Sorting, line: string, isOption: bool, isLead: bool): Sorting {
    if st.inOptions && isOption then
      st.(optionLines := st.optionLines + [line])
    else if st.inOptions && |st.optionLines| > 0 && !isLead then
      var last := |st.optionLines| - 1;
      st.(optionLines := st.optionLines[last := Trim(st.optionLines[last] + " " + line)])
    else
      Sorting(st.optionLines, st.trailingLines + [line], false)
  }

  /** For each line, whether it matches the option pattern. */
  function OptionFlags(lines: seq<string>): (r: seq<bool>)
    ensures |r| == |lines|
    ensures forall k :: 0 <= k < |lines| ==> r[k] == IsOptionLine(lines[k])
  {
    seq(|lines|, k requires 0 <= k < |lines| => IsOptionLine(lines[k]))
  }

  /** For each line, whether it begins like an answer declaration. */
  function LeadFlags(lines: seq<string>): (r: seq<bool>)
    ensures |r| == |lines|
    ensures forall k :: 0 <= k < |lines| ==> r[k] == IsAnswerLead(lines[k])
  {
    seq(|lines|, k requires 0 <= k < |lines| => IsAnswerLead(lines[k]))
  }

  /** The loop run over the first `n` lines, given each line's
      classification, as a left fold. */
  function SortUpTo(lines: seq<string>, isOption: seq<bool>, isLead: seq<bool>, n: nat): Sorting
    requires |isOption| == |lines| && |isLead| == |lines| && n <= |lines|
  {
    if n == 0 then Sorting([], [], true)
    else SortStep(SortUpTo(lines, isOption, isLead, n - 1), lines[n - 1], isOption[n - 1], isLead[n - 1])
  }

  /** The loop run over all of `lines`. */
  function SortLines(lines: seq<string>): Sorting {
    SortUpTo(lines, OptionFlags(lines), LeadFlags(lines), |lines|)
  }

  /** The fold only looks at the lines and flags it has passed. */
  lemma {:induction false} SortUpToPrefix(a: seq<string>, fa: seq<bool>, la: seq<bool>, b: seq<string>, fb: seq<bool>, lb: seq<bool>, n: nat)
    requires |fa| == |a| && |la| == |a| && n <= |a|
    requires |fb| == |b| && |lb| == |b| && n <= |b|
    requires a[..n] == b[..n] && fa[..n] == fb[..n] && la[..n] == lb[..n]
    ensures SortUpTo(a, fa, la, n) == SortUpTo(b, fb, lb, n)
  {
    if n > 0 {
      assert a[..n - 1] == a[..n][..n - 1] && b[..n - 1] == b[..n][..n - 1];
      assert fa[..n - 1] == fa[..n][..n - 1] && fb[..n - 1] == fb[..n][..n - 1];
      assert la[..n - 1] == la[..n][..n - 1] && lb[..n - 1] == lb[..n][..n - 1];
      SortUpToPrefix(a, fa, la, b, fb, lb, n - 1);
      assert a[n - 1] == a[..n][n - 1] && b[n - 1] == b[..n][n - 1];
      assert fa[n - 1] == fa[..n][n - 1] && fb[n - 1] == fb[..n][n - 1];
      assert la[n - 1] == la[..n][n - 1] && lb[n - 1] == lb[..n][n - 1];
    }
  }

  /** `SortLines` handles one more line with one more step. */
  lemma SortSnoc(ls: seq<string>, line: string)
    ensures SortLines(ls + [line]) == SortStep(SortLines(ls), line, IsOptionLine(line), IsAnswerLead(line))
  {
    var all := ls + [line];
    var fa, la := OptionFlags(all), LeadFlags(all);
    var f, l := OptionFlags(ls), LeadFlags(ls);
    assert all[..|ls|] == ls[..|ls|];
    assert fa[..|ls|] == f[..|ls|];
    assert la[..|ls|] == l[..|ls|];
    SortUpToPrefix(all, fa, la, ls, f, l, |ls|);
    assert all[|ls|] == line;
  }

  /** The `inOptions` flag only goes from true to false: the trailing lines
      are exactly a suffix of the lines passed, and the flag is still up
      exactly when there are none. */
  lemma {:induction false} SortUpToShape(lines: seq<string>, isOption: seq<bool>, isLead: seq<bool>, n: nat)
    requires |isOption| == |lines| && |isLead| == |lines| && n <= |lines|
    ensures SortUpTo(lines, isOption, isLead, n).inOptions <==> SortUpTo(lines, isOption, isLead, n).trailingLines == []
    ensures exists j :: 0 <= j <= n && SortUpTo(lines, isOption, isLead, n).trailingLines == lines[j..n]
  {
    if n == 0 {
      assert SortUpTo(lines, isOption, isLead, n).trailingLines == lines[0..0];
    } else {
      SortUpToShape(lines, isOption, isLead, n - 1);
      var st := SortUpTo(lines, isOption, isLead, n - 1);
      var j :| 0 <= j <= n - 1 && st.trailingLines == lines[j..n - 1];
      var j' := SortStepShape(st, lines, isOption[n - 1], isLead[n - 1], n, j);
    }
  }

  /** The shape of the whole loop's result. */
  lemma SortLinesShape(lines: seq<string>)
    ensures SortLines(lines).inOptions <==> SortLines(lines).trailingLines == []
    ensures exists j :: 0 <= j <= |lines| && SortLines(lines).trailingLines == lines[j..]
  {
    SortUpToShape(lines, OptionFlags(lines), LeadFlags(lines), |lines|);
    assert lines[..|lines|] == lines;
  }

  /** One step keeps the shape `SortLinesShape` states. */
  lemma SortStepShape(st: Sorting, lines: seq<string>, isOption: bool, isLead: bool, n: nat, j: nat) returns (j': nat)
    requires 0 < n <= |lines|
    requires st.inOptions <==> st.trailingLines == []
    requires j <= n - 1 && st.trailingLines == lines[j..n - 1]
    ensures SortStep(st, lines[n - 1], isOption, isLead).inOptions <==> SortStep(st, lines[n - 1], isOption, isLead).trailingLines == []
    ensures j' <= n && SortStep(st, lines[n - 1], isOption, isLead).trailingLines == lines[j'..n]
  {
    var next := SortStep(st, lines[n - 1], isOption, isLead);
    if !st.inOptions {
      j' := j;
      assert lines[j..n - 1] + [lines[n - 1]] == lines[j..n];
    } else if next.trailingLines == [] {
      j' := n;
    } else {
      j' := n - 1;
    }
  }

  /** `optionLines.map((line) => line.replace(optionPattern, '$1').trim()).filter(Boolean)`. */
  function OptionTexts(optionLines: seq<string>): (r: seq<string>)
    ensures |r| <= |optionLines|
    ensures forall k :: 0 <= k < |r| ==> r[k] != [] && IsTrimmed(r[k])
  {
    if |optionLines| == 0 then []
    else
      var text := OptionText(optionLines[0]);
      (if text == [] then [] else [text]) + OptionTexts(optionLines[1..])
  }

  /** The stem from the lines before the first option: joined with spaces,
      with a leading `Q:`/`Question.` label removed. */
  function FrontText(frontLines: seq<string>): (r: string)
    ensures IsTrimmed(r)
  {
    Trim(StripQuestionLabel(Join(frontLines, " ")))
  }

  /** The answer explanation: what follows the first answer declaration
      of the trailing text (popup.js:190). */
  function BackText(trailingText: string): (r: string)
    ensures IsTrimmed(r)
  {
    match RationaleCapture(trailingText)
    case Some(capture) => CleanText(capture)
    case None => []
  }

  /** What popup.js:185-198 builds from the sorted lines of a block with
      options: the option texts, the answer read from the trailing text (or
      from the whole block when the trailing text names none), the
      explanation and the stem, falling back to the block's first line. */
  function Assemble(text: string, firstLine: string, frontLines: seq<string>, sorted: Sorting): (r: ParsedBlock)
    requires firstLine != [] && IsTrimmed(firstLine)
    ensures r.front != [] && IsTrimmed(r.front) && IsTrimmed(r.back)
    ensures forall k :: 0 <= k < |r.options| ==> r.options[k] != [] && IsTrimmed(r.options[k])
    ensures r.correctIndex.Some? ==> r.correctIndex.value < |r.options|
  {
    var options := OptionTexts(sorted.optionLines);
    var trailingText := Join(sorted.trailingLines, "\n");
    var directAnswer := DetectAnswer(trailingText, options);
    var fallbackAnswer := if directAnswer.Some? then directAnswer else DetectAnswer(text, options);
    var frontText := FrontText(frontLines);
    ParsedBlock(if frontText != [] then frontText else firstLine, BackText(trailingText), options, fallbackAnswer)
  }

  /** `parseQuestionBlock`, popup.js:154-199, as a value. */
  function ParseBlock(raw: string): (r: ParsedBlock)
    ensures r.front == [] <==> AllSpace(raw)
    ensures AllSpace(raw) ==> r == EmptyParse
    ensures IsTrimmed(r.front) && IsTrimmed(r.back)
    ensures forall k :: 0 <= k < |r.options| ==> r.options[k] != [] && IsTrimmed(r.options[k])
    ensures r.correctIndex.Some? ==> r.correctIndex.value < |r.options|
  {
    var text := CleanText(raw);
    if text == [] then EmptyParse
    else
      assert !IsSpace(text[0]);
      LinesNonEmpty(text);
      ParseLines(text, Lines(text))
  }

  /** The block parser from popup.js:158 on, given the cleaned text and its
      non-blank lines. */
  function ParseLines(text: string, lines: seq<string>): (r: ParsedBlock)
    requires |lines| > 0
    requires forall k :: 0 <= k < |lines| ==> lines[k] != [] && IsTrimmed(lines[k])
    ensures r.front != [] && IsTrimmed(r.front) && IsTrimmed(r.back)
    ensures forall k :: 0 <= k < |r.options| ==> r.options[k] != [] && IsTrimmed(r.options[k])
    ensures r.correctIndex.Some? ==> r.correctIndex.value < |r.options|
  {
    var optionStartIndex := FirstOptionLine(lines);
    if optionStartIndex == |lines| then
      if |lines| == 1 then ParsedBlock(lines[0], [], [], None)
      else
        JoinTrimmed(lines[1..], "\n");
        ParsedBlock(lines[0], Join(lines[1..], "\n"), [], None)
    else
      Assemble(text, lines[0], lines[..optionStartIndex], SortLines(lines[optionStartIndex..]))
  }

  /** Without an option line, the first line is the question and the
      remaining lines, joined, are the answer (popup.js:163-166). */
  lemma PlainBlock(raw: string)
    requires !AllSpace(raw)
    requires forall k :: 0 <= k < |Lines(CleanText(raw))| ==> !IsOptionLine(Lines(CleanText(raw))[k])
    ensures |Lines(CleanText(raw))| > 0
    ensures ParseBlock(raw) == ParsedBlock(Lines(CleanText(raw))[0], Join(Lines(CleanText(raw))[1..], "\n"), [], None)
  {
    LinesNonEmpty(CleanText(raw));
  }

  /** `parseQuestionBlock`, popup.js:154-199. */
  method ParseQuestionBlock(raw: string) returns (r: ParsedBlock)
    ensures r == ParseBlock(raw)
  {
    var text := CleanText(raw);
    if text == [] {
      return EmptyParse;
    }
    var lines := Lines(text);
    assert !IsSpace(text[0]);
    LinesNonEmpty(text);
    var optionStartIndex := FirstOptionLine(lines);
    if optionStartIndex == |lines| {
      if |lines| == 1 {
        return ParsedBlock(lines[0], [], [], None);
      }
      return ParsedBlock(lines[0], Join(lines[1..], "\n"), [], None);
    }
    var sorted := SortOptionLines(lines, optionStartIndex);
    r := Assemble(text, lines[0], lines[..optionStartIndex], sorted);
  }

  /** The loop of popup.js:172-183 over the lines from the first option
      line on. */
  method SortOptionLines(lines: seq<string>, optionStartIndex: nat) returns (sorted: Sorting)
    requires optionStartIndex <= |lines|
    ensures sorted == SortLines(lines[optionStartIndex..])
  {
    var optionLines: seq<string> := [];
    var trailingLines: seq<string> := [];
    var inOptions := true;
    var i := optionStartIndex;
    while i < |lines|
      invariant optionStartIndex <= i <= |lines|
      invariant Sorting(optionLines, trailingLines, inOptions) == SortLines(lines[optionStartIndex..i])
    {
      assert lines[optionStartIndex..i + 1] == lines[optionStartIndex..i] + [lines[i]];
      SortSnoc(lines[optionStartIndex..i], lines[i]);
      optionLines, trailingLines, inOptions := SortOneLine(optionLines, trailingLines, inOptions, lines[i]);
      i := i + 1;
    }
    assert lines[optionStartIndex..i] == lines[optionStartIndex..];
    sorted := Sorting(optionLines, trailingLines, inOptions);
  }

  /** One pass of the loop of popup.js:172-183. */
  method SortOneLine(optionLines0: seq<string>, trailingLines0: seq<string>, inOptions0: bool, line: string)
    returns (optionLines: seq<string>, trailingLines: seq<string>, inOptions: bool)
    ensures Sorting(optionLines, trailingLines, inOptions) == SortStep(Sorting(optionLines0, trailingLines0, inOptions0), line, IsOptionLine(line), IsAnswerLead(line))
  {
    optionLines, trailingLines, inOptions := optionLines0, trailingLines0, inOptions0;
    if inOptions && IsOptionLine(line) {
      optionLines := optionLines + [line];
      return;
    }
    if inOptions && |optionLines| > 0 && !IsAnswerLead(line) {
      optionLines := optionLines[|optionLines| - 1 := Trim(optionLines[|optionLines| - 1] + " " + line)];
      return;
    }
    inOptions := false;
    trailingLines := trailingLines + [line];
  }

  // ---- confidence, popup.js:201-210 ----

  /** Ends with a question mark (`/[?]$/`). */
  predicate EndsWithQuestionMark(s: string) {
    |s| > 0 && s[|s| - 1] == '?'
  }

  /** `scoreConfidence`, popup.js:201-210, in hundredths: the weights 0.35,
      0.1, 0.25, 0.1, 0.2 and 0.15 are 35, 10, 25, 10, 20 and 15, and
      `toFixed(2)` of their float sum is that integer sum. */
  function ScoreConfidence(p: ParsedBlock): (s: nat)
    ensures s <= 100
  {
    var score :=
      (if p.front != [] && Utf16Length(p.front) >= 12 then 35 else 0)
      + (if EndsWithQuestionMark(p.front) then 10 else 0)
      + (if |p.options| >= 2 then 25 else 0)
      + (if |p.options| >= 3 then 10 else 0)
      + (if p.correctIndex.Some? then 20 else 0)
      + (if |p.options| == 0 && Utf16Length(p.back) >= 8 then 15 else 0);
    if score < 100 then score else 100
  }

  /** The threshold below which an item is held back for review. */
  const LowConfidence: nat := 55

  /** More options never lower the score once there is one, and the second
      and the third option each raise it. */
  lemma ScoreOptionsMonotone(p: ParsedBlock, q: ParsedBlock)
    requires p.front == q.front && p.back == q.back && p.correctIndex == q.correctIndex
    requires 1 <= |p.options| <= |q.options|
    ensures ScoreConfidence(p) <= ScoreConfidence(q)
    ensures |p.options| == 1 && |q.options| >= 2 ==> ScoreConfidence(p) < ScoreConfidence(q)
    ensures |p.options| == 2 && |q.options| >= 3 ==> ScoreConfidence(p) < ScoreConfidence(q)
  {
  }

  /** A short stem with no options and no answer is always held back. */
  lemma ScoreBareStemIsLow(p: ParsedBlock)
    requires p.options == [] && p.correctIndex.None? && Utf16Length(p.front) < 12
    ensures ScoreConfidence(p) < LowConfidence
  {
  }

  /** A long question with three or more options and a detected answer
      scores full marks. */
  lemma ScoreComplete(p: ParsedBlock)
    requires Utf16Length(p.front) >= 12 && EndsWithQuestionMark(p.front)
    requires |p.options| >= 3 && p.correctIndex.Some?
    ensures ScoreConfidence(p) == 100
  {
  }
}
