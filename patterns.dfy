/** The fixed regular expressions of popup.js, each written out as the
    search a backtracking JavaScript engine performs: alternatives in the
    order written, greedy quantifiers trying their longest extent first and
    giving back one character at a time. A pattern with capture groups
    returns the captured text of the first successful path. None of them has
    the `u` flag, so `/i` folds ASCII letters only. */
module Patterns {
  import opened Text

  /** Tries `f(n)`, `f(n - 1)`, ..., `f(lo)` and returns the first success:
      the order in which a greedy quantifier gives characters back. */
  function Backtrack<T>(n: nat, lo: nat, f: nat -> Option<T>): (r: Option<T>)
    ensures r.Some? ==> exists k :: lo <= k <= n && f(k) == r
    decreases n
  {
    if n < lo then None
    else if f(n).Some? then f(n)
    else if n == 0 then None
    else Backtrack(n - 1, lo, f)
  }

  predicate IsBullet(c: char) { c == '-' || c == '*' || c == '•' }

  /** `[).:\-]`, which is also the set `[:.)\-]`. */
  predicate IsClosePunct(c: char) { c == ')' || c == '.' || c == ':' || c == '-' }

  /** `(.+)$`: at least one character, and no line terminator up to the end. */
  predicate RestOfLine(x: string) {
    |x| >= 1 && forall i :: 0 <= i < |x| ==> !IsLineTerminator(x[i])
  }

  /** Length of the leading run of characters a `.` matches. */
  function LineRun(s: string): (n: nat)
    ensures n <= |s|
  {
    if |s| == 0 || IsLineTerminator(s[0]) then 0 else 1 + LineRun(s[1..])
  }

  function DigitRun(s: string): (n: nat)
    ensures n <= |s|
  {
    if |s| == 0 || !IsAsciiDigit(s[0]) then 0 else 1 + DigitRun(s[1..])
  }

  function NewlineRun(s: string): (n: nat)
    ensures n <= |s|
  {
    if |s| == 0 || s[0] != '\n' then 0 else 1 + NewlineRun(s[1..])
  }

  /** `\s*(.+)$` (least = 0) or `\s+(.+)$` (least = 1): the capture. */
  function SpacesThenRest(u: string, least: nat): (r: Option<string>)
  {
    Backtrack(SpaceRun(u), least, (k: nat) => if k <= |u| && RestOfLine(u[k..]) then Some(u[k..]) else None)
  }

  // ---- option line, popup.js:159 ----
  //   ^(?:[-*•]\s*)?(?:\(?[A-Za-z]\)|[A-Za-z][).]|\d{1,2}[).])\s+(.+)$

  /** The three label alternatives, then `\s+(.+)$`; returns the capture. */
  function OptionAfterBullet(s: string): Option<string> {
    var a := if |s| >= 3 && s[0] == '(' && IsAsciiLetter(s[1]) && s[2] == ')' then SpacesThenRest(s[3..], 1) else None;
    if a.Some? then a else
    var b := if |s| >= 2 && IsAsciiLetter(s[0]) && s[1] == ')' then SpacesThenRest(s[2..], 1) else None;
    if b.Some? then b else
    var c := if |s| >= 2 && IsAsciiLetter(s[0]) && (s[1] == ')' || s[1] == '.') then SpacesThenRest(s[2..], 1) else None;
    if c.Some? then c else
    var d := if |s| >= 3 && IsAsciiDigit(s[0]) && IsAsciiDigit(s[1]) && (s[2] == ')' || s[2] == '.') then SpacesThenRest(s[3..], 1) else None;
    if d.Some? then d else
    if |s| >= 2 && IsAsciiDigit(s[0]) && (s[1] == ')' || s[1] == '.') then SpacesThenRest(s[2..], 1) else None
  }

  /** Group 1 of the option pattern, or None when the line does not match. */
  function OptionCapture(line: string): Option<string> {
    var bulleted :=
      if |line| > 0 && IsBullet(line[0]) then
        var t := line[1..];
        Backtrack(SpaceRun(t), 0, (w: nat) => if w <= |t| then OptionAfterBullet(t[w..]) else None)
      else None;
    if bulleted.Some? then bulleted else OptionAfterBullet(line)
  }

  /** `optionPattern.test(line)`. */
  predicate IsOptionLine(line: string) {
    OptionCapture(line).Some?
  }

  /** `line.replace(optionPattern, '$1').trim()`, popup.js:186: the pattern
      spans the whole line, so a match leaves group 1; a line that no
      longer matches is kept whole. */
  function OptionText(line: string): string {
    match OptionCapture(line)
    case Some(text) => Trim(text)
    case None => Trim(line)
  }

  // ---- answer-declaration lead, popup.js:178 ----
  //   ^(?:answer|ans|correct)\s*[:\-]?     (everything after the keyword is optional)

  predicate IsAnswerLead(line: string) {
    StartsWithNoCase(line, "answer") || StartsWithNoCase(line, "ans") || StartsWithNoCase(line, "correct")
  }

  // ---- answer declaration, popup.js:140, also the tail of popup.js:190 ----
  //   (?:answer|ans|correct)\s*[:\-]?\s*(.+)$      with /i

  /** `\s*[:\-]?\s*(.+)$` after the keyword; returns the capture. */
  function AfterKeyword(r: string): Option<string> {
    Backtrack(SpaceRun(r), 0, (a: nat) => if a <= |r| then AfterSeparator(r[a..]) else None)
  }

  /** `[:\-]?\s*(.+)$`. */
  function AfterSeparator(t: string): Option<string> {
    var taken := if |t| > 0 && (t[0] == ':' || t[0] == '-') then SpacesThenRest(t[1..], 0) else None;
    if taken.Some? then taken else SpacesThenRest(t, 0)
  }

  /** The declaration starting at the first character of `s`; returns the capture. */
  function DeclarationAt(s: string): (r: Option<string>)
    ensures r.Some? ==> IsAnswerLead(s)
  {
    var a := if StartsWithNoCase(s, "answer") then AfterKeyword(s[6..]) else None;
    if a.Some? then a else
    var b := if StartsWithNoCase(s, "ans") then AfterKeyword(s[3..]) else None;
    if b.Some? then b else
    if StartsWithNoCase(s, "correct") then AfterKeyword(s[7..]) else None
  }

  // ---- rationale line, popup.js:190 ----
  //   (?:^|\n)\s*(?:answer|ans|correct)\s*[:\-]?\s*(.+)$     with /i, no /m

  /** `\s*` and then a declaration. */
  function SpacesThenDeclaration(u: string): Option<string> {
    Backtrack(SpaceRun(u), 0, (a: nat) => if a <= |u| then DeclarationAt(u[a..]) else None)
  }

  /** A match attempt starting at index `q`: `^` first, then `\n`. */
  function RationaleAt(t: string, q: nat): Option<string>
    requires q <= |t|
  {
    var atStart := if q == 0 then SpacesThenDeclaration(t) else None;
    if atStart.Some? then atStart
    else if q < |t| && t[q] == '\n' then SpacesThenDeclaration(t[q + 1..])
    else None
  }

  /** The unanchored search: the leftmost start index that matches. */
  function RationaleFrom(t: string, q: nat): Option<string>
    requires q <= |t|
    decreases |t| - q
  {
    var here := RationaleAt(t, q);
    if here.Some? then here
    else if q == |t| then None
    else RationaleFrom(t, q + 1)
  }

  /** Group 1 of `trailingText.match(...)` at popup.js:190. */
  function RationaleCapture(t: string): Option<string> {
    RationaleFrom(t, 0)
  }

  // ---- inline-marked option, popup.js:132 ----
  //   ^(?:[-*•]\s*)?(?:\(?([A-Za-z0-9]{1,2})\)?[).:\-]?\s+)(.+)\s*(?:\(correct\)|\*|✔)$    with /i

  /** The two capture groups: the option label and the text before the marker. */
  datatype Marked = Marked(tag: string, text: string)

  /** `\(correct\)`, `*` or `✔`, ending the string. */
  predicate IsMarker(z: string) {
    z == "*" || z == "✔" || (|z| == 9 && StartsWithNoCase(z, "(correct)"))
  }

  lemma MarkerEnds(z: string)
    ensures IsMarker(z) ==> EndsLikeMarker(z)
  {
  }

  /** The last character is one a marker ends with. */
  predicate EndsLikeMarker(s: string) {
    |s| > 0 && (s[|s| - 1] == '*' || s[|s| - 1] == '✔' || s[|s| - 1] == ')')
  }

  lemma EndsLikeMarkerSuffix(s: string, k: nat)
    requires k <= |s| && EndsLikeMarker(s[k..])
    ensures EndsLikeMarker(s)
  {
    assert s[k..][|s[k..]| - 1] == s[|s| - 1];
  }

  /** `(.+)\s*(?:\(correct\)|\*|✔)$`: the capture of `(.+)`. */
  function MarkedText(x: string): Option<string> {
    Backtrack(LineRun(x), 1, (n: nat) =>
      if n <= |x| && Backtrack(SpaceRun(x[n..]), 0, (w: nat) => if w <= |x[n..]| && IsMarker(x[n..][w..]) then Some(()) else None).Some?
      then Some(x[..n]) else None)
  }

  /** `\s+` and then the marked text. */
  function MarkedAfterPunct(tag: string, r: string): Option<Marked> {
    Backtrack(SpaceRun(r), 1, (k: nat) =>
      if k <= |r| then
        match MarkedText(r[k..])
        case Some(text) => Some(Marked(tag, text))
        case None => None
      else None)
  }

  /** `[).:\-]?` and the rest. */
  function MarkedAfterClose(tag: string, r: string): Option<Marked> {
    var taken := if |r| > 0 && IsClosePunct(r[0]) then MarkedAfterPunct(tag, r[1..]) else None;
    if taken.Some? then taken else MarkedAfterPunct(tag, r)
  }

  /** `\)?` and the rest. */
  function MarkedAfterLabel(tag: string, r: string): Option<Marked> {
    var taken := if |r| > 0 && r[0] == ')' then MarkedAfterClose(tag, r[1..]) else None;
    if taken.Some? then taken else MarkedAfterClose(tag, r)
  }

  /** `([A-Za-z0-9]{1,2})` at index `p`, two characters first. */
  function MarkedLabelAt(s: string, p: nat): Option<Marked> {
    var two := if p + 2 <= |s| && IsAsciiAlnum(s[p]) && IsAsciiAlnum(s[p + 1]) then MarkedAfterLabel(s[p..p + 2], s[p + 2..]) else None;
    if two.Some? then two
    else if p + 1 <= |s| && IsAsciiAlnum(s[p]) then MarkedAfterLabel(s[p..p + 1], s[p + 1..])
    else None
  }

  /** `\(?` and the rest. */
  function MarkedAfterBullet(s: string): Option<Marked> {
    var paren := if |s| > 0 && s[0] == '(' then MarkedLabelAt(s, 1) else None;
    if paren.Some? then paren else MarkedLabelAt(s, 0)
  }

  /** `line.match(...)` at popup.js:132. */
  function MarkedOption(line: string): Option<Marked> {
    var bulleted :=
      if |line| > 0 && IsBullet(line[0]) then
        var t := line[1..];
        Backtrack(SpaceRun(t), 0, (w: nat) => if w <= |t| then MarkedAfterBullet(t[w..]) else None)
      else None;
    if bulleted.Some? then bulleted else MarkedAfterBullet(line)
  }

  /** A line can only be an inline-marked option when it ends with a
      marker's last character: `*`, `✔` or the `)` of `(correct)`. */
  lemma MarkedOptionEnds(line: string)
    ensures MarkedOption(line).Some? ==> EndsLikeMarker(line)
  {
    if |line| > 0 && IsBullet(line[0]) {
      var t := line[1..];
      var f := (w: nat) => if w <= |t| then MarkedAfterBullet(t[w..]) else None;
      var b := Backtrack(SpaceRun(t), 0, f);
      if b.Some? {
        var w :| 0 <= w <= SpaceRun(t) && f(w) == b;
        MarkedAfterBulletEnds(t[w..]);
        EndsLikeMarkerSuffix(t, w);
        EndsLikeMarkerSuffix(line, 1);
        return;
      }
    }
    MarkedAfterBulletEnds(line);
  }

  lemma MarkedAfterBulletEnds(s: string)
    ensures MarkedAfterBullet(s).Some? ==> EndsLikeMarker(s)
  {
    MarkedLabelAtEnds(s, 0);
    MarkedLabelAtEnds(s, 1);
  }

  lemma MarkedLabelAtEnds(s: string, p: nat)
    ensures MarkedLabelAt(s, p).Some? ==> EndsLikeMarker(s)
  {
    if p + 2 <= |s| {
      MarkedAfterLabelEnds(s[p..p + 2], s[p + 2..]);
      if EndsLikeMarker(s[p + 2..]) { EndsLikeMarkerSuffix(s, p + 2); }
    }
    if p + 1 <= |s| {
      MarkedAfterLabelEnds(s[p..p + 1], s[p + 1..]);
      if EndsLikeMarker(s[p + 1..]) { EndsLikeMarkerSuffix(s, p + 1); }
    }
  }

  lemma MarkedAfterLabelEnds(tag: string, r: string)
    ensures MarkedAfterLabel(tag, r).Some? ==> EndsLikeMarker(r)
  {
    MarkedAfterCloseEnds(tag, r);
    if |r| > 0 {
      MarkedAfterCloseEnds(tag, r[1..]);
      if EndsLikeMarker(r[1..]) { EndsLikeMarkerSuffix(r, 1); }
    }
  }

  lemma MarkedAfterCloseEnds(tag: string, r: string)
    ensures MarkedAfterClose(tag, r).Some? ==> EndsLikeMarker(r)
  {
    MarkedAfterPunctEnds(tag, r);
    if |r| > 0 {
      MarkedAfterPunctEnds(tag, r[1..]);
      if EndsLikeMarker(r[1..]) { EndsLikeMarkerSuffix(r, 1); }
    }
  }

  lemma MarkedAfterPunctEnds(tag: string, r: string)
    ensures MarkedAfterPunct(tag, r).Some? ==> EndsLikeMarker(r)
  {
    var f := (k: nat) =>
      if k <= |r| then
        match MarkedText(r[k..])
        case Some(text) => Some(Marked(tag, text))
        case None => None
      else None;
    var b := Backtrack(SpaceRun(r), 1, f);
    assert MarkedAfterPunct(tag, r) == b;
    if b.Some? {
      var k :| 1 <= k <= SpaceRun(r) && f(k) == b;
      MarkedTextEnds(r[k..]);
      EndsLikeMarkerSuffix(r, k);
    }
  }

  lemma MarkedTextEnds(x: string)
    ensures MarkedText(x).Some? ==> EndsLikeMarker(x)
  {
    var f := (n: nat) =>
      if n <= |x| && Backtrack(SpaceRun(x[n..]), 0, (w: nat) => if w <= |x[n..]| && IsMarker(x[n..][w..]) then Some(()) else None).Some?
      then Some(x[..n]) else None;
    var b := Backtrack(LineRun(x), 1, f);
    assert MarkedText(x) == b;
    if b.Some? {
      var n :| 1 <= n <= LineRun(x) && f(n) == b;
      var y := x[n..];
      var g := (w: nat) => if w <= |y| && IsMarker(y[w..]) then Some(()) else None;
      assert Backtrack(SpaceRun(y), 0, g).Some?;
      var w :| 0 <= w <= SpaceRun(y) && g(w) == Backtrack(SpaceRun(y), 0, g);
      MarkerEnds(y[w..]);
      EndsLikeMarkerSuffix(y, w);
      EndsLikeMarkerSuffix(x, n);
    }
  }

  // ---- bare answer token, popup.js:143 ----
  //   ^\(?([A-Za-z0-9]{1,2})\)?(?:[).:\-])?$

  /** `\)?(?:[).:\-])?$`. */
  predicate IsClosingOnly(r: string) {
    || r == []
    || (|r| == 1 && (r[0] == ')' || IsClosePunct(r[0])))
    || (|r| == 2 && r[0] == ')' && IsClosePunct(r[1]))
  }

  function TokenAt(t: string, p: nat): Option<string> {
    if p + 2 <= |t| && IsAsciiAlnum(t[p]) && IsAsciiAlnum(t[p + 1]) && IsClosingOnly(t[p + 2..]) then Some(t[p..p + 2])
    else if p + 1 <= |t| && IsAsciiAlnum(t[p]) && IsClosingOnly(t[p + 1..]) then Some(t[p..p + 1])
    else None
  }

  /** Group 1 of `token.match(...)` at popup.js:143. */
  function TokenOnly(t: string): Option<string> {
    var paren := if |t| > 0 && t[0] == '(' then TokenAt(t, 1) else None;
    if paren.Some? then paren else TokenAt(t, 0)
  }

  // ---- question label, popup.js:191 ----
  //   ^(?:q(?:uestion)?\s*[:.)\-]\s*)      with /i

  /** `\s*[:.)\-]\s*` from index `p`. Giving back whitespace from the
      first `\s*` cannot help, since the punctuation mark is not
      whitespace, so the mark must follow the whole whitespace run. */
  function QuestionLabelAfter(s: string, p: nat): (r: Option<nat>)
    requires p <= |s|
    ensures r.Some? ==> p < r.value <= |s|
    ensures r.Some? && r.value < |s| ==> !IsSpace(s[r.value])
  {
    var t := s[p..];
    var a := SpaceRun(t);
    if a < |t| && IsClosePunct(t[a]) then
      var rest := t[a + 1..];
      assert p + a + 1 + SpaceRun(rest) < |s| ==> s[p + a + 1 + SpaceRun(rest)] == rest[SpaceRun(rest)];
      Some(p + a + 1 + SpaceRun(rest))
    else None
  }

  /** Length of the label the pattern matches at the start, if any: a `q`
      or `question`, a closing punctuation mark and the spaces after it. */
  function QuestionLabelLength(s: string): (r: Option<nat>)
    ensures r.Some? ==> StartsWithNoCase(s, "q") && 2 <= r.value <= |s|
    ensures r.Some? && r.value < |s| ==> !IsSpace(s[r.value])
  {
    var long := if StartsWithNoCase(s, "question") then QuestionLabelAfter(s, 8) else None;
    if long.Some? then long
    else if StartsWithNoCase(s, "q") then QuestionLabelAfter(s, 1)
    else None
  }

  /** `s.replace(/^(?:q(?:uestion)?\s*[:.)\-]\s*)/i, '')`: a suffix of `s`,
      shorter exactly when a label was found. */
  function StripQuestionLabel(s: string): (r: string)
    ensures |r| <= |s| && r == s[|s| - |r|..]
    ensures |r| < |s| <==> QuestionLabelLength(s).Some?
  {
    var n := match QuestionLabelLength(s) case Some(n) => n case None => 0;
    assert s[0..] == s;
    s[n..]
  }

  /** Text that does not start with a `q` keeps its stem whole; a removed
      label takes the spaces after it along. */
  lemma StripQuestionLabelKeeps(s: string)
    ensures !StartsWithNoCase(s, "q") ==> StripQuestionLabel(s) == s
    ensures var r := StripQuestionLabel(s); |r| < |s| && |r| > 0 ==> !IsSpace(r[0])
  {
    var r := StripQuestionLabel(s);
    if |r| < |s| {
      var n := QuestionLabelLength(s).value;
      assert r == s[n..];
    } else {
      assert r == s[|s| - |r|..] == s[0..] == s;
    }
  }

  // ---- numbered question marker, popup.js:222 ----
  //   ^(?:q(?:uestion)?\s*)?\d{1,3}[).:\-]\s+\S+      with /i, a test

  /** `\s+\S+`. */
  predicate SpacesThenWord(v: string) {
    Backtrack(SpaceRun(v), 1, (k: nat) => if k < |v| && !IsSpace(v[k]) then Some(()) else None).Some?
  }

  /** `\d{1,3}[).:\-]\s+\S+`. */
  predicate NumberedAt(u: string) {
    var most := if DigitRun(u) < 3 then DigitRun(u) else 3;
    Backtrack(most, 1, (d: nat) => if d < |u| && IsClosePunct(u[d]) then (if SpacesThenWord(u[d + 1..]) then Some(()) else None) else None).Some?
  }

  /** `\s*` and then a number. */
  predicate SpacesThenNumbered(t: string) {
    Backtrack(SpaceRun(t), 0, (w: nat) => if w <= |t| && NumberedAt(t[w..]) then Some(()) else None).Some?
  }

  predicate IsNumberedMarker(line: string) {
    || (StartsWithNoCase(line, "question") && SpacesThenNumbered(line[8..]))
    || (StartsWithNoCase(line, "q") && SpacesThenNumbered(line[1..]))
    || NumberedAt(line)
  }

  // ---- blank-line separator, popup.js:215 ----
  //   \n\s*\n+

  /** No line feed among the leading whitespace of `u`. */
  predicate NoLineFeedInSpaceRun(u: string) {
    forall w :: 0 <= w < SpaceRun(u) ==> u[w] != '\n'
  }

  /** `\s*\n` after the first line feed, as the engine searches it: the
      whitespace run is taken whole and given back one character at a time
      until a line feed follows; the result is the largest `v <= w` with
      `u[v]` a line feed. */
  function LineFeedDownFrom(u: string, w: nat): (r: Option<nat>)
    ensures r.Some? ==> r.value <= w && r.value < |u| && u[r.value] == '\n'
    ensures r.None? ==> forall v :: 0 <= v <= w && v < |u| ==> u[v] != '\n'
    decreases w
  {
    if w < |u| && u[w] == '\n' then Some(w)
    else if w == 0 then None
    else LineFeedDownFrom(u, w - 1)
  }

  /** End of the separator match starting at index `q`, if one starts there:
      one starts exactly at a line feed that is followed, within the
      whitespace after it, by another line feed. */
  function BlankSeparatorEnd(t: string, q: nat): (r: Option<nat>)
    requires q < |t|
    ensures r.Some? ==> q + 2 <= r.value <= |t|
    ensures r.None? <==> t[q] != '\n' || NoLineFeedInSpaceRun(t[q + 1..])
  {
    if t[q] != '\n' then None
    else
      var u := t[q + 1..];
      match LineFeedDownFrom(u, SpaceRun(u))
      case Some(w) => Some(q + 1 + w + NewlineRun(u[w..]))
      case None => None
  }

  /** A line feed, another one, and then text: the separator is the two
      line feeds. */
  lemma SeparatorOfTwoLineFeeds(t: string, q: nat)
    requires q + 2 < |t| && t[q] == '\n' && t[q + 1] == '\n' && !IsSpace(t[q + 2])
    ensures BlankSeparatorEnd(t, q) == Some(q + 2)
  {
    var u := t[q + 1..];
    assert u[0] == '\n' && u[1] == t[q + 2];
    assert SpaceRun(u) == 1 by {
      assert u[1..][0] == u[1];
    }
    assert LineFeedDownFrom(u, 1) == Some(0);
    assert NewlineRun(u[0..]) == 1 by {
      assert u[0..] == u && u[1..][0] == u[1];
    }
  }

  /** `String.prototype.split` with a regular expression, from piece start
      `p` and search position `q` on. */
  function SplitFrom(t: string, p: nat, q: nat): (r: seq<string>)
    requires p <= q <= |t|
    ensures |r| >= 1
    decreases |t| - q
  {
    if q == |t| then [t[p..]]
    else
      match BlankSeparatorEnd(t, q)
      case Some(e) => [t[p..q]] + SplitFrom(t, e, e)
      case None => SplitFrom(t, p, q + 1)
  }

  /** `text.split(/\n\s*\n+/)` for a non-empty `text`. */
  function SplitOnBlankLines(t: string): (r: seq<string>)
    ensures |r| >= 1
  {
    SplitFrom(t, 0, 0)
  }

  /** A paragraph: text with no whitespace at either end and no blank line
      inside (no two line feeds with only whitespace between them). */
  predicate IsParagraph(p: string) {
    && p != [] && !IsSpace(p[0]) && !IsSpace(p[|p| - 1])
    && forall i, j :: 0 <= i < j < |p| ==> !BlankLineBetween(p, i, j)
  }

  /** Line feeds at `i` and `j` with only whitespace between them. */
  predicate BlankLineBetween(p: string, i: nat, j: nat)
    requires i < j < |p|
  {
    p[i] == '\n' && p[j] == '\n' && AllSpace(p[i + 1..j])
  }

  /** No separator starts inside a paragraph. */
  lemma NoSeparatorInParagraph(t: string, s: nat, e: nat, q: nat)
    requires s <= q < e <= |t| && IsParagraph(t[s..e])
    ensures BlankSeparatorEnd(t, q).None?
  {
    if t[q] == '\n' {
      var p := t[s..e];
      var u := t[q + 1..];
      var n := SpaceRun(u);
      assert p[|p| - 1] == t[e - 1] && p[q - s] == t[q];
      assert q + 1 < e;
      assert u[e - q - 2] == t[e - 1];
      RunEndsBefore(u, n, e - q - 2);
      forall w | 0 <= w < n ensures u[w] != '\n' {
        var i, j := q - s, q + 1 + w - s;
        SliceOfSlice(t, s, e, q + 1, q + 1 + w);
        AllSpacePrefix(u[..n], w);
        assert u[..n][..w] == t[q + 1..q + 1 + w];
        assert AllSpace(p[i + 1..j]) && p[i] == '\n';
        assert !BlankLineBetween(p, i, j);
        assert p[j] == u[w];
      }
    }
  }

  /** A whitespace run ends no later than the first non-space character. */
  lemma RunEndsBefore(x: string, n: nat, k: nat)
    requires n <= |x| && AllSpace(x[..n]) && k < |x| && !IsSpace(x[k])
    ensures n <= k
  {
    assert forall i :: 0 <= i < n ==> x[..n][i] == x[i];
  }

  lemma SliceOfSlice(t: string, s: nat, e: nat, i: nat, j: nat)
    requires s <= i <= j <= e <= |t|
    ensures t[s..e][i - s..j - s] == t[i..j]
  {
    assert forall k :: 0 <= k < j - i ==> t[s..e][i - s..j - s][k] == t[i..j][k];
  }

  lemma AllSpacePrefix(x: string, w: nat)
    requires AllSpace(x) && w <= |x|
    ensures AllSpace(x[..w])
  {
    assert forall k :: 0 <= k < w ==> x[..w][k] == x[k];
  }

  /** `split` goes on past a position where no separator starts. */
  lemma SplitFromSkip(t: string, p: nat, q: nat)
    requires p <= q < |t| && BlankSeparatorEnd(t, q).None?
    ensures SplitFrom(t, p, q) == SplitFrom(t, p, q + 1)
  {
  }

  /** Scanning a stretch without separators. */
  lemma {:induction false} ScanParagraph(t: string, s: nat, q: nat, e: nat)
    requires s <= q <= e <= |t|
    requires forall v :: q <= v < e ==> BlankSeparatorEnd(t, v).None?
    ensures SplitFrom(t, s, q) == SplitFrom(t, s, e)
    decreases e - q
  {
    if q < e {
      SplitFromSkip(t, s, q);
      ScanParagraph(t, s, q + 1, e);
    }
  }

  /** No separator starts anywhere inside a paragraph. */
  lemma NoSeparatorsInParagraph(t: string, s: nat, e: nat)
    requires s <= e <= |t| && IsParagraph(t[s..e])
    ensures forall v :: s <= v < e ==> BlankSeparatorEnd(t, v).None?
  {
    forall v | s <= v < e ensures BlankSeparatorEnd(t, v).None? {
      NoSeparatorInParagraph(t, s, e, v);
    }
  }

  /** Every string of `ps` is a paragraph, stated one at a time from the
      front. */
  predicate AllParagraphs(ps: seq<string>) {
    |ps| == 0 || (IsParagraph(ps[0]) && AllParagraphs(ps[1..]))
  }

  lemma {:induction false} AllParagraphsEach(ps: seq<string>)
    requires forall k :: 0 <= k < |ps| ==> IsParagraph(ps[k])
    ensures AllParagraphs(ps)
    decreases |ps|
  {
    if |ps| > 0 {
      assert forall k :: 0 <= k < |ps| - 1 ==> ps[1..][k] == ps[k + 1];
      AllParagraphsEach(ps[1..]);
    }
  }

  /** Paragraphs joined with a blank line split back into the paragraphs,
      from position `s` of `t` on. */
  lemma {:induction false} SplitParagraphsFrom(t: string, s: nat, ps: seq<string>)
    requires |ps| >= 1 && AllParagraphs(ps)
    requires s <= |t| && t[s..] == Join(ps, "\n\n")
    ensures SplitFrom(t, s, s) == ps
    decreases |ps|
  {
    if |ps| == 1 {
      LastPiece(t, s, ps);
    } else {
      assert ps[1..][0] == ps[1];
      FirstOfJoined(t, s, ps);
      SplitParagraphsFrom(t, s + |ps[0]| + 2, ps[1..]);
      HeadAndTail(ps, ps[0], SplitFrom(t, s + |ps[0]| + 2, s + |ps[0]| + 2));
    }
  }

  /** A single paragraph that runs to the end of the text is the last
      piece. */
  lemma LastPiece(t: string, s: nat, ps: seq<string>)
    requires |ps| == 1 && AllParagraphs(ps)
    requires s <= |t| && t[s..] == Join(ps, "\n\n")
    ensures SplitFrom(t, s, s) == ps
  {
    assert t[s..|t|] == ps[0];
    NoSeparatorsInParagraph(t, s, |t|);
    ScanParagraph(t, s, s, |t|);
  }

  /** The first of several joined paragraphs is the first piece, and the
      rest of the text joins the other paragraphs. */
  lemma FirstOfJoined(t: string, s: nat, ps: seq<string>)
    requires |ps| >= 2 && IsParagraph(ps[0]) && IsParagraph(ps[1])
    requires s <= |t| && t[s..] == Join(ps, "\n\n")
    ensures s + |ps[0]| + 2 <= |t| && t[s + |ps[0]| + 2..] == Join(ps[1..], "\n\n")
    ensures SplitFrom(t, s, s) == [ps[0]] + SplitFrom(t, s + |ps[0]| + 2, s + |ps[0]| + 2)
  {
    JoinedParts(t, s, ps);
    NoSeparatorsInParagraph(t, s, s + |ps[0]|);
    ScanParagraph(t, s, s, s + |ps[0]|);
    SplitAtTwoLineFeeds(t, s, s + |ps[0]|, s + |ps[0]| + 2);
  }

  /** A split that reaches two line feeds followed by text, having met no
      separator before them, cuts its first piece there. */
  lemma SplitAtTwoLineFeeds(t: string, s: nat, e: nat, f: nat)
    requires s <= e && f == e + 2 && f < |t|
    requires t[e] == '\n' && t[e + 1] == '\n' && !IsSpace(t[f])
    requires SplitFrom(t, s, s) == SplitFrom(t, s, e)
    ensures SplitFrom(t, s, s) == [t[s..e]] + SplitFrom(t, f, f)
  {
    SeparatorOfTwoLineFeeds(t, e);
  }

  lemma HeadAndTail(ps: seq<string>, head: string, tail: seq<string>)
    requires |ps| >= 1 && head == ps[0] && tail == ps[1..]
    ensures [head] + tail == ps
  {
  }

  /** Where the first of several joined paragraphs ends, the two line
      feeds and the rest begin. */
  lemma JoinedParts(t: string, s: nat, ps: seq<string>)
    requires |ps| >= 2 && IsParagraph(ps[1])
    requires s <= |t| && t[s..] == Join(ps, "\n\n")
    ensures s + |ps[0]| + 2 < |t| && t[s..s + |ps[0]|] == ps[0]
    ensures t[s + |ps[0]|] == '\n' && t[s + |ps[0]| + 1] == '\n' && !IsSpace(t[s + |ps[0]| + 2])
    ensures t[s + |ps[0]| + 2..] == Join(ps[1..], "\n\n")
  {
    var e := s + |ps[0]|;
    var rest := Join(ps[1..], "\n\n");
    JoinHead(ps[1..], "\n\n");
    assert t[s..] == ps[0] + "\n\n" + rest;
    assert t[s..e] == ps[0] by { assert t[s..][..|ps[0]|] == ps[0]; }
    assert t[e] == '\n' && t[e + 1] == '\n' && t[e + 2] == rest[0] by {
      assert t[s..][|ps[0]|] == t[e];
    }
    assert t[e + 2..] == rest by { assert t[s..][|ps[0]| + 2..] == rest; }
  }

  /** k paragraphs joined with a blank line split into exactly those k
      paragraphs. */
  lemma SplitParagraphs(ps: seq<string>)
    requires |ps| >= 1 && forall k :: 0 <= k < |ps| ==> IsParagraph(ps[k])
    ensures SplitOnBlankLines(Join(ps, "\n\n")) == ps
  {
    var t := Join(ps, "\n\n");
    assert t[0..] == t;
    AllParagraphsEach(ps);
    SplitParagraphsFrom(t, 0, ps);
  }
}
