/** Worked examples: three pastes run through the block parser, the
    confidence score and the card builder, each proved step by step down to
    the individual regular-expression matches. */
module Scenarios {
  import opened Text
  import opened Patterns
  import opened Parser
  import opened Cards

  /** A line `d) text`, with `d` a digit and `text` starting with a
      non-space, is an option whose text is `text`. */
  lemma DigitOption(line: string, text: string)
    requires |line| >= 4 && IsAsciiDigit(line[0]) && line[1] == ')' && line[2] == ' ' && line[3..] == text
    requires !IsSpace(text[0]) && RestOfLine(text)
    ensures OptionCapture(line) == Some(text)
  {
    var u := line[2..];
    assert u[1..] == text;
    assert SpaceRun(u) == 1 by {
      assert SpaceRun(u[1..]) == 0;
    }
    assert SpacesThenRest(u, 1) == Some(text);
    assert !IsBullet(line[0]) && !IsAsciiLetter(line[0]) && line[0] != '(' && !IsAsciiDigit(line[1]);
  }

  /** A line `l) text`, with `l` a letter and `text` starting with a
      non-space, is an option whose text is `text`. */
  lemma LetterOption(line: string, text: string)
    requires |line| >= 4 && IsAsciiLetter(line[0]) && line[1] == ')' && line[2] == ' ' && line[3..] == text
    requires !IsSpace(text[0]) && RestOfLine(text)
    ensures OptionCapture(line) == Some(text)
  {
    var u := line[2..];
    assert u[1..] == text;
    assert SpaceRun(u) == 1 by {
      assert SpaceRun(u[1..]) == 0;
    }
    assert SpacesThenRest(u, 1) == Some(text);
    assert !IsBullet(line[0]) && line[0] != '(';
  }

  /** `MarkedAfterLabel` fails when the label is followed by a letter or a
      digit: no `)`, separator or space can come next. */
  lemma MarkedAfterLabelNone(tag: string, r: string)
    requires |r| > 0 && IsAsciiAlnum(r[0])
    ensures MarkedAfterLabel(tag, r).None?
  {
    assert SpaceRun(r) == 0;
    assert MarkedAfterPunct(tag, r).None?;
    assert MarkedAfterClose(tag, r).None?;
  }

  /** A line that begins with no bullet, no digit and no letter or `(x`
      followed by a closing `)` or `.` is not an option line. */
  lemma NoOptionLabel(line: string)
    requires |line| >= 3 && !IsBullet(line[0]) && !IsAsciiDigit(line[0])
    requires line[1] != ')' && line[1] != '.' && line[2] != ')'
    ensures !IsOptionLine(line)
  {
    assert OptionAfterBullet(line).None?;
  }

  /** Three letters or digits at `p` are no label: whichever length the
      label takes, a letter or digit follows it. */
  lemma MarkedLabelAtNone(s: string, p: nat)
    requires p + 3 <= |s| && IsAsciiAlnum(s[p]) && IsAsciiAlnum(s[p + 1]) && IsAsciiAlnum(s[p + 2])
    ensures MarkedLabelAt(s, p).None?
  {
    assert s[p + 2..][0] == s[p + 2];
    MarkedAfterLabelNone(s[p..p + 2], s[p + 2..]);
    assert s[p + 1..][0] == s[p + 1];
    MarkedAfterLabelNone(s[p..p + 1], s[p + 1..]);
  }

  /** No label starts at a character that is neither a letter nor a digit. */
  lemma NoLabelAt(s: string, p: nat)
    requires p < |s| && !IsAsciiAlnum(s[p])
    ensures MarkedLabelAt(s, p).None?
  {
  }

  /** `(` and three letters or digits never start an inline-marked option. */
  lemma NoMarkedParenWord(s: string)
    requires |s| >= 4 && s[0] == '(' && IsAsciiAlnum(s[1]) && IsAsciiAlnum(s[2]) && IsAsciiAlnum(s[3])
    ensures MarkedOption(s).None?
  {
    MarkedLabelAtNone(s, 1);
    NoLabelAt(s, 0);
    assert MarkedAfterBullet(s).None?;
    UnbulletedMarked(s);
  }

  /** Without a leading bullet the marked-option search starts at the label. */
  lemma UnbulletedMarked(line: string)
    requires |line| > 0 && !IsBullet(line[0])
    ensures MarkedOption(line) == MarkedAfterBullet(line)
  {
  }


  /** An option line whose capture is already trimmed and non-empty
      contributes exactly that capture. */
  lemma OptionTextsCons(line: string, rest: seq<string>, text: string)
    requires OptionCapture(line) == Some(text) && text != [] && IsTrimmed(text)
    ensures OptionTexts([line] + rest) == [text] + OptionTexts(rest)
  {
    TrimKeepsTrimmed(text);
    assert ([line] + rest)[1..] == rest;
  }

  lemma OptionTextsTwo(a: string, b: string, ta: string, tb: string)
    requires OptionCapture(a) == Some(ta) && ta != [] && IsTrimmed(ta)
    requires OptionCapture(b) == Some(tb) && tb != [] && IsTrimmed(tb)
    ensures OptionTexts([a, b]) == [ta, tb]
  {
    OptionTextsCons(b, [], tb);
    assert [b] + [] == [b];
    OptionTextsCons(a, [b], ta);
    assert [a] + [b] == [a, b];
  }

  lemma OptionTextsThree(a: string, b: string, c: string, ta: string, tb: string, tc: string)
    requires OptionCapture(a) == Some(ta) && ta != [] && IsTrimmed(ta)
    requires OptionCapture(b) == Some(tb) && tb != [] && IsTrimmed(tb)
    requires OptionCapture(c) == Some(tc) && tc != [] && IsTrimmed(tc)
    ensures OptionTexts([a, b, c]) == [ta, tb, tc]
  {
    OptionTextsTwo(b, c, tb, tc);
    OptionTextsCons(a, [b, c], ta);
    assert [a] + [b, c] == [a, b, c];
  }

  /** A line that is not a marked option but declares an answer whose
      cleaned capture is a bare label resolves through that label. */
  lemma DeclaredLine(line: string, options: seq<string>, capture: string, tag: string, i: nat)
    requires MarkedOption(line).None? && DeclarationAt(line) == Some(capture)
    requires CleanText(capture) == capture && TokenOnly(capture) == Some(tag)
    requires ResolveToken(tag, options) == Some(i)
    ensures DetectInLine(line, options) == Some(i)
  {
  }

  /** A text of one line names the answer that line names. */
  lemma DetectOneLine(raw: string, options: seq<string>, line: string)
    requires Lines(CleanText(raw)) == [line]
    ensures DetectAnswer(raw, options) == DetectInLine(line, options)
  {
    assert LineAnswers([line], options) == [DetectInLine(line, options)];
  }

  /** A text of three lines none of which names an answer names none. */
  lemma DetectNoneOfThree(raw: string, options: seq<string>, a: string, b: string, c: string)
    requires Lines(CleanText(raw)) == [a, b, c]
    requires DetectInLine(a, options).None? && DetectInLine(b, options).None? && DetectInLine(c, options).None?
    ensures DetectAnswer(raw, options).None?
  {
    var answers := LineAnswers([a, b, c], options);
    assert answers[0].None? && answers[1].None? && answers[2].None?;
    assert FirstAnswer(answers, 2).None?;
  }

  /** How `ParseBlock` reads an already clean text whose options start at
      line `k`. */
  lemma ParseWithOptions(raw: string, lines: seq<string>, k: nat, front: seq<string>, rest: seq<string>)
    requires raw != [] && CleanText(raw) == raw && Lines(raw) == lines
    requires k < |lines| && FirstOptionLine(lines) == k
    requires lines[..k] == front && lines[k..] == rest
    ensures ParseBlock(raw) == Assemble(raw, lines[0], front, SortLines(rest))
  {
    assert !IsSpace(raw[0]);
    LinesNonEmpty(raw);
  }

  // ---- a multiple-choice question with a declared answer ----

  const Text1 := "What is 2+2?\nA) 3\nB) 4\nC) 5\nAnswer: B"
  const Lines1 := ["What is 2+2?", "A) 3", "B) 4", "C) 5", "Answer: B"]

  lemma Join1()
    ensures Join(Lines1, "\n") == Text1
  {
  }

  lemma LinesOf1()
    ensures Lines(Text1) == Lines1
  {
    Join1();
    LinesOfJoin(Lines1);
  }

  lemma NotOptionQ1() ensures !IsOptionLine("What is 2+2?") { NoOptionLabel("What is 2+2?"); }
  lemma OptionA() ensures OptionCapture("A) 3") == Some("3") { LetterOption("A) 3", "3"); }
  lemma OptionB() ensures OptionCapture("B) 4") == Some("4") { LetterOption("B) 4", "4"); }
  lemma OptionC() ensures OptionCapture("C) 5") == Some("5") { LetterOption("C) 5", "5"); }
  lemma NotOptionAnswer() ensures !IsOptionLine("Answer: B") { NoOptionLabel("Answer: B"); }
  lemma LeadAnswer() ensures IsAnswerLead("Answer: B") {}

  lemma First1()
    ensures FirstOptionLine(Lines1) == 1
  {
    NotOptionQ1();
    OptionA();
  }

  lemma Sort1a()
    ensures SortLines(["A) 3"]) == Sorting(["A) 3"], [], true)
  {
    OptionA();
    SortSnoc([], "A) 3");
    assert [] + ["A) 3"] == ["A) 3"];
  }

  lemma Sort1b()
    ensures SortLines(["A) 3", "B) 4"]) == Sorting(["A) 3", "B) 4"], [], true)
  {
    OptionB();
    Sort1a();
    SortSnoc(["A) 3"], "B) 4");
    assert ["A) 3"] + ["B) 4"] == ["A) 3", "B) 4"];
  }

  lemma Sort1c()
    ensures SortLines(["A) 3", "B) 4", "C) 5"]) == Sorting(["A) 3", "B) 4", "C) 5"], [], true)
  {
    OptionC();
    Sort1b();
    SortSnoc(["A) 3", "B) 4"], "C) 5");
    assert ["A) 3", "B) 4"] + ["C) 5"] == ["A) 3", "B) 4", "C) 5"];
  }

  lemma Sort1()
    ensures SortLines(Lines1[1..]) == Sorting(["A) 3", "B) 4", "C) 5"], ["Answer: B"], false)
  {
    NotOptionAnswer(); LeadAnswer();
    Sort1c();
    SortSnoc(["A) 3", "B) 4", "C) 5"], "Answer: B");
    assert Lines1[1..] == ["A) 3", "B) 4", "C) 5"] + ["Answer: B"];
  }

  const Opts1 := ["3", "4", "5"]

  lemma OptionTexts1()
    ensures OptionTexts(["A) 3", "B) 4", "C) 5"]) == Opts1
  {
    OptionA(); OptionB(); OptionC();
    OptionTextsThree("A) 3", "B) 4", "C) 5", "3", "4", "5");
  }


  lemma RestB()
    ensures SpacesThenRest(" B", 0) == Some("B")
  {
    var u := " B";
    assert SpaceRun(u) == 1;
    assert u[1..] == "B";
    assert RestOfLine("B");
  }

  lemma DeclB()
    ensures DeclarationAt("Answer: B") == Some("B")
  {
    var s := "Answer: B";
    assert StartsWithNoCase(s, "answer");
    assert s[6..] == ": B";
    assert SpaceRun(": B") == 0;
    RestB();
    assert AfterSeparator(": B") == Some("B");
  }

  lemma NotMarkedB()
    ensures MarkedOption("Answer: B").None?
  {
    MarkedOptionEnds("Answer: B");
  }

  lemma TokenB()
    ensures CleanText("B") == "B" && TokenOnly("B") == Some("B") && ResolveToken("B", Opts1) == Some(1)
  {
    TrimKeepsTrimmed("B");
    assert CleanText("B") == "B";
    assert TokenOnly("B") == Some("B");
  }

  lemma DetectB()
    ensures DetectInLine("Answer: B", Opts1) == Some(1)
  {
    NotMarkedB();
    DeclB();
    TokenB();
    DeclaredLine("Answer: B", Opts1, "B", "B", 1);
  }


  lemma CleanLinesB()
    ensures Lines(CleanText("Answer: B")) == ["Answer: B"]
  {
    var t := "Answer: B";
    assert '\r' !in t;
    TrimKeepsTrimmed(t);
    assert Join([t], "\n") == t;
    LinesOfJoin([t]);
  }

  lemma Detect1()
    ensures DetectAnswer("Answer: B", Opts1) == Some(1)
  {
    CleanLinesB();
    DetectB();
    DetectOneLine("Answer: B", Opts1, "Answer: B");
  }


  lemma Back1()
    ensures BackText("Answer: B") == "B"
  {
    DeclB();
    var t := "Answer: B";
    assert SpaceRun(t) == 0;
    assert t[0..] == t;
    assert SpacesThenDeclaration(t) == Some("B");
    assert RationaleAt(t, 0) == Some("B");
    TrimKeepsTrimmed("B");
  }

  lemma Front1()
    ensures FrontText(["What is 2+2?"]) == "What is 2+2?"
  {
    assert Join(["What is 2+2?"], " ") == "What is 2+2?";
    assert FoldAscii("What is 2+2?"[0]) != "question"[0];
    assert FoldAscii("What is 2+2?"[0]) != "q"[0];
    assert !StartsWithNoCase("What is 2+2?", "question");
    assert !StartsWithNoCase("What is 2+2?", "q");
    assert StripQuestionLabel("What is 2+2?") == "What is 2+2?";
    TrimKeepsTrimmed("What is 2+2?");
  }

  const Parsed1 := ParsedBlock("What is 2+2?", "B", Opts1, Some(1))

  lemma Clean1()
    ensures CleanText(Text1) == Text1
  {
    assert '\r' !in Text1;
    TrimKeepsTrimmed(Text1);
  }

  lemma Assemble1()
    ensures Assemble(Text1, "What is 2+2?", ["What is 2+2?"], Sorting(["A) 3", "B) 4", "C) 5"], ["Answer: B"], false)) == Parsed1
  {
    OptionTexts1();
    assert Join(["Answer: B"], "\n") == "Answer: B";
    Detect1();
    Back1();
    Front1();
  }

  /** The stem is the first line, the options are the texts after their
      labels, and `Answer: B` both names option 1 and is the explanation. */
  lemma Head1()
    ensures Lines1[..1] == ["What is 2+2?"] && Lines1[0] == "What is 2+2?"
  {
  }

  lemma Parse1()
    ensures ParseBlock(Text1) == Parsed1
  {
    Clean1();
    LinesOf1();
    First1();
    Head1();
    Sort1();
    ParseWithOptions(Text1, Lines1, 1, ["What is 2+2?"], Lines1[1..]);
    Assemble1();
  }



  /** A long question with three options and an answer scores full marks. */
  lemma Score1()
    ensures ScoreConfidence(Parsed1) == 100
  {
    assert Utf16Length("What is 2+2?") == 12;
  }

  /** Its card is a multiple-choice card whose answer is the second option. */
  lemma Build1()
    ensures BuildCard(Parsed1.front, Parsed1.back, Parsed1.options, Parsed1.correctIndex, 7, 0).Some?
    ensures BuildCard(Parsed1.front, Parsed1.back, Parsed1.options, Parsed1.correctIndex, 7, 0).value.answer == ["4"]
  {
  }

  // ---- a question and its answer on two lines: a flashcard ----

  const Text2 := "Capital of France\nParis"

  lemma Clean2()
    ensures CleanText(Text2) == Text2
  {
    assert '\r' !in Text2;
    TrimKeepsTrimmed(Text2);
  }

  const Lines2 := ["Capital of France", "Paris"]

  lemma Join2()
    ensures Join(Lines2, "\n") == Text2
  {
  }

  lemma SplitLines2()
    ensures Lines(Text2) == Lines2
  {
    Join2();
    LinesOfJoin(Lines2);
  }

  lemma CleanLines2()
    ensures Lines(CleanText(Text2)) == Lines2
  {
    Clean2();
    SplitLines2();
  }

  lemma NoOption2()
    ensures FirstOptionLine(["Capital of France", "Paris"]) == 2
  {
    NoOptionLabel("Capital of France");
    NoOptionLabel("Paris");
    assert ["Capital of France", "Paris"][1..] == ["Paris"];
  }

  /** Without option lines the first line is the question and the second
      the answer, and the card builder makes a flashcard of it. */
  lemma Parse2()
    ensures ParseBlock(Text2) == ParsedBlock("Capital of France", "Paris", [], None)
  {
    CleanLines2();
    NoOption2();
    assert Join(["Paris"], "\n") == "Paris";
    PlainBlock(Text2);
  }

  lemma Build2()
    ensures var c := BuildCard("Capital of France", "Paris", [], None, 7, 0);
      c.Some? && c.value.questionStyle == Flashcard && c.value.answer == ["Paris"] && c.value.rationale == "Paris"
  {
  }

  // ---- options and a stray marker that names no option ----

  const Text5 := "1) Alpha\n2) Beta\n(correct)"
  const Lines5 := ["1) Alpha", "2) Beta", "(correct)"]

  lemma Option5a() ensures OptionCapture("1) Alpha") == Some("Alpha") {
    DigitOption("1) Alpha", "Alpha");
  }
  lemma Option5b() ensures OptionCapture("2) Beta") == Some("Beta") {
    DigitOption("2) Beta", "Beta");
  }
  lemma NotOption5() ensures !IsOptionLine("(correct)") { NoOptionLabel("(correct)"); }
  lemma NotLead5() ensures !IsAnswerLead("(correct)") {
    assert "(correct)"[0] == '(';
  }

  lemma Clean5()
    ensures CleanText(Text5) == Text5
  {
    assert '\r' !in Text5;
    TrimKeepsTrimmed(Text5);
  }

  lemma Join5()
    ensures Join(Lines5, "\n") == Text5
  {
  }

  lemma SplitLines5()
    ensures Lines(Text5) == Lines5
  {
    Join5();
    LinesOfJoin(Lines5);
  }

  lemma CleanLines5()
    ensures Lines(CleanText(Text5)) == Lines5
  {
    Clean5();
    SplitLines5();
  }

  lemma Sort5a()
    ensures SortLines(["1) Alpha", "2) Beta"]) == Sorting(["1) Alpha", "2) Beta"], [], true)
  {
    Option5a(); Option5b();
    SortSnoc([], "1) Alpha");
    assert [] + ["1) Alpha"] == ["1) Alpha"];
    SortSnoc(["1) Alpha"], "2) Beta");
    assert ["1) Alpha"] + ["2) Beta"] == ["1) Alpha", "2) Beta"];
  }

  lemma Continue5()
    ensures Trim("2) Beta" + " " + "(correct)") == "2) Beta (correct)"
  {
    assert "2) Beta" + " " + "(correct)" == "2) Beta (correct)";
    TrimKeepsTrimmed("2) Beta (correct)");
  }

  lemma Sort5()
    ensures SortLines(Lines5) == Sorting(["1) Alpha", "2) Beta (correct)"], [], true)
  {
    NotOption5(); NotLead5();
    Sort5a();
    SortSnoc(["1) Alpha", "2) Beta"], "(correct)");
    assert ["1) Alpha", "2) Beta"] + ["(correct)"] == Lines5;
    Continue5();
  }

  const Opts5 := ["Alpha", "Beta (correct)"]

  lemma OptionBetaMarked()
    ensures OptionCapture("2) Beta (correct)") == Some("Beta (correct)")
  {
    DigitOption("2) Beta (correct)", "Beta (correct)");
  }

  lemma OptionTexts5()
    ensures OptionTexts(["1) Alpha", "2) Beta (correct)"]) == Opts5
  {
    Option5a();
    OptionBetaMarked();
    OptionTextsTwo("1) Alpha", "2) Beta (correct)", "Alpha", "Beta (correct)");
  }


  lemma NotMarked5a() ensures MarkedOption("1) Alpha").None? { MarkedOptionEnds("1) Alpha"); }
  lemma NotMarked5b() ensures MarkedOption("2) Beta").None? { MarkedOptionEnds("2) Beta"); }
  lemma NotMarked5c() ensures MarkedOption("(correct)").None? { NoMarkedParenWord("(correct)"); }


  lemma NoLine5a()
    ensures DetectInLine("1) Alpha", Opts5).None?
  {
    NotMarked5a();
    assert FoldAscii("1) Alpha"[0]) != 'a' && FoldAscii("1) Alpha"[0]) != 'c';
    assert !IsAnswerLead("1) Alpha");
  }

  lemma NoLine5b()
    ensures DetectInLine("2) Beta", Opts5).None?
  {
    NotMarked5b();
    assert FoldAscii("2) Beta"[0]) != 'a' && FoldAscii("2) Beta"[0]) != 'c';
    assert !IsAnswerLead("2) Beta");
  }

  lemma NoLine5c()
    ensures DetectInLine("(correct)", Opts5).None?
  {
    NotMarked5c();
    NotLead5();
  }

  lemma NoDetect5()
    ensures DetectAnswer(Text5, Opts5).None?
  {
    CleanLines5();
    NoLine5a(); NoLine5b(); NoLine5c();
    DetectNoneOfThree(Text5, Opts5, "1) Alpha", "2) Beta", "(correct)");
  }


  lemma EmptyTrailing(options: seq<string>)
    ensures DetectAnswer([], options).None?
    ensures BackText([]) == []
    ensures FrontText([]) == []
  {
    assert CleanText([]) == [];
    assert Split([], '\n') == [[]];
    assert Lines([]) == [];
    assert DeclarationAt([]).None?;
    assert RationaleAt([], 0).None?;
    assert QuestionLabelLength([]).None?;
  }

  const Parsed5 := ParsedBlock("1) Alpha", [], Opts5, None)

  lemma Assemble5()
    ensures Assemble(Text5, "1) Alpha", [], Sorting(["1) Alpha", "2) Beta (correct)"], [], true)) == Parsed5
  {
    OptionTexts5();
    EmptyTrailing(Opts5);
    NoDetect5();
  }

  /** `(correct)` on a line of its own is neither an option nor an answer
      declaration, so it continues the last option; no line names an option,
      and the stem falls back to the first line. */
  lemma Parse5()
    ensures ParseBlock(Text5) == Parsed5
  {
    Clean5();
    SplitLines5();
    Option5a();
    assert FirstOptionLine(Lines5) == 0;
    Sort5();
    ParseWithOptions(Text5, Lines5, 0, [], Lines5);
    Assemble5();
  }


  /** That parse is held back for review and the card builder rejects it. */
  lemma Outcome5()
    ensures ScoreConfidence(Parsed5) < LowConfidence
    ensures BuildCard(Parsed5.front, Parsed5.back, Parsed5.options, Parsed5.correctIndex, 7, 0).None?
  {
  }

  /** Normalising a question whose text needs no cleaning and has no
      capital letter: blank out the symbols, collapse the spaces, and trim
      the one trailing space left. */
  lemma NormalizeSteps(s: string, blanked: string, collapsed: string, key: string)
    requires '\r' !in s && IsTrimmed(s)
    requires forall i :: 0 <= i < |s| ==> !IsAsciiUpper(s[i]) && s[i] != '\U{0130}' && s[i] != '\U{212A}'
    requires BlankOutSymbols(s) == blanked && CollapseSpaces(blanked) == collapsed
    requires |key| > 0 && IsTrimmed(key) && collapsed == key + " "
    ensures NormalizeQuestion(s) == key
  {
    TrimKeepsTrimmed(s);
    LowerKeeps(s);
    TrimTrailingSpace(key);
  }

  /** A run of `k` spaces ahead of a non-space collapses to one space. */
  lemma CollapseRun(s: string, k: nat)
    requires 0 < k < |s| && !IsSpace(s[k])
    requires forall i :: 0 <= i < k ==> s[i] == ' '
    ensures CollapseSpaces(s) == [' '] + CollapseSpaces(s[k..])
  {
    var n := SpaceRun(s);
    assert forall i :: 0 <= i < n ==> IsSpace(s[i]);
    assert n == k;
  }

  /** A non-space is copied through by collapsing. */
  lemma CollapseNonSpace(s: string)
    requires |s| > 0 && !IsSpace(s[0])
    ensures CollapseSpaces(s) == [s[0]] + CollapseSpaces(s[1..])
  {
  }

  /** Trimming drops one trailing space from a trimmed text. */
  lemma TrimTrailingSpace(s: string)
    requires |s| > 0 && IsTrimmed(s)
    ensures Trim(s + " ") == s
  {
    var t := s + " ";
    assert SpaceRun(t) == 0;
    assert t[0..] == t;
    assert t[..|t| - 1] == s;
    assert TrailingCut(s) == |s|;
    assert TrailingCut(t) == |s|;
  }

  /** The key `2 2` is trimmed, and collapsing leaves it and a trailing
      space as they are. */
  lemma Key22(k: string)
    requires k == "2 2"
    ensures |k| > 0 && IsTrimmed(k)
    ensures CollapseSpaces(k + " ") == k + " "
  {
    assert k + " " == ['2', ' ', '2', ' '];
    CollapseKeeps(k + " ");
  }

  /** Neither question needs cleaning and neither has a capital letter. */
  lemma Plain6(q: string)
    requires q == "2+2?" || q == "2 + 2?"
    ensures '\r' !in q && IsTrimmed(q)
    ensures forall i :: 0 <= i < |q| ==> !IsAsciiUpper(q[i]) && q[i] != '\U{0130}' && q[i] != '\U{212A}'
  {
    assert q == ['2', '+', '2', '?'] || q == ['2', ' ', '+', ' ', '2', '?'];
  }

  /** Blanking `2+2?` turns `+` and `?` into spaces: the key and one
      trailing space. */
  lemma Blank6a(a: string, k: string)
    requires a == "2+2?" && k == "2 2"
    ensures BlankOutSymbols(a) == k + " "
  {
    assert !KeptBySymbolBlanking(a[1]) && !KeptBySymbolBlanking(a[3]);
    assert k + " " == ['2', ' ', '2', ' '];
  }

  /** Blanking `2 + 2?` leaves three spaces between the digits. */
  lemma Blank6b(b: string)
    requires b == "2 + 2?"
    ensures BlankOutSymbols(b) == "2   2 "
  {
    assert !KeptBySymbolBlanking(b[2]) && !KeptBySymbolBlanking(b[5]);
  }

  /** The three spaces between the digits collapse into one. */
  lemma Collapse6b(c: string, k: string)
    requires c == "2   2 " && k == "2 2"
    ensures CollapseSpaces(c) == k + " "
  {
    CollapseNonSpace(c);
    CollapseRun(c[1..], 3);
    var d := c[1..][3..];
    assert d == ['2', ' '];
    CollapseNonSpace(d);
    assert d[1..] == [' '];
    assert k + " " == ['2', ' ', '2', ' '];
  }

  /** `2+2?`: the two symbols become spaces and the trailing one is trimmed. */
  lemma Key6a(a: string, k: string)
    requires a == "2+2?" && k == "2 2"
    ensures NormalizeQuestion(a) == k
  {
    Plain6(a);
    Blank6a(a, k);
    Key22(k);
    NormalizeSteps(a, k + " ", k + " ", k);
  }

  /** `2 + 2?`: the spaces around the blanked `+` collapse into one. */
  lemma Key6b(b: string, k: string)
    requires b == "2 + 2?" && k == "2 2"
    ensures NormalizeQuestion(b) == k
  {
    Plain6(b);
    Blank6b(b);
    Collapse6b(BlankOutSymbols(b), k);
    Key22(k);
    NormalizeSteps(b, BlankOutSymbols(b), k + " ", k);
  }

  /** Symbols and spacing do not tell two questions apart: `2+2?` and
      `2 + 2?` share the comparison key `2 2`. */
  lemma SameKey6()
    ensures NormalizeQuestion("2+2?") == NormalizeQuestion("2 + 2?") == "2 2"
  {
    Key6a("2+2?", "2 2");
    Key6b("2 + 2?", "2 2");
  }
}
