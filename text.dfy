/** Text normalisation shared by the whole pipeline: JavaScript's notion of
    whitespace, `trim`, `cleanText`, `normalizeQuestion`, splitting on and
    joining with a separator. Strings are sequences of Unicode scalar values. */
module Text {

  datatype Option<+T> = None | Some(value: T)

  /** JavaScript's `\s` class, which is also the set `String.prototype.trim`
      removes: the WhiteSpace and LineTerminator code points. */
  predicate IsSpace(c: char) {
    || c == '\t' || c == '\n' || c == '\U{000B}' || c == '\U{000C}' || c == '\r'
    || c == ' ' || c == '\U{00A0}' || c == '\U{1680}'
    || ('\U{2000}' <= c <= '\U{200A}')
    || c == '\U{2028}' || c == '\U{2029}' || c == '\U{202F}' || c == '\U{205F}'
    || c == '\U{3000}' || c == '\U{FEFF}'
  }

  /** The characters a regular-expression `.` does not match (no `s` flag). */
  predicate IsLineTerminator(c: char) {
    c == '\n' || c == '\r' || c == '\U{2028}' || c == '\U{2029}'
  }

  predicate AllSpace(s: string) {
    forall i :: 0 <= i < |s| ==> IsSpace(s[i])
  }

  lemma AllSpaceConcat(a: string, b: string)
    ensures AllSpace(a + b) <==> AllSpace(a) && AllSpace(b)
  {
    if AllSpace(a) && AllSpace(b) {
      forall k | 0 <= k < |a + b| ensures IsSpace((a + b)[k]) {
        if k >= |a| { assert (a + b)[k] == b[k - |a|]; }
      }
    }
    if AllSpace(a + b) {
      forall k | 0 <= k < |a| ensures IsSpace(a[k]) { assert (a + b)[k] == a[k]; }
      forall k | 0 <= k < |b| ensures IsSpace(b[k]) { assert (a + b)[|a| + k] == b[k]; }
    }
  }

  /** No whitespace at either end. */
  predicate IsTrimmed(s: string) {
    |s| > 0 ==> !IsSpace(s[0]) && !IsSpace(s[|s| - 1])
  }

  /** Length of the leading whitespace run. */
  function SpaceRun(s: string): (n: nat)
    ensures n <= |s| && AllSpace(s[..n])
    ensures n < |s| ==> !IsSpace(s[n])
  {
    if |s| == 0 || !IsSpace(s[0]) then 0
    else
      var m := SpaceRun(s[1..]);
      assert s[1..][..m] == s[1..m + 1];
      1 + m
  }

  /** Length of the string with its trailing whitespace run removed. */
  function TrailingCut(s: string): (n: nat)
    ensures n <= |s| && AllSpace(s[n..])
    ensures n > 0 ==> !IsSpace(s[n - 1])
    decreases |s|
  {
    if |s| == 0 || !IsSpace(s[|s| - 1]) then |s|
    else
      var n := TrailingCut(s[..|s| - 1]);
      assert s[n..] == s[..|s| - 1][n..] + [s[|s| - 1]];
      AllSpaceConcat(s[..|s| - 1][n..], [s[|s| - 1]]);
      n
  }

  /** `String.prototype.trim`. */
  function Trim(s: string): (r: string)
    ensures IsTrimmed(r)
  {
    var i := SpaceRun(s);
    var t := s[i..];
    var j := TrailingCut(t);
    assert j > 0 ==> t[0] == s[i];
    t[..j]
  }

  /** `trim` removes exactly a whitespace run at each end, and leaves
      nothing exactly when the input is all whitespace. */
  lemma TrimSpec(s: string)
    ensures exists i, j :: 0 <= i <= j <= |s| && Trim(s) == s[i..j] && AllSpace(s[..i]) && AllSpace(s[j..])
    ensures Trim(s) == [] <==> AllSpace(s)
  {
    var i := SpaceRun(s);
    var t := s[i..];
    var j := TrailingCut(t);
    assert t[..j] == s[i..i + j] && t[j..] == s[i + j..];
    assert AllSpace(s) ==> AllSpace(t) && j == 0;
    assert j == 0 ==> s == s[..i] + t[j..];
    if j == 0 {
      AllSpaceConcat(s[..i], t[j..]);
    }
  }

  /** `replace(/\r\n/g, '\n')`: every CR LF pair, scanned from the left
      without overlap, becomes one LF. */
  function ReplaceCrlf(s: string): (r: string)
    ensures '\r' !in s ==> r == s
    ensures AllSpace(r) <==> AllSpace(s)
    ensures |r| <= |s|
    decreases |s|
  {
    if |s| == 0 then []
    else if |s| >= 2 && s[0] == '\r' && s[1] == '\n' then
      var rest := ReplaceCrlf(s[2..]);
      assert s == s[..2] + s[2..];
      AllSpaceConcat(s[..2], s[2..]);
      AllSpaceConcat(['\n'], rest);
      ['\n'] + rest
    else
      var rest := ReplaceCrlf(s[1..]);
      assert s == [s[0]] + s[1..];
      AllSpaceConcat([s[0]], s[1..]);
      AllSpaceConcat([s[0]], rest);
      [s[0]] + rest
  }

  /** The first CR LF pair becomes one LF; the text before it is kept and
      the text after it is processed in turn. */
  lemma ReplaceFirstCrlf(a: string, b: string)
    requires '\r' !in a
    ensures ReplaceCrlf(a + "\r\n" + b) == a + "\n" + ReplaceCrlf(b)
  {
    ReplaceCrlfAfter(a, "\r\n" + b);
    ReplaceCrlfPair(b);
    assert a + "\r\n" + b == a + ("\r\n" + b);
    assert a + "\n" + ReplaceCrlf(b) == a + ("\n" + ReplaceCrlf(b));
  }

  /** Text without a CR passes through unchanged. */
  lemma {:induction false} ReplaceCrlfAfter(a: string, x: string)
    requires '\r' !in a
    ensures ReplaceCrlf(a + x) == a + ReplaceCrlf(x)
  {
    if |a| == 0 {
      assert a + x == x;
    } else {
      ConsConcat(a, x);
      ReplaceCrlfKeeps(a[0], a[1..] + x);
      assert '\r' !in a[1..] by { assert forall y :: y in a[1..] ==> y in a; }
      ReplaceCrlfAfter(a[1..], x);
      ConsConcat(a, ReplaceCrlf(x));
    }
  }

  lemma ConsConcat(a: string, x: string)
    requires |a| > 0
    ensures a + x == [a[0]] + (a[1..] + x)
  {
  }

  lemma ReplaceCrlfPair(b: string)
    ensures ReplaceCrlf("\r\n" + b) == "\n" + ReplaceCrlf(b)
  {
    assert ("\r\n" + b)[2..] == b;
  }

  lemma ReplaceCrlfKeeps(c: char, rest: string)
    requires c != '\r' || rest == [] || rest[0] != '\n'
    ensures ReplaceCrlf([c] + rest) == [c] + ReplaceCrlf(rest)
  {
    assert ([c] + rest)[1..] == rest;
  }

  /** `cleanText`, popup.js:46-48: CR LF to LF, then trim. */
  function CleanText(s: string): (r: string)
    ensures IsTrimmed(r)
    ensures r == [] <==> AllSpace(s)
  {
    TrimSpec(ReplaceCrlf(s));
    Trim(ReplaceCrlf(s))
  }

  predicate IsAsciiLower(c: char) { 'a' <= c <= 'z' }
  predicate IsAsciiUpper(c: char) { 'A' <= c <= 'Z' }
  predicate IsAsciiDigit(c: char) { '0' <= c <= '9' }
  predicate IsAsciiLetter(c: char) { IsAsciiLower(c) || IsAsciiUpper(c) }
  predicate IsAsciiAlnum(c: char) { IsAsciiLetter(c) || IsAsciiDigit(c) }
  predicate AreAsciiDigits(s: string) { forall i :: 0 <= i < |s| ==> IsAsciiDigit(s[i]) }

  /** `toLowerCase` on one character. Exact for ASCII and for the two
      non-ASCII characters whose lower case contains an ASCII letter (the
      dotted capital I and the Kelvin sign); every other character is kept,
      which no caller can tell apart, since each only asks afterwards
      whether a character is an ASCII letter, digit or whitespace. */
  function LowerChar(c: char): (r: string)
    ensures IsAsciiUpper(c) ==> r == [(c as int + 32) as char]
    ensures !IsAsciiUpper(c) && c != '\U{0130}' && c != '\U{212A}' ==> r == [c]
  {
    if IsAsciiUpper(c) then [(c as int + 32) as char]
    else if c == '\U{0130}' then ['i', '\U{0307}']
    else if c == '\U{212A}' then ['k']
    else [c]
  }

  /** `toLowerCase`. */
  function Lower(s: string): (r: string)
    ensures forall i :: 0 <= i < |r| ==> !IsAsciiUpper(r[i])
  {
    if |s| == 0 then [] else LowerChar(s[0]) + Lower(s[1..])
  }

  /** The characters of `s` that are not whitespace, in order. */
  function NonSpaces(s: string): string {
    if |s| == 0 then [] else (if IsSpace(s[0]) then [] else [s[0]]) + NonSpaces(s[1..])
  }

  lemma {:induction false} NonSpacesConcat(a: string, b: string)
    ensures NonSpaces(a + b) == NonSpaces(a) + NonSpaces(b)
  {
    if |a| > 0 {
      assert (a + b)[0] == a[0] && (a + b)[1..] == a[1..] + b;
      NonSpacesConcat(a[1..], b);
    } else {
      assert a + b == b;
    }
  }

  lemma {:induction false} NonSpacesOfSpaces(s: string)
    requires AllSpace(s)
    ensures NonSpaces(s) == []
  {
    if |s| > 0 {
      NonSpacesOfSpaces(s[1..]);
    }
  }

  /** `replace(/\s+/g, ' ')`: each maximal whitespace run becomes one space. */
  function CollapseSpaces(s: string): (r: string)
    ensures forall i :: 0 <= i < |r| ==> (r[i] == ' ' || (!IsSpace(r[i]) && r[i] in s))
    ensures forall i :: 0 <= i < |r| - 1 ==> !(r[i] == ' ' && r[i + 1] == ' ')
    ensures |s| > 0 ==> |r| > 0 && (IsSpace(s[0]) <==> r[0] == ' ')
    decreases |s|
  {
    if |s| == 0 then []
    else if IsSpace(s[0]) then
      var n := SpaceRun(s);
      var rest := CollapseSpaces(s[n..]);
      assert n < |s| ==> s[n..][0] == s[n];
      assert forall c :: c in rest && !IsSpace(c) ==> c in s;
      [' '] + rest
    else
      var rest := CollapseSpaces(s[1..]);
      assert forall c :: c in rest && !IsSpace(c) ==> c in s;
      [s[0]] + rest
  }

  /** Collapsing whitespace keeps every other character, in order. */
  lemma {:induction false} CollapseKeepsNonSpaces(s: string)
    ensures NonSpaces(CollapseSpaces(s)) == NonSpaces(s)
    decreases |s|
  {
    if |s| > 0 {
      if IsSpace(s[0]) {
        var n := SpaceRun(s);
        CollapseKeepsNonSpaces(s[n..]);
        ThreeParts(s, 0, n);
        assert s[..0] == [];
        NonSpacesAround(s[..n], s[n..], []);
        assert s[..n] + s[n..] + [] == s;
        assert CollapseSpaces(s) == [' '] + CollapseSpaces(s[n..]);
      } else {
        CollapseKeepsNonSpaces(s[1..]);
        assert CollapseSpaces(s) == [s[0]] + CollapseSpaces(s[1..]);
      }
    }
  }

  /** Whether `[^a-z0-9\s]` leaves the character alone. */
  predicate KeptBySymbolBlanking(c: char) { IsAsciiLower(c) || IsAsciiDigit(c) || IsSpace(c) }

  /** Keeps ASCII lower-case letters, digits and whitespace; every other
      character becomes a space (`replace(/[^a-z0-9\s]/g, ' ')`). */
  function BlankOutSymbols(s: string): (r: string)
    ensures |r| == |s|
    ensures forall i :: 0 <= i < |s| && KeptBySymbolBlanking(s[i]) ==> r[i] == s[i]
    ensures forall i :: 0 <= i < |s| && !KeptBySymbolBlanking(s[i]) ==> r[i] == ' '
  {
    if |s| == 0 then []
    else [if KeptBySymbolBlanking(s[0]) then s[0] else ' '] + BlankOutSymbols(s[1..])
  }

  predicate IsKeyChar(c: char) { IsAsciiLower(c) || IsAsciiDigit(c) || c == ' ' }

  /** Only key characters, and never two spaces in a row. */
  predicate IsKeyText(s: string) {
    && (forall i :: 0 <= i < |s| ==> IsKeyChar(s[i]))
    && (forall i :: 0 <= i < |s| - 1 ==> !(s[i] == ' ' && s[i + 1] == ' '))
  }

  /** A canonical comparison key: lower-case ASCII letters and digits,
      words separated by single spaces, no space at either end. */
  predicate IsCanonicalKey(s: string) {
    IsKeyText(s) && (|s| > 0 ==> s[0] != ' ' && s[|s| - 1] != ' ')
  }

  lemma KeyTextSlice(s: string, i: nat, j: nat)
    requires IsKeyText(s) && i <= j <= |s|
    ensures IsKeyText(s[i..j])
  {
    assert forall k :: 0 <= k < j - i ==> s[i..j][k] == s[i + k];
  }

  /** `normalizeQuestion`, popup.js:50-52. */
  function NormalizeQuestion(s: string): (r: string)
    ensures IsCanonicalKey(r)
  {
    var blanked := BlankOutSymbols(Lower(CleanText(s)));
    var collapsed := CollapseSpaces(blanked);
    assert IsKeyText(collapsed) by {
      forall i | 0 <= i < |collapsed| ensures IsKeyChar(collapsed[i]) {
        if collapsed[i] != ' ' {
          var k :| 0 <= k < |blanked| && blanked[k] == collapsed[i];
        }
      }
    }
    var r := Trim(collapsed);
    TrimSpec(collapsed);
    var i, j :| 0 <= i <= j <= |collapsed| && r == collapsed[i..j];
    KeyTextSlice(collapsed, i, j);
    r
  }

  /** `replace(/[\W_]+/g, '')`: the ASCII letters and digits, in order. */
  function Compact(s: string): (r: string)
    ensures forall i :: 0 <= i < |r| ==> IsAsciiAlnum(r[i])
  {
    if |s| == 0 then [] else (if IsAsciiAlnum(s[0]) then [s[0]] else []) + Compact(s[1..])
  }

  lemma {:induction false} CompactConcat(a: string, b: string)
    ensures Compact(a + b) == Compact(a) + Compact(b)
  {
    if |a| > 0 {
      assert (a + b)[0] == a[0] && (a + b)[1..] == a[1..] + b;
      CompactConcat(a[1..], b);
    } else {
      assert a + b == b;
    }
  }

  lemma {:induction false} LowerConcat(a: string, b: string)
    ensures Lower(a + b) == Lower(a) + Lower(b)
  {
    if |a| > 0 {
      assert (a + b)[0] == a[0] && (a + b)[1..] == a[1..] + b;
      LowerConcat(a[1..], b);
    } else {
      assert a + b == b;
    }
  }

  /** Whitespace has no letters or digits, before or after lower-casing. */
  lemma {:induction false} CompactLowerOfSpaces(s: string)
    requires AllSpace(s)
    ensures Compact(Lower(s)) == []
  {
    if |s| > 0 {
      CompactLowerOfSpaces(s[1..]);
      assert Lower(s) == [s[0]] + Lower(s[1..]);
      CompactConcat([s[0]], Lower(s[1..]));
    }
  }

  /** Whitespace around a text adds no letter or digit. */
  lemma CompactLowerAround(a: string, m: string, b: string)
    requires AllSpace(a) && AllSpace(b)
    ensures Compact(Lower(a + m + b)) == Compact(Lower(m))
  {
    LowerConcat(a + m, b);
    LowerConcat(a, m);
    CompactConcat(Lower(a) + Lower(m), Lower(b));
    CompactConcat(Lower(a), Lower(m));
    CompactLowerOfSpaces(a);
    CompactLowerOfSpaces(b);
  }

  /** The text is its trimmed part with whitespace on either side. */
  lemma TrimAround(s: string) returns (a: string, b: string)
    ensures AllSpace(a) && AllSpace(b) && s == a + Trim(s) + b
  {
    TrimSpec(s);
    var i, j :| 0 <= i <= j <= |s| && Trim(s) == s[i..j] && AllSpace(s[..i]) && AllSpace(s[j..]);
    a, b := s[..i], s[j..];
    ThreeParts(s, i, j);
  }

  lemma ThreeParts(s: string, i: nat, j: nat)
    requires i <= j <= |s|
    ensures s == s[..i] + s[i..j] + s[j..]
  {
  }

  /** Trimming removes no letter or digit. */
  lemma CompactLowerTrim(s: string)
    ensures Compact(Lower(Trim(s))) == Compact(Lower(s))
  {
    var a, b := TrimAround(s);
    CompactLowerAround(a, Trim(s), b);
  }

  /** Turning CR LF into LF removes no letter or digit. */
  lemma {:induction false} CompactLowerReplaceCrlf(s: string)
    ensures Compact(Lower(ReplaceCrlf(s))) == Compact(Lower(s))
    decreases |s|
  {
    if |s| >= 2 && s[0] == '\r' && s[1] == '\n' {
      var rest := s[2..];
      assert s == "\r\n" + rest;
      ReplaceCrlfPair(rest);
      CompactLowerReplaceCrlf(rest);
      CompactLowerAfterSpaces("\r\n", rest);
      CompactLowerAfterSpaces("\n", ReplaceCrlf(rest));
    } else if |s| > 0 {
      var rest := s[1..];
      assert s == [s[0]] + rest;
      ReplaceCrlfKeeps(s[0], rest);
      CompactLowerReplaceCrlf(rest);
      CompactLowerCons(s[0], rest);
      CompactLowerCons(s[0], ReplaceCrlf(rest));
    }
  }

  lemma CompactLowerAfterSpaces(a: string, m: string)
    requires AllSpace(a)
    ensures Compact(Lower(a + m)) == Compact(Lower(m))
  {
    assert a + m + "" == a + m;
    CompactLowerAround(a, m, "");
  }

  lemma CompactLowerCons(c: char, m: string)
    ensures Compact(Lower([c] + m)) == Compact(Lower([c])) + Compact(Lower(m))
  {
    LowerConcat([c], m);
    CompactConcat(Lower([c]), Lower(m));
  }

  /** Blanking symbols out of text with no upper-case letter leaves exactly
      its letters and digits as the non-whitespace characters. */
  lemma {:induction false} NonSpacesBlankOut(s: string)
    requires forall i :: 0 <= i < |s| ==> !IsAsciiUpper(s[i])
    ensures NonSpaces(BlankOutSymbols(s)) == Compact(s)
  {
    if |s| > 0 {
      NonSpacesBlankOut(s[1..]);
      assert BlankOutSymbols(s)[1..] == BlankOutSymbols(s[1..]);
    }
  }

  /** Whitespace around a text adds no non-whitespace character. */
  lemma NonSpacesAround(a: string, m: string, b: string)
    requires AllSpace(a) && AllSpace(b)
    ensures NonSpaces(a + m + b) == NonSpaces(m)
  {
    NonSpacesConcat(a + m, b);
    NonSpacesConcat(a, m);
    NonSpacesOfSpaces(a);
    NonSpacesOfSpaces(b);
  }

  /** Trimming removes no non-whitespace character. */
  lemma NonSpacesTrim(s: string)
    ensures NonSpaces(Trim(s)) == NonSpaces(s)
  {
    var a, b := TrimAround(s);
    NonSpacesAround(a, Trim(s), b);
  }

  /** The key's words are made of exactly the ASCII letters and digits of
      the lower-cased question, in order: apart from the single spaces
      between words, nothing is added, dropped or reordered. */
  lemma NormalizeKeepsLettersAndDigits(s: string)
    ensures NonSpaces(NormalizeQuestion(s)) == Compact(Lower(s))
  {
    var lowered := Lower(CleanText(s));
    var blanked := BlankOutSymbols(lowered);
    var collapsed := CollapseSpaces(blanked);
    NonSpacesTrim(collapsed);
    CollapseKeepsNonSpaces(blanked);
    NonSpacesBlankOut(lowered);
    CompactLowerTrim(ReplaceCrlf(s));
    CompactLowerReplaceCrlf(s);
  }

  /** Lower-casing text without upper-case letters changes nothing. */
  lemma {:induction false} LowerKeeps(s: string)
    requires forall i :: 0 <= i < |s| ==> !IsAsciiUpper(s[i]) && s[i] != '\U{0130}' && s[i] != '\U{212A}'
    ensures Lower(s) == s
  {
    if |s| > 0 {
      LowerKeeps(s[1..]);
    }
  }

  /** Key text has no run of two spaces to collapse. */
  lemma {:induction false} CollapseKeeps(s: string)
    requires IsKeyText(s)
    ensures CollapseSpaces(s) == s
    decreases |s|
  {
    if |s| > 0 {
      KeyTextSlice(s, 1, |s|);
      CollapseKeeps(s[1..]);
      if IsSpace(s[0]) {
        assert |s| > 1 ==> s[1] != ' ' && IsKeyChar(s[1]);
        assert SpaceRun(s) == 1;
      }
    }
  }

  /** Cleaning a canonical key changes nothing. */
  lemma CleanKeeps(s: string)
    requires IsCanonicalKey(s)
    ensures CleanText(s) == s
  {
    assert '\r' !in s by {
      forall i | 0 <= i < |s| ensures s[i] != '\r' { assert IsKeyChar(s[i]); }
    }
    TrimKeepsTrimmed(s);
  }

  /** A canonical key is its own key: normalising is idempotent. */
  lemma NormalizeFixedPoint(s: string)
    requires IsCanonicalKey(s)
    ensures NormalizeQuestion(s) == s
  {
    CleanKeeps(s);
    LowerKeeps(s);
    assert BlankOutSymbols(s) == s;
    CollapseKeeps(s);
    TrimKeepsTrimmed(s);
  }

  /** `String.prototype.split(sep)` for a one-character separator: the
      pieces between consecutive separators, empty ones included. */
  function Split(s: string, sep: char): (r: seq<string>)
    ensures |r| >= 1
    ensures forall k :: 0 <= k < |r| ==> sep !in r[k]
    decreases |s|
  {
    var i := IndexOf(s, sep);
    if i == |s| then [s] else [s[..i]] + Split(s[i + 1..], sep)
  }

  /** Index of the first `c` in `s`, or `|s|` when there is none. */
  function IndexOf(s: string, c: char): (i: nat)
    ensures i <= |s| && c !in s[..i]
    ensures i < |s| ==> s[i] == c
  {
    if |s| == 0 then 0
    else if s[0] == c then 0
    else
      var i := IndexOf(s[1..], c);
      assert s[..i + 1] == [s[0]] + s[1..][..i];
      1 + i
  }

  /** `Array.prototype.join(sep)`. */
  function Join(parts: seq<string>, sep: string): string {
    if |parts| == 0 then []
    else if |parts| == 1 then parts[0]
    else parts[0] + sep + Join(parts[1..], sep)
  }

  /** A character in neither the parts nor the separator is not in the join. */
  lemma {:induction false} JoinWithout(parts: seq<string>, sep: string, c: char)
    requires c !in sep && forall k :: 0 <= k < |parts| ==> c !in parts[k]
    ensures c !in Join(parts, sep)
  {
    if |parts| > 1 {
      JoinWithout(parts[1..], sep, c);
      assert Join(parts, sep) == parts[0] + sep + Join(parts[1..], sep);
    }
  }

  /** A join starts with its first part. */
  lemma JoinHead(parts: seq<string>, sep: string)
    requires |parts| >= 1 && parts[0] != []
    ensures |Join(parts, sep)| > 0 && Join(parts, sep)[0] == parts[0][0]
  {
  }

  /** Joining the pieces of a split restores the string. */
  lemma {:induction false} JoinSplit(s: string, sep: char)
    ensures Join(Split(s, sep), [sep]) == s
    decreases |s|
  {
    var i := IndexOf(s, sep);
    if i < |s| {
      var rest := Split(s[i + 1..], sep);
      assert Split(s, sep) == [s[..i]] + rest;
      JoinSplit(s[i + 1..], sep);
      assert ([s[..i]] + rest)[1..] == rest;
      assert Join([s[..i]] + rest, [sep]) == s[..i] + [sep] + Join(rest, [sep]);
      assert s == s[..i] + [sep] + s[i + 1..];
    }
  }

  /** Splitting a join of separator-free pieces gives the pieces back. */
  lemma {:induction false} SplitJoin(parts: seq<string>, sep: char)
    requires |parts| >= 1
    requires forall k :: 0 <= k < |parts| ==> sep !in parts[k]
    ensures Split(Join(parts, [sep]), sep) == parts
  {
    if |parts| == 1 {
      IndexOfAbsent(parts[0], sep);
    } else {
      var rest := Join(parts[1..], [sep]);
      var s := parts[0] + ([sep] + rest);
      assert Join(parts, [sep]) == s;
      IndexOfPrefix(parts[0], [sep] + rest, sep);
      assert s[|parts[0]| + 1..] == rest;
      assert s[..|parts[0]|] == parts[0];
      assert Split(s, sep) == [parts[0]] + Split(rest, sep);
      SplitJoin(parts[1..], sep);
      assert parts == [parts[0]] + parts[1..];
    }
  }

  lemma IndexOfAbsent(s: string, c: char)
    requires c !in s
    ensures IndexOf(s, c) == |s|
  {
  }

  lemma IndexOfPrefix(a: string, b: string, c: char)
    requires c !in a && |b| > 0 && b[0] == c
    ensures IndexOf(a + b, c) == |a|
  {
    assert (a + b)[..|a|] == a;
  }

  /** Joining non-empty trimmed pieces gives a trimmed text. */
  lemma {:induction false} JoinTrimmed(parts: seq<string>, sep: string)
    requires forall k :: 0 <= k < |parts| ==> parts[k] != [] && IsTrimmed(parts[k])
    ensures IsTrimmed(Join(parts, sep))
    ensures |parts| > 0 ==> Join(parts, sep) != []
  {
    if |parts| > 1 {
      var rest := Join(parts[1..], sep);
      JoinTrimmed(parts[1..], sep);
      var j := parts[0] + sep + rest;
      assert j[0] == parts[0][0];
      assert j[|j| - 1] == rest[|rest| - 1];
    }
  }

  /** `map(line => line.trim()).filter(Boolean)`. */
  function TrimmedNonEmpty(pieces: seq<string>): (r: seq<string>)
    ensures forall k :: 0 <= k < |r| ==> r[k] != [] && IsTrimmed(r[k])
    ensures |r| <= |pieces|
  {
    if |pieces| == 0 then []
    else
      var t := Trim(pieces[0]);
      (if t == [] then [] else [t]) + TrimmedNonEmpty(pieces[1..])
  }

  /** The non-blank lines of a text, each trimmed:
      `split('\n').map((line) => line.trim()).filter(Boolean)`. */
  function Lines(text: string): (r: seq<string>)
    ensures forall k :: 0 <= k < |r| ==> r[k] != [] && IsTrimmed(r[k])
  {
    TrimmedNonEmpty(Split(text, '\n'))
  }

  /** A text that is not all whitespace has at least one non-blank line. */
  lemma {:induction false} LinesNonEmpty(text: string)
    requires !AllSpace(text)
    ensures |Lines(text)| > 0
  {
    var k :| 0 <= k < |text| && !IsSpace(text[k]);
    JoinSplit(text, '\n');
    NonBlankPiece(Split(text, '\n'), text, k);
  }

  lemma {:induction false} NonBlankPiece(pieces: seq<string>, text: string, k: nat)
    requires |pieces| >= 1 && Join(pieces, "\n") == text
    requires k < |text| && !IsSpace(text[k])
    ensures |TrimmedNonEmpty(pieces)| > 0
  {
    var t := Trim(pieces[0]);
    assert TrimmedNonEmpty(pieces) == (if t == [] then [] else [t]) + TrimmedNonEmpty(pieces[1..]);
    if |pieces| == 1 {
      TrimSpec(pieces[0]);
      assert !AllSpace(pieces[0]);
    } else {
      assert text == pieces[0] + ("\n" + Join(pieces[1..], "\n"));
      if k < |pieces[0]| {
        TrimSpec(pieces[0]);
        assert text[k] == pieces[0][k];
        assert !AllSpace(pieces[0]);
      } else {
        assert k != |pieces[0]|;
        assert text[k] == Join(pieces[1..], "\n")[k - |pieces[0]| - 1];
        NonBlankPiece(pieces[1..], Join(pieces[1..], "\n"), k - |pieces[0]| - 1);
      }
    }
  }

  /** Trimming a trimmed text changes nothing. */
  lemma TrimKeepsTrimmed(s: string)
    requires IsTrimmed(s)
    ensures Trim(s) == s
  {
    assert SpaceRun(s) == 0;
    assert s[0..] == s;
    if |s| > 0 {
      assert TrailingCut(s) == |s|;
    }
  }

  /** Non-empty trimmed pieces pass `TrimmedNonEmpty` unchanged. */
  lemma {:induction false} TrimmedNonEmptyKeeps(pieces: seq<string>)
    requires forall k :: 0 <= k < |pieces| ==> pieces[k] != [] && IsTrimmed(pieces[k])
    ensures TrimmedNonEmpty(pieces) == pieces
  {
    if |pieces| > 0 {
      TrimKeepsTrimmed(pieces[0]);
      TrimmedNonEmptyKeeps(pieces[1..]);
    }
  }

  /** The lines of non-empty, trimmed, newline-free lines joined with
      newlines are those lines. */
  lemma LinesOfJoin(pieces: seq<string>)
    requires |pieces| >= 1
    requires forall k :: 0 <= k < |pieces| ==> pieces[k] != [] && IsTrimmed(pieces[k]) && '\n' !in pieces[k]
    ensures Lines(Join(pieces, "\n")) == pieces
  {
    SplitJoin(pieces, '\n');
    TrimmedNonEmptyKeeps(pieces);
  }

  /** `length` of a JavaScript string: code points above U+FFFF occupy two
      UTF-16 code units. */
  function Utf16Length(s: string): (n: nat)
    ensures |s| <= n <= 2 * |s|
  {
    if |s| == 0 then 0 else (if s[0] as int > 0xFFFF then 2 else 1) + Utf16Length(s[1..])
  }

  /** `s.startsWith(prefix)` with the ASCII case-insensitivity of a
      non-Unicode `/i` regular expression; `prefix` is lower case. */
  predicate StartsWithNoCase(s: string, prefix: string) {
    |prefix| <= |s| && forall i :: 0 <= i < |prefix| ==> FoldAscii(s[i]) == prefix[i]
  }

  function FoldAscii(c: char): char {
    if IsAsciiUpper(c) then (c as int + 32) as char else c
  }
}
