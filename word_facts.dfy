/**
 * What the Word front end promises: the IDB name made from a plain title,
 * idle and step headers rewritten into the colon form the step parser reads,
 * one converted line per input line, and the bookkeeping of the walk over a
 * document's headings and paragraphs.
 */
module WordFacts {
  import opened Wrappers
  import opened Text
  import opened SyntaxRules
  import StandardWork
  import opened WordParser

  // ------------------------------------------------------------------
  // generateIdbName
  // ------------------------------------------------------------------

  /** A word of a title: word characters only, and no chapter number in front. */
  predicate PlainWord(w: string) {
    w != [] && !IsDigit(w[0]) && forall k :: 0 <= k < |w| ==> IsWordChar(w[k])
  }

  lemma ReplaceColonsNone(s: string)
    requires ':' !in s
    ensures ReplaceColons(s) == s
  {
    var r := ReplaceColons(s);
    assert forall k :: 0 <= k < |s| ==> s[k] in s && r[k] == s[k];
  }

  lemma SplitWhole(s: string, sep: char)
    requires sep !in s
    ensures Split(s, sep) == [s]
  {
  }

  lemma NoSpaceIn(w: string)
    requires forall k :: 0 <= k < |w| ==> IsWordChar(w[k])
    ensures ' ' !in w && ':' !in w
  {
    assert forall k :: 0 <= k < |w| ==> w[k] != ' ' && w[k] != ':';
  }

  lemma {:induction false} SkipNumberingTo(s: string, i: nat, j: nat)
    requires i <= j <= |s|
    requires forall k :: i <= k < j ==> IsNumberingChar(s[k])
    requires j == |s| || !IsNumberingChar(s[j])
    ensures SkipNumbering(s, i) == j
    decreases j - i
  {
    if i < j {
      SkipNumberingTo(s, i + 1, j);
    }
  }

  /**
   * What `/^[\d\.]+\s*\/` removes: the whole run of digits and dots at the
   * start, `s[..n]`, and the whole run of white space after it, `s[n..p]`.
   * With the `ensures` of `StripNumbering` for a text that does not start
   * with a digit or a dot, this decides the result for every text.
   */
  lemma StripNumberingRemoves(s: string, n: nat, p: nat)
    requires 0 < n <= p <= |s|
    requires forall k :: 0 <= k < n ==> IsNumberingChar(s[k])
    requires n == |s| || !IsNumberingChar(s[n])
    requires forall k :: n <= k < p ==> IsSpace(s[k])
    requires p == |s| || !IsSpace(s[p])
    ensures StripNumbering(s) == s[p..]
  {
    SkipNumberingTo(s, 0, n);
    SkipSpacesTo(s, n, p);
  }

  lemma {:induction false} WordCharsOfNone(s: string)
    requires forall k :: 0 <= k < |s| ==> !IsWordChar(s[k])
    ensures WordCharsOf(s) == []
    decreases |s|
  {
    if s != [] {
      WordCharsOfNone(s[1..]);
    }
  }

  /** Two words with one space between them split into those two words. */
  lemma SplitTwo(a: string, b: string)
    requires ' ' !in a && ' ' !in b
    ensures Split(a + " " + b, ' ') == [a, b]
  {
    SplitWhole(b, ' ');
    assert a + " " + b == a + [' '] + b;
    SplitAfterPiece(a, b, ' ');
  }

  /** Two spaces in a row leave an empty word between the two. */
  lemma SplitDoubleSpace(a: string, b: string)
    requires ' ' !in a && ' ' !in b
    ensures Split(a + "  " + b, ' ') == [a, [], b]
  {
    SplitTwo([], b);
    assert a + "  " + b == a + [' '] + ([] + " " + b);
    SplitAfterPiece(a, [] + " " + b, ' ');
  }

  lemma CamelTwo(a: string, b: string)
    requires b != []
    ensures CamelWords([a, b], 0) == Success(a + Capitalised(b))
  {
    assert [a, b][1..] == [b] && [b][1..] == [];
    assert CamelWords([], 2) == Success([]);
    assert CamelWords([b], 1) == Success(Capitalised(b) + []);
    assert Capitalised(b) + [] == Capitalised(b);
  }

  lemma CamelEmptySecond(a: string, b: string)
    ensures CamelWords([a, [], b], 0) == Failure(EmptyWordError)
  {
    assert [a, [], b][1..] == [[], b];
  }

  lemma CamelOne(a: string)
    ensures CamelWords([a], 0) == Success(a)
  {
    assert [a][1..] == [];
    assert CamelWords([], 1) == Success([]);
    assert a + [] == a;
  }

  lemma CapitalisedWordChars(b: string)
    requires b != [] && forall k :: 0 <= k < |b| ==> IsWordChar(b[k])
    ensures forall k :: 0 <= k < |Capitalised(b)| ==> IsWordChar(Capitalised(b)[k])
  {
    var c := Capitalised(b);
    assert IsWordChar(c[0]) by {
      if !IsLower(b[0]) {
        assert b[0] !in "äöü";
      }
    }
    forall k | 1 <= k < |c|
      ensures IsWordChar(c[k])
    {
      assert c[k] == c[1..][k - 1] == b[1..][k - 1] == b[k];
    }
  }

  /** The camel-cased join of two words is all word characters. */
  lemma CamelWordChars(a: string, b: string)
    requires forall k :: 0 <= k < |a| ==> IsWordChar(a[k])
    requires b != [] && forall k :: 0 <= k < |b| ==> IsWordChar(b[k])
    ensures WordCharsOf(a + Capitalised(b)) == a + Capitalised(b)
  {
    var c := Capitalised(b);
    CapitalisedWordChars(b);
    WordCharsOfAppend(a, c);
  }

  /** A title whose prepared text is two words joined by one space. */
  lemma CamelOfPrepared(s: string, a: string, b: string)
    requires s != [] && forall k :: 0 <= k < |a| ==> IsWordChar(a[k])
    requires b != [] && forall k :: 0 <= k < |b| ==> IsWordChar(b[k])
    requires PreparedName(s) == a + " " + b
    ensures GenerateIdbName(s) == Success(a + Capitalised(b))
  {
    NoSpaceIn(a);
    NoSpaceIn(b);
    SplitTwo(a, b);
    CamelTwo(a, b);
    CamelWordChars(a, b);
  }

  /** Two words joined by `sep`, a space or two: trimmed and free of colons. */
  lemma JoinedTrimmed(a: string, sep: string, b: string)
    requires PlainWord(a) && b != [] && forall k :: 0 <= k < |b| ==> IsWordChar(b[k])
    requires sep == " " || sep == "  "
    ensures Trim(a + sep + b) == a + sep + b
    ensures ReplaceColons(a + sep + b) == a + sep + b
  {
    var t := a + sep + b;
    assert t[0] == a[0] && t[|t| - 1] == b[|b| - 1];
    TrimOfTrimmed(t);
    NoSpaceIn(a);
    NoSpaceIn(b);
    assert ':' !in t;
    ReplaceColonsNone(t);
  }

  /**
   * `Zone Formen` becomes `ZoneFormen`: the words of a title joined, every
   * word after the first capitalised.
   */
  lemma IdbNameOfTitle(a: string, b: string)
    requires PlainWord(a) && b != [] && forall k :: 0 <= k < |b| ==> IsWordChar(b[k])
    ensures GenerateIdbName(a + " " + b) == Success(a + Capitalised(b))
  {
    var s := a + " " + b;
    assert s[0] == a[0];
    assert StripNumbering(s) == s;
    JoinedTrimmed(a, " ", b);
    CamelOfPrepared(s, a, b);
  }

  /** `3.1.2 Zone Formen` becomes `ZoneFormen`: the chapter number and the space after it are dropped. */
  lemma IdbNameOfNumberedTitle(num: string, a: string, b: string)
    requires num != [] && forall k :: 0 <= k < |num| ==> IsNumberingChar(num[k])
    requires PlainWord(a) && b != [] && forall k :: 0 <= k < |b| ==> IsWordChar(b[k])
    ensures GenerateIdbName(num + " " + a + " " + b) == Success(a + Capitalised(b))
  {
    var s := num + " " + a + " " + b;
    var n := |num|;
    assert s[n] == ' ' && s[n + 1] == a[0];
    assert forall k :: 0 <= k < n ==> s[k] == num[k];
    SkipNumberingTo(s, 0, n);
    SkipSpacesTo(s, n, n + 1);
    assert s[n + 1..] == a + " " + b;
    assert StripNumbering(s) == a + " " + b;
    JoinedTrimmed(a, " ", b);
    CamelOfPrepared(s, a, b);
  }

  /** Two spaces in a row make an empty word, on which `w[0].toUpperCase()` throws. */
  lemma IdbNameOfDoubleSpace(a: string, b: string)
    requires PlainWord(a) && PlainWord(b)
    ensures GenerateIdbName(a + "  " + b) == Failure(EmptyWordError)
  {
    var s := a + "  " + b;
    assert s[0] == a[0];
    assert StripNumbering(s) == s;
    JoinedTrimmed(a, "  ", b);
    NoSpaceIn(a);
    NoSpaceIn(b);
    SplitDoubleSpace(a, b);
    CamelEmptySecond(a, b);
  }

  /** A title without a single word character falls back to `Generated_IDB`. */
  lemma IdbNameFallback(s: string)
    requires s != []
    requires forall k :: 0 <= k < |s| ==> !IsWordChar(s[k]) && !IsSpace(s[k]) && s[k] != ':' && s[k] != '.'
    ensures GenerateIdbName(s) == Success(FallbackIdbName)
  {
    assert StripNumbering(s) == s;
    TrimOfTrimmed(s);
    assert ':' !in s && ' ' !in s by {
      assert forall k :: 0 <= k < |s| ==> s[k] != ':' && s[k] != ' ';
    }
    ReplaceColonsNone(s);
    SplitWhole(s, ' ');
    CamelOne(s);
    WordCharsOfNone(s);
  }

  // ------------------------------------------------------------------
  // convertToStandaardwerkFormat
  // ------------------------------------------------------------------

  /** A line that starts with idle keyword `k` as written starts with no other header keyword. */
  lemma OnlyIdleKeyword(t: string, keywords: StepKeywords, k: nat)
    requires PrefixFree(HeaderKeywords(keywords)) && k < |keywords.rest| && StartsWith(t, keywords.rest[k])
    ensures forall j :: 0 <= j < |keywords.rest| && j != k ==> !AtIgnoreCase(t, 0, keywords.rest[j])
    ensures forall j :: 0 <= j < |keywords.step| ==> !AtIgnoreCase(t, 0, keywords.step[j])
  {
    var kws := HeaderKeywords(keywords);
    assert kws[k] == keywords.rest[k];
    forall j | 0 <= j < |keywords.rest| && j != k
      ensures !AtIgnoreCase(t, 0, keywords.rest[j])
    {
      assert kws[j] == keywords.rest[j];
      OnlyKeywordAtStart(t, kws, k, j);
    }
    forall j | 0 <= j < |keywords.step|
      ensures !AtIgnoreCase(t, 0, keywords.step[j])
    {
      assert kws[|keywords.rest| + j] == keywords.step[j];
      OnlyKeywordAtStart(t, kws, k, |keywords.rest| + j);
    }
  }

  /** A line that starts with step keyword `k` as written starts with no other header keyword. */
  lemma OnlyStepKeyword(t: string, keywords: StepKeywords, k: nat)
    requires PrefixFree(HeaderKeywords(keywords)) && k < |keywords.step| && StartsWith(t, keywords.step[k])
    ensures forall j :: 0 <= j < |keywords.rest| ==> !AtIgnoreCase(t, 0, keywords.rest[j])
    ensures forall j :: 0 <= j < |keywords.step| && j != k ==> !AtIgnoreCase(t, 0, keywords.step[j])
  {
    var kws := HeaderKeywords(keywords);
    var n := |keywords.rest|;
    assert kws[n + k] == keywords.step[k];
    forall j | 0 <= j < |keywords.rest|
      ensures !AtIgnoreCase(t, 0, keywords.rest[j])
    {
      assert kws[j] == keywords.rest[j];
      OnlyKeywordAtStart(t, kws, n + k, j);
    }
    forall j | 0 <= j < |keywords.step| && j != k
      ensures !AtIgnoreCase(t, 0, keywords.step[j])
    {
      assert kws[n + j] == keywords.step[j];
      OnlyKeywordAtStart(t, kws, n + k, n + j);
    }
  }

  /** Idle keyword `k` starts the idle header of `t`, and no other idle keyword does. */
  lemma IdleKeywordChosen(t: string, keywords: StepKeywords, k: nat)
    requires PrefixFree(HeaderKeywords(keywords)) && k < |keywords.rest| && StartsWith(t, keywords.rest[k])
    requires RestDescriptionStart(t, keywords.rest[k]).Some?
    ensures FirstRestKeyword(t, keywords.rest, 0) == Some(k)
  {
    OnlyIdleKeyword(t, keywords, k);
  }

  /** The step keyword `k` starts the step header of `t`, and no idle or other step keyword fits. */
  lemma StepKeywordChosen(t: string, keywords: StepKeywords, k: nat)
    requires PrefixFree(HeaderKeywords(keywords)) && k < |keywords.step| && StartsWith(t, keywords.step[k])
    requires StepHeaderMatch(t, keywords.step[k]).Some?
    ensures FirstRestKeyword(t, keywords.rest, 0).None?
    ensures FirstStepKeyword(t, keywords.step, 0) == Some(k)
  {
    OnlyStepKeyword(t, keywords, k);
  }

  lemma WrittenKeyword(t: string, kw: string)
    requires StartsWith(t, kw)
    ensures AtIgnoreCase(t, 0, kw)
  {
    assert t[..|kw|] == kw;
  }

  /** A trimmed line that opens with idle keyword `k` as written is rewritten from where its description starts. */
  lemma ConvertIdleLine(t: string, keywords: StepKeywords, k: nat, p: nat, desc: string)
    requires PrefixFree(HeaderKeywords(keywords)) && k < |keywords.rest|
    requires t != [] && Trim(t) == t && StartsWith(t, keywords.rest[k])
    requires RestDescriptionStart(t, keywords.rest[k]) == Some(p)
    requires StandardWork.DropClosingParenthesis(t[p..]) == desc
    ensures ConvertLine(t, keywords) == Upper(keywords.rest[k]) + ": " + desc
  {
    IdleKeywordChosen(t, keywords, k);
  }

  /** A trimmed line that opens with step keyword `k` as written is rewritten from its number and description. */
  lemma ConvertStepLine(t: string, keywords: StepKeywords, k: nat, num: string, e: nat, desc: string)
    requires PrefixFree(HeaderKeywords(keywords)) && k < |keywords.step|
    requires t != [] && Trim(t) == t && StartsWith(t, keywords.step[k])
    requires StepHeaderMatch(t, keywords.step[k]) == Some(StepMatch(num, e)) && Trim(t[e..]) == desc
    ensures ConvertLine(t, keywords) == Upper(keywords.step[k]) + " " + num + ": " + desc
  {
    StepKeywordChosen(t, keywords, k);
  }

  /** Where the description of `KW (desc)` starts. */
  lemma IdleParenthesisStart(kw: string, desc: string)
    requires desc == [] || !IsSpace(desc[0])
    ensures var t := kw + " (" + desc + ")";
      RestDescriptionStart(t, kw) == Some(|kw| + 2) && t[|kw| + 2..] == desc + ")"
  {
    var t := kw + " (" + desc + ")";
    var n := |kw|;
    assert t[..n] == kw && t[n] == ' ' && t[n + 1] == '(';
    WrittenKeyword(t, kw);
    SkipSpacesTo(t, n, n + 1);
    assert t[n + 2] == if desc == [] then ')' else desc[0];
    SkipSpacesTo(t, n + 2, n + 2);
  }

  lemma DropParenthesis(desc: string)
    ensures StandardWork.DropClosingParenthesis(desc + ")") == desc
  {
    assert (desc + ")")[..|desc|] == desc;
  }

  /** What the rewriting of `KW (desc)` needs to know about the line. */
  lemma IdleParenthesisLine(line: string, kw: string, desc: string)
    requires kw != [] && !IsSpace(kw[0])
    requires desc == [] || !IsSpace(desc[0])
    requires line == kw + " (" + desc + ")"
    ensures line != [] && Trim(line) == line && StartsWith(line, kw)
    ensures RestDescriptionStart(line, kw) == Some(|kw| + 2)
    ensures StandardWork.DropClosingParenthesis(line[|kw| + 2..]) == desc
  {
    assert line[0] == kw[0] && line[|line| - 1] == ')';
    TrimOfTrimmed(line);
    assert line[..|kw|] == kw;
    IdleParenthesisStart(kw, desc);
    DropParenthesis(desc);
  }

  /** `KW (desc)` is written `KW: desc`, the keyword upper-cased. */
  lemma IdleParenthesisConverted(line: string, keywords: StepKeywords, k: nat, desc: string)
    requires PrefixFree(HeaderKeywords(keywords)) && k < |keywords.rest|
    requires keywords.rest[k] != [] && !IsSpace(keywords.rest[k][0])
    requires desc == [] || !IsSpace(desc[0])
    requires line == keywords.rest[k] + " (" + desc + ")"
    ensures ConvertLine(line, keywords) == Upper(keywords.rest[k]) + ": " + desc
  {
    IdleParenthesisLine(line, keywords.rest[k], desc);
    ConvertIdleLine(line, keywords, k, |keywords.rest[k]| + 2, desc);
  }

  /** Where the description of `KW: desc` starts. */
  lemma IdleColonStart(kw: string, desc: string)
    requires desc != [] && !IsSpace(desc[0])
    ensures var t := kw + ": " + desc;
      RestDescriptionStart(t, kw) == Some(|kw| + 2) && t[|kw| + 2..] == desc
  {
    var t := kw + ": " + desc;
    var n := |kw|;
    assert t[..n] == kw && t[n] == ':' && t[n + 1] == ' ' && t[n + 2] == desc[0];
    WrittenKeyword(t, kw);
    SkipSpacesTo(t, n, n);
    SkipSpacesTo(t, n + 1, n + 2);
  }

  /** `KW: desc` keeps its form, the keyword upper-cased. */
  lemma IdleColonConverted(line: string, keywords: StepKeywords, k: nat, desc: string)
    requires PrefixFree(HeaderKeywords(keywords)) && k < |keywords.rest|
    requires keywords.rest[k] != [] && !IsSpace(keywords.rest[k][0])
    requires desc != [] && IsTrimmed(desc) && desc[|desc| - 1] != ')'
    requires line == keywords.rest[k] + ": " + desc
    ensures ConvertLine(line, keywords) == Upper(keywords.rest[k]) + ": " + desc
  {
    var kw := keywords.rest[k];
    assert line[0] == kw[0] && line[|line| - 1] == desc[|desc| - 1];
    TrimOfTrimmed(line);
    assert line[..|kw|] == kw;
    IdleColonStart(kw, desc);
    ConvertIdleLine(line, keywords, k, |kw| + 2, desc);
  }

  /** A run of digits stored at `i` and not followed by one is skipped whole. */
  lemma DigitsRun(t: string, i: nat, num: string)
    requires i + |num| <= |t| && t[i..i + |num|] == num && AllDigits(num)
    requires i + |num| == |t| || !IsDigit(t[i + |num|])
    ensures SkipDigits(t, i) == i + |num|
  {
    forall k | i <= k < i + |num|
      ensures IsDigit(t[k])
    {
      assert t[k] == t[i..i + |num|][k - i];
    }
    SkipDigitsTo(t, i, i + |num|);
  }

  /** A space, then the digits `num`, then no digit: one space and the number are skipped. */
  lemma SpacedDigitsRun(t: string, n: nat, num: string)
    requires num != [] && AllDigits(num) && n + 1 + |num| < |t| && t[n] == ' '
    requires t[n + 1..n + 1 + |num|] == num && !IsDigit(t[n + 1 + |num|])
    ensures SkipSpaces(t, n) == n + 1 && SkipDigits(t, n + 1) == n + 1 + |num|
  {
    assert t[n + 1] == num[0];
    SkipSpacesTo(t, n, n + 1);
    DigitsRun(t, n + 1, num);
  }

  /** Where the step number of `KW num<sep>...` sits. */
  lemma StepNumberAt(kw: string, num: string, rest: string)
    requires num != [] && AllDigits(num) && rest != [] && !IsDigit(rest[0])
    ensures var t := kw + " " + num + rest;
      SkipSpaces(t, |kw|) == |kw| + 1 && SkipDigits(t, |kw| + 1) == |kw| + 1 + |num|
      && t[|kw| + 1 + |num|..] == rest
  {
    var t := kw + " " + num + rest;
    var n := |kw|;
    assert t[n] == ' ';
    assert t[n + 1..n + 1 + |num|] == num;
    assert t[n + 1 + |num|] == rest[0];
    SpacedDigitsRun(t, n, num);
    assert t[n + 1 + |num|..] == rest;
  }

  /** The keyword, one space, digits up to `q` and a colon at `q`. */
  lemma StepColonAt(t: string, kw: string, q: nat)
    requires AtIgnoreCase(t, 0, kw) && |kw| + 1 < q < |t| && t[q] == ':'
    requires SkipSpaces(t, |kw|) == |kw| + 1 && SkipDigits(t, |kw| + 1) == q
    ensures StepHeaderMatch(t, kw) == Some(StepMatch(t[|kw| + 1..q], q + 1))
  {
    SkipSpacesTo(t, q, q);
  }

  /** The keyword, one space, digits up to `q`, a space at `q` and no space or colon after it. */
  lemma StepSpaceAt(t: string, kw: string, q: nat)
    requires AtIgnoreCase(t, 0, kw) && |kw| + 1 < q && q + 1 < |t| && t[q] == ' '
    requires !IsSpace(t[q + 1]) && t[q + 1] != ':'
    requires SkipSpaces(t, |kw|) == |kw| + 1 && SkipDigits(t, |kw| + 1) == q
    ensures StepHeaderMatch(t, kw) == Some(StepMatch(t[|kw| + 1..q], q + 1))
  {
    SkipSpacesTo(t, q, q + 1);
  }

  /** Where keyword, number and the character after the number sit in `KW n<rest>`. */
  lemma NumberedLine(t: string, kw: string, num: string, rest: string)
    requires num != [] && AllDigits(num) && rest != [] && !IsDigit(rest[0])
    requires t == kw + " " + num + rest
    ensures AtIgnoreCase(t, 0, kw) && |kw| + 1 + |num| < |t| && t[|kw| + 1 + |num|] == rest[0]
    ensures |kw| + 2 + |num| < |t| ==> t[|kw| + 2 + |num|] == rest[1]
    ensures t[|kw| + 1..|kw| + 1 + |num|] == num
    ensures SkipSpaces(t, |kw|) == |kw| + 1 && SkipDigits(t, |kw| + 1) == |kw| + 1 + |num|
  {
    assert t == kw + " " + num + rest;
    StepNumberAt(kw, num, rest);
    assert t[..|kw|] == kw && t[|kw| + 1..|kw| + 1 + |num|] == num;
    WrittenKeyword(t, kw);
  }

  /** The match of `KW n: desc`. */
  lemma StepColonMatch(t: string, kw: string, num: string, desc: string)
    requires num != [] && AllDigits(num)
    requires t == kw + " " + num + ": " + desc
    ensures StepHeaderMatch(t, kw) == Some(StepMatch(num, |kw| + 2 + |num|))
  {
    assert t == kw + " " + num + (": " + desc);
    NumberedLine(t, kw, num, ": " + desc);
    StepColonAt(t, kw, |kw| + 1 + |num|);
  }

  /** The description of `KW n: desc`, trimmed. */
  lemma StepColonTail(kw: string, num: string, desc: string)
    requires desc != [] && IsTrimmed(desc)
    ensures Trim((kw + " " + num + ": " + desc)[|kw| + 2 + |num|..]) == desc
  {
    assert (kw + " " + num + ": " + desc)[|kw| + 2 + |num|..] == " " + desc;
    TrimAfterSpace(desc);
  }

  /** The match of `KW n desc`. */
  lemma StepSpaceMatch(t: string, kw: string, num: string, desc: string)
    requires num != [] && AllDigits(num)
    requires desc != [] && !IsSpace(desc[0]) && desc[0] != ':'
    requires t == kw + " " + num + " " + desc
    ensures StepHeaderMatch(t, kw) == Some(StepMatch(num, |kw| + 2 + |num|))
  {
    assert t == kw + " " + num + (" " + desc);
    NumberedLine(t, kw, num, " " + desc);
    StepSpaceAt(t, kw, |kw| + 1 + |num|);
  }

  /** The description of `KW n desc`, trimmed. */
  lemma StepSpaceTail(kw: string, num: string, desc: string)
    requires desc != [] && IsTrimmed(desc)
    ensures Trim((kw + " " + num + " " + desc)[|kw| + 2 + |num|..]) == desc
  {
    assert (kw + " " + num + " " + desc)[|kw| + 2 + |num|..] == desc;
    TrimOfTrimmed(desc);
  }

  /** What the rewriting of `KW n: desc` needs to know about the line. */
  lemma StepColonLine(line: string, kw: string, num: string, desc: string)
    requires kw != [] && !IsSpace(kw[0])
    requires num != [] && AllDigits(num)
    requires desc != [] && IsTrimmed(desc)
    requires line == kw + " " + num + ": " + desc
    ensures line != [] && Trim(line) == line && StartsWith(line, kw)
    ensures StepHeaderMatch(line, kw) == Some(StepMatch(num, |kw| + 2 + |num|))
    ensures Trim(line[|kw| + 2 + |num|..]) == desc
  {
    assert line[0] == kw[0] && line[|line| - 1] == desc[|desc| - 1];
    TrimOfTrimmed(line);
    assert line[..|kw|] == kw;
    StepColonMatch(line, kw, num, desc);
    StepColonTail(kw, num, desc);
  }

  /** What the rewriting of `KW n desc` needs to know about the line. */
  lemma StepSpaceLine(line: string, kw: string, num: string, desc: string)
    requires kw != [] && !IsSpace(kw[0])
    requires num != [] && AllDigits(num)
    requires desc != [] && IsTrimmed(desc) && desc[0] != ':'
    requires line == kw + " " + num + " " + desc
    ensures line != [] && Trim(line) == line && StartsWith(line, kw)
    ensures StepHeaderMatch(line, kw) == Some(StepMatch(num, |kw| + 2 + |num|))
    ensures Trim(line[|kw| + 2 + |num|..]) == desc
  {
    assert line[0] == kw[0] && line[|line| - 1] == desc[|desc| - 1];
    TrimOfTrimmed(line);
    assert line[..|kw|] == kw;
    StepSpaceMatch(line, kw, num, desc);
    StepSpaceTail(kw, num, desc);
  }

  /** `KW n: desc` keeps its form, the keyword upper-cased. */
  lemma StepColonConverted(line: string, keywords: StepKeywords, k: nat, num: string, desc: string)
    requires PrefixFree(HeaderKeywords(keywords)) && k < |keywords.step|
    requires keywords.step[k] != [] && !IsSpace(keywords.step[k][0])
    requires num != [] && AllDigits(num)
    requires desc != [] && IsTrimmed(desc)
    requires line == keywords.step[k] + " " + num + ": " + desc
    ensures ConvertLine(line, keywords) == Upper(keywords.step[k]) + " " + num + ": " + desc
  {
    StepColonLine(line, keywords.step[k], num, desc);
    ConvertStepLine(line, keywords, k, num, |keywords.step[k]| + 2 + |num|, desc);
  }

  /** `KW n desc` is written `KW n: desc`: a space after the number stands for the colon. */
  lemma StepSpaceConverted(line: string, keywords: StepKeywords, k: nat, num: string, desc: string)
    requires PrefixFree(HeaderKeywords(keywords)) && k < |keywords.step|
    requires keywords.step[k] != [] && !IsSpace(keywords.step[k][0])
    requires num != [] && AllDigits(num)
    requires desc != [] && IsTrimmed(desc) && desc[0] != ':'
    requires line == keywords.step[k] + " " + num + " " + desc
    ensures ConvertLine(line, keywords) == Upper(keywords.step[k]) + " " + num + ": " + desc
  {
    StepSpaceLine(line, keywords.step[k], num, desc);
    ConvertStepLine(line, keywords, k, num, |keywords.step[k]| + 2 + |num|, desc);
  }

  /** Blank lines become empty; a line that starts with no header keyword is kept as it was, indentation included. */
  lemma OtherLinesKept(line: string, keywords: StepKeywords)
    requires forall j :: 0 <= j < |keywords.rest| ==> !AtIgnoreCase(Trim(line), 0, keywords.rest[j])
    requires forall j :: 0 <= j < |keywords.step| ==> !AtIgnoreCase(Trim(line), 0, keywords.step[j])
    ensures ConvertLine(line, keywords) == if Trim(line) == [] then [] else line
  {
  }

  /** No keyword of the list holds a line break. */
  predicate SingleLineWords(kws: seq<string>) {
    forall j :: 0 <= j < |kws| ==> '\n' !in kws[j]
  }

  lemma UpperSingleLine(s: string)
    requires '\n' !in s
    ensures '\n' !in Upper(s)
  {
    var u := Upper(s);
    forall k | 0 <= k < |u|
      ensures u[k] != '\n'
    {
      assert s[k] in s;
      assert u[k] == UpperChar(s[k]);
    }
  }

  lemma TrimSingleLine(s: string)
    requires '\n' !in s
    ensures '\n' !in Trim(s)
  {
    var i := SkipSpaces(s, 0);
    var j := SkipSpacesBack(s, |s|);
    if i < j {
      assert forall k :: i <= k < j ==> s[k] in s;
    }
  }

  lemma DroppedSingleLine(d: string)
    requires '\n' !in d
    ensures '\n' !in StandardWork.DropClosingParenthesis(d)
  {
    var r := StandardWork.DropClosingParenthesis(d);
    if |d| > 0 && d[|d| - 1] == ')' {
      assert forall k :: 0 <= k < |r| ==> r[k] == d[k] && d[k] in d;
    }
  }

  lemma RestLineSingle(t: string, kw: string)
    requires '\n' !in t && '\n' !in kw && RestDescriptionStart(t, kw).Some?
    ensures '\n' !in RestLine(t, kw)
  {
    var start := RestDescriptionStart(t, kw).value;
    assert forall i :: start <= i < |t| ==> t[i] in t;
    DroppedSingleLine(t[start..]);
    UpperSingleLine(kw);
  }

  lemma StepLineSingle(t: string, kw: string)
    requires '\n' !in t && '\n' !in kw && StepHeaderMatch(t, kw).Some?
    ensures '\n' !in StepLine(t, kw)
  {
    var m := StepHeaderMatch(t, kw).value;
    assert forall i :: m.end <= i < |t| ==> t[i] in t;
    TrimSingleLine(t[m.end..]);
    UpperSingleLine(kw);
    assert forall i :: 0 <= i < |m.digits| ==> m.digits[i] != '\n';
  }

  /** A converted line holds no line break when the line and the keywords hold none. */
  lemma ConvertedSingleLine(line: string, keywords: StepKeywords)
    requires '\n' !in line && SingleLineWords(keywords.rest) && SingleLineWords(keywords.step)
    ensures '\n' !in ConvertLine(line, keywords)
  {
    var t := Trim(line);
    TrimSingleLine(line);
    if t != [] {
      match FirstRestKeyword(t, keywords.rest, 0)
      case Some(k) =>
        RestLineSingle(t, keywords.rest[k]);
      case None =>
        match FirstStepKeyword(t, keywords.step, 0)
        case Some(k) =>
          StepLineSingle(t, keywords.step[k]);
        case None =>
    }
  }

  /** Splitting the converted text at its line breaks gives back the converted lines, one per input line. */
  lemma ConvertedLinesRoundTrip(rawContent: string, keywords: StepKeywords)
    requires SingleLineWords(keywords.rest) && SingleLineWords(keywords.step)
    ensures Split(ConvertedText(rawContent, keywords), '\n') == ConvertedLines(rawContent, keywords)
    ensures |Split(ConvertedText(rawContent, keywords), '\n')| == |SplitLines(rawContent)|
  {
    var lines := SplitLines(rawContent);
    var out := ConvertedLines(rawContent, keywords);
    forall k | 0 <= k < |out|
      ensures '\n' !in out[k]
    {
      ConvertedSingleLine(lines[k], keywords);
    }
    SplitJoin(out, '\n');
  }

  // ------------------------------------------------------------------
  // Titles and IDB lines read back
  // ------------------------------------------------------------------

  /** `f`, then `b` or `c`, in any case, then a digit, at `k`: where a block number starts. */
  predicate BlockNumberAt(s: string, k: nat)
    requires k + 2 < |s|
  {
    LowerChar(s[k]) == 'f' && (LowerChar(s[k + 1]) == 'b' || LowerChar(s[k + 1]) == 'c') && IsDigit(s[k + 2])
  }

  /** A program name as a title carries it: one trimmed line holding no block number. */
  predicate IsTitleName(name: string) {
    name != [] && IsTrimmed(name) && NoLineTerminator(name)
    && forall k :: 0 <= k && k + 2 < |name| ==> !BlockNumberAt(name, k)
  }

  lemma TitleLayout(t: string, name: string, kind: string, digits: string)
    requires name != [] && (kind == "FB" || kind == "FC") && digits != []
    requires t == name + " " + kind + digits
    ensures var s := |name|;
      && s + 3 < |t| && t[..s] == name && t[s - 1] == name[s - 1] && t[s] == ' ' && t[s + 1] == 'F'
      && t[s + 2] == kind[1] && t[s + 3..] == digits
  {
    var s := |name|;
    assert t[..s] == name;
    assert t[s + 3..] == digits;
  }

  /** Inside the name, no title starts and the line goes on. */
  lemma NoTitleWithin(t: string, name: string, j: nat)
    requires IsTitleName(name) && |name| + 1 < |t| && t[..|name|] == name && t[|name|] == ' ' && t[|name| + 1] == 'F'
    requires j < |name|
    ensures TitleAt(t, j).None? && !IsLineTerminator(t[j])
  {
    var s := |name|;
    assert t[j] == name[j];
    assert t[s - 1] == name[s - 1];
    var p := SkipSpaces(t, j);
    assert p < s;
    if p > j && p + 2 < s {
      assert t[p] == name[p] && t[p + 1] == name[p + 1] && t[p + 2] == name[p + 2];
      assert !BlockNumberAt(name, p);
    }
  }

  /** Every name end the lazy `(.*?)` tries inside the name moves on to the name's end. */
  lemma {:induction false} TitleSearch(t: string, name: string, i: nat)
    requires IsTitleName(name) && |name| + 1 < |t| && t[..|name|] == name && t[|name|] == ' ' && t[|name| + 1] == 'F'
    requires i <= |name|
    ensures TitleFrom(t, i) == TitleFrom(t, |name|)
    decreases |name| - i
  {
    if i < |name| {
      NoTitleWithin(t, name, i);
      TitleSearch(t, name, i + 1);
    }
  }

  /** The title right after the name: its kind and the number its digits spell. */
  lemma TitleAfterName(t: string, name: string, kind: string, digits: string)
    requires IsTitleName(name) && (kind == "FB" || kind == "FC") && (forall k :: 0 <= k < |digits| ==> IsDigit(digits[k]))
    requires digits != [] && |name| + 3 < |t| && t[..|name|] == name && t[|name|] == ' ' && t[|name| + 1] == 'F'
    requires t[|name| + 2] == kind[1] && t[|name| + 3..] == digits
    ensures TitleAt(t, |name|) == Some(ProgramTitle(name, kind, DigitsValue(digits)))
  {
    var s := |name|;
    SkipSpacesTo(t, s, s + 1);
    forall k | s + 3 <= k < |t| ensures IsDigit(t[k]) {
      assert t[k] == digits[k - s - 3];
    }
    SkipDigitsTo(t, s + 3, |t|);
    assert t[s + 3..|t|] == digits;
    assert LowerChar(t[s + 1]) == 'f' && IsDigit(t[s + 3]);
    if kind == "FB" {
      assert LowerChar(t[s + 2]) == 'b';
    } else {
      assert LowerChar(t[s + 2]) == 'c';
    }
    TrimOfTrimmed(name);
  }

  /**
   * `name FBn` (or `FCn`) is the title of program `name`, a block of that
   * kind numbered by the digits, when the name holds no block number itself.
   */
  lemma ProgramTitleReadsBack(name: string, kind: string, digits: string)
    requires IsTitleName(name) && (kind == "FB" || kind == "FC")
    requires digits != [] && forall k :: 0 <= k < |digits| ==> IsDigit(digits[k])
    ensures MatchProgramTitle(name + " " + kind + digits) == Some(ProgramTitle(name, kind, DigitsValue(digits)))
  {
    var t := name + " " + kind + digits;
    TitleLayout(t, name, kind, digits);
    TitleSearch(t, name, 0);
    TitleAfterName(t, name, kind, digits);
  }

  /** `Symbool IDB` and `Symbolik IDB`, followed by anything, are the other spellings the walk skips. */
  lemma IdbVariantReadsBack(rest: string)
    ensures IsIdbVariant("Symbool IDB" + rest) && IsIdbVariant("Symbolik IDB" + rest)
  {
    var t1 := "Symbool IDB" + rest;
    assert t1[0..7] == "Symbool" && t1[8..11] == "IDB";
    assert Lower("Symbool") == "symbool";
    IdbLowered();
    SkipSpacesTo(t1, 7, 8);
    var t2 := "Symbolik IDB" + rest;
    assert t2[0..8] == "Symbolik" && t2[9..12] == "IDB";
    SymbolikLowered();
    SkipSpacesTo(t2, 8, 9);
  }

  /** Trimming what follows the leading spaces is trimming the whole. */
  lemma TrimAfterLeadingSpaces(v: string, a: nat)
    requires a == SkipSpaces(v, 0)
    ensures Trim(v[a..]) == Trim(v)
  {
    if a < |v| {
      var j := SkipSpacesBack(v, |v|);
      assert !IsSpace(v[a]);
      assert a < j;
      TrimAfterLeadingSpacesAt(v, a, j);
    } else {
      assert v[a..] == [];
    }
  }

  /** The same, once the last non-space character is known to end at `j`. */
  lemma TrimAfterLeadingSpacesAt(v: string, a: nat, j: nat)
    requires a < j <= |v| && a == SkipSpaces(v, 0) && j == SkipSpacesBack(v, |v|)
    ensures Trim(v[a..]) == v[a..j] == Trim(v)
  {
    var w := v[a..];
    assert w[0] == v[a];
    SkipSpacesTo(w, 0, 0);
    SpacesBackAfter(v, a, j);
    assert w[0..j - a] == v[a..j];
  }

  /** The trailing spaces of `v` are those of any suffix that keeps its last non-space. */
  lemma SpacesBackAfter(v: string, a: nat, j: nat)
    requires a < j <= |v| && j == SkipSpacesBack(v, |v|)
    ensures SkipSpacesBack(v[a..], |v| - a) == j - a
  {
    var w := v[a..];
    forall k | j - a <= k < |w| ensures IsSpace(w[k]) {
      assert w[k] == v[a + k];
    }
    assert w[j - a - 1] == v[j - 1];
    SkipSpacesBackTo(w, |w|, j - a);
  }

  /** Where the keywords of the IDB pattern sit in `Symbolik IDB: v`. */
  lemma IdbKeywords(t: string, v: string)
    requires t == "Symbolik IDB: " + v
    ensures AtIgnoreCase(t, 0, "symbolik") && SkipSpaces(t, 8) == 9 && AtIgnoreCase(t, 9, "idb")
    ensures SkipSpaces(t, 12) == 12 && t[12] == ':' && t[13] == ' '
  {
    assert t[0..8] == "Symbolik";
    SymbolikLowered();
    assert t[9..12] == "IDB";
    IdbLowered();
    SkipSpacesTo(t, 8, 9);
    SkipSpacesTo(t, 12, 12);
  }

  lemma SymbolikLowered()
    ensures EqualsIgnoreCase("Symbolik", "symbolik")
  {
    assert Lower("Symbolik") == "symbolik";
  }

  lemma IdbLowered()
    ensures EqualsIgnoreCase("IDB", "idb")
  {
    assert Lower("IDB") == "idb";
  }

  /** Where the value of `Symbolik IDB: v` starts and where its line ends. */
  lemma IdbValue(t: string, v: string)
    requires t == "Symbolik IDB: " + v && NoLineTerminator(v)
    ensures var a := SkipSpaces(v, 0);
      SkipSpaces(t, 13) == 14 + a && LineEnd(t, 14 + a) == |t| && t[14 + a..] == v[a..]
  {
    var a := SkipSpaces(v, 0);
    forall k | 13 <= k < 14 + a ensures IsSpace(t[k]) {
      if k > 13 {
        assert t[k] == v[k - 14];
      }
    }
    if 14 + a < |t| {
      assert t[14 + a] == v[a];
    }
    SkipSpacesTo(t, 13, 14 + a);
    assert t[14 + a..] == v[a..];
  }

  /** `Symbolik IDB: v`, with `v` on one line, names the IDB `v`, trimmed. */
  lemma SymbolikIdbReadsBack(v: string)
    requires NoLineTerminator(v)
    ensures MatchSymbolikIdb("Symbolik IDB: " + v) == Some(Trim(v))
  {
    var t := "Symbolik IDB: " + v;
    IdbKeywords(t, v);
    IdbValue(t, v);
    var a := SkipSpaces(v, 0);
    IdbAtValue(t, 14 + a);
    TrimAfterLeadingSpaces(v, a);
    assert MatchSymbolikIdb(t) == IdbFrom(t, 0);
  }

  /** The IDB pattern at the start, once its keywords and the start of its value are placed. */
  lemma IdbAtValue(t: string, w: nat)
    requires 13 <= |t| && AtIgnoreCase(t, 0, "symbolik") && SkipSpaces(t, 8) == 9 && AtIgnoreCase(t, 9, "idb")
    requires SkipSpaces(t, 12) == 12 && t[12] == ':' && SkipSpaces(t, 13) == w && LineEnd(t, w) == |t|
    ensures IdbAt(t, 0) == Some(Trim(t[w..]))
  {
    assert t[w..|t|] == t[w..];
  }

  // ------------------------------------------------------------------
  // The document walk
  // ------------------------------------------------------------------

  /** The duplicate-number warnings among `ws`. */
  function Duplicates(ws: seq<Warning>): nat
  {
    if ws == [] then 0 else Duplicates(ws[..|ws| - 1]) + (if ws[|ws| - 1].DuplicateNumber? then 1 else 0)
  }

  lemma {:induction false} DuplicatesAppend(a: seq<Warning>, b: seq<Warning>)
    ensures Duplicates(a + b) == Duplicates(a) + Duplicates(b)
    decreases |b|
  {
    if b != [] {
      assert (a + b)[..|a + b| - 1] == a + b[..|b| - 1];
      assert (a + b)[|a + b| - 1] == b[|b| - 1];
      DuplicatesAppend(a, b[..|b| - 1]);
    } else {
      assert a + b == a;
    }
  }

  /**
   * Saving the open program at a title or at the end: it is recorded only
   * when its buffer holds lines, under its own title and number, and no
   * duplicate-number warning is raised.
   */
  lemma FlushRecords(st: WalkState, keywords: StepKeywords)
    ensures var r := Flush(st, keywords);
      && Duplicates(r.warnings) == Duplicates(st.warnings)
      && r.seen == st.seen && r.path == st.path && r.collecting == st.collecting
      && |r.programs| == |st.programs| + (if st.current.Some? && st.buffer != [] then 1 else 0)
      && r.programs[..|st.programs|] == st.programs
      && (st.current.Some? && st.buffer != [] ==>
            var h := r.programs[|st.programs|].header;
            r.current.None? && h.fbNumber == st.current.value.fbNumber && h.fullTitle == st.current.value.fullTitle)
      && (!(st.current.Some? && st.buffer != []) ==> r == st)
  {
    if st.current.Some? && st.buffer != [] {
      var saved := Saved(st.current.value, Join(st.buffer, '\n'), keywords);
      var r := Flush(st, keywords);
      assert r.programs == st.programs + [saved.0];
      assert r.warnings == st.warnings + saved.1;
      DuplicatesAppend(st.warnings, saved.1);
      assert Duplicates(saved.1) == 0 by {
        if saved.1 != [] {
          assert saved.1 == [AnalysisError(st.current.value.name, ResolvedIdbName(st.current.value).error)];
          assert saved.1[..0] == [];
        }
      }
    }
  }

  /** A program title warns exactly when its number was seen before, and its number is seen from then on. */
  lemma TitleWarnsOnRepeat(st: WalkState, kind: BlockKind, content: string, m: ProgramTitle, keywords: StepKeywords)
    ensures var r := OpenProgram(st, kind, content, m, keywords);
      && Duplicates(r.warnings) == Duplicates(st.warnings) + (if m.number in st.seen then 1 else 0)
      && r.seen == st.seen + {m.number}
      && r.current.Some? && r.current.value.fbNumber == m.number && r.current.value.idbName.None?
      && r.buffer == [] && r.collecting
      && |r.programs| == |st.programs| + (if st.current.Some? && st.buffer != [] then 1 else 0)
  {
    var f := Flush(st, keywords);
    FlushRecords(st, keywords);
    var extra := if m.number in st.seen then [DuplicateNumber(m.number, m.name)] else [];
    DuplicatesAppend(f.warnings, extra);
    if extra != [] {
      assert extra[..0] == [];
    }
  }

  /** `Symbolik IDB` lines never reach the buffer; the one the pattern reads names the open program. */
  lemma IdbParagraphNotBuffered(st: WalkState, rd: BlockReading, keywords: StepKeywords)
    requires st.collecting ==> st.current.Some?
    requires rd.kind.Paragraph? && rd.title.None? && (rd.idb.Some? || rd.idbVariant)
    ensures Apply(st, rd, keywords).buffer == st.buffer
    ensures st.started && st.collecting && rd.idb.Some? ==>
      Apply(st, rd, keywords).current == Some(st.current.value.(idbName := rd.idb))
  {
  }

  /** Any other paragraph of an open program is buffered line by line, whether or not it holds a break. */
  lemma ParagraphBuffered(st: WalkState, rd: BlockReading, keywords: StepKeywords)
    requires st.started && st.collecting
    requires rd.kind.Paragraph? && rd.title.None? && rd.idb.None? && !rd.idbVariant
    ensures Apply(st, rd, keywords).buffer == st.buffer + Split(rd.content, '\n')
    ensures Apply(st, rd, keywords).programs == st.programs
  {
    if '\n' !in rd.content {
      SplitWhole(rd.content, '\n');
    }
  }

  /** A heading at level `l` names level `l` of the path and empties the levels below it. */
  lemma HeadingUpdatesPath(st: WalkState, level: nat, content: string)
    requires 1 <= level <= |st.path|
    ensures var p := UpdatePath(st, level, content).path;
      && |p| == |st.path|
      && p[level - 1] == Some(Split(content, '\t')[0])
      && (forall j :: 0 <= j < level - 1 ==> p[j] == st.path[j])
      && (forall j :: level <= j < |p| ==> p[j].None?)
  {
  }

  /**
   * What the walk keeps true: six path levels, the number of every program
   * recorded or open among the numbers seen, and content collected only
   * while a program is open.
   */
  predicate Tracked(st: WalkState) {
    && |st.path| == PathLevels
    && (forall i :: 0 <= i < |st.programs| ==> st.programs[i].header.fbNumber in st.seen)
    && (st.current.Some? ==> st.current.value.fbNumber in st.seen)
    && (st.collecting ==> st.current.Some?)
  }

  lemma FlushTracked(st: WalkState, keywords: StepKeywords)
    requires Tracked(st)
    ensures var r := Flush(st, keywords);
      |r.path| == PathLevels && r.seen == st.seen
      && forall i :: 0 <= i < |r.programs| ==> r.programs[i].header.fbNumber in r.seen
  {
    FlushRecords(st, keywords);
  }

  lemma ApplyTracked(st: WalkState, rd: BlockReading, keywords: StepKeywords)
    requires Tracked(st)
    ensures Tracked(Apply(st, rd, keywords))
  {
    if st.started || rd.kind.Heading? {
      var st1 := st.(started := true);
      match rd.title
      case Some(m) =>
        FlushTracked(st1, keywords);
        TitleWarnsOnRepeat(st1, rd.kind, rd.content, m, keywords);
      case None =>
    }
  }

  lemma {:induction false} WalkRunTracked(rs: seq<BlockReading>, n: nat, keywords: StepKeywords)
    requires n <= |rs|
    ensures Tracked(WalkRun(rs, n, keywords))
  {
    if n > 0 {
      WalkRunTracked(rs, n - 1, keywords);
      ApplyTracked(WalkRun(rs, n - 1, keywords), rs[n - 1], keywords);
    }
  }

  /** After the whole document: six path levels, and every recorded program's number among those seen. */
  lemma SegmentationTracked(blocks: seq<Block>, keywords: StepKeywords)
    ensures var st := Segmentation(blocks, keywords);
      |st.path| == PathLevels && forall i :: 0 <= i < |st.programs| ==> st.programs[i].header.fbNumber in st.seen
  {
    WalkRunTracked(Readings(blocks), |blocks|, keywords);
    FlushTracked(WalkRun(Readings(blocks), |blocks|, keywords), keywords);
  }
}
