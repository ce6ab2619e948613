/**
 * The keyword tables of the default syntax rules (step, idle and end
 * spellings, the timer/marker/fault keywords, the condition prefixes) and
 * the recognisers for the header and cross-reference shapes the rules
 * describe.
 */
module SyntaxRules {
  import opened Wrappers
  import opened Text

  datatype StepKeywords = StepKeywords(step: seq<string>, rest: seq<string>, end: seq<string>)

  datatype VariableDetection =
    VariableDetection(timerKeywords: seq<string>, markerKeywords: seq<string>, storingKeywords: seq<string>)

  datatype ConditionPrefixes =
    ConditionPrefixes(orPrefix: string, notPrefix: seq<string>, transitionPrefix: string)

  /** A syntax-rules object; `stepKeywords` may be missing from a caller's object. */
  datatype Rules = Rules(
    stepKeywords: Option<StepKeywords>,
    variableDetection: VariableDetection,
    conditions: ConditionPrefixes)

  const DefaultStepKeywords: StepKeywords :=
    StepKeywords(["STAP", "SCHRITT", "STEP"], ["RUST", "RUHE", "IDLE"], ["KLAAR", "FERTIG", "END"])

  const DefaultVariableDetection: VariableDetection :=
    VariableDetection(["TIJD", "TIME", "ZEIT"], ["MARKER", "FLAG", "MERKER"], ["STORING", "FAULT", "STÖRUNG"])

  const DefaultConditions: ConditionPrefixes :=
    ConditionPrefixes("+", ["NIET", "NICHT", "NOT"], "->")

  const DefaultRules: Rules :=
    Rules(Some(DefaultStepKeywords), DefaultVariableDetection, DefaultConditions)

  /** The step alternatives written into the header and cross-reference patterns. */
  const SchrittAlternatives: seq<string> := ["SCHRITT", "STAP", "STEP"]

  /** The idle alternatives written into the header patterns. */
  const RuheAlternatives: seq<string> := ["RUST", "RUHE", "IDLE"]

  /**
   * The first keyword of `kws`, in list order, found at position `i` of `s`
   * ignoring case: the choice a regular-expression alternation `(A|B|C)` makes
   * when no keyword is a prefix of another.
   */
  function FirstKeywordAt(s: string, i: nat, kws: seq<string>): (r: Option<nat>)
    ensures r.Some? ==> r.value < |kws| && AtIgnoreCase(s, i, kws[r.value])
    ensures r.Some? ==> forall j :: 0 <= j < r.value ==> !AtIgnoreCase(s, i, kws[j])
    ensures r.None? ==> forall j :: 0 <= j < |kws| ==> !AtIgnoreCase(s, i, kws[j])
  {
    FirstKeywordFrom(s, i, kws, 0)
  }

  function FirstKeywordFrom(s: string, i: nat, kws: seq<string>, j: nat): (r: Option<nat>)
    requires j <= |kws|
    ensures r.Some? ==> j <= r.value < |kws| && AtIgnoreCase(s, i, kws[r.value])
    ensures r.Some? ==> forall k :: j <= k < r.value ==> !AtIgnoreCase(s, i, kws[k])
    ensures r.None? ==> forall k :: j <= k < |kws| ==> !AtIgnoreCase(s, i, kws[k])
    decreases |kws| - j
  {
    if j == |kws| then None
    else if AtIgnoreCase(s, i, kws[j]) then Some(j)
    else FirstKeywordFrom(s, i, kws, j + 1)
  }

  /** No keyword of the list is, ignoring case, a prefix of another. */
  predicate PrefixFree(kws: seq<string>) {
    forall a, b :: 0 <= a < |kws| && 0 <= b < |kws| && a != b ==>
      !(|kws[a]| <= |kws[b]| && Lower(kws[b])[..|kws[a]|] == Lower(kws[a]))
  }

  /** Two keywords whose case-folded letters at `i` differ: neither starts the other. */
  predicate DifferAt(x: string, y: string, i: nat) {
    i < |x| && i < |y| && LowerChar(x[i]) != LowerChar(y[i])
  }

  lemma NotPrefixes(x: string, y: string, i: nat)
    requires DifferAt(x, y, i)
    ensures !(|x| <= |y| && Lower(y)[..|x|] == Lower(x))
    ensures !(|y| <= |x| && Lower(x)[..|y|] == Lower(y))
  {
    assert Lower(x)[i] == LowerChar(x[i]) && Lower(y)[i] == LowerChar(y[i]);
  }

  lemma PrefixFreeOfThree(kws: seq<string>, i01: nat, i02: nat, i12: nat)
    requires |kws| == 3
    requires DifferAt(kws[0], kws[1], i01) && DifferAt(kws[0], kws[2], i02) && DifferAt(kws[1], kws[2], i12)
    ensures PrefixFree(kws)
  {
    NotPrefixes(kws[0], kws[1], i01);
    NotPrefixes(kws[0], kws[2], i02);
    NotPrefixes(kws[1], kws[2], i12);
  }

  /**
   * No default keyword starts another of its table, so trying the keywords in
   * table order picks the same one as the regular-expression alternation does.
   */
  lemma DefaultStepKeywordsPrefixFree()
    ensures PrefixFree(DefaultStepKeywords.step) && PrefixFree(DefaultStepKeywords.rest)
    ensures PrefixFree(DefaultStepKeywords.end)
    ensures PrefixFree(SchrittAlternatives) && PrefixFree(RuheAlternatives)
  {
    StepTablePrefixFree();
    RestTablePrefixFree();
    EndTablePrefixFree();
  }

  lemma StepTablePrefixFree()
    ensures PrefixFree(DefaultStepKeywords.step) && PrefixFree(SchrittAlternatives)
  {
    PrefixFreeOfThree(DefaultStepKeywords.step, 1, 2, 1);
    PrefixFreeOfThree(SchrittAlternatives, 1, 1, 2);
  }

  lemma RestTablePrefixFree()
    ensures PrefixFree(DefaultStepKeywords.rest) && PrefixFree(RuheAlternatives)
  {
    PrefixFreeOfThree(DefaultStepKeywords.rest, 2, 0, 0);
    PrefixFreeOfThree(RuheAlternatives, 2, 0, 0);
  }

  lemma EndTablePrefixFree()
    ensures PrefixFree(DefaultStepKeywords.end)
  {
    PrefixFreeOfThree(DefaultStepKeywords.end, 0, 0, 0);
  }

  lemma DefaultVariableKeywordsPrefixFree()
    ensures PrefixFree(DefaultVariableDetection.timerKeywords)
    ensures PrefixFree(DefaultVariableDetection.markerKeywords)
    ensures PrefixFree(DefaultVariableDetection.storingKeywords)
    ensures PrefixFree(DefaultConditions.notPrefix)
  {
    assert PrefixFree(DefaultVariableDetection.timerKeywords) by {
      PrefixFreeOfThree(DefaultVariableDetection.timerKeywords, 2, 0, 0);
    }
    assert PrefixFree(DefaultVariableDetection.markerKeywords) by {
      PrefixFreeOfThree(DefaultVariableDetection.markerKeywords, 0, 1, 0);
    }
    assert PrefixFree(DefaultVariableDetection.storingKeywords) by {
      PrefixFreeOfThree(DefaultVariableDetection.storingKeywords, 0, 2, 0);
    }
    assert PrefixFree(DefaultConditions.notPrefix) by {
      PrefixFreeOfThree(DefaultConditions.notPrefix, 2, 1, 1);
    }
  }

  /** A line that starts with one keyword of a prefix-free table starts with no other, ignoring case. */
  lemma OnlyKeywordAtStart(t: string, kws: seq<string>, k: nat, i: nat)
    requires PrefixFree(kws) && k < |kws| && i < |kws| && i != k && StartsWith(t, kws[k])
    ensures !AtIgnoreCase(t, 0, kws[i])
  {
    var x, y := kws[i], kws[k];
    if |x| <= |y| {
      assert Lower(t[..|x|]) == Lower(y)[..|x|];
    } else if |x| <= |t| {
      assert Lower(t[..|x|])[..|y|] == Lower(y);
      assert Lower(x)[..|y|] != Lower(y);
    }
  }

  /** Two keywords whose case-folded letters differ at 0, 1 or 2 start no line together. */
  lemma PrefixFreeByLetters(kws: seq<string>)
    requires forall a, b :: 0 <= a < |kws| && 0 <= b < |kws| && a != b ==>
      DifferAt(kws[a], kws[b], 0) || DifferAt(kws[a], kws[b], 1) || DifferAt(kws[a], kws[b], 2)
    ensures PrefixFree(kws)
  {
    forall a, b | 0 <= a < |kws| && 0 <= b < |kws| && a != b
      ensures !(|kws[a]| <= |kws[b]| && Lower(kws[b])[..|kws[a]|] == Lower(kws[a]))
    {
      if DifferAt(kws[a], kws[b], 0) {
        NotPrefixes(kws[a], kws[b], 0);
      } else if DifferAt(kws[a], kws[b], 1) {
        NotPrefixes(kws[a], kws[b], 1);
      } else {
        NotPrefixes(kws[a], kws[b], 2);
      }
    }
  }

  /** Two upper-case keywords whose letters at `i` differ. */
  predicate UpperDifferAt(x: string, y: string, i: nat) {
    i < |x| && i < |y| && IsUpper(x[i]) && IsUpper(y[i]) && x[i] != y[i]
  }

  /** Upper-case keywords whose letters differ at 0, 1 or 2 start no line together. */
  lemma PrefixFreeByUpperLetters(kws: seq<string>)
    requires forall a, b :: 0 <= a < |kws| && 0 <= b < |kws| && a != b ==>
      UpperDifferAt(kws[a], kws[b], 0) || UpperDifferAt(kws[a], kws[b], 1) || UpperDifferAt(kws[a], kws[b], 2)
    ensures PrefixFree(kws)
  {
    forall a, b | 0 <= a < |kws| && 0 <= b < |kws| && a != b
      ensures DifferAt(kws[a], kws[b], 0) || DifferAt(kws[a], kws[b], 1) || DifferAt(kws[a], kws[b], 2)
    {
    }
    PrefixFreeByLetters(kws);
  }

  /** The header pattern's alternatives: the idle spellings, then the step spellings. */
  function HeaderKeywords(keywords: StepKeywords): (r: seq<string>)
    ensures |r| == |keywords.rest| + |keywords.step|
  {
    keywords.rest + keywords.step
  }

  /** No default idle or step spelling starts another, so the alternation picks the spelling written. */
  lemma DefaultHeaderKeywordsPrefixFree()
    ensures PrefixFree(HeaderKeywords(DefaultStepKeywords))
  {
    var kws := HeaderKeywords(DefaultStepKeywords);
    assert kws == ["RUST", "RUHE", "IDLE", "STAP", "SCHRITT", "STEP"];
    PrefixFreeByLetters(kws);
  }

  /** All header alternatives of the class-based parser: idle, step, then end spellings. */
  function AllHeaderKeywords(keywords: StepKeywords): (r: seq<string>)
    ensures |r| == |keywords.rest| + |keywords.step| + |keywords.end|
  {
    keywords.rest + keywords.step + keywords.end
  }

  /** No default idle, step or end spelling starts another. */
  lemma DefaultAllHeaderKeywordsPrefixFree()
    ensures PrefixFree(AllHeaderKeywords(DefaultStepKeywords))
  {
    var kws := AllHeaderKeywords(DefaultStepKeywords);
    assert kws == ["RUST", "RUHE", "IDLE", "STAP", "SCHRITT", "STEP", "KLAAR", "FERTIG", "END"];
    PrefixFreeByUpperLetters(kws);
  }

  /** A keyword of a prefix-free table equals, ignoring case, no other keyword of it. */
  lemma NoOtherSpelling(kws: seq<string>, a: nat, b: nat)
    requires PrefixFree(kws) && a < |kws| && b < |kws| && a != b
    ensures !EqualsIgnoreCase(kws[a], kws[b])
  {
    assert !(|kws[a]| <= |kws[b]| && Lower(kws[b])[..|kws[a]|] == Lower(kws[a]));
  }

  /** A step, idle or end header as the `schrittMixed`/`ruheMixed` patterns read it. */
  datatype Header = Header(keyword: string, number: Option<string>, description: string)

  /**
   * The tail `[:\(]\s*(.+?)\)?$` shared by both mixed header patterns, read
   * from position `e`: a `:` or `(`, spaces, then a non-empty description
   * from which one closing `)` is dropped.
   */
  function MixedTail(line: string, e: nat): (r: Option<string>)
    requires e <= |line|
    ensures r.Some? ==> |r.value| >= 1
  {
    if e == |line| || line[e] !in ":(" then None
    else
      var f := SkipSpaces(line, e + 1);
      var rest := line[f..];
      if |rest| >= 2 && rest[|rest| - 1] == ')' then Some(rest[..|rest| - 1])
      else if |rest| >= 1 then Some(rest)
      else if f > e + 1 then Some([line[f - 1]])
      else None
  }

  /** `schrittMixed`: `KW n: desc` or `KW n (desc)`, `KW` one of SCHRITT/STAP/STEP. */
  function ParseStepHeaderMixed(line: string): (r: Option<Header>)
    ensures r.Some? ==> r.value.number.Some? && |r.value.number.value| >= 1 && AllDigits(r.value.number.value)
    ensures r.Some? ==> StartsWith(line, r.value.keyword)
  {
    match FirstKeywordAt(line, 0, SchrittAlternatives)
    case None => None
    case Some(k) =>
      var p := |SchrittAlternatives[k]|;
      var q := SkipSpaces(line, p);
      var d := SkipDigits(line, q);
      if q == p || d == q then None
      else
        SkippedDigits(line, q);
        match MixedTail(line, SkipSpaces(line, d))
        case None => None
        case Some(desc) => Some(Header(line[..p], Some(line[q..d]), desc))
  }

  /** `ruheMixed`: `KW: desc` or `KW (desc)`, `KW` one of RUST/RUHE/IDLE. */
  function ParseIdleHeaderMixed(line: string): (r: Option<Header>)
    ensures r.Some? ==> r.value.number.None? && StartsWith(line, r.value.keyword)
  {
    match FirstKeywordAt(line, 0, RuheAlternatives)
    case None => None
    case Some(k) =>
      var p := |RuheAlternatives[k]|;
      match MixedTail(line, SkipSpaces(line, p))
      case None => None
      case Some(desc) => Some(Header(line[..p], None, desc))
  }

  /** The raw captures of the cross-reference pattern `(desc KW steps)`. */
  datatype CrossReference = CrossReference(description: string, keyword: string, steps: string)

  predicate IsStepListChar(c: char) { IsDigit(c) || c == '+' }

  /** The start of the longest run of `[0-9+]` that ends at `j`. */
  function StepListStart(s: string, j: nat): (r: nat)
    requires j <= |s|
    ensures r <= j
    ensures forall k :: r <= k < j ==> IsStepListChar(s[k])
    ensures r == 0 || !IsStepListChar(s[r - 1])
  {
    if j > 0 && IsStepListChar(s[j - 1]) then StepListStart(s, j - 1) else j
  }

  /**
   * The inside of a parenthesis, `([^)]+)\s+(SCHRITT|STAP|STEP)\s+([0-9+]+)`
   * read from the right: a maximal run of step characters, spaces, one of the
   * step keywords, at least one space, and a non-empty description before it.
   */
  function CrossReferenceInside(inner: string): (r: Option<CrossReference>)
    ensures r.Some? ==> |r.value.description| >= 1 && |r.value.steps| >= 1
    ensures r.Some? ==> forall k :: 0 <= k < |r.value.steps| ==> IsStepListChar(r.value.steps[k])
  {
    var a := StepListStart(inner, |inner|);
    var b := SkipSpacesBack(inner, a);
    if a == |inner| || b == a then None
    else
      match KeywordEndingAt(inner, b, false)
      case None => None
      case Some(kw) => Describe(inner, kw, b, a)
  }

  /**
   * Where the step keyword that ends at `b` starts, trying the alternatives
   * the way a backtracking match from the right settles on them.
   */
  function KeywordEndingAt(inner: string, b: nat, ci: bool): (r: Option<nat>)
    requires b <= |inner|
    ensures r.Some? ==> r.value <= b
    ensures r.Some? ==> r.value + 4 == b || r.value + 7 == b
  {
    if b >= 4 && KeywordAt(inner, b - 4, "STEP", ci) then Some(b - 4)
    else if b >= 4 && KeywordAt(inner, b - 4, "STAP", ci) then Some(b - 4)
    else if b >= 7 && KeywordAt(inner, b - 7, "SCHRITT", ci) then Some(b - 7)
    else None
  }

  /** `p` at `i`, ignoring case exactly when the pattern carries the `i` flag (`ci`). */
  predicate KeywordAt(s: string, i: nat, p: string, ci: bool) {
    if ci then AtIgnoreCase(s, i, p) else At(s, i, p)
  }

  /**
   * The description in front of the keyword `inner[kw..b]`: the greedy
   * `[^)]+` leaves exactly one space before the keyword.
   */
  function Describe(inner: string, kw: nat, b: nat, a: nat): (r: Option<CrossReference>)
    requires kw <= b <= a <= |inner|
    ensures r.Some? ==> |r.value.description| >= 1 && r.value.steps == inner[a..]
    ensures r.Some? ==> r.value.keyword == inner[kw..b]
  {
    if kw >= 2 && IsSpace(inner[kw - 1]) && a < |inner| then
      Some(CrossReference(inner[..kw - 1], inner[kw..b], inner[a..]))
    else None
  }

  /**
   * The leftmost match of the cross-reference pattern
   * `\(([^)]+)\s+(SCHRITT|STAP|STEP)\s+([0-9+]+)\)` in `s`, searched from `i`.
   */
  function FindCrossReference(s: string, i: nat): (r: Option<CrossReference>)
    requires i <= |s|
    decreases |s| - i
  {
    if i == |s| then None
    else if s[i] == '(' && IndexOf(s, ')', i + 1) < |s| then
      var j := IndexOf(s, ')', i + 1);
      match CrossReferenceInside(s[i + 1..j])
      case Some(x) => Some(x)
      case None => FindCrossReference(s, i + 1)
    else FindCrossReference(s, i + 1)
  }

  /** `steps.split('+').map(s => parseInt(s.trim()))`: an empty piece reads as NaN, here `None`. */
  function ParseStepList(steps: string): (r: seq<Option<nat>>)
    ensures |r| == Count(steps, '+') + 1
  {
    SplitCount(steps, '+');
    var pieces := Split(steps, '+');
    seq(|pieces|, k requires 0 <= k < |pieces| =>
      if pieces[k] != [] && AllDigits(pieces[k]) then Some(DigitsValue(pieces[k])) else None)
  }

  /** Step numbers written the way a cross-reference lists them, `5+6`. */
  function JoinStepNumbers(ns: seq<nat>): string
  {
    Join(seq(|ns|, k requires 0 <= k < |ns| => NatToString(ns[k])), '+')
  }

  /** Reading a written step list gives back its numbers, in order. */
  lemma StepListRoundTrip(ns: seq<nat>)
    requires |ns| >= 1
    ensures ParseStepList(JoinStepNumbers(ns)) == seq(|ns|, k requires 0 <= k < |ns| => Some(ns[k]))
  {
    var parts := seq(|ns|, k requires 0 <= k < |ns| => NatToString(ns[k]));
    forall k | 0 <= k < |parts| ensures '+' !in parts[k] {
      assert AllDigits(parts[k]);
    }
    SplitJoin(parts, '+');
    forall k | 0 <= k < |ns| ensures DigitsValue(parts[k]) == ns[k] {
      DigitsValueOfNatToString(ns[k]);
    }
  }

  /** The keyword at list position `k` is chosen once every earlier one is ruled out. */
  lemma FirstKeywordIs(s: string, kws: seq<string>, k: nat)
    requires k < |kws| && StartsWith(s, kws[k])
    requires forall j :: 0 <= j < k ==> !AtIgnoreCase(s, 0, kws[j])
    ensures FirstKeywordAt(s, 0, kws) == Some(k)
  {
    assert s[..|kws[k]|] == kws[k];
    assert AtIgnoreCase(s, 0, kws[k]);
  }

  /** One letter that differs, ignoring case, rules a keyword out at `i`. */
  lemma NotAtByLetter(s: string, i: nat, p: string, pos: nat)
    requires pos < |p| && (i + pos < |s| ==> LowerChar(s[i + pos]) != LowerChar(p[pos]))
    ensures !AtIgnoreCase(s, i, p)
  {
    if i + |p| <= |s| {
      assert Lower(s[i..i + |p|])[pos] == LowerChar(s[i + pos]);
      assert Lower(p)[pos] == LowerChar(p[pos]);
    }
  }

  lemma SchrittKeywordFound(line: string, k: nat)
    requires k < |SchrittAlternatives| && StartsWith(line, SchrittAlternatives[k])
    ensures FirstKeywordAt(line, 0, SchrittAlternatives) == Some(k)
  {
    if k >= 1 {
      assert line[1] == 'T';
      NotAtByLetter(line, 0, SchrittAlternatives[0], 1);
    }
    if k == 2 {
      assert line[2] == 'E';
      NotAtByLetter(line, 0, SchrittAlternatives[1], 2);
    }
    FirstKeywordIs(line, SchrittAlternatives, k);
  }

  lemma RuheKeywordFound(line: string, k: nat)
    requires k < |RuheAlternatives| && StartsWith(line, RuheAlternatives[k])
    ensures FirstKeywordAt(line, 0, RuheAlternatives) == Some(k)
  {
    if k == 1 {
      assert line[2] == 'H';
      NotAtByLetter(line, 0, RuheAlternatives[0], 2);
    }
    if k == 2 {
      assert line[0] == 'I';
      NotAtByLetter(line, 0, RuheAlternatives[0], 0);
      NotAtByLetter(line, 0, RuheAlternatives[1], 0);
    }
    FirstKeywordIs(line, RuheAlternatives, k);
  }

  /** A tail `: desc` (or `:` followed by any spaces) ends a header with description `desc`. */
  lemma MixedTailColon(line: string, e: nat, desc: string)
    requires e + 2 <= |line| && line[e..] == ": " + desc
    requires |desc| >= 1 && !IsSpace(desc[0]) && desc[|desc| - 1] != ')'
    ensures MixedTail(line, e) == Some(desc)
  {
    assert line[e] == ':' && line[e + 1] == ' ' && line[e + 2] == desc[0];
    SkipSpacesTo(line, e + 1, e + 2);
    assert line[e + 2..] == desc;
  }

  /** A tail `(desc)` ends a header with description `desc`. */
  lemma MixedTailParenthesis(line: string, e: nat, desc: string)
    requires e + 1 <= |line| && line[e..] == "(" + desc + ")"
    requires |desc| >= 1 && !IsSpace(desc[0])
    ensures MixedTail(line, e) == Some(desc)
  {
    assert line[e] == '(' && line[e + 1] == desc[0];
    SkipSpacesTo(line, e + 1, e + 1);
    assert line[e + 1..] == desc + ")";
  }

  /** A space, then `(desc)`, from `e` on. */
  lemma ParenthesisTail(line: string, e: nat, desc: string)
    requires e + 2 <= |line| && line[e] == ' ' && line[e + 1..] == "(" + desc + ")"
    requires |desc| >= 1 && !IsSpace(desc[0])
    ensures MixedTail(line, SkipSpaces(line, e)) == Some(desc)
  {
    assert line[e + 1] == '(';
    SkipSpacesTo(line, e, e + 1);
    MixedTailParenthesis(line, e + 1, desc);
  }

  /** The part of a step header before its tail: keyword, one space, the step number. */
  lemma StepHeaderPrefix(line: string, k: nat, num: string, e: nat)
    requires k < |SchrittAlternatives| && FirstKeywordAt(line, 0, SchrittAlternatives) == Some(k)
    requires |num| >= 1 && e == |SchrittAlternatives[k]| + 1 + |num| && e <= |line|
    requires line[|SchrittAlternatives[k]|] == ' ' && line[|SchrittAlternatives[k]| + 1..e] == num
    requires SkipDigits(line, |SchrittAlternatives[k]| + 1) == e
    requires MixedTail(line, SkipSpaces(line, e)).Some?
    ensures ParseStepHeaderMixed(line)
         == Some(Header(line[..|SchrittAlternatives[k]|], Some(num), MixedTail(line, SkipSpaces(line, e)).value))
  {
    var p := |SchrittAlternatives[k]|;
    SingleSpaceBeforeDigits(line, p, e);
    assert line[p + 1..e] == num;
  }

  lemma SingleSpaceBeforeDigits(line: string, p: nat, e: nat)
    requires p + 1 < e <= |line| && line[p] == ' ' && SkipDigits(line, p + 1) == e
    ensures SkipSpaces(line, p) == p + 1
  {
    assert IsDigit(line[p + 1]);
    SkipSpacesTo(line, p, p + 1);
  }

  /** A run of digits followed by a non-digit is skipped as a whole. */
  lemma DigitRun(line: string, q: nat, num: string)
    requires q + |num| <= |line| && line[q..q + |num|] == num && AllDigits(num)
    requires q + |num| == |line| || !IsDigit(line[q + |num|])
    ensures SkipDigits(line, q) == q + |num|
  {
    forall j | q <= j < q + |num| ensures IsDigit(line[j]) {
      assert line[j] == num[j - q];
    }
    SkipDigitsTo(line, q, q + |num|);
  }

  /** Where keyword, step number and tail sit in `KW n<tail>`. */
  lemma StepHeaderLayout(k: nat, num: string, tail: string)
    requires k < |SchrittAlternatives| && |num| >= 1 && AllDigits(num)
    requires |tail| >= 1 && !IsDigit(tail[0])
    ensures var kw := SchrittAlternatives[k];
      var line := kw + " " + num + tail;
      var e := |kw| + 1 + |num|;
      e < |line| && line[e..] == tail && StartsWith(line, kw) && line[|kw|] == ' '
      && line[|kw| + 1..e] == num && SkipDigits(line, |kw| + 1) == e
  {
    var kw := SchrittAlternatives[k];
    var line := kw + " " + num + tail;
    var e := |kw| + 1 + |num|;
    assert line[..|kw|] == kw;
    assert line[|kw| + 1..e] == num;
    assert line[e..] == tail;
    DigitRun(line, |kw| + 1, num);
  }

  /** `KW n: desc` is read back as step `n` with description `desc`. */
  lemma {:induction false} StepHeaderColonForm(k: nat, n: nat, desc: string)
    requires k < |SchrittAlternatives|
    requires |desc| >= 1 && !IsSpace(desc[0]) && desc[|desc| - 1] != ')'
    ensures ParseStepHeaderMixed(SchrittAlternatives[k] + " " + NatToString(n) + ": " + desc)
         == Some(Header(SchrittAlternatives[k], Some(NatToString(n)), desc))
  {
    var kw, num := SchrittAlternatives[k], NatToString(n);
    var tail := ": " + desc;
    var line := kw + " " + num + tail;
    assert line == kw + " " + num + ": " + desc;
    var e := |kw| + 1 + |num|;
    StepHeaderLayout(k, num, tail);
    assert line[e] == ':';
    SkipSpacesTo(line, e, e);
    MixedTailColon(line, e, desc);
    SchrittKeywordFound(line, k);
    StepHeaderPrefix(line, k, num, e);
    assert line[..|kw|] == kw;
  }

  /** Where keyword, step number and parenthesised description sit in `KW n (desc)`. */
  lemma ParenthesisLayout(kw: string, num: string, desc: string)
    ensures var line := kw + " " + num + " (" + desc + ")";
      var e := |kw| + 1 + |num|;
      line == kw + " " + num + (" (" + desc + ")")
      && e + 2 <= |line| && line[e] == ' ' && line[e + 1..] == "(" + desc + ")"
  {
    var line := kw + " " + num + " (" + desc + ")";
    var e := |kw| + 1 + |num|;
    assert line[e + 1..] == "(" + desc + ")";
  }

  /** `KW n (desc)` is read back as step `n` with description `desc`. */
  lemma {:induction false} StepHeaderParenthesisForm(k: nat, n: nat, desc: string)
    requires k < |SchrittAlternatives|
    requires |desc| >= 1 && !IsSpace(desc[0])
    ensures ParseStepHeaderMixed(SchrittAlternatives[k] + " " + NatToString(n) + " (" + desc + ")")
         == Some(Header(SchrittAlternatives[k], Some(NatToString(n)), desc))
  {
    var kw, num := SchrittAlternatives[k], NatToString(n);
    var line := kw + " " + num + " (" + desc + ")";
    var e := |kw| + 1 + |num|;
    ParenthesisLayout(kw, num, desc);
    StepHeaderLayout(k, num, " (" + desc + ")");
    ParenthesisTail(line, e, desc);
    SchrittKeywordFound(line, k);
    StepHeaderPrefix(line, k, num, e);
    assert line[..|kw|] == kw;
  }

  /** An idle keyword followed by a header tail from `e` on. */
  lemma IdleHeaderPrefix(line: string, k: nat, e: nat)
    requires k < |RuheAlternatives| && StartsWith(line, RuheAlternatives[k])
    requires |RuheAlternatives[k]| <= e <= |line| && SkipSpaces(line, |RuheAlternatives[k]|) == e
    requires MixedTail(line, e).Some?
    ensures ParseIdleHeaderMixed(line)
         == Some(Header(RuheAlternatives[k], None, MixedTail(line, e).value))
  {
    RuheKeywordFound(line, k);
    assert line[..|RuheAlternatives[k]|] == RuheAlternatives[k];
  }

  /** `KW: desc` is read back as an idle header with description `desc`. */
  lemma {:induction false} IdleHeaderColonForm(k: nat, desc: string)
    requires k < |RuheAlternatives|
    requires |desc| >= 1 && !IsSpace(desc[0]) && desc[|desc| - 1] != ')'
    ensures ParseIdleHeaderMixed(RuheAlternatives[k] + ": " + desc)
         == Some(Header(RuheAlternatives[k], None, desc))
  {
    var kw := RuheAlternatives[k];
    var line := kw + ": " + desc;
    var p := |kw|;
    assert line[..p] == kw;
    assert line[p..] == ": " + desc;
    assert line[p] == ':';
    SkipSpacesTo(line, p, p);
    MixedTailColon(line, p, desc);
    IdleHeaderPrefix(line, k, p);
  }

  /** `KW (desc)` is read back as an idle header with description `desc`. */
  lemma {:induction false} IdleHeaderParenthesisForm(k: nat, desc: string)
    requires k < |RuheAlternatives|
    requires |desc| >= 1 && !IsSpace(desc[0])
    ensures ParseIdleHeaderMixed(RuheAlternatives[k] + " (" + desc + ")")
         == Some(Header(RuheAlternatives[k], None, desc))
  {
    var kw := RuheAlternatives[k];
    var line := kw + " (" + desc + ")";
    var p := |kw|;
    assert line[..p] == kw;
    assert line[p + 1..] == "(" + desc + ")";
    assert line[p] == ' ' && line[p + 1] == '(';
    SkipSpacesTo(line, p, p + 1);
    MixedTailParenthesis(line, p + 1, desc);
    IdleHeaderPrefix(line, k, p + 1);
  }

  /** `(desc KW n+m)` is found as a cross-reference to steps `n+m` under `KW`. */
  lemma CrossReferenceRoundTrip(desc: string, k: nat, steps: string)
    requires k < |SchrittAlternatives|
    requires |desc| >= 1 && ')' !in desc
    requires |steps| >= 1 && forall j :: 0 <= j < |steps| ==> IsStepListChar(steps[j])
    ensures FindCrossReference("(" + desc + " " + SchrittAlternatives[k] + " " + steps + ")", 0)
         == Some(CrossReference(desc, SchrittAlternatives[k], steps))
  {
    var kw := SchrittAlternatives[k];
    var s := "(" + desc + " " + kw + " " + steps + ")";
    var inner := desc + " " + kw + " " + steps;
    assert s == "(" + inner + ")";
    assert ')' !in inner by {
      assert forall j :: |desc| <= j < |inner| ==> inner[j] != ')';
    }
    CrossReferenceInsideRoundTrip(desc, k, steps);
    FoundAtOpening(s, inner);
  }

  /** A parenthesis whose inside reads as a cross-reference is the match at 0. */
  lemma FoundAtOpening(s: string, inner: string)
    requires s == "(" + inner + ")" && ')' !in inner && CrossReferenceInside(inner).Some?
    ensures FindCrossReference(s, 0) == CrossReferenceInside(inner)
  {
    IndexOfClose(s, inner);
    assert s[1..|s| - 1] == inner;
  }

  lemma CrossReferenceInsideRoundTrip(desc: string, k: nat, steps: string)
    requires k < |SchrittAlternatives|
    requires |desc| >= 1
    requires |steps| >= 1 && forall j :: 0 <= j < |steps| ==> IsStepListChar(steps[j])
    ensures CrossReferenceInside(desc + " " + SchrittAlternatives[k] + " " + steps)
         == Some(CrossReference(desc, SchrittAlternatives[k], steps))
  {
    var kw := SchrittAlternatives[k];
    var inner := desc + " " + kw + " " + steps;
    var a := |desc| + |kw| + 2;
    CrossReferenceLayout(inner, desc, kw, steps);
    KeywordEndingAtIs(inner, k, a - 1, false);
    InsideByParts(inner, a, a - 1, a - 1 - |kw|);
  }

  /** Reading the inside from the right: step list, spaces, then the keyword ending at `b`. */
  lemma InsideByParts(inner: string, a: nat, b: nat, kw: nat)
    requires a < |inner| && StepListStart(inner, |inner|) == a
    requires b < a && SkipSpacesBack(inner, a) == b
    requires KeywordEndingAt(inner, b, false) == Some(kw)
    ensures CrossReferenceInside(inner) == Describe(inner, kw, b, a)
  {
  }

  /** The step keyword that ends at `b` is the one the inside is described by. */
  lemma KeywordEndingAtIs(inner: string, k: nat, b: nat, ci: bool)
    requires k < |SchrittAlternatives| && |SchrittAlternatives[k]| <= b <= |inner|
    requires inner[b - |SchrittAlternatives[k]|..b] == SchrittAlternatives[k]
    ensures KeywordEndingAt(inner, b, ci) == Some(b - |SchrittAlternatives[k]|)
  {
    if k == 0 {
      SchrittEndsAt(inner, b, ci);
    } else if k == 1 {
      StapEndsAt(inner, b, ci);
    } else {
      assert At(inner, b - 4, "STEP") && AtIgnoreCase(inner, b - 4, "STEP");
    }
  }

  lemma SchrittEndsAt(inner: string, b: nat, ci: bool)
    requires 7 <= b <= |inner| && inner[b - 7..b] == "SCHRITT"
    ensures KeywordEndingAt(inner, b, ci) == Some(b - 7)
  {
    assert inner[b - 4] == 'R';
    NotAtByLetter(inner, b - 4, "STEP", 0);
    NotAtByLetter(inner, b - 4, "STAP", 0);
    assert !At(inner, b - 4, "STEP") && !At(inner, b - 4, "STAP") by {
      assert inner[b - 4..b][0] == 'R';
    }
    assert At(inner, b - 7, "SCHRITT") && AtIgnoreCase(inner, b - 7, "SCHRITT");
  }

  lemma StapEndsAt(inner: string, b: nat, ci: bool)
    requires 4 <= b <= |inner| && inner[b - 4..b] == "STAP"
    ensures KeywordEndingAt(inner, b, ci) == Some(b - 4)
  {
    assert inner[b - 2] == 'A';
    NotAtByLetter(inner, b - 4, "STEP", 2);
    assert !At(inner, b - 4, "STEP") by {
      assert inner[b - 4..b][2] == 'A';
    }
    assert At(inner, b - 4, "STAP") && AtIgnoreCase(inner, b - 4, "STAP");
  }

  /**
   * The cross-reference pattern has no `i` flag: a step keyword written in
   * lower case is no cross-reference, `(Prog schritt 5)` included.
   */
  lemma LowerCaseKeywordIsNoCrossReference(s: string, desc: string, steps: string)
    requires desc != [] && !IsSpace(desc[|desc| - 1]) && '(' !in desc && ')' !in desc
    requires steps != [] && forall k :: 0 <= k < |steps| ==> IsStepListChar(steps[k])
    requires s == "(" + desc + " schritt " + steps + ")"
    ensures FindCrossReference(s, 0) == None
  {
    var inner := desc + " schritt " + steps;
    assert s == "(" + inner + ")";
    LowerCaseInside(inner, desc, steps);
    NoParenthesisIn(inner, desc, steps);
    NotFoundAtOpening(s, inner);
  }

  lemma NoParenthesisIn(inner: string, desc: string, steps: string)
    requires '(' !in desc && ')' !in desc
    requires forall k :: 0 <= k < |steps| ==> IsStepListChar(steps[k])
    requires inner == desc + " schritt " + steps
    ensures '(' !in inner && ')' !in inner
  {
    forall j | 0 <= j < |inner| ensures inner[j] != '(' && inner[j] != ')' {
      if j < |desc| { assert inner[j] == desc[j] && desc[j] in desc; }
      else if j >= |desc| + 9 { assert inner[j] == steps[j - |desc| - 9]; }
    }
  }

  /** A parenthesis whose inside holds no parenthesis and reads as no cross-reference gives no match. */
  lemma NotFoundAtOpening(s: string, inner: string)
    requires s == "(" + inner + ")" && '(' !in inner && ')' !in inner && CrossReferenceInside(inner).None?
    ensures FindCrossReference(s, 0) == None
  {
    IndexOfClose(s, inner);
    assert s[1..|s| - 1] == inner;
    forall j | 1 <= j < |s| ensures s[j] != '(' {
      if j < |s| - 1 { assert s[j] == inner[j - 1] && inner[j - 1] in inner; }
    }
    NoOpeningFrom(s, 1);
  }

  /** The inside `desc schritt steps` holds no step keyword as the pattern writes it. */
  lemma LowerCaseInside(inner: string, desc: string, steps: string)
    requires desc != [] && !IsSpace(desc[|desc| - 1])
    requires steps != [] && forall k :: 0 <= k < |steps| ==> IsStepListChar(steps[k])
    requires inner == desc + " schritt " + steps
    ensures CrossReferenceInside(inner) == None
  {
    var a := |desc| + 9;
    assert inner[a..] == steps && inner[a - 1] == ' ' && inner[a - 2] == 't';
    StepRunStart(inner, a);
    assert !At(inner, a - 5, "STEP") && !At(inner, a - 5, "STAP") by {
      assert inner[a - 5..a - 1][0] == 'r';
    }
    assert !At(inner, a - 8, "SCHRITT") by {
      assert inner[a - 8..a - 1][0] == 's';
    }
  }

  /** With no `(` left from `i` on, the search finds nothing. */
  lemma {:induction false} NoOpeningFrom(s: string, i: nat)
    requires i <= |s| && forall j :: i <= j < |s| ==> s[j] != '('
    ensures FindCrossReference(s, i) == None
    decreases |s| - i
  {
    if i < |s| {
      NoOpeningFrom(s, i + 1);
    }
  }

  /** Where the parts of `desc KW steps` sit once the inside is read from the right. */
  lemma CrossReferenceLayout(inner: string, desc: string, kw: string, steps: string)
    requires inner == desc + " " + kw + " " + steps
    requires |kw| >= 1 && !IsSpace(kw[|kw| - 1])
    requires |steps| >= 1 && forall j :: 0 <= j < |steps| ==> IsStepListChar(steps[j])
    ensures var a := |desc| + |kw| + 2;
      StepListStart(inner, |inner|) == a && a < |inner| && SkipSpacesBack(inner, a) == a - 1
      && inner[a - 1 - |kw|..a - 1] == kw && inner[..a - 2 - |kw|] == desc
      && IsSpace(inner[a - 2 - |kw|]) && inner[a..] == steps
  {
    var a := |desc| + |kw| + 2;
    CrossReferencePieces(inner, desc, kw, steps);
    StepRunStart(inner, a);
  }

  /** Where description, keyword and step list sit in `desc kw steps`. */
  lemma CrossReferencePieces(inner: string, desc: string, kw: string, steps: string)
    requires inner == desc + " " + kw + " " + steps
    requires |kw| >= 1
    ensures var a := |desc| + |kw| + 2;
      a + |steps| == |inner| && inner[a..] == steps
      && inner[a - 1] == ' ' && inner[a - 2] == kw[|kw| - 1]
      && inner[a - 1 - |kw|..a - 1] == kw && inner[..a - 2 - |kw|] == desc && inner[a - 2 - |kw|] == ' '
  {
    var a := |desc| + |kw| + 2;
    assert inner[a..] == steps;
    assert inner[a - 1 - |kw|..a - 1] == kw;
    assert inner[..a - 2 - |kw|] == desc;
  }

  /** A space, then step characters to the end: the step list starts right after the space. */
  lemma StepRunStart(s: string, a: nat)
    requires 2 <= a < |s| && s[a - 1] == ' ' && !IsSpace(s[a - 2])
    requires forall j :: a <= j < |s| ==> IsStepListChar(s[j])
    ensures StepListStart(s, |s|) == a && SkipSpacesBack(s, a) == a - 1
  {
    assert !IsStepListChar(s[a - 1]);
  }

  /** The first `)` of `(inner)` is its last character when `inner` holds none. */
  lemma IndexOfClose(s: string, inner: string)
    requires s == "(" + inner + ")" && ')' !in inner
    ensures IndexOf(s, ')', 1) == |s| - 1
  {
    forall j | 1 <= j < |s| - 1 ensures s[j] != ')' {
      assert s[j] == inner[j - 1] && inner[j - 1] in inner;
    }
    assert s[|s| - 1] == ')';
  }
}
