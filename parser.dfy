/**
 * `parseStandaardwerk`: reads a step listing line by line into a program
 * header, steps with grouped transition conditions, variable declarations
 * sorted by kind, and statistics.
 *
 * The line matchers below are the regular expressions of the source written
 * out as recognisers; `ParseStandaardwerk` is the `forEach` loop, proved
 * equal to the fold `Parsed` over the per-line transition `ProcessLine`.
 */
module Standaardwerk {
  import opened Wrappers
  import opened Text
  import opened SyntaxRules

  datatype GroupOperator = And | Or

  datatype Comparison = Comparison(variable: string, operator: string, value: string)

  datatype Condition = Condition(
    text: string,
    negated: bool,
    hasExternalRef: bool,
    isTimeCondition: bool,
    comparison: Option<Comparison>,
    lineNumber: nat,
    operator: GroupOperator)

  datatype ConditionGroup = ConditionGroup(operator: GroupOperator, conditions: seq<Condition>)

  datatype StepKind = Rust | Stap

  datatype Step = Step(
    kind: StepKind,
    number: nat,
    description: string,
    transitionConditions: seq<ConditionGroup>,
    lineNumber: nat)

  datatype VariableKind = Storing | Timer | Marker | Plain

  datatype Declaration = Declaration(name: string, kind: VariableKind, conditions: seq<Condition>, lineNumber: nat)

  datatype Statistics = Statistics(
    totalSteps: nat,
    totalConditions: nat,
    totalVariables: nat,
    externalReferences: nat,
    complexityScore: nat)

  datatype Listing = Listing(
    programName: string,
    functionBlock: string,
    symbolikIDB: string,
    steps: seq<Step>,
    variables: seq<Declaration>,
    timers: seq<Declaration>,
    markers: seq<Declaration>,
    storingen: seq<Declaration>,
    statistics: Statistics)

  const EmptyListing: Listing :=
    Listing("", "", "", [], [], [], [], [], Statistics(0, 0, 0, 0, 0))

  // ------------------------------------------------------------------
  // Variable kinds
  // ------------------------------------------------------------------

  /** Some keyword, lower-cased, starts `s`. */
  predicate SomeKeywordStarts(s: string, kws: seq<string>) {
    exists k :: 0 <= k < |kws| && StartsWith(s, Lower(kws[k]))
  }

  /** Some keyword, lower-cased, occurs in `s`. */
  predicate SomeKeywordOccurs(s: string, kws: seq<string>) {
    exists k :: 0 <= k < |kws| && Contains(s, Lower(kws[k]))
  }

  /** `kws.some(k => s.startsWith(k.toLowerCase()))`, scanning from index `j`. */
  function AnyStarts(s: string, kws: seq<string>, j: nat): bool
    requires j <= |kws|
    decreases |kws| - j
  {
    if j == |kws| then false
    else StartsWith(s, Lower(kws[j])) || AnyStarts(s, kws, j + 1)
  }

  lemma {:induction false} AnyStartsMeans(s: string, kws: seq<string>, j: nat)
    requires j <= |kws|
    ensures AnyStarts(s, kws, j) <==> exists k :: j <= k < |kws| && StartsWith(s, Lower(kws[k]))
    decreases |kws| - j
  {
    if j < |kws| {
      AnyStartsMeans(s, kws, j + 1);
    }
  }

  /** `kws.some(k => s.includes(k.toLowerCase()))`, scanning from index `j`. */
  function AnyOccurs(s: string, kws: seq<string>, j: nat): bool
    requires j <= |kws|
    decreases |kws| - j
  {
    if j == |kws| then false
    else Contains(s, Lower(kws[j])) || AnyOccurs(s, kws, j + 1)
  }

  lemma {:induction false} AnyOccursMeans(s: string, kws: seq<string>, j: nat)
    requires j <= |kws|
    ensures AnyOccurs(s, kws, j) <==> exists k :: j <= k < |kws| && Contains(s, Lower(kws[k]))
    decreases |kws| - j
  {
    if j < |kws| {
      AnyOccursMeans(s, kws, j + 1);
    }
  }

  /**
   * `detectVariableType`: a fault keyword at the start of the lower-cased
   * name wins over a timer keyword anywhere in it, which wins over a marker
   * keyword anywhere in it; every other name is a plain variable.
   */
  function DetectVariableType(name: string, detection: VariableDetection): VariableKind
  {
    var lowerName := Lower(name);
    if name == [] then Plain
    else if AnyStarts(lowerName, detection.storingKeywords, 0) then Storing
    else if AnyOccurs(lowerName, detection.timerKeywords, 0) then Timer
    else if AnyOccurs(lowerName, detection.markerKeywords, 0) then Marker
    else Plain
  }

  /** The kind of a declared name, in the order fault, timer, marker, plain. */
  lemma VariableKindPriority(name: string, detection: VariableDetection)
    ensures var r := DetectVariableType(name, detection);
      && (name == [] ==> r == Plain)
      && (name != [] ==> (r == Storing <==> SomeKeywordStarts(Lower(name), detection.storingKeywords)))
      && (name != [] ==> (r == Timer <==>
            !SomeKeywordStarts(Lower(name), detection.storingKeywords)
            && SomeKeywordOccurs(Lower(name), detection.timerKeywords)))
      && (name != [] ==> (r == Marker <==>
            !SomeKeywordStarts(Lower(name), detection.storingKeywords)
            && !SomeKeywordOccurs(Lower(name), detection.timerKeywords)
            && SomeKeywordOccurs(Lower(name), detection.markerKeywords)))
  {
    AnyStartsMeans(Lower(name), detection.storingKeywords, 0);
    AnyOccursMeans(Lower(name), detection.timerKeywords, 0);
    AnyOccursMeans(Lower(name), detection.markerKeywords, 0);
  }

  // ------------------------------------------------------------------
  // Line shapes
  // ------------------------------------------------------------------

  /** `/^\s/`: the line starts with a space or tab. */
  predicate IsIndented(line: string) {
    |line| > 0 && IsSpace(line[0])
  }

  datatype ProgramHeader = ProgramHeader(name: string, block: string)

  /**
   * `^(.+?)\s+(FB\d+)$`: the line ends in `FB` and digits, with spaces before
   * them and a name free of line breaks before the spaces.
   */
  function MatchProgramHeader(line: string): (r: Option<ProgramHeader>)
    ensures r.Some? ==> |r.value.block| >= 3 && r.value.block[..2] == "FB" && AllDigits(r.value.block[2..])
    ensures r.Some? ==> EndsWith(line, r.value.block)
    ensures r.Some? ==> IsTrimmed(r.value.name)
  {
    var t := SkipDigitsBack(line, |line|);
    if t == |line| || t < 2 || line[t - 2..t] != "FB" then None
    else
      var j := t - 2;
      var b := SkipSpacesBack(line, j);
      var i := if b == 0 then 1 else b;
      if i < j && NoLineTerminator(line[..i]) then
        assert line[j..][..2] == line[t - 2..t];
        Some(ProgramHeader(Trim(line[..i]), line[j..]))
      else None
  }

  /** `line.startsWith('Symbool IDB:') || line.startsWith('Symbolik IDB:')`, and the trimmed text after the colon. */
  function SymbolikValue(line: string): (r: Option<string>)
    ensures r.Some? <==> StartsWith(line, "Symbool IDB:") || StartsWith(line, "Symbolik IDB:")
    ensures r.Some? ==> IsTrimmed(r.value)
  {
    if StartsWith(line, "Symbool IDB:") then Some(Trim(line[12..]))
    else if StartsWith(line, "Symbolik IDB:") then Some(Trim(line[13..]))
    else None
  }

  /** `^([A-Za-z][A-Za-z0-9_]*)\s*=`: the declared name. */
  function VariableName(line: string): (r: Option<string>)
    ensures r.Some? ==> |r.value| >= 1 && IsLetter(r.value[0]) && StartsWith(line, r.value)
    ensures r.Some? ==> forall k :: 0 <= k < |r.value| ==> IsWordChar(r.value[k])
  {
    if |line| == 0 || !IsLetter(line[0]) then None
    else
      var a := SkipWordChars(line, 1);
      var s := SkipSpaces(line, a);
      if s < |line| && line[s] == '=' then Some(line[..a]) else None
  }

  datatype StepLine = StepLine(keyword: string, number: Option<string>, description: string)

  /**
   * `^(KW)(?:\s+(\d+))?:\s*(.*)$` for one alternative `KW` of the keyword
   * alternation, ignoring case.
   */
  function StepLineWith(t: string, kw: string): (r: Option<StepLine>)
  {
    var p := |kw|;
    if p > |t| || !EqualsIgnoreCase(t[..p], kw) then None
    else
      var e := StepLineColon(t, p);
      if e == 0 then None
      else
        var number := if e > p + 1 then Some(t[SkipSpaces(t, p)..e - 1]) else None;
        var f := SkipSpaces(t, e);
        if NoLineTerminator(t[f..]) then Some(StepLine(t[..p], number, t[f..])) else None
  }

  /** What a step line reads: the keyword as written, a number of digits, a description running to the end of the line. */
  lemma StepLineShape(t: string, kw: string)
    ensures var r := StepLineWith(t, kw);
      r.Some? ==>
        && EqualsIgnoreCase(r.value.keyword, kw) && StartsWith(t, r.value.keyword)
        && (r.value.number.Some? ==> |r.value.number.value| >= 1 && AllDigits(r.value.number.value))
        && NoLineTerminator(r.value.description) && EndsWith(t, r.value.description)
  {
  }

  /**
   * Where the colon of a step line ends, the keyword ending at `p`: after
   * spaces and digits, or right after the keyword; 0 when there is none.
   */
  function StepLineColon(t: string, p: nat): (e: nat)
    requires p <= |t|
    ensures e == 0 || (p < e <= |t| && t[e - 1] == ':')
    ensures e > p + 1 ==> p < SkipSpaces(t, p) < e - 1 && AllDigits(t[SkipSpaces(t, p)..e - 1])
  {
    var q := SkipSpaces(t, p);
    var d := SkipDigits(t, q);
    if q > p && d > q && d < |t| && t[d] == ':' then
      SkippedDigits(t, q);
      d + 1
    else if p < |t| && t[p] == ':' then p + 1
    else 0
  }

  /** Whether some entry of `bs` from index `i` on holds: a pattern test tried at each position in turn. */
  function AnyFrom(bs: seq<bool>, i: nat): bool
    requires i <= |bs|
    decreases |bs| - i
  {
    if i == |bs| then false else bs[i] || AnyFrom(bs, i + 1)
  }

  lemma {:induction false} AnyFromMeans(bs: seq<bool>, i: nat)
    requires i <= |bs|
    ensures AnyFrom(bs, i) <==> exists k :: i <= k < |bs| && bs[k]
    decreases |bs| - i
  {
    if i < |bs| {
      AnyFromMeans(bs, i + 1);
      if !bs[i] && exists k :: i <= k < |bs| && bs[k] {
        var k :| i <= k < |bs| && bs[k];
        assert i + 1 <= k;
      }
    }
  }

  /** The first present entry of `xs` from index `j` on: the alternative an ordered alternation settles on. */
  function FirstPresent<T>(xs: seq<Option<T>>, j: nat): (r: Option<T>)
    requires j <= |xs|
    decreases |xs| - j
  {
    if j == |xs| then None
    else if xs[j].Some? then xs[j]
    else FirstPresent(xs, j + 1)
  }

  lemma {:induction false} FirstPresentMeans<T>(xs: seq<Option<T>>, j: nat)
    requires j <= |xs|
    ensures FirstPresent(xs, j).None? <==> forall k :: j <= k < |xs| ==> xs[k].None?
    ensures FirstPresent(xs, j).Some? ==>
      exists k :: j <= k < |xs| && xs[k] == FirstPresent(xs, j) && forall i :: j <= i < k ==> xs[i].None?
    decreases |xs| - j
  {
    if j < |xs| {
      FirstPresentMeans(xs, j + 1);
      if xs[j].None? && FirstPresent(xs, j).Some? {
        var k :| j + 1 <= k < |xs| && xs[k] == FirstPresent(xs, j + 1) && forall i :: j + 1 <= i < k ==> xs[i].None?;
        assert forall i :: j <= i < k ==> xs[i].None?;
      }
    }
  }

  /** The alternative at `k` is the one settled on when it matches and no earlier one does. */
  lemma FirstPresentIs<T>(xs: seq<Option<T>>, k: nat)
    requires k < |xs| && xs[k].Some? && forall i :: 0 <= i < k ==> xs[i].None?
    ensures FirstPresent(xs, 0) == xs[k]
  {
    FirstPresentMeans(xs, 0);
  }

  /** The step-header pattern with alternatives `kws`, tried in order. */
  function MatchStepLine(t: string, kws: seq<string>): Option<StepLine>
  {
    FirstPresent(seq(|kws|, k requires 0 <= k < |kws| => StepLineWith(t, kws[k])), 0)
  }

  /**
   * The header pattern matches exactly when one of its alternatives does, and
   * then it reads the line with the first such alternative.
   */
  lemma MatchStepLineMeans(t: string, kws: seq<string>)
    ensures MatchStepLine(t, kws).None? <==> forall k :: 0 <= k < |kws| ==> StepLineWith(t, kws[k]).None?
    ensures MatchStepLine(t, kws).Some? ==>
      exists k :: 0 <= k < |kws| && MatchStepLine(t, kws) == StepLineWith(t, kws[k])
        && forall i :: 0 <= i < k ==> StepLineWith(t, kws[i]).None?
  {
    var tries := seq(|kws|, k requires 0 <= k < |kws| => StepLineWith(t, kws[k]));
    assert forall k :: 0 <= k < |kws| ==> tries[k] == StepLineWith(t, kws[k]);
    assert MatchStepLine(t, kws) == FirstPresent(tries, 0);
    FirstPresentMeans(tries, 0);
  }

  /** The step a matched header opens: a rest keyword gives `RUST` 0, any other the number or 0. */
  function StepOf(m: StepLine, keywords: StepKeywords, lineNumber: nat): (r: Step)
    ensures r.kind == Rust <==> exists k :: 0 <= k < |keywords.rest| && EqualsIgnoreCase(keywords.rest[k], m.keyword)
    ensures r.kind == Rust ==> r.number == 0
    ensures r.kind == Stap && m.number.Some? && AllDigits(m.number.value) ==> r.number == DigitsValue(m.number.value)
    ensures r.transitionConditions == [] && r.description == m.description && r.lineNumber == lineNumber
  {
    var isRest := exists k :: 0 <= k < |keywords.rest| && EqualsIgnoreCase(keywords.rest[k], m.keyword);
    var number := if !isRest && m.number.Some? && AllDigits(m.number.value) then DigitsValue(m.number.value) else 0;
    Step(if isRest then Rust else Stap, number, m.description, [], lineNumber)
  }

  // ------------------------------------------------------------------
  // Condition facets
  // ------------------------------------------------------------------

  /** The negation words of `/^(NIET|NOT|NICHT)\s+/i`, in pattern order. */
  const NegationWords: seq<string> := ["NIET", "NOT", "NICHT"]

  /** The alternatives of `(==|!=|<>|>=|<=|>|<)`, in pattern order. */
  const ComparisonOperators: seq<string> := ["==", "!=", "<>", ">=", "<=", ">", "<"]

  /** `t` starts, ignoring case, with the negation word `kw` followed by a space. */
  predicate NegatedBy(t: string, kw: string) {
    AtIgnoreCase(t, 0, kw) && |kw| < |t| && IsSpace(t[|kw|])
  }

  /** `/^(NIET|NOT|NICHT)\s+/i` from alternative `j`: the length of the matched word. */
  function NegationFrom(t: string, j: nat): (r: Option<nat>)
    requires j <= |NegationWords|
    ensures r.Some? ==> r.value < |t|
    decreases |NegationWords| - j
  {
    if j == |NegationWords| then None
    else if NegatedBy(t, NegationWords[j]) then Some(|NegationWords[j]|)
    else NegationFrom(t, j + 1)
  }

  lemma {:induction false} NegationFromMeans(t: string, j: nat)
    requires j <= |NegationWords|
    ensures NegationFrom(t, j).Some? <==> exists k :: j <= k < |NegationWords| && NegatedBy(t, NegationWords[k])
    ensures NegationFrom(t, j).Some? ==>
      exists k :: j <= k < |NegationWords| && NegatedBy(t, NegationWords[k]) && NegationFrom(t, j).value == |NegationWords[k]|
    decreases |NegationWords| - j
  {
    if j < |NegationWords| && !NegatedBy(t, NegationWords[j]) {
      NegationFromMeans(t, j + 1);
    }
  }

  /** `*ref*`: two stars with at least one other character and no star between them. */
  predicate StarredAt(s: string, a: nat, b: nat) {
    a + 1 < b < |s| && s[a] == '*' && s[b] == '*' && forall k :: a < k < b ==> s[k] != '*'
  }

  // The test for `*reference*` (a star, one or more non-stars, a star),
  // searching from position `i`.
  function ExternalRefFrom(s: string, i: nat): bool
    requires i <= |s|
    decreases |s| - i
  {
    if i == |s| then false
    else if s[i] == '*' && i + 1 < IndexOf(s, '*', i + 1) < |s| then true
    else ExternalRefFrom(s, i + 1)
  }

  lemma {:induction false} ExternalRefFromMeans(s: string, i: nat)
    requires i <= |s|
    ensures ExternalRefFrom(s, i) <==> exists a, b :: i <= a && StarredAt(s, a, b)
    decreases |s| - i
  {
    if i == |s| {
    } else if s[i] == '*' && i + 1 < IndexOf(s, '*', i + 1) < |s| {
      assert StarredAt(s, i, IndexOf(s, '*', i + 1));
    } else {
      ExternalRefFromMeans(s, i + 1);
      if exists a, b :: i <= a && StarredAt(s, a, b) {
        var a, b :| i <= a && StarredAt(s, a, b);
        assert a != i;
      }
    }
  }

  /**
   * `(?:TIJD|ZEIT|TIME)\s*~\s*(\d+)\s*(Sek|Min|s|m)` ignoring case, at position
   * `i`: every unit alternative starts with `s` or `m`, so the unit is decided
   * by the character after the number and its spaces.
   */
  predicate TimeClauseAt(t: string, i: nat) {
    (AtIgnoreCase(t, i, "TIJD") || AtIgnoreCase(t, i, "ZEIT") || AtIgnoreCase(t, i, "TIME"))
    && var b := SkipSpaces(t, i + 4);
    b < |t| && t[b] == '~'
    && var c := SkipSpaces(t, b + 1);
    var d := SkipDigits(t, c);
    d > c
    && var e := SkipSpaces(t, d);
    e < |t| && t[e] in "sSmM"
  }

  /** Whether the time pattern matches anywhere from position `i`. */
  function TimeClauseFrom(t: string, i: nat): bool
    requires i <= |t|
  {
    AnyFrom(seq(|t|, k requires 0 <= k < |t| => TimeClauseAt(t, k)), i)
  }

  lemma TimeClauseFromMeans(t: string, i: nat)
    requires i <= |t|
    ensures TimeClauseFrom(t, i) <==> exists k :: i <= k < |t| && TimeClauseAt(t, k)
  {
    var marks := seq(|t|, k requires 0 <= k < |t| => TimeClauseAt(t, k));
    assert forall k :: 0 <= k < |t| ==> marks[k] == TimeClauseAt(t, k);
    AnyFromMeans(marks, i);
  }

  /** `[a-zA-Z0-9_.\[\]]`, the characters of a compared variable. */
  predicate IsPathChar(c: char) {
    IsWordChar(c) || c == '.' || c == '[' || c == ']'
  }

  function SkipPathChars(s: string, i: nat): (r: nat)
    requires i <= |s|
    ensures i <= r <= |s|
    ensures forall k :: i <= k < r ==> IsPathChar(s[k])
    ensures r == |s| || !IsPathChar(s[r])
    decreases |s| - i
  {
    if i < |s| && IsPathChar(s[i]) then SkipPathChars(s, i + 1) else i
  }

  /** `.replace(/["']/g, '')`. */
  function RemoveQuotes(s: string): (r: string)
    ensures |r| <= |s|
    ensures forall k :: 0 <= k < |r| ==> r[k] != '"' && r[k] != '\''
    ensures (forall k :: 0 <= k < |s| ==> s[k] != '"' && s[k] != '\'') ==> r == s
  {
    if s == [] then []
    else
      var rest := RemoveQuotes(s[1..]);
      assert s == [s[0]] + s[1..];
      if s[0] == '"' || s[0] == '\'' then rest else [s[0]] + rest
  }

  /** Every character other than a quote is kept as often as it occurs. */
  lemma {:induction false} RemoveQuotesCounts(s: string)
    ensures forall c :: multiset(RemoveQuotes(s))[c] == if c == '"' || c == '\'' then 0 else multiset(s)[c]
    decreases |s|
  {
    if s != [] {
      var rest := RemoveQuotes(s[1..]);
      RemoveQuotesCounts(s[1..]);
      assert s == [s[0]] + s[1..];
      assert multiset(s) == multiset{s[0]} + multiset(s[1..]);
      if s[0] != '"' && s[0] != '\'' {
        assert multiset([s[0]] + rest) == multiset{s[0]} + multiset(rest);
      }
    }
  }

  /** Removing quotes from a concatenation removes them from each part, so the other characters keep their order. */
  lemma {:induction false} RemoveQuotesAppend(s: string, t: string)
    ensures RemoveQuotes(s + t) == RemoveQuotes(s) + RemoveQuotes(t)
  {
    if s == [] {
      assert s + t == t;
    } else {
      assert (s + t)[0] == s[0] && (s + t)[1..] == s[1..] + t;
      RemoveQuotesAppend(s[1..], t);
    }
  }

  /**
   * The operator alternatives from index `j` after the variable `t[..a]` and
   * the spaces up to `s`; an alternative matches when a value follows it.
   */
  function ComparisonFrom(t: string, a: nat, s: nat, j: nat): (r: Option<Comparison>)
    requires a <= s <= |t| && j <= |ComparisonOperators|
    ensures r.Some? ==> r.value.variable == t[..a] && At(t, s, r.value.operator)
    ensures r.Some? ==> r.value.operator in ComparisonOperators[j..]
    ensures r.Some? ==> forall k :: 0 <= k < |r.value.value| ==> r.value.value[k] != '"' && r.value.value[k] != '\''
    decreases |ComparisonOperators| - j
  {
    if j == |ComparisonOperators| then None
    else
      var op := ComparisonOperators[j];
      var o := s + |op|;
      if At(t, s, op) && o < |t| then
        var v := SkipSpaces(t, o);
        var x := if v < |t| then v else |t| - 1;
        if NoLineTerminator(t[x..]) then Some(Comparison(t[..a], op, RemoveQuotes(Trim(t[x..]))))
        else ComparisonFrom(t, a, s, j + 1)
      else ComparisonFrom(t, a, s, j + 1)
  }

  /** `^([a-zA-Z0-9_.\[\]]+)\s*(==|!=|<>|>=|<=|>|<)\s*(.+)$`. */
  function MatchComparison(t: string): (r: Option<Comparison>)
    ensures r.Some? ==> |r.value.variable| >= 1 && StartsWith(t, r.value.variable)
    ensures r.Some? ==> forall k :: 0 <= k < |r.value.variable| ==> IsPathChar(r.value.variable[k])
    ensures r.Some? ==> r.value.operator in ComparisonOperators
  {
    var a := SkipPathChars(t, 0);
    if a == 0 then None else ComparisonFrom(t, a, SkipSpaces(t, a), 0)
  }

  /**
   * The condition a trimmed line `t` describes: a `+ ` prefix makes it an OR
   * condition, a negation word is stripped and recorded, and the rest is
   * searched for a `*reference*`, a time clause and a comparison.
   */
  function ReadCondition(t: string, lineNumber: nat): Condition
  {
    var isOr := StartsWith(t, "+ ");
    var t1 := if isOr then Trim(t[2..]) else t;
    var negation := NegationFrom(t1, 0);
    var t2 := if negation.Some? then Trim(t1[negation.value..]) else t1;
    Condition(t2, negation.Some?, ExternalRefFrom(t2, 0), TimeClauseFrom(t2, 0), MatchComparison(t2), lineNumber,
      if isOr then Or else And)
  }

  /** The facets a condition line gets. */
  lemma ConditionFacets(t: string, lineNumber: nat)
    ensures var r := ReadCondition(t, lineNumber);
      var t1 := if StartsWith(t, "+ ") then Trim(t[2..]) else t;
      && (r.operator == Or <==> StartsWith(t, "+ "))
      && (r.negated <==> exists k :: 0 <= k < |NegationWords| && NegatedBy(t1, NegationWords[k]))
      && (!r.negated ==> r.text == t1)
      && (r.negated ==> exists k :: (0 <= k < |NegationWords| && NegatedBy(t1, NegationWords[k])
            && r.text == Trim(t1[|NegationWords[k]|..])))
      && (IsTrimmed(t) ==> IsTrimmed(r.text))
      && (r.hasExternalRef <==> exists a, b :: StarredAt(r.text, a, b))
      && (r.isTimeCondition <==> exists k :: 0 <= k < |r.text| && TimeClauseAt(r.text, k))
      && r.comparison == MatchComparison(r.text) && r.lineNumber == lineNumber
  {
    var t1 := if StartsWith(t, "+ ") then Trim(t[2..]) else t;
    NegationFromMeans(t1, 0);
    var r := ReadCondition(t, lineNumber);
    ExternalRefFromMeans(r.text, 0);
    TimeClauseFromMeans(r.text, 0);
  }

  // ------------------------------------------------------------------
  // Condition groups
  // ------------------------------------------------------------------

  /** All conditions of a group list, group by group. */
  function Flatten(groups: seq<ConditionGroup>): seq<Condition>
  {
    if groups == [] then [] else Flatten(groups[..|groups| - 1]) + groups[|groups| - 1].conditions
  }

  /**
   * Where a condition goes in a step's group list: an OR condition after
   * existing groups opens an OR group, the first condition opens an AND group,
   * and any other condition joins the last group, whatever its operator.
   */
  function PlaceCondition(groups: seq<ConditionGroup>, c: Condition): (r: seq<ConditionGroup>)
    ensures Flatten(r) == Flatten(groups) + [c]
    ensures |r| == if c.operator == Or || groups == [] then |groups| + 1 else |groups|
    ensures r[|r| - 1].operator == (if c.operator == Or && groups != [] then Or
                                    else if groups == [] then And else groups[|groups| - 1].operator)
    ensures |r| > 1 ==> r[..|groups|] == groups || r[..|r| - 1] == groups[..|groups| - 1]
  {
    if c.operator == Or && groups != [] then
      var r := groups + [ConditionGroup(Or, [c])];
      assert r[..|r| - 1] == groups;
      r
    else if groups == [] then
      assert Flatten([ConditionGroup(And, [c])][..0]) == [];
      [ConditionGroup(And, [c])]
    else
      var last := groups[|groups| - 1];
      var r := groups[..|groups| - 1] + [last.(conditions := last.conditions + [c])];
      assert r[..|r| - 1] == groups[..|groups| - 1];
      r
  }

  // ------------------------------------------------------------------
  // The line-by-line reader
  // ------------------------------------------------------------------

  /** The declaration list that holds variables of `kind`. */
  function DeclarationsOf(l: Listing, kind: VariableKind): seq<Declaration>
  {
    match kind
    case Storing => l.storingen
    case Timer => l.timers
    case Marker => l.markers
    case Plain => l.variables
  }

  /** A new declaration pushed onto the list of its kind. */
  function Declare(l: Listing, d: Declaration): (r: Listing)
    ensures DeclarationsOf(r, d.kind) == DeclarationsOf(l, d.kind) + [d]
    ensures forall kind :: kind != d.kind ==> DeclarationsOf(r, kind) == DeclarationsOf(l, kind)
    ensures r.steps == l.steps && r.statistics == l.statistics
  {
    match d.kind
    case Storing => l.(storingen := l.storingen + [d])
    case Timer => l.(timers := l.timers + [d])
    case Marker => l.(markers := l.markers + [d])
    case Plain => l.(variables := l.variables + [d])
  }

  /** The open declaration, the last of its kind's list, receives `conditions`. */
  function WithConditions(l: Listing, kind: VariableKind, conditions: seq<Condition>): (r: Listing)
    ensures |DeclarationsOf(l, kind)| > 0 ==>
      var ds := DeclarationsOf(l, kind);
      DeclarationsOf(r, kind) == ds[..|ds| - 1] + [ds[|ds| - 1].(conditions := conditions)]
    ensures forall other :: other != kind ==> DeclarationsOf(r, other) == DeclarationsOf(l, other)
    ensures |DeclarationsOf(r, kind)| == |DeclarationsOf(l, kind)|
    ensures forall i :: 0 <= i < |DeclarationsOf(l, kind)| ==>
      DeclarationsOf(r, kind)[i].kind == DeclarationsOf(l, kind)[i].kind
      && DeclarationsOf(r, kind)[i].lineNumber == DeclarationsOf(l, kind)[i].lineNumber
    ensures r.steps == l.steps && r.statistics == l.statistics
  {
    var ds := DeclarationsOf(l, kind);
    if ds == [] then l
    else
      var ds' := ds[..|ds| - 1] + [ds[|ds| - 1].(conditions := conditions)];
      match kind
      case Storing => l.(storingen := ds')
      case Timer => l.(timers := ds')
      case Marker => l.(markers := ds')
      case Plain => l.(variables := ds')
  }

  /** The last step with its transition groups replaced. */
  function WithLastGroups(steps: seq<Step>, groups: seq<ConditionGroup>): (r: seq<Step>)
    requires |steps| > 0
    ensures |r| == |steps| && r[..|r| - 1] == steps[..|steps| - 1]
    ensures r[|r| - 1] == steps[|steps| - 1].(transitionConditions := groups)
    ensures forall i :: 0 <= i < |r| ==> SameHeader(r[i], steps[i])
  {
    steps[..|steps| - 1] + [steps[|steps| - 1].(transitionConditions := groups)]
  }

  /**
   * The reader's state between lines: the result so far, the kind of the open
   * declaration (the last of that kind's list), and the conditions collected
   * for it. The open step is always the last step.
   */
  datatype ParserState = ParserState(listing: Listing, current: Option<VariableKind>, pending: seq<Condition>)

  /** A blank line hands the collected conditions to the open declaration. */
  function FlushPending(st: ParserState): (r: ParserState)
    ensures r.current == st.current && r.listing.steps == st.listing.steps
    ensures st.current.Some? && |st.pending| > 0 && |DeclarationsOf(st.listing, st.current.value)| > 0 ==>
      var ds := DeclarationsOf(r.listing, st.current.value);
      r.pending == [] && |ds| > 0 && ds[|ds| - 1].conditions == st.pending
  {
    if |st.pending| > 0 && st.current.Some? then
      ParserState(WithConditions(st.listing, st.current.value, st.pending), st.current, [])
    else st
  }

  /** What the program-naming line sets: the program name, the function block, both or neither. */
  datatype ProgramNaming = ProgramNaming(name: Option<string>, block: Option<string>)

  /**
   * The first non-blank, un-indented line names the program: `name FBn` sets
   * the name and the block, a line without `:` sets the name, any other line
   * sets nothing.
   */
  function NamingOf(line: string): (r: ProgramNaming)
    ensures MatchProgramHeader(line).Some? ==>
      r == ProgramNaming(Some(MatchProgramHeader(line).value.name), Some(MatchProgramHeader(line).value.block))
    ensures MatchProgramHeader(line).None? && ':' !in line ==> r == ProgramNaming(Some(Trim(line)), None)
    ensures MatchProgramHeader(line).None? && ':' in line ==> r == ProgramNaming(None, None)
  {
    match MatchProgramHeader(line)
    case Some(h) => ProgramNaming(Some(h.name), Some(h.block))
    case None => if ':' in line then ProgramNaming(None, None) else ProgramNaming(Some(Trim(line)), None)
  }

  /** The naming applied to the result; nothing else changes. */
  function Rename(st: ParserState, naming: ProgramNaming): (r: ParserState)
    ensures r.current == st.current && r.pending == st.pending
    ensures r.listing == st.listing.(programName := r.listing.programName, functionBlock := r.listing.functionBlock)
    ensures r.listing.programName == if naming.name.Some? then naming.name.value else st.listing.programName
    ensures r.listing.functionBlock == if naming.block.Some? then naming.block.value else st.listing.functionBlock
  {
    var l := st.listing;
    var l' := if naming.name.Some? then l.(programName := naming.name.value) else l;
    st.(listing := if naming.block.Some? then l'.(functionBlock := naming.block.value) else l')
  }

  /**
   * A declaration line: the previous declaration receives its collected
   * conditions, and the new one, with no conditions yet, joins the list of its
   * kind and becomes the open declaration.
   */
  function OpenDeclaration(st: ParserState, d: Declaration): (r: ParserState)
    ensures r.current == Some(d.kind) && r.pending == []
    ensures var ds := DeclarationsOf(r.listing, d.kind); |ds| > 0 && ds[|ds| - 1] == d
    ensures r.listing.steps == st.listing.steps && r.listing.statistics == st.listing.statistics
  {
    var l := st.listing;
    var flushed := if st.current.Some? && |st.pending| > 0 then WithConditions(l, st.current.value, st.pending) else l;
    ParserState(Declare(flushed, d), Some(d.kind), [])
  }

  /**
   * A step header appends its step. Conditions still collected at that point
   * replace the groups of the previous step, when there is one.
   */
  function OpenStep(st: ParserState, step: Step): (r: ParserState)
    ensures |r.listing.steps| == |st.listing.steps| + 1
    ensures r.listing.steps[..|r.listing.steps| - 1] ==
      if |st.listing.steps| > 0 && |st.pending| > 0
      then WithLastGroups(st.listing.steps, [ConditionGroup(And, st.pending)])
      else st.listing.steps
    ensures r.listing.steps[|r.listing.steps| - 1] == step
    ensures r.current == st.current && r.listing == st.listing.(steps := r.listing.steps)
  {
    var l := st.listing;
    if |l.steps| > 0 && |st.pending| > 0 then
      ParserState(l.(steps := WithLastGroups(l.steps, [ConditionGroup(And, st.pending)]) + [step]), st.current, [])
    else
      ParserState(l.(steps := l.steps + [step]), st.current, st.pending)
  }

  /** A condition with a `*reference*` is counted in `externalReferences`. */
  function CountReference(s: Statistics, c: Condition): Statistics
  {
    if c.hasExternalRef then s.(externalReferences := s.externalReferences + 1) else s
  }

  /**
   * A condition line: with a step open it is placed in the last step's groups
   * and counted; otherwise it is collected for the open declaration.
   */
  function AddCondition(st: ParserState, c: Condition): ParserState
  {
    var l := st.listing;
    var stats := CountReference(l.statistics, c);
    if |l.steps| > 0 then
      var last := l.steps[|l.steps| - 1];
      var steps := WithLastGroups(l.steps, PlaceCondition(last.transitionConditions, c));
      ParserState(l.(steps := steps, statistics := stats.(totalConditions := stats.totalConditions + 1)), st.current, st.pending)
    else
      ParserState(l.(statistics := stats), st.current, st.pending + [c])
  }

  /**
   * Everything one line can say, read without the reader's state: its trimmed
   * text, whether it is indented, the naming it would give the program, and
   * the IDB value, declaration, step and condition it would make. The
   * declaration, step and condition carry line number 0 until the line is
   * applied at its position.
   */
  datatype LineReading = LineReading(
    trimmed: string,
    indented: bool,
    naming: ProgramNaming,
    idb: Option<string>,
    declared: Option<Declaration>,
    header: Option<Step>,
    condition: Condition)

  function Reading(line: string, keywords: StepKeywords, detection: VariableDetection): (r: LineReading)
    ensures r.trimmed == Trim(line) && r.indented == IsIndented(line)
    ensures r.idb == SymbolikValue(line)
    ensures r.declared.Some? <==> VariableName(line).Some?
    ensures r.header.Some? <==> MatchStepLine(Trim(line), keywords.rest + keywords.step).Some?
  {
    var t := Trim(line);
    var declared := match VariableName(line)
      case Some(name) => Some(Declaration(name, DetectVariableType(name, detection), [], 0))
      case None => None;
    var header := match MatchStepLine(t, keywords.rest + keywords.step)
      case Some(m) => Some(StepOf(m, keywords, 0))
      case None => None;
    LineReading(t, IsIndented(line), NamingOf(line), SymbolikValue(line), declared, header, ReadCondition(t, 0))
  }

  /** What a line does, once the reader's state has picked its shape. */
  datatype LineShape =
    | Blank
    | ProgramLine(naming: ProgramNaming)
    | IdbLine(value: string)
    | DeclarationLine(declaration: Declaration)
    | StepHeaderLine(step: Step)
    | ConditionLine(condition: Condition)
    | OtherLine

  /** What a shape records of line `n` carries that line number. */
  predicate NumberedAt(shape: LineShape, n: nat) {
    match shape
    case DeclarationLine(d) => d.lineNumber == n && d.conditions == []
    case StepHeaderLine(step) => step.lineNumber == n
    case ConditionLine(c) => c.lineNumber == n
    case _ => true
  }

  /**
   * The blank, program-header, IDB, declaration, step-header and condition
   * shapes, tried in that order for line `n`; the first that fits decides.
   */
  function Classify(st: ParserState, reading: LineReading, n: nat): (r: LineShape)
    ensures NumberedAt(r, n)
    ensures r.Blank? <==> reading.trimmed == []
  {
    if reading.trimmed == [] then Blank
    else if st.listing.programName == [] && !reading.indented then ProgramLine(reading.naming)
    else if reading.idb.Some? then IdbLine(reading.idb.value)
    else if reading.declared.Some? then DeclarationLine(reading.declared.value.(lineNumber := n, conditions := []))
    else if reading.header.Some? then StepHeaderLine(reading.header.value.(lineNumber := n))
    else if |st.listing.steps| > 0 || st.current.Some? then ConditionLine(reading.condition.(lineNumber := n))
    else OtherLine
  }

  /** What a line of the given shape does to the state. */
  function Apply(st: ParserState, shape: LineShape): ParserState
  {
    match shape
    case Blank => FlushPending(st)
    case ProgramLine(naming) => Rename(st, naming)
    case IdbLine(value) => st.(listing := st.listing.(symbolikIDB := value))
    case DeclarationLine(d) => OpenDeclaration(st, d)
    case StepHeaderLine(step) => OpenStep(st, step)
    case ConditionLine(c) => AddCondition(st, c)
    case OtherLine => st
  }

  /** What line `n`, read as `reading`, does to the state. */
  function ProcessLine(st: ParserState, reading: LineReading, n: nat): ParserState
  {
    Apply(st, Classify(st, reading, n))
  }

  /** The state after the first `n` lines. */
  function Run(readings: seq<LineReading>, n: nat): ParserState
    requires n <= |readings|
  {
    if n == 0 then ParserState(EmptyListing, None, [])
    else ProcessLine(Run(readings, n - 1), readings[n - 1], n)
  }

  /** Each line of `lines` read on its own. */
  function ReadAll(lines: seq<string>, keywords: StepKeywords, detection: VariableDetection): (r: seq<LineReading>)
    ensures |r| == |lines|
  {
    seq(|lines|, i requires 0 <= i < |lines| => Reading(lines[i], keywords, detection))
  }

  /** `Math.round(2S + 1.5C + 1.2V + 3R)` in integer arithmetic. */
  function ComplexityScore(steps: nat, conditions: nat, variables: nat, references: nat): nat
  {
    (20 * steps + 15 * conditions + 12 * variables + 30 * references + 5) / 10
  }

  /** The end of input: pending conditions go to the open declaration, then the statistics are totalled. */
  function Finish(st: ParserState): (r: Listing)
    ensures r.statistics.totalSteps == |r.steps|
    ensures r.statistics.totalVariables == |r.variables| + |r.timers| + |r.markers| + |r.storingen|
  {
    var l := if st.current.Some? && |st.pending| > 0 then WithConditions(st.listing, st.current.value, st.pending) else st.listing;
    var s := |l.steps|;
    var v := |l.variables| + |l.timers| + |l.markers| + |l.storingen|;
    var c := l.statistics.totalConditions;
    var refs := l.statistics.externalReferences;
    l.(statistics := Statistics(s, c, v, refs, ComplexityScore(s, c, v, refs)))
  }

  /** `parseStandaardwerk(code, syntaxRules)` as a value. */
  function Parsed(code: string, keywords: StepKeywords, detection: VariableDetection): Listing
  {
    var lines := Split(code, '\n');
    Finish(Run(ReadAll(lines, keywords, detection), |lines|))
  }

  /**
   * `parseStandaardwerk`: the `forEach` over the lines of `code`, with the
   * open declaration, the collected conditions and the result updated in
   * place line by line.
   */
  method ParseStandaardwerk(code: string, keywords: StepKeywords, detection: VariableDetection)
    returns (result: Listing)
    ensures result == Parsed(code, keywords, detection)
  {
    var lines := Split(code, '\n');
    var current, pending;
    result, current, pending := ReadLines(lines, keywords, detection);
    result := CloseListing(result, current, pending);
  }

  /** The `forEach` itself: every line read in order, the state carried from one to the next. */
  method ReadLines(lines: seq<string>, keywords: StepKeywords, detection: VariableDetection)
    returns (result: Listing, current: Option<VariableKind>, pending: seq<Condition>)
    ensures ParserState(result, current, pending) == Run(ReadAll(lines, keywords, detection), |lines|)
  {
    result, current, pending := EmptyListing, None, [];
    var index := 0;
    ghost var readings := ReadAll(lines, keywords, detection);
    ghost var state := Run(readings, 0);
    while index < |lines|
      invariant index <= |lines| && state == Run(readings, index)
      invariant state.listing == result && state.current == current && state.pending == pending
    {
      result, current, pending := ReadNextLine(result, current, pending, lines, index, keywords, detection);
      index := index + 1;
      state := Run(readings, index);
    }
  }

  /** One turn of the `forEach`: line `index + 1` read into the state the earlier lines left. */
  method ReadNextLine(listing: Listing, open: Option<VariableKind>, collected: seq<Condition>, lines: seq<string>,
                      index: nat, keywords: StepKeywords, detection: VariableDetection)
    returns (result: Listing, current: Option<VariableKind>, pending: seq<Condition>)
    requires index < |lines|
    requires ParserState(listing, open, collected) == Run(ReadAll(lines, keywords, detection), index)
    ensures ParserState(result, current, pending) == Run(ReadAll(lines, keywords, detection), index + 1)
  {
    RunNext(lines, index, keywords, detection);
    result, current, pending := ReadLine(listing, open, collected, lines[index], index + 1, keywords, detection);
  }

  lemma RunNext(lines: seq<string>, index: nat, keywords: StepKeywords, detection: VariableDetection)
    requires index < |lines|
    ensures Run(ReadAll(lines, keywords, detection), index + 1)
         == ProcessLine(Run(ReadAll(lines, keywords, detection), index), Reading(lines[index], keywords, detection), index + 1)
  {
  }

  /** After the last line: the collected conditions go to the open declaration and the statistics are totalled. */
  method CloseListing(listing: Listing, current: Option<VariableKind>, pending: seq<Condition>) returns (result: Listing)
    ensures result == Finish(ParserState(listing, current, pending))
  {
    result := listing;
    if current.Some? && |pending| > 0 {
      result := WithConditions(result, current.value, pending);
    }
    var totalSteps := |result.steps|;
    var totalVariables := |result.variables| + |result.timers| + |result.markers| + |result.storingen|;
    var totalConditions := result.statistics.totalConditions;
    var references := result.statistics.externalReferences;
    result := result.(statistics := Statistics(totalSteps, totalConditions, totalVariables, references,
      ComplexityScore(totalSteps, totalConditions, totalVariables, references)));
  }

  /**
   * The condition branch of the loop body: the reference counter, then either
   * the open step's groups and the condition counter, or the collected list.
   */
  method AttachCondition(listing: Listing, current: Option<VariableKind>, pending: seq<Condition>, condition: Condition)
    returns (result: Listing, collected: seq<Condition>)
    ensures ParserState(result, current, collected) == AddCondition(ParserState(listing, current, pending), condition)
  {
    var statistics := CountReference(listing.statistics, condition);
    if |listing.steps| > 0 {
      var last := listing.steps[|listing.steps| - 1];
      result := listing.(steps := WithLastGroups(listing.steps, PlaceCondition(last.transitionConditions, condition)),
                         statistics := statistics.(totalConditions := statistics.totalConditions + 1));
      collected := pending;
    } else {
      result := listing.(statistics := statistics);
      collected := pending + [condition];
    }
  }

  /**
   * The body of the `forEach`: line `lineNumber` tried against the blank,
   * program-header, IDB, declaration, step-header and condition shapes in
   * that order.
   */
  method ReadLine(listing: Listing, open: Option<VariableKind>, collected: seq<Condition>, line: string, lineNumber: nat,
                  keywords: StepKeywords, detection: VariableDetection)
    returns (result: Listing, current: Option<VariableKind>, pending: seq<Condition>)
    ensures ParserState(result, current, pending)
         == ProcessLine(ParserState(listing, open, collected), Reading(line, keywords, detection), lineNumber)
  {
    result, current, pending := listing, open, collected;
    ghost var before := ParserState(listing, open, collected);
    var trimmedLine := Trim(line);
    if trimmedLine == [] {
      if |pending| > 0 && current.Some? {
        result := WithConditions(result, current.value, pending);
        pending := [];
      }
      ProcessAsBlank(before, Reading(line, keywords, detection), lineNumber);
    } else if result.programName == [] && !IsIndented(line) {
      var header := MatchProgramHeader(line);
      if header.Some? {
        result := result.(programName := header.value.name, functionBlock := header.value.block);
      } else if ':' !in line {
        result := result.(programName := trimmedLine);
      }
      assert ParserState(result, current, pending) == Rename(before, NamingOf(line));
      ProcessAsProgram(before, Reading(line, keywords, detection), lineNumber);
    } else if SymbolikValue(line).Some? {
      result := result.(symbolikIDB := SymbolikValue(line).value);
      ProcessAsIdb(before, Reading(line, keywords, detection), lineNumber);
    } else {
      result, current, pending := ReadEntryLine(listing, open, collected, line, lineNumber, keywords, detection);
    }
  }

  /** The rest of the loop body: a line that is a declaration, a step header or a condition. */
  method ReadEntryLine(listing: Listing, open: Option<VariableKind>, collected: seq<Condition>, line: string, lineNumber: nat,
                       keywords: StepKeywords, detection: VariableDetection)
    returns (result: Listing, current: Option<VariableKind>, pending: seq<Condition>)
    requires Trim(line) != [] && !(listing.programName == [] && !IsIndented(line)) && SymbolikValue(line).None?
    ensures ParserState(result, current, pending)
         == ProcessLine(ParserState(listing, open, collected), Reading(line, keywords, detection), lineNumber)
  {
    result, current, pending := listing, open, collected;
    var trimmedLine := Trim(line);
    if VariableName(line).Some? {
      var name := VariableName(line).value;
      var kind := DetectVariableType(name, detection);
      result, current, pending := DeclareVariable(result, current, pending, Declaration(name, kind, [], lineNumber));
      DeclarationLineRead(ParserState(listing, open, collected), line, lineNumber, keywords, detection);
    } else if MatchStepLine(trimmedLine, keywords.rest + keywords.step).Some? {
      var header := MatchStepLine(trimmedLine, keywords.rest + keywords.step).value;
      result, pending := StartStep(result, pending, StepOf(header, keywords, lineNumber));
      StepLineRead(ParserState(listing, open, collected), line, lineNumber, keywords, detection);
    } else {
      if |result.steps| > 0 || current.Some? {
        var condition := ReadCondition(trimmedLine, lineNumber);
        result, pending := AttachCondition(result, current, pending, condition);
      }
      ConditionLineRead(ParserState(listing, open, collected), line, lineNumber, keywords, detection);
    }
  }

  /**
   * The declaration branch of the loop body: the open declaration receives
   * the collected conditions, and the new one is pushed and opened.
   */
  method DeclareVariable(listing: Listing, open: Option<VariableKind>, collected: seq<Condition>, declaration: Declaration)
    returns (result: Listing, current: Option<VariableKind>, pending: seq<Condition>)
    ensures ParserState(result, current, pending) == OpenDeclaration(ParserState(listing, open, collected), declaration)
  {
    result := listing;
    if open.Some? && |collected| > 0 {
      result := WithConditions(result, open.value, collected);
    }
    result := Declare(result, declaration);
    current := Some(declaration.kind);
    pending := [];
  }

  /**
   * The step-header branch of the loop body: conditions still collected
   * replace the previous step's groups, then the new step is appended.
   */
  method StartStep(listing: Listing, collected: seq<Condition>, step: Step)
    returns (result: Listing, pending: seq<Condition>)
    ensures forall open :: ParserState(result, open, pending) == OpenStep(ParserState(listing, open, collected), step)
  {
    result, pending := listing, collected;
    if |result.steps| > 0 && |pending| > 0 {
      result := result.(steps := WithLastGroups(result.steps, [ConditionGroup(And, pending)]));
      pending := [];
    }
    result := result.(steps := result.steps + [step]);
  }

  lemma DeclarationLineRead(st: ParserState, line: string, n: nat, keywords: StepKeywords, detection: VariableDetection)
    requires Trim(line) != [] && !(st.listing.programName == [] && !IsIndented(line)) && SymbolikValue(line).None?
    requires VariableName(line).Some?
    ensures var name := VariableName(line).value;
      ProcessLine(st, Reading(line, keywords, detection), n)
      == OpenDeclaration(st, Declaration(name, DetectVariableType(name, detection), [], n))
  {
    ProcessAsDeclaration(st, Reading(line, keywords, detection), n);
  }

  lemma StepLineRead(st: ParserState, line: string, n: nat, keywords: StepKeywords, detection: VariableDetection)
    requires Trim(line) != [] && !(st.listing.programName == [] && !IsIndented(line)) && SymbolikValue(line).None?
    requires VariableName(line).None? && MatchStepLine(Trim(line), keywords.rest + keywords.step).Some?
    ensures ProcessLine(st, Reading(line, keywords, detection), n)
         == OpenStep(st, StepOf(MatchStepLine(Trim(line), keywords.rest + keywords.step).value, keywords, n))
  {
    ProcessAsStep(st, Reading(line, keywords, detection), n);
  }

  lemma ConditionLineRead(st: ParserState, line: string, n: nat, keywords: StepKeywords, detection: VariableDetection)
    requires Trim(line) != [] && !(st.listing.programName == [] && !IsIndented(line)) && SymbolikValue(line).None?
    requires VariableName(line).None? && MatchStepLine(Trim(line), keywords.rest + keywords.step).None?
    ensures ProcessLine(st, Reading(line, keywords, detection), n)
         == if |st.listing.steps| > 0 || st.current.Some? then AddCondition(st, ReadCondition(Trim(line), n)) else st
  {
    ProcessAsCondition(st, Reading(line, keywords, detection), n);
    ConditionRenumbered(Trim(line), n);
  }

  lemma ConditionRenumbered(t: string, n: nat)
    ensures ReadCondition(t, 0).(lineNumber := n) == ReadCondition(t, n)
  {
  }

  lemma ProcessAsBlank(st: ParserState, r: LineReading, n: nat)
    requires r.trimmed == []
    ensures ProcessLine(st, r, n) == FlushPending(st)
  {
  }

  lemma ProcessAsProgram(st: ParserState, r: LineReading, n: nat)
    requires r.trimmed != [] && st.listing.programName == [] && !r.indented
    ensures ProcessLine(st, r, n) == Rename(st, r.naming)
  {
  }

  lemma ProcessAsIdb(st: ParserState, r: LineReading, n: nat)
    requires r.trimmed != [] && !(st.listing.programName == [] && !r.indented) && r.idb.Some?
    ensures ProcessLine(st, r, n) == st.(listing := st.listing.(symbolikIDB := r.idb.value))
  {
  }

  /** An entry line that is none of blank, program header and IDB line. */
  predicate EntryReading(st: ParserState, r: LineReading) {
    r.trimmed != [] && !(st.listing.programName == [] && !r.indented) && r.idb.None?
  }

  lemma ProcessAsDeclaration(st: ParserState, r: LineReading, n: nat)
    requires EntryReading(st, r) && r.declared.Some?
    ensures ProcessLine(st, r, n) == OpenDeclaration(st, r.declared.value.(lineNumber := n, conditions := []))
  {
  }

  lemma ProcessAsStep(st: ParserState, r: LineReading, n: nat)
    requires EntryReading(st, r) && r.declared.None? && r.header.Some?
    ensures ProcessLine(st, r, n) == OpenStep(st, r.header.value.(lineNumber := n))
  {
  }

  lemma ProcessAsCondition(st: ParserState, r: LineReading, n: nat)
    requires EntryReading(st, r) && r.declared.None? && r.header.None?
    ensures ProcessLine(st, r, n)
         == if |st.listing.steps| > 0 || st.current.Some? then AddCondition(st, r.condition.(lineNumber := n)) else st
  {
  }

  // ------------------------------------------------------------------
  // Properties of the reader
  // ------------------------------------------------------------------

  /** `Math.round` of the weighted sum is the integer the score computes. */
  lemma ComplexityScoreIsRounded(steps: nat, conditions: nat, variables: nat, references: nat)
    ensures var x := 2.0 * steps as real + 1.5 * conditions as real + 1.2 * variables as real + 3.0 * references as real;
      var score := ComplexityScore(steps, conditions, variables, references) as real;
      score <= x + 0.5 < score + 1.0
  {
    var total := 20 * steps + 15 * conditions + 12 * variables + 30 * references;
    var q := (total + 5) / 10;
    assert q * 10 <= total + 5 < q * 10 + 10;
    var x := 2.0 * steps as real + 1.5 * conditions as real + 1.2 * variables as real + 3.0 * references as real;
    assert x * 10.0 == total as real;
    assert (q * 10) as real <= total as real + 5.0 < (q * 10 + 10) as real;
  }

  /** Steps are kept in source order, each with the number of a line already read. */
  predicate StepsInOrder(steps: seq<Step>, n: nat) {
    (forall i :: 0 <= i < |steps| ==> 1 <= steps[i].lineNumber <= n)
    && (forall i, j :: 0 <= i < j < |steps| ==> steps[i].lineNumber < steps[j].lineNumber)
  }

  /** Every declaration sits in the list of its own kind. */
  predicate DeclarationsSorted(l: Listing, n: nat) {
    forall kind, i :: 0 <= i < |DeclarationsOf(l, kind)| ==>
      DeclarationsOf(l, kind)[i].kind == kind && 1 <= DeclarationsOf(l, kind)[i].lineNumber <= n
  }

  /** The reader's invariant after `n` lines. */
  predicate WellFormed(st: ParserState, n: nat) {
    StepsInOrder(st.listing.steps, n)
    && DeclarationsSorted(st.listing, n)
    && (st.current.Some? ==> |DeclarationsOf(st.listing, st.current.value)| > 0)
  }

  lemma DeclarationsSortedLater(l: Listing, n: nat)
    requires DeclarationsSorted(l, n)
    ensures DeclarationsSorted(l, n + 1)
  {
  }

  lemma FlushPendingWellFormed(st: ParserState, n: nat)
    requires WellFormed(st, n)
    ensures WellFormed(FlushPending(st), n)
  {
    if |st.pending| > 0 && st.current.Some? {
      WithConditionsSorted(st.listing, st.current.value, st.pending, n);
    }
  }

  /** Handing conditions to a declaration keeps every declaration in its kind's list. */
  lemma WithConditionsSorted(l: Listing, kind: VariableKind, conditions: seq<Condition>, n: nat)
    requires DeclarationsSorted(l, n)
    ensures DeclarationsSorted(WithConditions(l, kind, conditions), n)
  {
  }

  /** Pushing a declaration of line `n` onto its kind's list keeps the lists sorted. */
  lemma DeclareSorted(l: Listing, d: Declaration, n: nat)
    requires DeclarationsSorted(l, n) && 1 <= d.lineNumber <= n
    ensures DeclarationsSorted(Declare(l, d), n)
  {
    forall kind, i | 0 <= i < |DeclarationsOf(Declare(l, d), kind)|
      ensures DeclarationsOf(Declare(l, d), kind)[i].kind == kind
      ensures 1 <= DeclarationsOf(Declare(l, d), kind)[i].lineNumber <= n
    {
      if kind == d.kind && i == |DeclarationsOf(l, kind)| {
        assert DeclarationsOf(Declare(l, d), kind)[i] == d;
      } else {
        assert DeclarationsOf(Declare(l, d), kind)[i] == DeclarationsOf(l, kind)[i];
      }
    }
  }

  lemma StepsInOrderLater(steps: seq<Step>, n: nat)
    requires StepsInOrder(steps, n)
    ensures StepsInOrder(steps, n + 1)
  {
  }

  lemma OpenDeclarationWellFormed(st: ParserState, d: Declaration, n: nat)
    requires n >= 1 && WellFormed(st, n - 1) && d.lineNumber == n
    ensures WellFormed(OpenDeclaration(st, d), n)
  {
    DeclarationsSortedLater(st.listing, n - 1);
    StepsInOrderLater(st.listing.steps, n - 1);
    var flushed := if st.current.Some? && |st.pending| > 0 then WithConditions(st.listing, st.current.value, st.pending) else st.listing;
    if st.current.Some? && |st.pending| > 0 {
      WithConditionsSorted(st.listing, st.current.value, st.pending, n);
    }
    DeclareSorted(flushed, d, n);
  }

  lemma StepsInOrderKept(later: seq<Step>, earlier: seq<Step>, n: nat)
    requires StepsInOrder(earlier, n) && StepsExtend(later, earlier) && |later| == |earlier|
    ensures StepsInOrder(later, n)
  {
    assert forall i :: 0 <= i < |later| ==> later[i].lineNumber == earlier[i].lineNumber;
  }

  lemma StepsInOrderPush(steps: seq<Step>, step: Step, n: nat)
    requires n >= 1 && StepsInOrder(steps, n - 1) && step.lineNumber == n
    ensures StepsInOrder(steps + [step], n)
  {
  }

  lemma OpenStepWellFormed(st: ParserState, step: Step, n: nat)
    requires n >= 1 && WellFormed(st, n - 1) && step.lineNumber == n
    ensures WellFormed(OpenStep(st, step), n)
  {
    var r := OpenStep(st, step);
    var steps := st.listing.steps;
    var prefix := r.listing.steps[..|r.listing.steps| - 1];
    assert StepsExtend(prefix, steps) && |prefix| == |steps|;
    StepsInOrderKept(prefix, steps, n - 1);
    StepsInOrderPush(prefix, step, n);
    assert r.listing.steps == prefix + [step];
    DeclarationsSortedLater(st.listing, n - 1);
    SameDeclarations(st.listing, r.listing, n);
  }

  lemma AddConditionWellFormed(st: ParserState, c: Condition, n: nat)
    requires n >= 1 && WellFormed(st, n - 1)
    ensures WellFormed(AddCondition(st, c), n)
  {
    var r := AddCondition(st, c);
    var steps := st.listing.steps;
    assert StepsExtend(r.listing.steps, steps) && |r.listing.steps| == |steps|;
    StepsInOrderKept(r.listing.steps, steps, n - 1);
    assert StepsInOrder(r.listing.steps, n);
    DeclarationsSortedLater(st.listing, n - 1);
    SameDeclarations(st.listing, r.listing, n);
  }

  lemma ApplyWellFormed(st: ParserState, shape: LineShape, n: nat)
    requires n >= 1 && WellFormed(st, n - 1) && NumberedAt(shape, n)
    ensures WellFormed(Apply(st, shape), n)
  {
    DeclarationsSortedLater(st.listing, n - 1);
    match shape
    case Blank => FlushPendingWellFormed(st, n);
    case ProgramLine(naming) => SameDeclarations(st.listing, Apply(st, shape).listing, n);
    case IdbLine(_) => SameDeclarations(st.listing, Apply(st, shape).listing, n);
    case DeclarationLine(d) => OpenDeclarationWellFormed(st, d, n);
    case StepHeaderLine(step) => OpenStepWellFormed(st, step, n);
    case ConditionLine(c) => AddConditionWellFormed(st, c, n);
    case OtherLine =>
  }

  /** The declaration lists, and so their order, are untouched. */
  lemma SameDeclarations(l: Listing, l': Listing, n: nat)
    requires DeclarationsSorted(l, n)
    requires l'.variables == l.variables && l'.timers == l.timers
    requires l'.markers == l.markers && l'.storingen == l.storingen
    ensures DeclarationsSorted(l', n)
    ensures forall kind :: DeclarationsOf(l', kind) == DeclarationsOf(l, kind)
  {
    assert forall kind :: DeclarationsOf(l', kind) == DeclarationsOf(l, kind);
  }

  lemma ProcessLineWellFormed(st: ParserState, reading: LineReading, n: nat)
    requires n >= 1 && WellFormed(st, n - 1)
    ensures WellFormed(ProcessLine(st, reading, n), n)
  {
    ApplyWellFormed(st, Classify(st, reading, n), n);
  }

  /** After any number of lines the steps are in source order and every declaration is in its own kind's list. */
  lemma {:induction false} RunWellFormed(readings: seq<LineReading>, n: nat)
    requires n <= |readings|
    ensures WellFormed(Run(readings, n), n)
  {
    if n == 0 {
      RunStartWellFormed(readings);
    } else {
      RunWellFormed(readings, n - 1);
      RunStepWellFormed(readings, n);
    }
  }

  lemma RunStartWellFormed(readings: seq<LineReading>)
    ensures WellFormed(Run(readings, 0), 0)
  {
  }

  lemma RunStepWellFormed(readings: seq<LineReading>, n: nat)
    requires 0 < n <= |readings| && WellFormed(Run(readings, n - 1), n - 1)
    ensures WellFormed(Run(readings, n), n)
  {
    ProcessLineWellFormed(Run(readings, n - 1), readings[n - 1], n);
  }

  /** A step's header fields, which nothing after its header line changes. */
  predicate SameHeader(a: Step, b: Step) {
    a.kind == b.kind && a.number == b.number && a.description == b.description && a.lineNumber == b.lineNumber
  }

  /** The later steps list extends the earlier one, header by header. */
  predicate StepsExtend(later: seq<Step>, earlier: seq<Step>) {
    |earlier| <= |later| && forall i :: 0 <= i < |earlier| ==> SameHeader(later[i], earlier[i])
  }

  lemma ApplyKeepsSteps(st: ParserState, shape: LineShape)
    ensures StepsExtend(Apply(st, shape).listing.steps, st.listing.steps)
  {
    match shape
    case StepHeaderLine(step) => OpenStepKeepsSteps(st, step);
    case ConditionLine(c) => AddConditionKeepsSteps(st, c);
    case _ =>
  }

  lemma OpenStepKeepsSteps(st: ParserState, step: Step)
    ensures StepsExtend(OpenStep(st, step).listing.steps, st.listing.steps)
  {
    var r := OpenStep(st, step);
    var prefix := r.listing.steps[..|r.listing.steps| - 1];
    assert forall i :: 0 <= i < |st.listing.steps| ==> r.listing.steps[i] == prefix[i];
  }

  lemma AddConditionKeepsSteps(st: ParserState, c: Condition)
    ensures StepsExtend(AddCondition(st, c).listing.steps, st.listing.steps)
  {
  }

  /** Once a step header is read, its step stays at its position with its header unchanged. */
  lemma {:induction false} StepsOnlyGrow(readings: seq<LineReading>, m: nat, n: nat)
    requires m <= n <= |readings|
    ensures StepsExtend(Run(readings, n).listing.steps, Run(readings, m).listing.steps)
    decreases n - m
  {
    if m < n {
      var st := Run(readings, n - 1);
      StepsOnlyGrow(readings, m, n - 1);
      ApplyKeepsSteps(st, Classify(st, readings[n - 1], n));
    }
  }
}
