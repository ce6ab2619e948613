/**
 * Properties of `parseStandaardwerk` that relate several lines or several
 * operations: the header round trips, the choice the keyword alternation
 * makes, and the bookkeeping of conditions in the statistics.
 */
module StandaardwerkFacts {
  import opened Wrappers
  import opened Text
  import opened SyntaxRules
  import opened Standaardwerk

  // ------------------------------------------------------------------
  // Program header
  // ------------------------------------------------------------------

  /** A line laid out as a trimmed name, one space, `FB` and digits ending at `n`-th position on. */
  lemma ProgramHeaderAt(line: string, n: nat)
    requires 0 < n && n + 3 < |line|
    requires !IsSpace(line[n - 1]) && line[n] == ' ' && line[n + 1] == 'F' && line[n + 2] == 'B'
    requires forall k :: n + 3 <= k < |line| ==> IsDigit(line[k])
    requires NoLineTerminator(line[..n]) && IsTrimmed(line[..n])
    ensures MatchProgramHeader(line) == Some(ProgramHeader(line[..n], line[n + 1..]))
  {
    SkipDigitsBackTo(line, |line|, n + 3);
    assert line[n + 1..n + 3] == "FB";
    SkipSpacesBackTo(line, n + 1, n);
    TrimOfTrimmed(line[..n]);
  }

  /** `name FBn` is read back as the program `name` in block `FBn`. */
  lemma ProgramHeaderRoundTrip(name: string, digits: string)
    requires name != [] && IsTrimmed(name) && NoLineTerminator(name)
    requires digits != [] && AllDigits(digits)
    ensures MatchProgramHeader(name + " FB" + digits) == Some(ProgramHeader(name, "FB" + digits))
    ensures NamingOf(name + " FB" + digits) == ProgramNaming(Some(name), Some("FB" + digits))
  {
    var line := name + " FB" + digits;
    var n := |name|;
    assert line[..n] == name && line[n + 1..] == "FB" + digits;
    assert line[n] == ' ' && line[n + 1] == 'F' && line[n + 2] == 'B' && line[n - 1] == name[n - 1];
    assert forall k :: n + 3 <= k < |line| ==> line[k] == digits[k - n - 3];
    ProgramHeaderAt(line, n);
  }

  // ------------------------------------------------------------------
  // Step headers
  // ------------------------------------------------------------------

  /** A line laid out as `kw`, one space, digits up to `d`, a colon, one space and a description. */
  lemma StepLineNumberedAt(t: string, kw: string, d: nat)
    requires |kw| + 1 < d && d + 1 < |t|
    requires t[..|kw|] == kw && t[|kw|] == ' ' && t[d] == ':' && t[d + 1] == ' '
    requires forall k :: |kw| + 1 <= k < d ==> IsDigit(t[k])
    requires d + 2 == |t| || !IsSpace(t[d + 2])
    requires NoLineTerminator(t[d + 2..])
    ensures StepLineWith(t, kw) == Some(StepLine(kw, Some(t[|kw| + 1..d]), t[d + 2..]))
  {
    var p := |kw|;
    NumberedColonAt(t, p, d);
    SkipSpacesTo(t, d + 1, d + 2);
    StepLineLaidOut(t, kw, d + 1, d + 2);
  }

  /** Spaces and digits up to a colon at `d`: the colon ends there and the number starts after one space. */
  lemma NumberedColonAt(t: string, p: nat, d: nat)
    requires p + 1 < d < |t| && t[p] == ' ' && t[d] == ':'
    requires forall k :: p + 1 <= k < d ==> IsDigit(t[k])
    ensures SkipSpaces(t, p) == p + 1 && StepLineColon(t, p) == d + 1
  {
    SkipSpacesTo(t, p, p + 1);
    SkipDigitsTo(t, p + 1, d);
  }

  /** A step line whose colon ends at `e` and whose description starts at `f`. */
  lemma StepLineLaidOut(t: string, kw: string, e: nat, f: nat)
    requires |kw| <= |t| && t[..|kw|] == kw && e != 0 && StepLineColon(t, |kw|) == e
    requires f <= |t| && SkipSpaces(t, e) == f && NoLineTerminator(t[f..])
    ensures StepLineWith(t, kw)
         == Some(StepLine(kw, if e > |kw| + 1 then Some(t[SkipSpaces(t, |kw|)..e - 1]) else None, t[f..]))
  {
  }

  /** `KW n: desc` is read by the alternative `KW` as keyword, number and description. */
  lemma StepLineNumbered(kw: string, digits: string, desc: string)
    requires digits != [] && AllDigits(digits)
    requires NoLineTerminator(desc) && (desc == [] || !IsSpace(desc[0]))
    ensures StepLineWith(kw + " " + digits + ": " + desc, kw) == Some(StepLine(kw, Some(digits), desc))
  {
    var t := kw + " " + digits + ": " + desc;
    var p := |kw|;
    var d := p + 1 + |digits|;
    assert t[..p] == kw && t[p + 1..d] == digits && t[d + 2..] == desc;
    assert t[p] == ' ' && t[d] == ':' && t[d + 1] == ' ';
    assert forall k :: p + 1 <= k < d ==> t[k] == digits[k - p - 1];
    StepLineNumberedAt(t, kw, d);
  }

  /** A line laid out as `kw`, a colon, one space and a description. */
  lemma StepLineUnnumberedAt(t: string, kw: string)
    requires |kw| + 1 < |t|
    requires t[..|kw|] == kw && t[|kw|] == ':' && t[|kw| + 1] == ' '
    requires |kw| + 2 == |t| || !IsSpace(t[|kw| + 2])
    requires NoLineTerminator(t[|kw| + 2..])
    ensures StepLineWith(t, kw) == Some(StepLine(kw, None, t[|kw| + 2..]))
  {
    var p := |kw|;
    SkipSpacesTo(t, p, p);
    SkipDigitsTo(t, p, p);
    SkipSpacesTo(t, p + 1, p + 2);
  }

  /** `KW: desc` is read by the alternative `KW` with no number. */
  lemma StepLineUnnumbered(kw: string, desc: string)
    requires NoLineTerminator(desc) && (desc == [] || !IsSpace(desc[0]))
    ensures StepLineWith(kw + ": " + desc, kw) == Some(StepLine(kw, None, desc))
  {
    var t := kw + ": " + desc;
    var p := |kw|;
    assert t[..p] == kw && t[p + 2..] == desc;
    assert t[p] == ':' && t[p + 1] == ' ';
    StepLineUnnumberedAt(t, kw);
  }

  /**
   * On a prefix-free table, the header pattern reads a line that starts with
   * a keyword exactly as that keyword's own alternative does.
   */
  lemma MatchStepLineChooses(t: string, kws: seq<string>, k: nat)
    requires PrefixFree(kws) && k < |kws| && StartsWith(t, kws[k])
    ensures MatchStepLine(t, kws) == StepLineWith(t, kws[k])
  {
    forall i | 0 <= i < |kws| && i != k
      ensures StepLineWith(t, kws[i]).None?
    {
      OnlyKeywordAtStart(t, kws, k, i);
    }
    MatchStepLineMeans(t, kws);
  }

  /** No default step spelling is, ignoring case, an idle spelling. */
  lemma StepSpellingNotIdle(k: nat)
    requires k < |DefaultStepKeywords.step|
    ensures forall i :: 0 <= i < |DefaultStepKeywords.rest| ==>
      !EqualsIgnoreCase(DefaultStepKeywords.rest[i], DefaultStepKeywords.step[k])
  {
    var kws := HeaderKeywords(DefaultStepKeywords);
    DefaultHeaderKeywordsPrefixFree();
    forall i | 0 <= i < |DefaultStepKeywords.rest|
      ensures !EqualsIgnoreCase(DefaultStepKeywords.rest[i], DefaultStepKeywords.step[k])
    {
      assert kws[i] == DefaultStepKeywords.rest[i] && kws[3 + k] == DefaultStepKeywords.step[k];
      NoOtherSpelling(kws, i, 3 + k);
    }
  }

  /** With the default tables, `STAP n: desc` is read by its own spelling. */
  lemma DefaultStepHeaderMatch(k: nat, digits: string, desc: string)
    requires k < |DefaultStepKeywords.step| && digits != [] && AllDigits(digits)
    requires NoLineTerminator(desc) && (desc == [] || !IsSpace(desc[0]))
    ensures var line := DefaultStepKeywords.step[k] + " " + digits + ": " + desc;
      MatchStepLine(line, HeaderKeywords(DefaultStepKeywords)) == Some(StepLine(DefaultStepKeywords.step[k], Some(digits), desc))
  {
    var kw := DefaultStepKeywords.step[k];
    var kws := HeaderKeywords(DefaultStepKeywords);
    var line := kw + " " + digits + ": " + desc;
    assert kws[3 + k] == kw;
    assert line[..|kw|] == kw;
    DefaultHeaderKeywordsPrefixFree();
    MatchStepLineChooses(line, kws, 3 + k);
    StepLineNumbered(kw, digits, desc);
  }

  /**
   * With the default tables, `STAP n: desc` (and `SCHRITT`, `STEP`) opens a
   * step numbered `n` with description `desc`.
   */
  lemma DefaultStepHeaderRoundTrip(k: nat, n: nat, desc: string, lineNumber: nat)
    requires k < |DefaultStepKeywords.step|
    requires NoLineTerminator(desc) && (desc == [] || !IsSpace(desc[0]))
    ensures var line := DefaultStepKeywords.step[k] + " " + NatToString(n) + ": " + desc;
      var m := MatchStepLine(line, HeaderKeywords(DefaultStepKeywords));
      m == Some(StepLine(DefaultStepKeywords.step[k], Some(NatToString(n)), desc))
      && StepOf(m.value, DefaultStepKeywords, lineNumber) == Step(Stap, n, desc, [], lineNumber)
  {
    DefaultStepHeaderMatch(k, NatToString(n), desc);
    StepSpellingNotIdle(k);
    DigitsValueOfNatToString(n);
  }

  /** With the default tables, `RUST: desc` (and `RUHE`, `IDLE`) opens the idle step 0. */
  lemma DefaultIdleHeaderRoundTrip(k: nat, desc: string, lineNumber: nat)
    requires k < |DefaultStepKeywords.rest|
    requires NoLineTerminator(desc) && (desc == [] || !IsSpace(desc[0]))
    ensures var line := DefaultStepKeywords.rest[k] + ": " + desc;
      var m := MatchStepLine(line, HeaderKeywords(DefaultStepKeywords));
      m == Some(StepLine(DefaultStepKeywords.rest[k], None, desc))
      && StepOf(m.value, DefaultStepKeywords, lineNumber) == Step(Rust, 0, desc, [], lineNumber)
  {
    var kw := DefaultStepKeywords.rest[k];
    var kws := HeaderKeywords(DefaultStepKeywords);
    var line := kw + ": " + desc;
    assert kws[k] == kw;
    assert line[..|kw|] == kw;
    DefaultHeaderKeywordsPrefixFree();
    MatchStepLineChooses(line, kws, k);
    StepLineUnnumbered(kw, desc);
    assert EqualsIgnoreCase(DefaultStepKeywords.rest[k], kw);
  }

  // ------------------------------------------------------------------
  // Condition bookkeeping
  // ------------------------------------------------------------------

  /** The number of conditions held in the groups of the steps. */
  function ConditionsInSteps(steps: seq<Step>): nat
  {
    if steps == [] then 0
    else ConditionsInSteps(steps[..|steps| - 1]) + |Flatten(steps[|steps| - 1].transitionConditions)|
  }

  /**
   * A condition line: with a step open, the condition joins the last step's
   * groups and is counted; with none, it is collected and not counted. A
   * `*reference*` is counted either way, and nothing else changes.
   */
  lemma AddConditionEffect(st: ParserState, c: Condition)
    ensures var r := AddCondition(st, c);
      var steps := st.listing.steps;
      && r.current == st.current
      && r.listing.statistics.externalReferences
         == st.listing.statistics.externalReferences + (if c.hasExternalRef then 1 else 0)
      && r.listing == st.listing.(steps := r.listing.steps, statistics := r.listing.statistics)
      && r.listing.statistics == st.listing.statistics.(
           totalConditions := r.listing.statistics.totalConditions,
           externalReferences := r.listing.statistics.externalReferences)
      && (|steps| > 0 ==>
            && r.pending == st.pending
            && r.listing.statistics.totalConditions == st.listing.statistics.totalConditions + 1
            && r.listing.steps == WithLastGroups(steps, PlaceCondition(steps[|steps| - 1].transitionConditions, c))
            && Flatten(r.listing.steps[|steps| - 1].transitionConditions)
               == Flatten(steps[|steps| - 1].transitionConditions) + [c])
      && (|steps| == 0 ==>
            && r.pending == st.pending + [c]
            && r.listing.steps == []
            && r.listing.statistics.totalConditions == st.listing.statistics.totalConditions)
  {
  }

  /** Replacing the last step's groups changes the count by the difference of their sizes. */
  lemma ConditionsInLastGroups(steps: seq<Step>, groups: seq<ConditionGroup>)
    requires |steps| > 0
    ensures ConditionsInSteps(WithLastGroups(steps, groups))
      == ConditionsInSteps(steps[..|steps| - 1]) + |Flatten(groups)|
  {
    var r := WithLastGroups(steps, groups);
    assert r[..|r| - 1] == steps[..|steps| - 1];
  }

  lemma ConditionsInPush(steps: seq<Step>, step: Step)
    ensures ConditionsInSteps(steps + [step]) == ConditionsInSteps(steps) + |Flatten(step.transitionConditions)|
  {
    assert (steps + [step])[..|steps|] == steps;
  }

  /** A condition placed in a step's groups adds exactly one to the conditions the steps hold. */
  lemma AddConditionCounted(st: ParserState, c: Condition)
    ensures ConditionsInSteps(AddCondition(st, c).listing.steps)
      == ConditionsInSteps(st.listing.steps) + (if |st.listing.steps| > 0 then 1 else 0)
  {
    AddConditionEffect(st, c);
    var steps := st.listing.steps;
    if |steps| > 0 {
      ConditionPlacedCounted(steps, c);
    }
  }

  /** Placing a condition in the last step's groups adds one to the conditions the steps hold. */
  lemma ConditionPlacedCounted(steps: seq<Step>, c: Condition)
    requires |steps| > 0
    ensures ConditionsInSteps(WithLastGroups(steps, PlaceCondition(steps[|steps| - 1].transitionConditions, c)))
      == ConditionsInSteps(steps) + 1
  {
    var groups := PlaceCondition(steps[|steps| - 1].transitionConditions, c);
    ConditionsInLastGroups(steps, groups);
    assert steps == steps[..|steps| - 1] + [steps[|steps| - 1]];
    ConditionsInPush(steps[..|steps| - 1], steps[|steps| - 1]);
  }

  /**
   * A step header, with conditions still collected and a step before it,
   * replaces that step's groups by one AND group of the collected conditions:
   * the conditions the step held are dropped from the steps although
   * `totalConditions` counted them, and the collected ones, never counted,
   * take their place.
   */
  lemma OpenStepCounted(st: ParserState, step: Step)
    requires step.transitionConditions == []
    ensures var steps := st.listing.steps;
      ConditionsInSteps(OpenStep(st, step).listing.steps)
      == if |steps| > 0 && |st.pending| > 0
         then ConditionsInSteps(steps[..|steps| - 1]) + |st.pending|
         else ConditionsInSteps(steps)
    ensures OpenStep(st, step).listing.statistics == st.listing.statistics
  {
    var steps := st.listing.steps;
    var r := OpenStep(st, step);
    assert r.listing.steps == r.listing.steps[..|r.listing.steps| - 1] + [step];
    ConditionsInPush(r.listing.steps[..|r.listing.steps| - 1], step);
    if |steps| > 0 && |st.pending| > 0 {
      var group := ConditionGroup(And, st.pending);
      assert Flatten([group]) == Flatten([group][..0]) + st.pending;
      ConditionsInLastGroups(steps, [group]);
    }
  }

  /** `totalConditions` is the number of conditions the steps hold. */
  predicate Counted(st: ParserState) {
    st.listing.statistics.totalConditions == ConditionsInSteps(st.listing.steps)
  }

  /** A step header that replaces the previous step's groups by the collected conditions. */
  predicate Replaces(st: ParserState, shape: LineShape) {
    shape.StepHeaderLine? && |st.listing.steps| > 0 && |st.pending| > 0
  }

  /** Every line keeps the count, except a step header that replaces groups. */
  lemma ApplyCounted(st: ParserState, shape: LineShape)
    requires Counted(st) && !Replaces(st, shape)
    requires shape.StepHeaderLine? ==> shape.step.transitionConditions == []
    ensures Counted(Apply(st, shape))
  {
    match shape
    case StepHeaderLine(step) => OpenStepCounted(st, step);
    case ConditionLine(c) =>
      AddConditionEffect(st, c);
      AddConditionCounted(st, c);
    case DeclarationLine(d) =>
    case Blank =>
    case ProgramLine(naming) =>
    case IdbLine(value) =>
    case OtherLine =>
  }

  /** Every header a reading offers opens a step with no groups yet. */
  predicate FreshHeaders(readings: seq<LineReading>) {
    forall i :: 0 <= i < |readings| && readings[i].header.Some? ==> readings[i].header.value.transitionConditions == []
  }

  lemma ReadAllFreshHeaders(lines: seq<string>, keywords: StepKeywords, detection: VariableDetection)
    ensures FreshHeaders(ReadAll(lines, keywords, detection))
  {
    var readings := ReadAll(lines, keywords, detection);
    forall i | 0 <= i < |readings| && readings[i].header.Some?
      ensures readings[i].header.value.transitionConditions == []
    {
      assert readings[i] == Reading(lines[i], keywords, detection);
    }
  }

  /** No line among the first `n` is a step header that replaces groups. */
  predicate NoReplacement(readings: seq<LineReading>, n: nat)
    requires n <= |readings|
  {
    n == 0 || (NoReplacement(readings, n - 1) && !Replaces(Run(readings, n - 1), Classify(Run(readings, n - 1), readings[n - 1], n)))
  }

  /**
   * As long as no step header meets collected conditions after an earlier
   * step, `totalConditions` equals the number of conditions in the steps.
   */
  lemma {:induction false} RunCounted(readings: seq<LineReading>, n: nat)
    requires n <= |readings| && FreshHeaders(readings) && NoReplacement(readings, n)
    ensures Counted(Run(readings, n))
  {
    if n > 0 {
      RunCounted(readings, n - 1);
      RunCountedStep(readings, n);
    }
  }

  lemma RunCountedStep(readings: seq<LineReading>, n: nat)
    requires 0 < n <= |readings| && FreshHeaders(readings) && NoReplacement(readings, n)
    requires Counted(Run(readings, n - 1))
    ensures Counted(Run(readings, n))
  {
    var st := Run(readings, n - 1);
    var shape := Classify(st, readings[n - 1], n);
    assert !Replaces(st, shape);
    ApplyCounted(st, shape);
  }

  /** Collected conditions exist only for an open declaration and before the second step. */
  predicate PendingEarly(st: ParserState) {
    |st.pending| > 0 ==> |st.listing.steps| <= 1 && st.current.Some?
  }

  lemma ProcessLinePendingEarly(st: ParserState, reading: LineReading, n: nat)
    requires PendingEarly(st)
    ensures PendingEarly(ProcessLine(st, reading, n))
  {
    var shape := Classify(st, reading, n);
    match shape
    case ConditionLine(c) =>
      AddConditionEffect(st, c);
    case StepHeaderLine(step) =>
    case DeclarationLine(d) =>
    case Blank =>
    case ProgramLine(naming) =>
    case IdbLine(value) =>
    case OtherLine =>
  }

  /**
   * Conditions are collected only while no step is open, so the replacement
   * of groups can only happen at the second step header, to the first step.
   */
  lemma {:induction false} RunPendingEarly(readings: seq<LineReading>, n: nat)
    requires n <= |readings|
    ensures PendingEarly(Run(readings, n))
    ensures n < |readings| && Replaces(Run(readings, n), Classify(Run(readings, n), readings[n], n + 1))
      ==> |Run(readings, n).listing.steps| == 1
  {
    if n > 0 {
      RunPendingEarly(readings, n - 1);
      ProcessLinePendingEarly(Run(readings, n - 1), readings[n - 1], n);
    }
  }
}
