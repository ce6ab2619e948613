/**
 * `StandardWorkParser`: a parser object that keeps the step it is filling
 * (`currentStep`) and the result of its last run (`result`) in its fields.
 * Un-indented lines are tried as a variable, timer, marker or fault entry,
 * then as an idle, step or end header; indented lines after a header become
 * that step's conditions.
 */
module StandardWork {
  import opened Wrappers
  import opened Text
  import opened SyntaxRules
  import Standaardwerk

  datatype TimerEntry = TimerEntry(duration: nat, unit: string)

  /** A variable `{name, value}`, a marker `{name, value}` or a fault `{name, description}`. */
  datatype NamedEntry = NamedEntry(name: string, text: string)

  datatype StepType = Rust | Stap | End

  /** What `parseStep` returns for a header line. */
  datatype StepHeader = StepHeader(stepType: StepType, keyword: string, number: nat, description: string)

  datatype WorkStep = WorkStep(
    header: StepHeader,
    conditions: seq<string>,
    timers: seq<TimerEntry>,
    markers: seq<NamedEntry>,
    storingen: seq<NamedEntry>,
    lineNumber: nat)

  datatype WorkResult = WorkResult(
    steps: seq<WorkStep>,
    variables: seq<NamedEntry>,
    timers: seq<TimerEntry>,
    markers: seq<NamedEntry>,
    storingen: seq<NamedEntry>,
    errors: seq<string>)

  const EmptyWorkResult: WorkResult := WorkResult([], [], [], [], [], [])

  // ------------------------------------------------------------------
  // Variable definitions
  // ------------------------------------------------------------------

  /** `\s*=\s*(.*)$` after a name that ends at `a`. */
  function AssignmentAfter(t: string, a: nat): (r: Option<NamedEntry>)
    requires 1 <= a <= |t|
    ensures r.Some? ==> r.value.name == t[..a] && NoLineTerminator(r.value.text) && EndsWith(t, r.value.text)
  {
    var s := SkipSpaces(t, a);
    if s < |t| && t[s] == '=' then
      var v := SkipSpaces(t, s + 1);
      if NoLineTerminator(t[v..]) then Some(NamedEntry(t[..a], t[v..])) else None
    else None
  }

  /** `[A-ZaZ0-9_]`: upper-case letters, the letter `a`, digits and `_`. */
  predicate IsWrittenNameChar(c: char) {
    IsUpper(c) || c == 'a' || c == 'Z' || IsDigit(c) || c == '_'
  }

  function SkipWrittenNameChars(s: string, i: nat): (r: nat)
    requires i <= |s|
    ensures i <= r <= |s|
    ensures forall k :: i <= k < r ==> IsWrittenNameChar(s[k])
    ensures r == |s| || !IsWrittenNameChar(s[r])
    decreases |s| - i
  {
    if i < |s| && IsWrittenNameChar(s[i]) then SkipWrittenNameChars(s, i + 1) else i
  }

  /** `^([A-Za-z_][A-ZaZ0-9_]*)\s*=\s*(.*)$`, with the character class as written. */
  function VariableDefinitionAsWritten(t: string): (r: Option<NamedEntry>)
    ensures r.Some? ==> r.value.name != [] && IsIdentStart(r.value.name[0])
    ensures r.Some? ==> forall k :: 1 <= k < |r.value.name| ==> IsWrittenNameChar(r.value.name[k])
  {
    if t == [] || !IsIdentStart(t[0]) then None else AssignmentAfter(t, SkipWrittenNameChars(t, 1))
  }

  /** `^([A-Za-z_][A-Za-z0-9_]*)\s*=\s*(.*)$`: an identifier, `=`, and the value. */
  function VariableDefinition(t: string): (r: Option<NamedEntry>)
    ensures r.Some? ==> r.value.name != [] && IsIdentStart(r.value.name[0])
    ensures r.Some? ==> forall k :: 1 <= k < |r.value.name| ==> IsWordChar(r.value.name[k])
  {
    if t == [] || !IsIdentStart(t[0]) then None else AssignmentAfter(t, SkipWordChars(t, 1))
  }

  /** The class as written stops a lower-case name after its first letter, so `counter = 5` is no variable. */
  lemma VariableDefinitionTypo()
    ensures VariableDefinitionAsWritten("counter = 5").None?
    ensures VariableDefinition("counter = 5") == Some(NamedEntry("counter", "5"))
  {
    var t := "counter = 5";
    assert !IsWrittenNameChar(t[1]);
    assert SkipWrittenNameChars(t, 1) == 1;
    assert !IsSpace(t[1]);
    SkipSpacesTo(t, 1, 1);
    assert t == "counter" + " = " + "5";
    VariableDefinitionRoundTrip("counter", "5");
  }

  /** Any identifier followed by ` = ` and a value is read back as that variable. */
  lemma VariableDefinitionRoundTrip(name: string, value: string)
    requires name != [] && IsIdentStart(name[0]) && forall k :: 1 <= k < |name| ==> IsWordChar(name[k])
    requires NoLineTerminator(value) && (value == [] || !IsSpace(value[0]))
    ensures VariableDefinition(name + " = " + value) == Some(NamedEntry(name, value))
  {
    var t := name + " = " + value;
    var n := |name|;
    assert t[..n] == name && t[n + 3..] == value;
    assert t[0] == name[0] && t[n] == ' ' && t[n + 1] == '=' && t[n + 2] == ' ';
    assert forall k :: 1 <= k < n ==> t[k] == name[k];
    SkipWordCharsTo(t, 1, n);
    SkipSpacesTo(t, n, n + 1);
    if value != [] {
      assert t[n + 3] == value[0];
    }
    SkipSpacesTo(t, n + 2, n + 3);
  }

  lemma {:induction false} SkipWordCharsTo(s: string, i: nat, j: nat)
    requires i <= j <= |s|
    requires forall k :: i <= k < j ==> IsWordChar(s[k])
    requires j == |s| || !IsWordChar(s[j])
    ensures SkipWordChars(s, i) == j
    decreases j - i
  {
    if i < j { SkipWordCharsTo(s, i + 1, j); }
  }

  // ------------------------------------------------------------------
  // Timers, markers and faults
  // ------------------------------------------------------------------

  /** `(Sek|Min|s|m|Sekunden|Minuten|Seconds|Minutes)` ignoring case, matching the whole of `u`. */
  predicate IsTimerUnit(u: string) {
    Lower(u) in ["sek", "min", "s", "m", "sekunden", "minuten", "seconds", "minutes"]
  }

  /**
   * `^(?:KW)\s*[~]?\s*(\d+)\s*(unit)?$` ignoring case, for one alternative
   * `KW`: the duration, and the unit as written or `Sek` when none is given.
   */
  function TimerWith(t: string, kw: string): (r: Option<TimerEntry>)
    ensures r.Some? ==> AtIgnoreCase(t, 0, kw)
    ensures r.Some? ==> r.value.unit == "Sek" || IsTimerUnit(r.value.unit)
  {
    if !AtIgnoreCase(t, 0, kw) then None
    else
      var a := SkipSpaces(t, |kw|);
      var b := if a < |t| && t[a] == '~' then SkipSpaces(t, a + 1) else a;
      var d := SkipDigits(t, b);
      var e := SkipSpaces(t, d);
      if d == b then None
      else
        SkippedDigits(t, b);
        if e == |t| then Some(TimerEntry(DigitsValue(t[b..d]), "Sek"))
        else if IsTimerUnit(t[e..]) then Some(TimerEntry(DigitsValue(t[b..d]), t[e..]))
        else None
  }

  /** The timer pattern with the alternatives `kws`, tried in order. */
  function MatchTimer(t: string, kws: seq<string>): Option<TimerEntry>
  {
    Standaardwerk.FirstPresent(seq(|kws|, k requires 0 <= k < |kws| => TimerWith(t, kws[k])), 0)
  }

  /**
   * `^(?:KW)\s+([A-Za-z_][A-Za-z0-9_]*)\s*SEP?\s*(.*)$` ignoring case: a
   * name after the keyword, then an optional separator and the rest.
   */
  function NamedWith(t: string, kw: string, separator: char): (r: Option<NamedEntry>)
    ensures r.Some? ==> AtIgnoreCase(t, 0, kw)
    ensures r.Some? ==> r.value.name != [] && IsIdentStart(r.value.name[0])
    ensures r.Some? ==> forall k :: 1 <= k < |r.value.name| ==> IsWordChar(r.value.name[k])
  {
    if !AtIgnoreCase(t, 0, kw) then None
    else
      var a := SkipSpaces(t, |kw|);
      if a == |kw| || a == |t| || !IsIdentStart(t[a]) then None
      else
        var n := SkipWordChars(t, a + 1);
        var b := SkipSpaces(t, n);
        var c := if b < |t| && t[b] == separator then SkipSpaces(t, b + 1) else b;
        if NoLineTerminator(t[c..]) then Some(NamedEntry(t[a..n], t[c..])) else None
  }

  /** The marker pattern (separator `=`) or the fault pattern (separator `:`) with the alternatives `kws`, tried in order. */
  function MatchNamed(t: string, kws: seq<string>, separator: char): Option<NamedEntry>
  {
    Standaardwerk.FirstPresent(seq(|kws|, k requires 0 <= k < |kws| => NamedWith(t, kws[k], separator)), 0)
  }

  datatype Special =
    | VariableDef(entry: NamedEntry)
    | TimerDef(timer: TimerEntry)
    | MarkerDef(entry: NamedEntry)
    | StoringDef(entry: NamedEntry)

  /** `parseSpecialElement`'s matching: variable, timer, marker and fault patterns, the first that matches. */
  function SpecialElement(t: string, detection: VariableDetection): Option<Special>
  {
    match VariableDefinitionAsWritten(t)
    case Some(v) => Some(VariableDef(v))
    case None =>
      match MatchTimer(t, detection.timerKeywords)
      case Some(timer) => Some(TimerDef(timer))
      case None =>
        match MatchNamed(t, detection.markerKeywords, '=')
        case Some(m) => Some(MarkerDef(m))
        case None =>
          match MatchNamed(t, detection.storingKeywords, ':')
          case Some(s) => Some(StoringDef(s))
          case None => None
  }

  /** A name as the class is written, followed by ` = ` and a value, is read back as that variable. */
  lemma VariableDefinitionAsWrittenRoundTrip(name: string, value: string)
    requires name != [] && IsIdentStart(name[0]) && forall k :: 1 <= k < |name| ==> IsWrittenNameChar(name[k])
    requires NoLineTerminator(value) && (value == [] || !IsSpace(value[0]))
    ensures VariableDefinitionAsWritten(name + " = " + value) == Some(NamedEntry(name, value))
  {
    var t := name + " = " + value;
    var n := |name|;
    assert t[..n] == name && t[n + 3..] == value;
    assert t[0] == name[0] && t[n] == ' ' && t[n + 1] == '=' && t[n + 2] == ' ';
    assert forall k :: 1 <= k < n ==> t[k] == name[k];
    SkipWrittenNameCharsTo(t, 1, n);
    SkipSpacesTo(t, n, n + 1);
    if value != [] {
      assert t[n + 3] == value[0];
    }
    SkipSpacesTo(t, n + 2, n + 3);
  }

  lemma {:induction false} SkipWrittenNameCharsTo(s: string, i: nat, j: nat)
    requires i <= j <= |s|
    requires forall k :: i <= k < j ==> IsWrittenNameChar(s[k])
    requires j == |s| || !IsWrittenNameChar(s[j])
    ensures SkipWrittenNameChars(s, i) == j
    decreases j - i
  {
    if i < j { SkipWrittenNameCharsTo(s, i + 1, j); }
  }

  /**
   * The variable pattern is tried first, so a `NAME = value` line is recorded
   * as a variable whatever the keyword tables hold, even when the name starts
   * with a timer, marker or fault keyword.
   */
  lemma SpecialElementVariable(name: string, value: string, detection: VariableDetection)
    requires name != [] && IsIdentStart(name[0]) && forall k :: 1 <= k < |name| ==> IsWrittenNameChar(name[k])
    requires NoLineTerminator(value) && (value == [] || !IsSpace(value[0]))
    ensures SpecialElement(name + " = " + value, detection) == Some(VariableDef(NamedEntry(name, value)))
  {
    VariableDefinitionAsWrittenRoundTrip(name, value);
  }

  /**
   * Under the default tables `counter = 5` is no special element at all: the
   * class as written stops the name after `c`, and no timer, marker or fault
   * keyword starts with `c`.
   */
  lemma CounterIsNoSpecialElement()
    ensures SpecialElement("counter = 5", DefaultVariableDetection).None?
  {
    var t := "counter = 5";
    VariableDefinitionTypo();
    var d := DefaultVariableDetection;
    NoKeywordStartsWithC(t, d.timerKeywords);
    NoTimerWithout(t, d.timerKeywords);
    NoKeywordStartsWithC(t, d.markerKeywords);
    NoNamedWithout(t, d.markerKeywords, '=');
    NoKeywordStartsWithC(t, d.storingKeywords);
    NoNamedWithout(t, d.storingKeywords, ':');
  }

  lemma NoKeywordStartsWithC(t: string, kws: seq<string>)
    requires t != [] && t[0] == 'c'
    requires kws == ["TIJD", "TIME", "ZEIT"] || kws == ["MARKER", "FLAG", "MERKER"] || kws == ["STORING", "FAULT", "STÖRUNG"]
    ensures forall j :: 0 <= j < |kws| ==> !AtIgnoreCase(t, 0, kws[j])
  {
    forall j | 0 <= j < |kws| ensures !AtIgnoreCase(t, 0, kws[j]) {
      assert kws[j][0] in "TZMFS";
      NotAtByLetter(t, 0, kws[j], 0);
    }
  }

  /** With no keyword of the table at the start, the timer pattern does not match. */
  lemma NoTimerWithout(t: string, kws: seq<string>)
    requires forall j :: 0 <= j < |kws| ==> !AtIgnoreCase(t, 0, kws[j])
    ensures MatchTimer(t, kws).None?
  {
    Standaardwerk.FirstPresentMeans(seq(|kws|, k requires 0 <= k < |kws| => TimerWith(t, kws[k])), 0);
  }

  /** With no keyword of the table at the start, the marker or fault pattern does not match. */
  lemma NoNamedWithout(t: string, kws: seq<string>, separator: char)
    requires forall j :: 0 <= j < |kws| ==> !AtIgnoreCase(t, 0, kws[j])
    ensures MatchNamed(t, kws, separator).None?
  {
    Standaardwerk.FirstPresentMeans(seq(|kws|, k requires 0 <= k < |kws| => NamedWith(t, kws[k], separator)), 0);
  }

  /** The entry recorded in the list of its kind. */
  function Record(result: WorkResult, e: Special): WorkResult
  {
    match e
    case VariableDef(v) => result.(variables := result.variables + [v])
    case TimerDef(timer) => result.(timers := result.timers + [timer])
    case MarkerDef(m) => result.(markers := result.markers + [m])
    case StoringDef(s) => result.(storingen := result.storingen + [s])
  }

  /** The number of entries in the four element lists. */
  function Entries(result: WorkResult): nat {
    |result.variables| + |result.timers| + |result.markers| + |result.storingen|
  }

  /** A special element adds exactly one entry, at the end of its own list, and touches no step. */
  lemma RecordAddsOne(result: WorkResult, e: Special)
    ensures Entries(Record(result, e)) == Entries(result) + 1
    ensures Record(result, e).steps == result.steps && Record(result, e).errors == result.errors
    ensures e.VariableDef? ==> Record(result, e).variables == result.variables + [e.entry]
    ensures e.TimerDef? ==> Record(result, e).timers == result.timers + [e.timer]
    ensures e.MarkerDef? ==> Record(result, e).markers == result.markers + [e.entry]
    ensures e.StoringDef? ==> Record(result, e).storingen == result.storingen + [e.entry]
  {
  }

  // ------------------------------------------------------------------
  // Step headers
  // ------------------------------------------------------------------

  /** `.replace(/\)$/, '')`: one closing parenthesis at the end is removed. */
  function DropClosingParenthesis(d: string): (r: string)
    ensures d == [] || d[|d| - 1] != ')' ==> r == d
    ensures |d| > 0 && d[|d| - 1] == ')' ==> d == r + ")"
  {
    if |d| > 0 && d[|d| - 1] == ')' then d[..|d| - 1] else d
  }

  /**
   * `^(KW)\s*[:\(]\s*(.*)\)?$` ignoring case: an idle or end header whose
   * description loses one closing parenthesis at its end.
   */
  function OpenedHeaderWith(t: string, kw: string, stepType: StepType): (r: Option<StepHeader>)
    ensures r.Some? ==> AtIgnoreCase(t, 0, kw)
    ensures r.Some? ==> r.value.stepType == stepType && r.value.number == 0 && r.value.keyword == t[..|kw|]
  {
    if !AtIgnoreCase(t, 0, kw) then None
    else
      var a := SkipSpaces(t, |kw|);
      if a < |t| && (t[a] == ':' || t[a] == '(') then
        var b := SkipSpaces(t, a + 1);
        if NoLineTerminator(t[b..]) then Some(StepHeader(stepType, t[..|kw|], 0, DropClosingParenthesis(t[b..])))
        else None
      else None
  }

  /** `^(KW)\s*(\d+)\s*:\s*(.*)$` ignoring case: a step header with its number. */
  function NumberedHeaderWith(t: string, kw: string): (r: Option<StepHeader>)
    ensures r.Some? ==> AtIgnoreCase(t, 0, kw)
    ensures r.Some? ==> r.value.stepType == Stap && r.value.keyword == t[..|kw|]
  {
    if !AtIgnoreCase(t, 0, kw) then None
    else
      var a := SkipSpaces(t, |kw|);
      var d := SkipDigits(t, a);
      var e := SkipSpaces(t, d);
      if d > a && e < |t| && t[e] == ':' then
        var f := SkipSpaces(t, e + 1);
        SkippedDigits(t, a);
        if NoLineTerminator(t[f..]) then Some(StepHeader(Stap, t[..|kw|], DigitsValue(t[a..d]), t[f..])) else None
      else None
  }

  function RestHeader(t: string, keywords: StepKeywords): Option<StepHeader> {
    Standaardwerk.FirstPresent(seq(|keywords.rest|, k requires 0 <= k < |keywords.rest| =>
      OpenedHeaderWith(t, keywords.rest[k], Rust)), 0)
  }

  function NumberedHeader(t: string, keywords: StepKeywords): Option<StepHeader> {
    Standaardwerk.FirstPresent(seq(|keywords.step|, k requires 0 <= k < |keywords.step| =>
      NumberedHeaderWith(t, keywords.step[k])), 0)
  }

  function EndHeader(t: string, keywords: StepKeywords): Option<StepHeader> {
    Standaardwerk.FirstPresent(seq(|keywords.end|, k requires 0 <= k < |keywords.end| =>
      OpenedHeaderWith(t, keywords.end[k], End)), 0)
  }

  /** `parseStep`: the idle pattern, then the step pattern, then the end pattern. */
  function ParseStep(t: string, keywords: StepKeywords): (r: Option<StepHeader>)
  {
    var rest := RestHeader(t, keywords);
    if rest.Some? then rest
    else
      var step := NumberedHeader(t, keywords);
      if step.Some? then step else EndHeader(t, keywords)
  }

  // ------------------------------------------------------------------
  // Finalising a step
  // ------------------------------------------------------------------

  /** `.filter(cond => cond.trim() !== '')`. */
  function NonBlank(lines: seq<string>): (r: seq<string>)
    ensures |r| <= |lines|
    ensures (forall i :: 0 <= i < |lines| ==> Trim(lines[i]) != []) ==> r == lines
  {
    if lines == [] then []
    else
      assert lines == [lines[0]] + lines[1..];
      (if Trim(lines[0]) == [] then [] else [lines[0]]) + NonBlank(lines[1..])
  }

  /** Every non-blank line is kept, and nothing else. */
  lemma {:induction false} NonBlankKeeps(lines: seq<string>, x: string)
    ensures x in NonBlank(lines) <==> x in lines && Trim(x) != []
    decreases |lines|
  {
    if lines != [] {
      assert lines == [lines[0]] + lines[1..];
      NonBlankKeeps(lines[1..], x);
    }
  }

  /** Filtering a concatenation filters each part, so the kept lines stay in input order. */
  lemma {:induction false} NonBlankAppend(xs: seq<string>, ys: seq<string>)
    ensures NonBlank(xs + ys) == NonBlank(xs) + NonBlank(ys)
    decreases |xs|
  {
    if xs == [] {
      assert xs + ys == ys;
    } else {
      var x, rest := xs[0], xs[1..];
      var head := if Trim(x) == [] then [] else [x];
      assert xs == [x] + rest && xs + ys == [x] + (rest + ys);
      NonBlankCons(x, rest);
      NonBlankCons(x, rest + ys);
      NonBlankAppend(rest, ys);
      ConcatAssoc(head, NonBlank(rest), NonBlank(ys));
    }
  }

  lemma NonBlankCons(x: string, rest: seq<string>)
    ensures NonBlank([x] + rest) == (if Trim(x) == [] then [] else [x]) + NonBlank(rest)
  {
    assert ([x] + rest)[0] == x && ([x] + rest)[1..] == rest;
  }

  /** The timers the conditions mention, in order. */
  function TimersIn(conditions: seq<string>, kws: seq<string>): seq<TimerEntry>
  {
    if conditions == [] then []
    else
      var init := conditions[..|conditions| - 1];
      match MatchTimer(conditions[|conditions| - 1], kws)
      case Some(timer) => TimersIn(init, kws) + [timer]
      case None => TimersIn(init, kws)
  }

  /** The markers (or faults, with `:`) the conditions mention, in order. */
  function NamedIn(conditions: seq<string>, kws: seq<string>, separator: char): seq<NamedEntry>
  {
    if conditions == [] then []
    else
      var init := conditions[..|conditions| - 1];
      match MatchNamed(conditions[|conditions| - 1], kws, separator)
      case Some(m) => NamedIn(init, kws, separator) + [m]
      case None => NamedIn(init, kws, separator)
  }

  /**
   * `finalizeStep`'s effect on the step: its conditions become the non-blank
   * collected lines, and the timers, markers and faults they mention are
   * appended to the step's own lists.
   */
  function Finalized(step: WorkStep, pending: seq<string>, detection: VariableDetection): WorkStep
  {
    var conditions := NonBlank(pending);
    step.(conditions := conditions,
          timers := step.timers + TimersIn(conditions, detection.timerKeywords),
          markers := step.markers + NamedIn(conditions, detection.markerKeywords, '='),
          storingen := step.storingen + NamedIn(conditions, detection.storingKeywords, ':'))
  }

  lemma TimersInNext(conditions: seq<string>, i: nat, kws: seq<string>)
    requires i < |conditions|
    ensures var timer := MatchTimer(conditions[i], kws);
      TimersIn(conditions[..i + 1], kws) == TimersIn(conditions[..i], kws) + (if timer.Some? then [timer.value] else [])
  {
    assert conditions[..i + 1][..i] == conditions[..i];
  }

  lemma NamedInNext(conditions: seq<string>, i: nat, kws: seq<string>, separator: char)
    requires i < |conditions|
    ensures var m := MatchNamed(conditions[i], kws, separator);
      NamedIn(conditions[..i + 1], kws, separator) == NamedIn(conditions[..i], kws, separator) + (if m.Some? then [m.value] else [])
  {
    assert conditions[..i + 1][..i] == conditions[..i];
  }

  /** Each condition contributes its own timer, if any, after those of the conditions before it. */
  lemma {:induction false} TimersInAppend(a: seq<string>, b: seq<string>, kws: seq<string>)
    ensures TimersIn(a + b, kws) == TimersIn(a, kws) + TimersIn(b, kws)
    decreases |b|
  {
    if b == [] {
      assert a + b == a;
    } else {
      var init := b[..|b| - 1];
      assert (a + b)[..|a + b| - 1] == a + init;
      assert (a + b)[|a + b| - 1] == b[|b| - 1];
      TimersInAppend(a, init, kws);
    }
  }

  /** Every timer of the step's list comes from one of its conditions. */
  lemma {:induction false} TimersInFrom(conditions: seq<string>, kws: seq<string>)
    ensures forall e :: e in TimersIn(conditions, kws) ==>
      exists i :: 0 <= i < |conditions| && MatchTimer(conditions[i], kws) == Some(e)
    ensures |TimersIn(conditions, kws)| <= |conditions|
  {
    if conditions != [] {
      var init := conditions[..|conditions| - 1];
      TimersInFrom(init, kws);
      forall e | e in TimersIn(init, kws)
        ensures exists i :: 0 <= i < |conditions| && MatchTimer(conditions[i], kws) == Some(e)
      {
        var i :| 0 <= i < |init| && MatchTimer(init[i], kws) == Some(e);
        assert conditions[i] == init[i];
      }
    }
  }

  // ------------------------------------------------------------------
  // The line loop
  // ------------------------------------------------------------------

  /** A new step from a header on line `lineNumber`, with empty lists. */
  function OpenHeader(h: StepHeader, lineNumber: nat): WorkStep {
    WorkStep(h, [], [], [], [], lineNumber)
  }

  /** `line.startsWith(' ') || line.startsWith('\t')`. */
  predicate StartsIndented(line: string) {
    |line| > 0 && (line[0] == ' ' || line[0] == '\t')
  }

  /** The parser's state between lines: the result, the open step, and the lines collected for it. */
  datatype WorkState = WorkState(result: WorkResult, current: Option<WorkStep>, pending: seq<string>)

  /** The open step, finalised, appended to the steps. */
  function Pushed(result: WorkResult, step: WorkStep, pending: seq<string>, detection: VariableDetection): WorkResult {
    result.(steps := result.steps + [Finalized(step, pending, detection)])
  }

  /** `!trimmed || trimmed.startsWith('//')`: a blank line or a comment. */
  predicate Skipped(t: string) {
    t == [] || StartsWith(t, "//")
  }

  /** What the patterns make of one line, tried in the order the loop tries them. */
  datatype LineKind =
    | Ignored                                   // blank, or a `//` comment
    | SpecialLine(element: Special)             // a variable, timer, marker or fault definition
    | HeaderLine(header: StepHeader)            // a step header
    | OtherLine(trimmed: string, indented: bool) // anything else, trimmed

  function KindOf(line: string, keywords: StepKeywords, detection: VariableDetection): (r: LineKind)
    ensures r.OtherLine? ==> r.trimmed == Trim(line) && r.trimmed != [] && r.indented == StartsIndented(line)
  {
    var t := Trim(line);
    if Skipped(t) then Ignored
    else
      match SpecialElement(t, detection)
      case Some(e) => SpecialLine(e)
      case None =>
        match ParseStep(t, keywords)
        case Some(h) => HeaderLine(h)
        case None => OtherLine(t, StartsIndented(line))
  }

  /**
   * What line `index` (0-based) of kind `k` does: a special element is
   * recorded; a header finalises the open step and opens its own; an indented
   * line after a header is collected; any other line does nothing.
   */
  function WorkApply(st: WorkState, k: LineKind, index: nat, detection: VariableDetection): WorkState
  {
    match k
    case Ignored => st
    case SpecialLine(e) => st.(result := Record(st.result, e))
    case HeaderLine(h) =>
      var result := if st.current.Some? then Pushed(st.result, st.current.value, st.pending, detection) else st.result;
      WorkState(result, Some(OpenHeader(h, index + 1)), [])
    case OtherLine(t, indented) =>
      if st.current.Some? && indented then st.(pending := st.pending + [t]) else st
  }

  /** Each line of `lines` classified on its own. */
  function Kinds(lines: seq<string>, keywords: StepKeywords, detection: VariableDetection): (r: seq<LineKind>)
    ensures |r| == |lines|
  {
    if lines == [] then []
    else Kinds(lines[..|lines| - 1], keywords, detection) + [KindOf(lines[|lines| - 1], keywords, detection)]
  }

  /** The kind of line `i` is that line classified on its own. */
  lemma {:induction false} KindAt(lines: seq<string>, i: nat, keywords: StepKeywords, detection: VariableDetection)
    requires i < |lines|
    ensures Kinds(lines, keywords, detection)[i] == KindOf(lines[i], keywords, detection)
  {
    if i < |lines| - 1 {
      KindAt(lines[..|lines| - 1], i, keywords, detection);
    }
  }

  /** The state after the first `n` lines, of kinds `kinds`, from `start`. */
  function WorkRun(kinds: seq<LineKind>, n: nat, start: WorkState, detection: VariableDetection): WorkState
    requires n <= |kinds|
    decreases n, 1
  {
    if n == 0 then start else WorkLine(kinds, n - 1, start, detection)
  }

  /**
   * The state after line `index`, applied to the state the earlier lines left.
   * (A function of its own so that a proof about the loop sees one line at a
   * time: it and `WorkRun` unfold only as far as the proof asks.)
   */
  function WorkLine(kinds: seq<LineKind>, index: nat, start: WorkState, detection: VariableDetection): WorkState
    requires index < |kinds|
    decreases index + 1, 0
  {
    WorkApply(WorkRun(kinds, index, start, detection), kinds[index], index, detection)
  }

  /** The end of input: the open step is finalised and stays the open step. */
  function WorkFinish(st: WorkState, detection: VariableDetection): WorkState
  {
    match st.current
    case None => st
    case Some(step) =>
      var done := Finalized(step, st.pending, detection);
      WorkState(st.result.(steps := st.result.steps + [done]), Some(done), st.pending)
  }

  /** What `parse` leaves behind for non-empty `code`, from the open step `current`. */
  function Parsing(code: string, current: Option<WorkStep>, keywords: StepKeywords, detection: VariableDetection): WorkState
  {
    var lines := SplitLines(code);
    WorkFinish(WorkRun(Kinds(lines, keywords, detection), |lines|, WorkState(EmptyWorkResult, current, []), detection), detection)
  }

  // ------------------------------------------------------------------
  // The parser object
  // ------------------------------------------------------------------

  class StandardWorkParser {
    const keywords: StepKeywords
    const detection: VariableDetection
    var currentStep: Option<WorkStep>
    var result: WorkResult

    constructor (keywords: StepKeywords, detection: VariableDetection)
      ensures this.keywords == keywords && this.detection == detection
      ensures currentStep == None && result == EmptyWorkResult
    {
      this.keywords := keywords;
      this.detection := detection;
      currentStep := None;
      result := EmptyWorkResult;
    }

    /**
     * `parse`: empty input returns the last result untouched; otherwise a
     * fresh result is filled line by line. The open step is not reset, so a
     * step left open by the previous call is finalised again by this one.
     */
    method Parse(code: string) returns (r: WorkResult)
      modifies this
      ensures code == [] ==> r == old(result) && result == old(result) && currentStep == old(currentStep)
      ensures code != [] ==>
        var st := Parsing(code, old(currentStep), keywords, detection);
        result == st.result && currentStep == st.current && r == result
    {
      if code == [] {
        return result;
      }
      result := EmptyWorkResult;
      var lines := SplitLines(code);
      var pending := ReadLines(lines);
      if currentStep.Some? {
        var done := FinalizeStep(currentStep.value, pending);
        currentStep := Some(done);
      }
      r := result;
    }

    /** The `forEach` over the lines, from the current fields and no collected lines. */
    method ReadLines(lines: seq<string>) returns (pending: seq<string>)
      modifies this
      ensures WorkState(result, currentStep, pending)
           == WorkRun(Kinds(lines, keywords, detection), |lines|, WorkState(old(result), old(currentStep), []), detection)
    {
      pending := [];
      ghost var start := WorkState(result, currentStep, []);
      var index := 0;
      while index < |lines|
        invariant index <= |lines|
        invariant WorkState(result, currentStep, pending) == WorkRun(Kinds(lines, keywords, detection), index, start, detection)
      {
        pending := ReadNextLine(lines, index, start, pending);
        index := index + 1;
      }
    }

    /** One turn of the `forEach`: line `index + 1` read into the state the earlier lines left. */
    method ReadNextLine(lines: seq<string>, index: nat, ghost start: WorkState, pending: seq<string>) returns (collected: seq<string>)
      requires index < |lines|
      requires WorkState(result, currentStep, pending) == WorkRun(Kinds(lines, keywords, detection), index, start, detection)
      modifies this
      ensures WorkState(result, currentStep, collected) == WorkRun(Kinds(lines, keywords, detection), index + 1, start, detection)
    {
      KindAt(lines, index, keywords, detection);
      collected := ReadWorkLine(lines[index], index, pending);
    }

    /** The body of the `forEach` for line `index`. */
    method ReadWorkLine(line: string, index: nat, pending: seq<string>) returns (collected: seq<string>)
      modifies this
      ensures WorkState(result, currentStep, collected)
           == WorkApply(WorkState(old(result), old(currentStep), pending), KindOf(line, keywords, detection), index, detection)
    {
      collected := pending;
      var t := Trim(line);
      if Skipped(t) {
        return;
      }
      var special := ParseSpecialElement(t);
      if special {
        return;
      }
      var header := ParseStep(t, keywords);
      if header.Some? {
        if currentStep.Some? {
          var _ := FinalizeStep(currentStep.value, pending);
        }
        currentStep := Some(OpenHeader(header.value, index + 1));
        collected := [];
      } else if currentStep.Some? && StartsIndented(line) {
        collected := pending + [t];
      }
    }

    /** `parseSpecialElement`: the first matching pattern adds its entry; `found` tells whether one did. */
    method ParseSpecialElement(line: string) returns (found: bool)
      modifies this
      ensures found == SpecialElement(line, detection).Some?
      ensures result == if found then Record(old(result), SpecialElement(line, detection).value) else old(result)
      ensures currentStep == old(currentStep)
    {
      found := true;
      var variable := VariableDefinitionAsWritten(line);
      if variable.Some? {
        result := result.(variables := result.variables + [variable.value]);
        return;
      }
      var timer := MatchTimer(line, detection.timerKeywords);
      if timer.Some? {
        result := result.(timers := result.timers + [timer.value]);
        return;
      }
      var marker := MatchNamed(line, detection.markerKeywords, '=');
      if marker.Some? {
        result := result.(markers := result.markers + [marker.value]);
        return;
      }
      var storing := MatchNamed(line, detection.storingKeywords, ':');
      if storing.Some? {
        result := result.(storingen := result.storingen + [storing.value]);
        return;
      }
      found := false;
    }

    /**
     * `finalizeStep`: the step gets the non-blank collected lines as its
     * conditions, each condition's timer, marker and fault is appended to the
     * step's lists, and the step is pushed onto the result.
     */
    method FinalizeStep(step: WorkStep, pending: seq<string>) returns (done: WorkStep)
      modifies this
      ensures done == Finalized(step, pending, detection)
      ensures result == old(result).(steps := old(result).steps + [done])
      ensures currentStep == old(currentStep)
    {
      var conditions := NonBlank(pending);
      var timers, markers, storingen := CollectFacets(conditions, detection);
      done := step.(conditions := conditions,
                    timers := step.timers + timers,
                    markers := step.markers + markers,
                    storingen := step.storingen + storingen);
      result := result.(steps := result.steps + [done]);
    }
  }

  /** The `forEach` over a step's conditions: the timers, markers and faults they mention, in order. */
  method CollectFacets(conditions: seq<string>, detection: VariableDetection)
    returns (timers: seq<TimerEntry>, markers: seq<NamedEntry>, storingen: seq<NamedEntry>)
    ensures timers == TimersIn(conditions, detection.timerKeywords)
    ensures markers == NamedIn(conditions, detection.markerKeywords, '=')
    ensures storingen == NamedIn(conditions, detection.storingKeywords, ':')
  {
    timers, markers, storingen := [], [], [];
    var i := 0;
    while i < |conditions|
      invariant i <= |conditions|
      invariant timers == TimersIn(conditions[..i], detection.timerKeywords)
      invariant markers == NamedIn(conditions[..i], detection.markerKeywords, '=')
      invariant storingen == NamedIn(conditions[..i], detection.storingKeywords, ':')
    {
      var condition := conditions[i];
      TimersInNext(conditions, i, detection.timerKeywords);
      NamedInNext(conditions, i, detection.markerKeywords, '=');
      NamedInNext(conditions, i, detection.storingKeywords, ':');
      var timer := MatchTimer(condition, detection.timerKeywords);
      if timer.Some? {
        timers := timers + [timer.value];
      }
      var marker := MatchNamed(condition, detection.markerKeywords, '=');
      if marker.Some? {
        markers := markers + [marker.value];
      }
      var storing := MatchNamed(condition, detection.storingKeywords, ':');
      if storing.Some? {
        storingen := storingen + [storing.value];
      }
      i := i + 1;
    }
    assert conditions[..i] == conditions;
  }

  /** `new StandardWorkParser(syntaxRules)`: refused when the rules have no step keywords. */
  method Create(rules: Rules) returns (r: Result<StandardWorkParser>)
    ensures r.Failure? <==> rules.stepKeywords.None?
    ensures r.Success? ==> fresh(r.value) && r.value.currentStep.None? && r.value.result == EmptyWorkResult
    ensures r.Success? ==> r.value.keywords == rules.stepKeywords.value && r.value.detection == rules.variableDetection
  {
    if rules.stepKeywords.None? {
      return Failure("Invalid syntax rules: stepKeywords are required");
    }
    var parser := new StandardWorkParser(rules.stepKeywords.value, rules.variableDetection);
    return Success(parser);
  }
}
