/**
 * What `StandardWorkParser` promises about its line loop: one step per
 * header line (plus the step a previous run left open), ascending line
 * numbers on a fresh parser, conditions exactly the indented lines collected,
 * and the header, timer and marker patterns reading back what they describe.
 */
module StandardWorkFacts {
  import opened Wrappers
  import opened Text
  import opened SyntaxRules
  import Standaardwerk
  import opened StandardWork

  // ------------------------------------------------------------------
  // Choosing among keyword alternatives
  // ------------------------------------------------------------------

  /**
   * When each alternative only matches a line starting with its own keyword,
   * and no keyword but the `k`-th starts the line, the `k`-th alternative is
   * the one settled on.
   */
  lemma ChoosesWritten<T>(xs: seq<Option<T>>, t: string, kws: seq<string>, k: nat)
    requires |xs| == |kws| && k < |kws|
    requires forall i :: 0 <= i < |xs| && xs[i].Some? ==> AtIgnoreCase(t, 0, kws[i])
    requires forall i :: 0 <= i < |kws| && i != k ==> !AtIgnoreCase(t, 0, kws[i])
    ensures Standaardwerk.FirstPresent(xs, 0) == xs[k]
  {
    Standaardwerk.FirstPresentMeans(xs, 0);
  }

  /** With no keyword at the start of the line, no alternative matches. */
  lemma NoneWritten<T>(xs: seq<Option<T>>, t: string, kws: seq<string>)
    requires |xs| == |kws|
    requires forall i :: 0 <= i < |xs| && xs[i].Some? ==> AtIgnoreCase(t, 0, kws[i])
    requires forall i :: 0 <= i < |kws| ==> !AtIgnoreCase(t, 0, kws[i])
    ensures Standaardwerk.FirstPresent(xs, 0).None?
  {
    Standaardwerk.FirstPresentMeans(xs, 0);
  }

  // ------------------------------------------------------------------
  // Header lines
  // ------------------------------------------------------------------

  /** Where the skips of the step pattern stop on `KW DIGITS: desc`. */
  lemma NumberedPositions(t: string, kw: string, d: nat)
    requires |kw| + 1 < d && d + 1 < |t| && t[|kw|] == ' ' && t[d] == ':' && t[d + 1] == ' '
    requires forall k :: |kw| + 1 <= k < d ==> IsDigit(t[k])
    requires d + 2 == |t| || !IsSpace(t[d + 2])
    ensures SkipSpaces(t, |kw|) == |kw| + 1 && SkipDigits(t, |kw| + 1) == d
    ensures SkipSpaces(t, d) == d && SkipSpaces(t, d + 1) == d + 2
    ensures AllDigits(t[|kw| + 1..d])
  {
    var p := |kw|;
    SkipSpacesTo(t, p, p + 1);
    SkipDigitsTo(t, p + 1, d);
    SkipSpacesTo(t, d, d);
    SkipSpacesTo(t, d + 1, d + 2);
    SkippedDigits(t, p + 1);
  }

  /** `KW DIGITS: desc`, laid out with one space and `: `. */
  lemma NumberedHeaderAt(t: string, kw: string, d: nat)
    requires |kw| + 1 < d && d + 1 < |t|
    requires t[..|kw|] == kw && t[|kw|] == ' ' && t[d] == ':' && t[d + 1] == ' '
    requires forall k :: |kw| + 1 <= k < d ==> IsDigit(t[k])
    requires d + 2 == |t| || !IsSpace(t[d + 2])
    requires NoLineTerminator(t[d + 2..])
    ensures AllDigits(t[|kw| + 1..d])
    ensures NumberedHeaderWith(t, kw) == Some(StepHeader(Stap, kw, DigitsValue(t[|kw| + 1..d]), t[d + 2..]))
  {
    KeywordWritten(t, kw);
    NumberedPositions(t, kw, d);
  }

  /** `KW n: desc` is read by the alternative `KW` as step `n` with description `desc`. */
  lemma NumberedHeaderRoundTrip(kw: string, n: nat, desc: string)
    requires NoLineTerminator(desc) && (desc == [] || !IsSpace(desc[0]))
    ensures NumberedHeaderWith(kw + " " + NatToString(n) + ": " + desc, kw) == Some(StepHeader(Stap, kw, n, desc))
  {
    var digits := NatToString(n);
    var t := kw + " " + digits + ": " + desc;
    var p := |kw|;
    var d := p + 1 + |digits|;
    assert t[..p] == kw && t[p + 1..d] == digits && t[d + 2..] == desc;
    assert t[p] == ' ' && t[d] == ':' && t[d + 1] == ' ';
    assert forall k :: p + 1 <= k < d ==> t[k] == digits[k - p - 1];
    NumberedHeaderAt(t, kw, d);
    DigitsValueOfNatToString(n);
  }

  /** A keyword written at the start of `t` is there ignoring case too. */
  lemma KeywordWritten(t: string, kw: string)
    requires |kw| <= |t| && t[..|kw|] == kw
    ensures AtIgnoreCase(t, 0, kw)
  {
    assert t[0..|kw|] == kw;
  }

  /** Where the skips of the idle and end patterns stop. */
  lemma OpenedPositions(t: string, kw: string, a: nat)
    requires |kw| <= a < |t| && forall k :: |kw| <= k < a ==> IsSpace(t[k])
    requires (t[a] == ':' || t[a] == '(') && (a + 1 == |t| || !IsSpace(t[a + 1]))
    ensures SkipSpaces(t, |kw|) == a && SkipSpaces(t, a + 1) == a + 1
  {
    SkipSpacesTo(t, |kw|, a);
    SkipSpacesTo(t, a + 1, a + 1);
  }

  /** `KW`, spaces, `:` or `(`, then a description that starts with no space. */
  lemma OpenedHeaderAt(t: string, kw: string, a: nat, stepType: StepType)
    requires |kw| <= a < |t| && t[..|kw|] == kw && (t[a] == ':' || t[a] == '(')
    requires forall k :: |kw| <= k < a ==> IsSpace(t[k])
    requires a + 1 == |t| || !IsSpace(t[a + 1])
    requires NoLineTerminator(t[a + 1..])
    ensures OpenedHeaderWith(t, kw, stepType) == Some(StepHeader(stepType, kw, 0, DropClosingParenthesis(t[a + 1..])))
  {
    KeywordWritten(t, kw);
    OpenedPositions(t, kw, a);
  }

  /** `KW (desc)` is read by an idle or end alternative `KW` as `desc`, the parenthesis dropped. */
  lemma ParenthesisedHeaderRoundTrip(kw: string, desc: string, stepType: StepType)
    requires NoLineTerminator(desc) && (desc == [] || !IsSpace(desc[0]))
    ensures OpenedHeaderWith(kw + " (" + desc + ")", kw, stepType) == Some(StepHeader(stepType, kw, 0, desc))
  {
    var t := kw + " (" + desc + ")";
    var p := |kw|;
    assert t[..p] == kw && t[p] == ' ' && t[p + 1] == '(' && t[p + 2..] == desc + ")";
    if desc != [] {
      assert t[p + 2] == desc[0];
    }
    assert forall k :: 0 <= k < |desc| ==> t[p + 2..][k] == desc[k];
    OpenedHeaderAt(t, kw, p + 1, stepType);
  }

  /** `KW: desc` is read by an idle or end alternative `KW`, less one closing parenthesis. */
  lemma ColonHeaderRoundTrip(kw: string, desc: string, stepType: StepType)
    requires NoLineTerminator(desc) && (desc == [] || !IsSpace(desc[0]))
    ensures OpenedHeaderWith(kw + ": " + desc, kw, stepType)
         == Some(StepHeader(stepType, kw, 0, DropClosingParenthesis(desc)))
  {
    var t := kw + ": " + desc;
    var p := |kw|;
    assert t[..p] == kw && t[p] == ':' && t[p + 1] == ' ' && t[p + 2..] == desc;
    if desc != [] {
      assert t[p + 2] == desc[0];
    }
    SkipSpacesTo(t, p, p);
    SkipSpacesTo(t, p + 1, p + 2);
  }

  /** With prefix-free header keywords, the one written at the start of `t` rules out all the others. */
  lemma OnlyHeaderKeyword(t: string, keywords: StepKeywords, j: nat)
    requires PrefixFree(AllHeaderKeywords(keywords))
    requires j < |AllHeaderKeywords(keywords)| && StartsWith(t, AllHeaderKeywords(keywords)[j])
    ensures forall i :: 0 <= i < |keywords.rest| && i != j ==> !AtIgnoreCase(t, 0, keywords.rest[i])
    ensures forall i :: 0 <= i < |keywords.step| && |keywords.rest| + i != j ==> !AtIgnoreCase(t, 0, keywords.step[i])
    ensures forall i :: 0 <= i < |keywords.end| && |keywords.rest| + |keywords.step| + i != j
                        ==> !AtIgnoreCase(t, 0, keywords.end[i])
  {
    var all := AllHeaderKeywords(keywords);
    var r, s := |keywords.rest|, |keywords.step|;
    forall i | 0 <= i < |all| && i != j
      ensures !AtIgnoreCase(t, 0, all[i])
    {
      OnlyKeywordAtStart(t, all, j, i);
    }
    assert forall i :: 0 <= i < r ==> all[i] == keywords.rest[i];
    assert forall i :: 0 <= i < s ==> all[r + i] == keywords.step[i];
    assert forall i :: 0 <= i < |keywords.end| ==> all[r + s + i] == keywords.end[i];
  }

  /** No idle alternative matches a line that starts with none of the idle spellings. */
  lemma RestHeaderNone(t: string, keywords: StepKeywords)
    requires forall i :: 0 <= i < |keywords.rest| ==> !AtIgnoreCase(t, 0, keywords.rest[i])
    ensures RestHeader(t, keywords).None?
  {
    var xs := seq(|keywords.rest|, k requires 0 <= k < |keywords.rest| => OpenedHeaderWith(t, keywords.rest[k], Rust));
    assert RestHeader(t, keywords) == Standaardwerk.FirstPresent(xs, 0);
    NoneWritten(xs, t, keywords.rest);
  }

  /** No step alternative matches a line that starts with none of the step spellings. */
  lemma NumberedHeaderNone(t: string, keywords: StepKeywords)
    requires forall i :: 0 <= i < |keywords.step| ==> !AtIgnoreCase(t, 0, keywords.step[i])
    ensures NumberedHeader(t, keywords).None?
  {
    var xs := seq(|keywords.step|, k requires 0 <= k < |keywords.step| => NumberedHeaderWith(t, keywords.step[k]));
    assert NumberedHeader(t, keywords) == Standaardwerk.FirstPresent(xs, 0);
    NoneWritten(xs, t, keywords.step);
  }

  /** No end alternative matches a line that starts with none of the end spellings. */
  lemma EndHeaderNone(t: string, keywords: StepKeywords)
    requires forall i :: 0 <= i < |keywords.end| ==> !AtIgnoreCase(t, 0, keywords.end[i])
    ensures EndHeader(t, keywords).None?
  {
    var xs := seq(|keywords.end|, k requires 0 <= k < |keywords.end| => OpenedHeaderWith(t, keywords.end[k], End));
    assert EndHeader(t, keywords) == Standaardwerk.FirstPresent(xs, 0);
    NoneWritten(xs, t, keywords.end);
  }

  /** A line starting with the `k`-th step spelling is read by that alternative. */
  lemma NumberedHeaderChosen(t: string, keywords: StepKeywords, k: nat)
    requires PrefixFree(AllHeaderKeywords(keywords)) && k < |keywords.step| && StartsWith(t, keywords.step[k])
    ensures ParseStep(t, keywords) == NumberedHeaderWith(t, keywords.step[k])
  {
    assert AllHeaderKeywords(keywords)[|keywords.rest| + k] == keywords.step[k];
    OnlyHeaderKeyword(t, keywords, |keywords.rest| + k);
    RestHeaderNone(t, keywords);
    EndHeaderNone(t, keywords);
    var xs := seq(|keywords.step|, i requires 0 <= i < |keywords.step| => NumberedHeaderWith(t, keywords.step[i]));
    assert NumberedHeader(t, keywords) == Standaardwerk.FirstPresent(xs, 0);
    ChoosesWritten(xs, t, keywords.step, k);
  }

  /** A line starting with the `k`-th idle spelling is read by that alternative. */
  lemma RestHeaderChosen(t: string, keywords: StepKeywords, k: nat)
    requires PrefixFree(AllHeaderKeywords(keywords)) && k < |keywords.rest| && StartsWith(t, keywords.rest[k])
    ensures ParseStep(t, keywords) == OpenedHeaderWith(t, keywords.rest[k], Rust)
  {
    assert AllHeaderKeywords(keywords)[k] == keywords.rest[k];
    OnlyHeaderKeyword(t, keywords, k);
    NumberedHeaderNone(t, keywords);
    EndHeaderNone(t, keywords);
    var xs := seq(|keywords.rest|, i requires 0 <= i < |keywords.rest| => OpenedHeaderWith(t, keywords.rest[i], Rust));
    assert RestHeader(t, keywords) == Standaardwerk.FirstPresent(xs, 0);
    ChoosesWritten(xs, t, keywords.rest, k);
  }

  /** The end alternative at `k`, when it is the only end spelling at the start of the line. */
  lemma EndHeaderIs(t: string, keywords: StepKeywords, k: nat)
    requires k < |keywords.end| && forall i :: 0 <= i < |keywords.end| && i != k ==> !AtIgnoreCase(t, 0, keywords.end[i])
    ensures EndHeader(t, keywords) == OpenedHeaderWith(t, keywords.end[k], End)
  {
    var xs := seq(|keywords.end|, i requires 0 <= i < |keywords.end| => OpenedHeaderWith(t, keywords.end[i], End));
    assert EndHeader(t, keywords) == Standaardwerk.FirstPresent(xs, 0);
    ChoosesWritten(xs, t, keywords.end, k);
  }

  /** A line starting with the `k`-th end spelling is read by that alternative. */
  lemma EndHeaderChosen(t: string, keywords: StepKeywords, k: nat)
    requires PrefixFree(AllHeaderKeywords(keywords)) && k < |keywords.end| && StartsWith(t, keywords.end[k])
    ensures ParseStep(t, keywords) == OpenedHeaderWith(t, keywords.end[k], End)
  {
    assert AllHeaderKeywords(keywords)[|keywords.rest| + |keywords.step| + k] == keywords.end[k];
    OnlyHeaderKeyword(t, keywords, |keywords.rest| + |keywords.step| + k);
    RestHeaderNone(t, keywords);
    NumberedHeaderNone(t, keywords);
    EndHeaderIs(t, keywords, k);
  }

  /** With prefix-free header keywords (the defaults are), `KW n: desc` for a step spelling `KW` is step `n`. */
  lemma StepHeaderParsed(keywords: StepKeywords, k: nat, n: nat, desc: string)
    requires PrefixFree(AllHeaderKeywords(keywords)) && k < |keywords.step|
    requires NoLineTerminator(desc) && (desc == [] || !IsSpace(desc[0]))
    ensures var kw := keywords.step[k];
      ParseStep(kw + " " + NatToString(n) + ": " + desc, keywords) == Some(StepHeader(Stap, kw, n, desc))
  {
    var kw := keywords.step[k];
    var t := kw + " " + NatToString(n) + ": " + desc;
    assert t[..|kw|] == kw;
    NumberedHeaderChosen(t, keywords, k);
    NumberedHeaderRoundTrip(kw, n, desc);
  }

  /** With prefix-free header keywords, `KW (desc)` for an idle spelling `KW` is an idle step described `desc`. */
  lemma IdleHeaderParsed(keywords: StepKeywords, k: nat, desc: string)
    requires PrefixFree(AllHeaderKeywords(keywords)) && k < |keywords.rest|
    requires NoLineTerminator(desc) && (desc == [] || !IsSpace(desc[0]))
    ensures var kw := keywords.rest[k];
      ParseStep(kw + " (" + desc + ")", keywords) == Some(StepHeader(Rust, kw, 0, desc))
  {
    var kw := keywords.rest[k];
    var t := kw + " (" + desc + ")";
    assert t[..|kw|] == kw;
    RestHeaderChosen(t, keywords, k);
    ParenthesisedHeaderRoundTrip(kw, desc, Rust);
  }

  /** With prefix-free header keywords, `KW: desc` for an end spelling `KW` is the end step, less a closing parenthesis. */
  lemma EndHeaderParsed(keywords: StepKeywords, k: nat, desc: string)
    requires PrefixFree(AllHeaderKeywords(keywords)) && k < |keywords.end|
    requires NoLineTerminator(desc) && (desc == [] || !IsSpace(desc[0]))
    ensures var kw := keywords.end[k];
      ParseStep(kw + ": " + desc, keywords) == Some(StepHeader(End, kw, 0, DropClosingParenthesis(desc)))
  {
    var kw := keywords.end[k];
    var t := kw + ": " + desc;
    assert t[..|kw|] == kw;
    EndHeaderChosen(t, keywords, k);
    ColonHeaderRoundTrip(kw, desc, End);
  }

  // ------------------------------------------------------------------
  // Timers and markers
  // ------------------------------------------------------------------

  /** Where the skips of the timer pattern stop on `KW DIGITS`. */
  lemma TimerPositions(t: string, kw: string)
    requires |kw| + 1 < |t| && t[|kw|] == ' '
    requires forall k :: |kw| + 1 <= k < |t| ==> IsDigit(t[k])
    ensures SkipSpaces(t, |kw|) == |kw| + 1 && t[|kw| + 1] != '~'
    ensures SkipDigits(t, |kw| + 1) == |t| && SkipSpaces(t, |t|) == |t|
    ensures AllDigits(t[|kw| + 1..])
  {
    var p := |kw|;
    assert IsDigit(t[p + 1]);
    SkipSpacesTo(t, p, p + 1);
    DigitsToEnd(t, p + 1);
  }

  /** Digits from `i` to the end: skipped as a whole, with nothing after them. */
  lemma DigitsToEnd(t: string, i: nat)
    requires i <= |t| && forall k :: i <= k < |t| ==> IsDigit(t[k])
    ensures SkipDigits(t, i) == |t| && SkipSpaces(t, |t|) == |t| && AllDigits(t[i..])
  {
    SkipDigitsTo(t, i, |t|);
    SkippedDigits(t, i);
    assert t[i..|t|] == t[i..];
  }

  /** `KW n` at the end of the line: the duration in the default unit `Sek`. */
  lemma TimerAtEnd(t: string, kw: string)
    requires |kw| + 1 < |t| && t[..|kw|] == kw && t[|kw|] == ' '
    requires forall k :: |kw| + 1 <= k < |t| ==> IsDigit(t[k])
    ensures AllDigits(t[|kw| + 1..])
    ensures TimerWith(t, kw) == Some(TimerEntry(DigitsValue(t[|kw| + 1..]), "Sek"))
  {
    KeywordWritten(t, kw);
    TimerPositions(t, kw);
    assert t[|kw| + 1..|t|] == t[|kw| + 1..];
  }

  /** `KW n UNIT`: the duration with the unit as written, when the pattern knows the unit. */
  lemma TimerAtUnit(t: string, kw: string, d: nat)
    requires |kw| + 1 < d && d + 1 < |t| && t[..|kw|] == kw && t[|kw|] == ' '
    requires forall k :: |kw| + 1 <= k < d ==> IsDigit(t[k])
    requires t[d] == ' ' && !IsSpace(t[d + 1])
    ensures AllDigits(t[|kw| + 1..d])
    ensures TimerWith(t, kw) ==
      if IsTimerUnit(t[d + 1..]) then Some(TimerEntry(DigitsValue(t[|kw| + 1..d]), t[d + 1..])) else None
  {
    var p := |kw|;
    SkipSpacesTo(t, p, p + 1);
    assert t[p + 1] != '~';
    SkipDigitsTo(t, p + 1, d);
    SkipSpacesTo(t, d, d + 1);
    SkippedDigits(t, p + 1);
  }

  /** `KW n` gives a timer of `n` in the default unit `Sek`. */
  lemma TimerDefaultUnit(kw: string, n: nat)
    ensures TimerWith(kw + " " + NatToString(n), kw) == Some(TimerEntry(n, "Sek"))
  {
    var digits := NatToString(n);
    var t := kw + " " + digits;
    var p := |kw|;
    assert t[..p] == kw && t[p] == ' ' && t[p + 1..] == digits;
    assert forall k :: p + 1 <= k < |t| ==> t[k] == digits[k - p - 1];
    TimerAtEnd(t, kw);
    DigitsValueOfNatToString(n);
  }

  /** `KW n UNIT` gives a timer of `n` in `UNIT`, as written. */
  lemma TimerWithUnit(kw: string, n: nat, unit: string)
    requires unit != [] && !IsSpace(unit[0]) && IsTimerUnit(unit)
    ensures TimerWith(kw + " " + NatToString(n) + " " + unit, kw) == Some(TimerEntry(n, unit))
  {
    var digits := NatToString(n);
    var t := kw + " " + digits + " " + unit;
    var d := |kw| + 1 + |digits|;
    SpacedLayout(kw, digits, unit);
    DigitsInside(t, |kw| + 1, d);
    assert t[d + 1] == unit[0];
    TimerAtUnit(t, kw, d);
    DigitsValueOfNatToString(n);
  }

  /** Where the parts of `a b c` sit. */
  lemma SpacedLayout(a: string, b: string, c: string)
    ensures var t := a + " " + b + " " + c; var d := |a| + 1 + |b|;
      |t| == d + 1 + |c| && t[..|a|] == a && t[|a|] == ' ' && t[|a| + 1..d] == b && t[d] == ' ' && t[d + 1..] == c
  {
  }

  /** Every character of an all-digit slice of `t` is a digit of `t`. */
  lemma DigitsInside(t: string, lo: nat, hi: nat)
    requires lo <= hi <= |t| && AllDigits(t[lo..hi])
    ensures forall k :: lo <= k < hi ==> IsDigit(t[k])
  {
    forall k | lo <= k < hi
      ensures IsDigit(t[k])
    {
      assert t[k] == t[lo..hi][k - lo];
    }
  }

  /** With prefix-free timer keywords (the defaults are), `KW n` is a timer of `n` seconds (`Sek`). */
  lemma TimerParsed(kws: seq<string>, k: nat, n: nat)
    requires PrefixFree(kws) && k < |kws|
    ensures MatchTimer(kws[k] + " " + NatToString(n), kws) == Some(TimerEntry(n, "Sek"))
  {
    var t := kws[k] + " " + NatToString(n);
    assert t[..|kws[k]|] == kws[k];
    forall i | 0 <= i < |kws| && i != k
      ensures !AtIgnoreCase(t, 0, kws[i])
    {
      OnlyKeywordAtStart(t, kws, k, i);
    }
    ChoosesWritten(seq(|kws|, i requires 0 <= i < |kws| => TimerWith(t, kws[i])), t, kws, k);
    TimerDefaultUnit(kws[k], n);
  }

  /** Where the skips of the named-entry pattern stop on `KW NAME = value`. */
  lemma NamedPositions(t: string, kw: string, n: nat, separator: char)
    requires |kw| + 1 < n && n + 3 < |t| && t[|kw|] == ' '
    requires IsIdentStart(t[|kw| + 1]) && forall k :: |kw| + 2 <= k < n ==> IsWordChar(t[k])
    requires t[n] == ' ' && t[n + 1] == separator && t[n + 2] == ' ' && !IsSpace(t[n + 3]) && !IsSpace(separator)
    ensures SkipSpaces(t, |kw|) == |kw| + 1 && SkipWordChars(t, |kw| + 2) == n
    ensures SkipSpaces(t, n) == n + 1 && SkipSpaces(t, n + 2) == n + 3
  {
    var p := |kw|;
    SkipSpacesTo(t, p, p + 1);
    assert !IsWordChar(t[n]);
    SkipWordCharsTo(t, p + 2, n);
    SkipSpacesTo(t, n, n + 1);
    SkipSpacesTo(t, n + 2, n + 3);
  }

  /** `KW NAME = value` (or `:` for faults): the name and the value after the separator. */
  lemma NamedAt(t: string, kw: string, n: nat, separator: char)
    requires |kw| + 1 < n && n + 3 < |t| && t[..|kw|] == kw && t[|kw|] == ' '
    requires IsIdentStart(t[|kw| + 1]) && forall k :: |kw| + 2 <= k < n ==> IsWordChar(t[k])
    requires t[n] == ' ' && t[n + 1] == separator && t[n + 2] == ' ' && !IsSpace(t[n + 3])
    requires !IsSpace(separator) && NoLineTerminator(t[n + 3..])
    ensures NamedWith(t, kw, separator) == Some(NamedEntry(t[|kw| + 1..n], t[n + 3..]))
  {
    KeywordWritten(t, kw);
    NamedPositions(t, kw, n, separator);
  }

  /**
   * `KW NAME = value` is read by the marker alternative `KW`, and
   * `KW NAME : value` by the fault alternative `KW`, as `NAME` and `value`.
   */
  lemma NamedRoundTrip(kw: string, name: string, value: string, separator: char)
    requires separator == '=' || separator == ':'
    requires name != [] && IsIdentStart(name[0]) && forall k :: 1 <= k < |name| ==> IsWordChar(name[k])
    requires value != [] && !IsSpace(value[0]) && NoLineTerminator(value)
    ensures NamedWith(kw + " " + name + " " + [separator] + " " + value, kw, separator) == Some(NamedEntry(name, value))
  {
    var t := kw + " " + name + " " + [separator] + " " + value;
    var p := |kw|;
    var n := p + 1 + |name|;
    assert t[..p] == kw && t[p] == ' ' && t[p + 1..n] == name && t[n + 3..] == value;
    assert t[p + 1] == name[0] && t[n] == ' ' && t[n + 1] == separator && t[n + 2] == ' ' && t[n + 3] == value[0];
    assert forall k :: p + 2 <= k < n ==> t[k] == name[k - p - 1];
    NamedAt(t, kw, n, separator);
  }

  // ------------------------------------------------------------------
  // The line loop
  // ------------------------------------------------------------------

  /** The open step, counted as one. */
  function Open(st: WorkState): nat {
    if st.current.Some? then 1 else 0
  }

  /** A header line pushes the open step, if any, and opens its own; no other line touches the steps. */
  lemma ApplySteps(st: WorkState, k: LineKind, index: nat, detection: VariableDetection)
    ensures var next := WorkApply(st, k, index, detection);
      |next.result.steps| + Open(next) == |st.result.steps| + Open(st) + (if k.HeaderLine? then 1 else 0)
  {
    if k.SpecialLine? {
      RecordAddsOne(st.result, k.element);
    }
  }

  /** The number of header lines among the first `n`. */
  function HeaderLines(kinds: seq<LineKind>, n: nat): nat
    requires n <= |kinds|
  {
    if n == 0 then 0 else HeaderLines(kinds, n - 1) + (if kinds[n - 1].HeaderLine? then 1 else 0)
  }

  /** Steps pushed plus the open step: the step open at the start plus one per header line. */
  lemma {:induction false} WorkRunSteps(kinds: seq<LineKind>, n: nat, start: WorkState, detection: VariableDetection)
    requires n <= |kinds|
    ensures var st := WorkRun(kinds, n, start, detection);
      |st.result.steps| + Open(st) == |start.result.steps| + Open(start) + HeaderLines(kinds, n)
  {
    if n > 0 {
      WorkRunSteps(kinds, n - 1, start, detection);
      ApplySteps(WorkRun(kinds, n - 1, start, detection), kinds[n - 1], n - 1, detection);
    }
  }

  /** At the end of input the open step, if any, is pushed once more. */
  lemma FinishSteps(st: WorkState, detection: VariableDetection)
    ensures |WorkFinish(st, detection).result.steps| == |st.result.steps| + Open(st)
  {
  }

  /**
   * `parse` yields one step per header line, plus one for a step a previous
   * call left open: `currentStep` is not reset, so that step is finalised again.
   */
  lemma ParsedSteps(code: string, current: Option<WorkStep>, keywords: StepKeywords, detection: VariableDetection)
    ensures var lines := SplitLines(code);
      |Parsing(code, current, keywords, detection).result.steps|
        == HeaderLines(Kinds(lines, keywords, detection), |lines|) + (if current.Some? then 1 else 0)
  {
    var lines := SplitLines(code);
    var kinds := Kinds(lines, keywords, detection);
    var start := WorkState(EmptyWorkResult, current, []);
    WorkRunSteps(kinds, |lines|, start, detection);
    FinishSteps(WorkRun(kinds, |lines|, start, detection), detection);
  }

  /** Line numbers of the pushed steps strictly increase. */
  predicate LinesAscending(steps: seq<WorkStep>) {
    forall i, j :: 0 <= i < j < |steps| ==> steps[i].lineNumber < steps[j].lineNumber
  }

  /** After `n` lines from a fresh parser: steps ascending, below the open step, all within lines 1..n. */
  predicate Ordered(st: WorkState, n: nat) {
    && LinesAscending(st.result.steps)
    && (forall i :: 0 <= i < |st.result.steps| ==> 1 <= st.result.steps[i].lineNumber <= n)
    && (st.current.Some? ==>
          1 <= st.current.value.lineNumber <= n
          && forall i :: 0 <= i < |st.result.steps| ==> st.result.steps[i].lineNumber < st.current.value.lineNumber)
  }

  /** A finalised step keeps the line number of its header. */
  lemma PushedLineNumber(result: WorkResult, step: WorkStep, pending: seq<string>, detection: VariableDetection)
    ensures var steps := Pushed(result, step, pending, detection).steps;
      steps[..|result.steps|] == result.steps && |steps| == |result.steps| + 1
      && steps[|result.steps|].lineNumber == step.lineNumber
  {
  }

  lemma ApplyOrdered(st: WorkState, k: LineKind, index: nat, detection: VariableDetection)
    requires Ordered(st, index)
    ensures Ordered(WorkApply(st, k, index, detection), index + 1)
  {
    match k
    case SpecialLine(e) =>
      RecordAddsOne(st.result, e);
    case HeaderLine(h) =>
      if st.current.Some? {
        PushedLineNumber(st.result, st.current.value, st.pending, detection);
      }
    case Ignored =>
    case OtherLine(t, indented) =>
  }

  lemma {:induction false} WorkRunOrdered(kinds: seq<LineKind>, n: nat, detection: VariableDetection)
    requires n <= |kinds|
    ensures Ordered(WorkRun(kinds, n, WorkState(EmptyWorkResult, None, []), detection), n)
  {
    if n > 0 {
      WorkRunOrdered(kinds, n - 1, detection);
      ApplyOrdered(WorkRun(kinds, n - 1, WorkState(EmptyWorkResult, None, []), detection), kinds[n - 1], n - 1, detection);
    }
  }

  /** Finishing keeps the steps ascending and within the lines. */
  lemma FinishOrdered(st: WorkState, n: nat, detection: VariableDetection)
    requires Ordered(st, n)
    ensures var steps := WorkFinish(st, detection).result.steps;
      LinesAscending(steps) && forall i :: 0 <= i < |steps| ==> 1 <= steps[i].lineNumber <= n
  {
    if st.current.Some? {
      PushedLineNumber(st.result, st.current.value, st.pending, detection);
    }
  }

  /** A fresh parser's steps carry strictly increasing line numbers, each a line of the input. */
  lemma FreshParseOrdered(code: string, keywords: StepKeywords, detection: VariableDetection)
    ensures var steps := Parsing(code, None, keywords, detection).result.steps;
      LinesAscending(steps) && forall i :: 0 <= i < |steps| ==> 1 <= steps[i].lineNumber <= |SplitLines(code)|
  {
    var lines := SplitLines(code);
    var kinds := Kinds(lines, keywords, detection);
    WorkRunOrdered(kinds, |lines|, detection);
    FinishOrdered(WorkRun(kinds, |lines|, WorkState(EmptyWorkResult, None, []), detection), |lines|, detection);
  }

  /** Collected lines are trimmed and never blank. */
  predicate PendingNonBlank(st: WorkState) {
    forall i :: 0 <= i < |st.pending| ==> Trim(st.pending[i]) == st.pending[i] && st.pending[i] != []
  }

  /**
   * A line is collected exactly when it is indented, a step is open, and it
   * is neither blank, a comment, a special element nor a header.
   */
  lemma CollectedIff(st: WorkState, line: string, index: nat, keywords: StepKeywords, detection: VariableDetection)
    ensures var t := Trim(line);
      WorkApply(st, KindOf(line, keywords, detection), index, detection).pending == st.pending + [t]
      <==> (!Skipped(t) && SpecialElement(t, detection).None? && ParseStep(t, keywords).None?
            && st.current.Some? && StartsIndented(line))
  {
    var t := Trim(line);
    assert st.pending != st.pending + [t];
  }

  /** A line kind that collects only trimmed, non-blank text. */
  predicate CollectsTrimmed(k: LineKind) {
    k.OtherLine? ==> Trim(k.trimmed) == k.trimmed && k.trimmed != []
  }

  lemma KindsCollectTrimmed(lines: seq<string>, keywords: StepKeywords, detection: VariableDetection)
    ensures forall i :: 0 <= i < |lines| ==> CollectsTrimmed(Kinds(lines, keywords, detection)[i])
  {
    forall i | 0 <= i < |lines|
      ensures CollectsTrimmed(Kinds(lines, keywords, detection)[i])
    {
      KindAt(lines, i, keywords, detection);
      TrimOfTrimmed(Trim(lines[i]));
    }
  }

  lemma ApplyNonBlank(st: WorkState, k: LineKind, index: nat, detection: VariableDetection)
    requires PendingNonBlank(st) && CollectsTrimmed(k)
    ensures PendingNonBlank(WorkApply(st, k, index, detection))
  {
  }

  lemma {:induction false} WorkRunNonBlank(kinds: seq<LineKind>, n: nat, start: WorkState, detection: VariableDetection)
    requires n <= |kinds| && PendingNonBlank(start)
    requires forall i :: 0 <= i < |kinds| ==> CollectsTrimmed(kinds[i])
    ensures PendingNonBlank(WorkRun(kinds, n, start, detection))
  {
    if n > 0 {
      WorkRunNonBlank(kinds, n - 1, start, detection);
      ApplyNonBlank(WorkRun(kinds, n - 1, start, detection), kinds[n - 1], n - 1, detection);
    }
  }

  /** The blank-line filter of `finalizeStep` never removes anything: the loop collects no blank line. */
  lemma ConditionsAreCollected(lines: seq<string>, n: nat, start: WorkState, keywords: StepKeywords, detection: VariableDetection)
    requires n <= |lines| && PendingNonBlank(start)
    ensures var st := WorkRun(Kinds(lines, keywords, detection), n, start, detection);
      st.current.Some? ==> Finalized(st.current.value, st.pending, detection).conditions == st.pending
  {
    KindsCollectTrimmed(lines, keywords, detection);
    WorkRunNonBlank(Kinds(lines, keywords, detection), n, start, detection);
  }
}
