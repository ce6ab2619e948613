/**
 * The pattern generator of src/core/IntelligentConditionParser.js: the
 * structure of a line, the grouping of similar lines, their common structure
 * and the regular expression generated from it.
 */
module PatternGeneration {
  import opened Wrappers
  import opened Text
  import opened ConditionRegex
  import opened IntelligentConditions

  // ---------------------------------------------------------------------
  // Structure extraction (extractStructure, patternsAreSimilar)
  // ---------------------------------------------------------------------

  /** `extractStructure`: numbers to `N`, upper-case words to `W`, lower-case words to `w`, one space per run, trimmed. */
  function StructureOf(text: string): string
  {
    Trim(Collapsed(text))
  }

  /** The four replacements of `extractStructure`, before the final trim. */
  function Collapsed(text: string): string
  {
    var numbers := ReplaceRuns(text, AnyDigit, 1, "N");
    var words := ReplaceRuns(numbers, Between('A', 'Z'), 2, "W");
    var lower := ReplaceRuns(words, Between('a', 'z'), 1, "w");
    ReplaceRuns(lower, AnySpace, 1, " ")
  }

  /** The characters a structure may hold, a property every prefix keeps. */
  predicate StructureChars(r: string) {
    && (forall k :: 0 <= k < |r| ==> !IsDigit(r[k]))
    && (forall k :: 0 <= k < |r| ==> IsLower(r[k]) ==> r[k] == 'w')
    && (forall k :: 0 <= k < |r| ==> IsSpace(r[k]) ==> r[k] == ' ')
    && NoTwoInARow(r, AnySpace)
  }

  lemma StructureCharsOfPart(r: string, i: nat, j: nat)
    requires StructureChars(r) && i <= j <= |r|
    ensures StructureChars(r[i..j])
  {
    assert forall k :: 0 <= k < j - i ==> r[i..j][k] == r[i + k];
  }

  /**
   * `extractStructure` has no digits, its only lower-case letter is `w`, its
   * only space is ' ', no two spaces are neighbours, and it is trimmed.
   */
  lemma StructureShape(text: string)
    ensures StructureChars(StructureOf(text)) && IsTrimmed(StructureOf(text))
  {
    var spaced := Collapsed(text);
    CollapsedShape(text);
    var i := SkipSpaces(spaced, 0);
    var j := SkipSpacesBack(spaced, |spaced|);
    if i < j {
      StructureCharsOfPart(spaced, i, j);
    }
  }

  lemma CollapsedShape(text: string)
    ensures StructureChars(Collapsed(text))
  {
    var numbers := ReplaceRuns(text, AnyDigit, 1, "N");
    var words := ReplaceRuns(numbers, Between('A', 'Z'), 2, "W");
    var lower := ReplaceRuns(words, Between('a', 'z'), 1, "w");
    var spaced := ReplaceRuns(lower, AnySpace, 1, " ");
    ReplaceRunsChars(text, AnyDigit, 1, "N");
    assert forall c :: c in numbers ==> !IsDigit(c);
    ReplaceRunsChars(numbers, Between('A', 'Z'), 2, "W");
    assert forall c :: c in words ==> !IsDigit(c);
    ReplaceRunsChars(words, Between('a', 'z'), 1, "w");
    assert forall c :: c in lower ==> !IsDigit(c) && (IsLower(c) ==> c == 'w');
    ReplaceRunsChars(lower, AnySpace, 1, " ");
    assert forall c :: c in spaced ==> !IsDigit(c) && (IsLower(c) ==> c == 'w') && (IsSpace(c) ==> c == ' ');
    ReplaceRunsSeparates(lower, AnySpace, 1, " ");
  }

  /** Two runs of digits at the same places: replacing them gives the same text. */
  predicate SameButDigits(a: string, b: string) {
    |a| == |b| && forall k :: 0 <= k < |a| ==> a[k] == b[k] || (IsDigit(a[k]) && IsDigit(b[k]))
  }

  lemma {:induction false} DigitRunsAlike(a: string, b: string, i: nat)
    requires SameButDigits(a, b) && i <= |a|
    ensures RunEnd(a, i, AnyDigit, false) == RunEnd(b, i, AnyDigit, false)
    decreases |a| - i
  {
    if i < |a| && IsDigit(a[i]) {
      DigitRunsAlike(a, b, i + 1);
    }
  }

  lemma {:induction false} NumbersAlike(a: string, b: string)
    requires SameButDigits(a, b)
    ensures ReplaceRuns(a, AnyDigit, 1, "N") == ReplaceRuns(b, AnyDigit, 1, "N")
    decreases |a|
  {
    if a != [] {
      DigitRunsAlike(a, b, 0);
      var n := RunEnd(a, 0, AnyDigit, false);
      if n >= 1 {
        NumbersAlike(a[n..], b[n..]);
      } else {
        NumbersAlike(a[1..], b[1..]);
      }
    }
  }

  /** `patternsAreSimilar` on the two texts. */
  predicate Similar(text1: string, text2: string) {
    -20 <= |text1| - |text2| <= 20 && StructureOf(text1) == StructureOf(text2)
  }

  /** Lines that differ only in their numbers have the same structure, so they are similar. */
  lemma NumbersDoNotMatter(a: string, b: string)
    requires SameButDigits(a, b)
    ensures StructureOf(a) == StructureOf(b) && Similar(a, b)
  {
    NumbersAlike(a, b);
  }

  lemma SimilarIsSymmetric(a: string, b: string)
    ensures Similar(a, b) == Similar(b, a) && Similar(a, a)
  {
  }

  // ---------------------------------------------------------------------
  // Grouping (groupSimilarPatterns)
  // ---------------------------------------------------------------------

  predicate NonEmptyGroups(groups: seq<seq<Entry>>) {
    forall j :: 0 <= j < |groups| ==> groups[j] != []
  }

  /** The test `groupSimilarPatterns` applies to two texts, `patternsAreSimilar` in the source. */
  type Likeness = (string, string) -> bool

  /** The first group from the `j`-th on whose first member is like `e`, or `|groups|`. */
  function FirstSimilar(groups: seq<seq<Entry>>, e: Entry, j: nat, like: Likeness): (k: nat)
    requires NonEmptyGroups(groups) && j <= |groups|
    ensures j <= k <= |groups|
    decreases |groups| - j
  {
    if j == |groups| || like(e.text, groups[j][0].text) then j else FirstSimilar(groups, e, j + 1, like)
  }

  /** The search stops at the first group whose first member is like `e`, or after the last one. */
  lemma {:induction false} FirstSimilarMeaning(groups: seq<seq<Entry>>, e: Entry, j: nat, like: Likeness)
    requires NonEmptyGroups(groups) && j <= |groups|
    ensures forall m :: j <= m < FirstSimilar(groups, e, j, like) ==> !like(e.text, groups[m][0].text)
    ensures FirstSimilar(groups, e, j, like) < |groups| ==>
      like(e.text, groups[FirstSimilar(groups, e, j, like)][0].text)
    decreases |groups| - j
  {
    if j < |groups| && !like(e.text, groups[j][0].text) {
      FirstSimilarMeaning(groups, e, j + 1, like);
    }
  }

  /** One step of the grouping: join the first group that is alike, or open a new one. */
  function Place(groups: seq<seq<Entry>>, e: Entry, like: Likeness): seq<seq<Entry>>
    requires NonEmptyGroups(groups)
  {
    var k := FirstSimilar(groups, e, 0, like);
    if k < |groups| then groups[k := groups[k] + [e]] else groups + [[e]]
  }

  /** The groups after the first `|ps|` patterns. */
  function Grouped(ps: seq<Entry>, like: Likeness): (groups: seq<seq<Entry>>)
    ensures NonEmptyGroups(groups)
  {
    if ps == [] then [] else Place(Grouped(ps[..|ps| - 1], like), ps[|ps| - 1], like)
  }

  lemma GroupedStep(ps: seq<Entry>, i: nat, like: Likeness)
    requires i < |ps|
    ensures Grouped(ps[..i + 1], like) == Place(Grouped(ps[..i], like), ps[i], like)
  {
    assert ps[..i + 1][..i] == ps[..i];
  }

  /** `groupSimilarPatterns`: the loop over patterns with the inner search over the groups. */
  method GroupSimilarPatterns(patterns: seq<Entry>, like: Likeness) returns (groups: seq<seq<Entry>>)
    ensures groups == Grouped(patterns, like)
  {
    groups := [];
    var i := 0;
    while i < |patterns|
      invariant i <= |patterns|
      invariant groups == Grouped(patterns[..i], like)
    {
      var pattern := patterns[i];
      ghost var before := groups;
      var addedToGroup := false;
      var j := 0;
      while j < |groups|
        invariant j <= |groups| && groups == before
        invariant FirstSimilar(before, pattern, j, like) == FirstSimilar(before, pattern, 0, like)
      {
        if like(pattern.text, groups[j][0].text) {
          groups := groups[j := groups[j] + [pattern]];
          addedToGroup := true;
          break;
        }
        j := j + 1;
      }
      if !addedToGroup {
        groups := groups + [[pattern]];
      }
      assert groups == Place(before, pattern, like);
      GroupedStep(patterns, i, like);
      i := i + 1;
    }
    assert patterns[..i] == patterns;
  }

  function Flatten(groups: seq<seq<Entry>>): seq<Entry>
  {
    if groups == [] then [] else Flatten(groups[..|groups| - 1]) + groups[|groups| - 1]
  }

  lemma {:induction false} FlattenPush(groups: seq<seq<Entry>>, k: nat, e: Entry)
    requires k < |groups|
    ensures multiset(Flatten(groups[k := groups[k] + [e]])) == multiset(Flatten(groups)) + multiset{e}
  {
    var g := groups[k := groups[k] + [e]];
    if k < |groups| - 1 {
      assert g[..|g| - 1] == groups[..|groups| - 1][k := groups[k] + [e]];
      FlattenPush(groups[..|groups| - 1], k, e);
    } else {
      assert g[..|g| - 1] == groups[..|groups| - 1];
    }
  }

  /** The grouping is a partition: together the groups hold every pattern exactly once. */
  lemma {:induction false} GroupedKeepsAll(ps: seq<Entry>, like: Likeness)
    ensures multiset(Flatten(Grouped(ps, like))) == multiset(ps)
  {
    if ps != [] {
      var init := ps[..|ps| - 1];
      var e := ps[|ps| - 1];
      assert ps == init + [e];
      calc {
        multiset(Flatten(Grouped(ps, like)));
        multiset(Flatten(Place(Grouped(init, like), e, like)));
        == { PlaceKeepsAll(Grouped(init, like), e, like); }
        multiset(Flatten(Grouped(init, like))) + multiset{e};
        == { GroupedKeepsAll(init, like); }
        multiset(init) + multiset{e};
        == multiset(init) + multiset([e]);
        == multiset(init + [e]);
      }
    }
  }

  lemma PlaceKeepsAll(groups: seq<seq<Entry>>, e: Entry, like: Likeness)
    requires NonEmptyGroups(groups)
    ensures multiset(Flatten(Place(groups, e, like))) == multiset(Flatten(groups)) + multiset{e}
  {
    var k := FirstSimilar(groups, e, 0, like);
    if k < |groups| {
      FlattenPush(groups, k, e);
    } else {
      assert (groups + [[e]])[..|groups|] == groups;
    }
  }

  /** Every later member of a group is like the group's first member. */
  lemma {:induction false} GroupedSimilarToFirst(ps: seq<Entry>, like: Likeness)
    ensures forall j, k :: 0 <= j < |Grouped(ps, like)| && 0 < k < |Grouped(ps, like)[j]| ==>
      like(Grouped(ps, like)[j][k].text, Grouped(ps, like)[j][0].text)
  {
    if ps != [] {
      GroupedSimilarToFirst(ps[..|ps| - 1], like);
      FirstSimilarMeaning(Grouped(ps[..|ps| - 1], like), ps[|ps| - 1], 0, like);
    }
  }

  /** A group's first member is not like the first member of any earlier group. */
  lemma {:induction false} GroupedFirstsApart(ps: seq<Entry>, like: Likeness)
    ensures forall i, j :: 0 <= i < j < |Grouped(ps, like)| ==>
      !like(Grouped(ps, like)[j][0].text, Grouped(ps, like)[i][0].text)
  {
    if ps != [] {
      GroupedFirstsApart(ps[..|ps| - 1], like);
      FirstSimilarMeaning(Grouped(ps[..|ps| - 1], like), ps[|ps| - 1], 0, like);
    }
  }

  /** `g` is `s` with some elements left out. */
  predicate Subsequence(g: seq<Entry>, s: seq<Entry>)
    decreases |s|
  {
    g == [] || (s != [] &&
      ((g[|g| - 1] == s[|s| - 1] && Subsequence(g[..|g| - 1], s[..|s| - 1])) || Subsequence(g, s[..|s| - 1])))
  }

  /** Order is kept: every group lists its members in input order. */
  lemma {:induction false} GroupedKeepsOrder(ps: seq<Entry>, like: Likeness)
    ensures forall j :: 0 <= j < |Grouped(ps, like)| ==> Subsequence(Grouped(ps, like)[j], ps)
  {
    if ps != [] {
      var init := ps[..|ps| - 1];
      var e := ps[|ps| - 1];
      GroupedKeepsOrder(init, like);
      var g := Grouped(init, like);
      forall j | 0 <= j < |Grouped(ps, like)|
        ensures Subsequence(Grouped(ps, like)[j], ps)
      {
        var h := Grouped(ps, like)[j];
        if j < |g| && h == g[j] {
          assert Subsequence(g[j], init);
        } else if j < |g| {
          assert h == g[j] + [e];
          assert h[..|h| - 1] == g[j];
        } else {
          assert h == [e];
        }
      }
    }
  }

  // ---------------------------------------------------------------------
  // Common structure (findCommonSubstring, findCommonStructure)
  // ---------------------------------------------------------------------

  predicate IsPrefix(p: string, s: string) { |p| <= |s| && s[..|p|] == p }

  /** The longest common prefix of `a` and `b`. */
  function CommonPrefix(a: string, b: string): (r: string)
    ensures IsPrefix(r, a) && IsPrefix(r, b)
    ensures |r| == |a| || |r| == |b| || a[|r|] != b[|r|]
    decreases |a|
  {
    if a == [] || b == [] || a[0] != b[0] then []
    else
      var rest := CommonPrefix(a[1..], b[1..]);
      assert a[..|rest| + 1] == [a[0]] + a[1..][..|rest|];
      assert b[..|rest| + 1] == [b[0]] + b[1..][..|rest|];
      [a[0]] + rest
  }

  /** Any common prefix that cannot be extended is the longest one. */
  lemma CommonPrefixUnique(a: string, b: string, p: string)
    requires IsPrefix(p, a) && IsPrefix(p, b)
    requires |p| == |a| || |p| == |b| || a[|p|] != b[|p|]
    ensures p == CommonPrefix(a, b)
  {
  }

  /** Every common prefix is a prefix of the longest one. */
  lemma CommonPrefixLongest(a: string, b: string, p: string)
    requires IsPrefix(p, a) && IsPrefix(p, b)
    ensures IsPrefix(p, CommonPrefix(a, b))
  {
  }

  /** `findCommonSubstring`: the characters both strings share from the start. */
  method FindCommonSubstring(str1: string, str2: string) returns (common: string)
    ensures common == CommonPrefix(str1, str2)
  {
    common := "";
    var minLength := if |str1| < |str2| then |str1| else |str2|;
    var i := 0;
    while i < minLength
      invariant i <= minLength
      invariant common == str1[..i] && common == str2[..i]
    {
      if str1[i] == str2[i] {
        common := common + [str1[i]];
      } else {
        break;
      }
      i := i + 1;
    }
    CommonPrefixUnique(str1, str2, common);
  }

  /** The longest prefix all the strings share, folded left to right as the loop does. */
  function CommonPrefixOfAll(ss: seq<string>): string
    requires |ss| >= 1
  {
    if |ss| == 1 then ss[0] else CommonPrefix(CommonPrefixOfAll(ss[..|ss| - 1]), ss[|ss| - 1])
  }

  lemma PrefixOfPrefix(p: string, q: string, s: string)
    requires IsPrefix(p, q) && IsPrefix(q, s)
    ensures IsPrefix(p, s)
  {
    assert s[..|p|] == s[..|q|][..|p|];
  }

  lemma {:induction false} CommonPrefixOfAllIsPrefix(ss: seq<string>, j: nat)
    requires j < |ss|
    ensures IsPrefix(CommonPrefixOfAll(ss), ss[j])
  {
    if |ss| > 1 && j < |ss| - 1 {
      CommonPrefixOfAllIsPrefix(ss[..|ss| - 1], j);
      PrefixOfPrefix(CommonPrefixOfAll(ss), CommonPrefixOfAll(ss[..|ss| - 1]), ss[j]);
    }
  }

  lemma {:induction false} CommonPrefixOfAllLongest(ss: seq<string>, p: string)
    requires |ss| >= 1 && forall j :: 0 <= j < |ss| ==> IsPrefix(p, ss[j])
    ensures IsPrefix(p, CommonPrefixOfAll(ss))
  {
    if |ss| > 1 {
      CommonPrefixOfAllLongest(ss[..|ss| - 1], p);
      CommonPrefixLongest(CommonPrefixOfAll(ss[..|ss| - 1]), ss[|ss| - 1], p);
    }
  }

  /** The common prefix of more strings is a prefix of the common prefix of fewer. */
  lemma {:induction false} CommonPrefixOfAllShrinks(ss: seq<string>, i: nat)
    requires 1 <= i <= |ss|
    ensures IsPrefix(CommonPrefixOfAll(ss), CommonPrefixOfAll(ss[..i]))
  {
    if i == |ss| {
      assert ss[..i] == ss;
    } else {
      var init := ss[..|ss| - 1];
      CommonPrefixOfAllShrinks(init, i);
      assert init[..i] == ss[..i];
      PrefixOfPrefix(CommonPrefixOfAll(ss), CommonPrefixOfAll(init), CommonPrefixOfAll(ss[..i]));
    }
  }

  /**
   * What `findCommonStructure` returns: nothing for no structures, nothing
   * once the shared prefix is shorter than 3 characters, otherwise the
   * longest prefix they all share.
   */
  function CommonStructure(ss: seq<string>): Option<string>
  {
    if ss == [] then None
    else if |ss| >= 2 && |CommonPrefixOfAll(ss)| < 3 then None
    else Some(CommonPrefixOfAll(ss))
  }

  /** Taking one more structure into the running prefix. */
  lemma CommonPrefixOfAllNext(ss: seq<string>, i: nat)
    requires 1 <= i < |ss|
    ensures CommonPrefixOfAll(ss[..i + 1]) == CommonPrefix(CommonPrefixOfAll(ss[..i]), ss[i])
  {
    assert ss[..i + 1][..i] == ss[..i];
  }

  /** `findCommonStructure`: the loop that gives up as soon as the running prefix is too short. */
  method FindCommonStructure(structures: seq<string>) returns (r: Option<string>)
    ensures r == CommonStructure(structures)
  {
    if |structures| == 0 {
      return None;
    }
    var common := structures[0];
    var i := 1;
    while i < |structures|
      invariant 1 <= i <= |structures|
      invariant common == CommonPrefixOfAll(structures[..i])
      invariant i >= 2 ==> |common| >= 3
    {
      common := FindCommonSubstring(common, structures[i]);
      CommonPrefixOfAllNext(structures, i);
      if |common| < 3 {
        CommonPrefixOfAllShrinks(structures, i + 1);
        return None;
      }
      i := i + 1;
    }
    assert structures[..i] == structures;
    return Some(common);
  }

  /**
   * A common structure is a prefix of every structure, no common prefix is
   * longer, and with two structures or more it has at least 3 characters.
   */
  lemma CommonStructureMeaning(ss: seq<string>, p: string)
    requires CommonStructure(ss).Some?
    ensures forall j :: 0 <= j < |ss| ==> IsPrefix(CommonStructure(ss).value, ss[j])
    ensures |ss| >= 2 ==> |CommonStructure(ss).value| >= 3
    ensures (forall j :: 0 <= j < |ss| ==> IsPrefix(p, ss[j])) ==> IsPrefix(p, CommonStructure(ss).value)
  {
    forall j | 0 <= j < |ss|
      ensures IsPrefix(CommonStructure(ss).value, ss[j])
    {
      CommonPrefixOfAllIsPrefix(ss, j);
    }
    if forall j :: 0 <= j < |ss| ==> IsPrefix(p, ss[j]) {
      CommonPrefixOfAllLongest(ss, p);
    }
  }

  // ---------------------------------------------------------------------
  // Regex generation (structureToRegex, generateRegexFromGroup)
  // ---------------------------------------------------------------------

  /** A global `replace` of one character by `rep`. */
  function ReplaceChar(s: string, c: char, rep: string): string
    decreases |s|
  {
    if s == [] then [] else (if s[0] == c then rep else [s[0]]) + ReplaceChar(s[1..], c, rep)
  }

  /** `structureToRegex` as the source writes it: eight replacements in a row. */
  function StructureToRegexAsWritten(structure: string): string
  {
    var numbers := ReplaceChar(structure, 'N', "\\d+");
    var upper := ReplaceChar(numbers, 'W', "[A-Z]{2,}");
    var lower := ReplaceChar(upper, 'w', "[a-z]+");
    var spaces := ReplaceRuns(lower, AnySpace, 1, "\\s+");
    var open := ReplaceChar(spaces, '(', "\\(");
    var close := ReplaceChar(open, ')', "\\)");
    var openClass := ReplaceChar(close, '[', "\\[");
    ReplaceChar(openClass, ']', "\\]")
  }

  /** The characters a regular expression gives a meaning of their own. */
  const RegexSpecials: string := "\\^$.|?*+()[]{}"

  /** The piece of regular expression one structure character stands for. */
  function TokenRegex(c: char): string
  {
    if c == 'N' then "\\d+"
    else if c == 'W' then "[A-Z]{2,}"
    else if c == 'w' then "[a-z]+"
    else if c in RegexSpecials then ['\\', c]
    else [c]
  }

  /**
   * The regular expression a structure evidently should give: each `N`, `W`
   * and `w` its class, each run of spaces `\s+`, every other character
   * literal, escaped where a regular expression would read it otherwise.
   */
  function StructureToRegex(structure: string): string
    decreases |structure|
  {
    if structure == [] then []
    else if IsSpace(structure[0]) then
      "\\s+" + StructureToRegex(structure[RunEnd(structure, 0, AnySpace, false)..])
    else TokenRegex(structure[0]) + StructureToRegex(structure[1..])
  }

  /** Reads a generated regular expression back as the structure it matches. */
  function RegexToStructure(rx: string): string
    decreases |rx|
  {
    if rx == [] then []
    else if rx[0] == '\\' && |rx| >= 2 then
      if |rx| >= 3 && rx[1] == 'd' && rx[2] == '+' then "N" + RegexToStructure(rx[3..])
      else if |rx| >= 3 && rx[1] == 's' && rx[2] == '+' then " " + RegexToStructure(rx[3..])
      else [rx[1]] + RegexToStructure(rx[2..])
    else if rx[0] == '[' && StartsWith(rx, "[A-Z]{2,}") then "W" + RegexToStructure(rx[9..])
    else if rx[0] == '[' && StartsWith(rx, "[a-z]+") then "w" + RegexToStructure(rx[6..])
    else [rx[0]] + RegexToStructure(rx[1..])
  }

  lemma ReadBackNumber(rest: string)
    ensures RegexToStructure("\\d+" + rest) == "N" + RegexToStructure(rest)
  {
    assert ("\\d+" + rest)[3..] == rest;
  }

  lemma ReadBackUpper(rest: string)
    ensures RegexToStructure("[A-Z]{2,}" + rest) == "W" + RegexToStructure(rest)
  {
    var rx := "[A-Z]{2,}" + rest;
    assert rx[..9] == "[A-Z]{2,}" && rx[9..] == rest;
  }

  lemma ReadBackLower(rest: string)
    ensures RegexToStructure("[a-z]+" + rest) == "w" + RegexToStructure(rest)
  {
    var rx := "[a-z]+" + rest;
    assert rx[..6] == "[a-z]+" && rx[6..] == rest;
    assert !StartsWith(rx, "[A-Z]{2,}") by {
      if |rx| >= 9 {
        assert rx[1] == 'a';
      }
    }
  }

  lemma ReadBackEscaped(c: char, rest: string)
    requires c in RegexSpecials
    ensures RegexToStructure(['\\', c] + rest) == [c] + RegexToStructure(rest)
  {
    assert (['\\', c] + rest)[2..] == rest;
  }

  lemma ReadBackPlain(c: char, rest: string)
    requires c != '\\' && c != '['
    ensures RegexToStructure([c] + rest) == [c] + RegexToStructure(rest)
  {
    assert ([c] + rest)[1..] == rest;
  }

  lemma ReadBackToken(c: char, rest: string)
    ensures RegexToStructure(TokenRegex(c) + rest) == [c] + RegexToStructure(rest)
  {
    if c == 'N' {
      ReadBackNumber(rest);
    } else if c == 'W' {
      ReadBackUpper(rest);
    } else if c == 'w' {
      ReadBackLower(rest);
    } else if c in RegexSpecials {
      ReadBackEscaped(c, rest);
    } else {
      assert RegexSpecials[0] == '\\' && RegexSpecials[10] == '[';
      ReadBackPlain(c, rest);
    }
  }

  /** A leading white-space character of a structure comes back from its `\\s+`. */
  lemma SpaceRoundTrip(structure: string)
    requires StructureChars(structure) && structure != [] && IsSpace(structure[0])
    requires RegexToStructure(StructureToRegex(structure[1..])) == structure[1..]
    ensures RegexToStructure(StructureToRegex(structure)) == structure
  {
    assert RunEnd(structure, 0, AnySpace, false) == 1;
    var rx := "\\s+" + StructureToRegex(structure[1..]);
    assert rx[3..] == StructureToRegex(structure[1..]);
  }

  /** A leading token character of a structure comes back from its own regex. */
  lemma TokenRoundTrip(structure: string)
    requires structure != [] && !IsSpace(structure[0])
    requires RegexToStructure(StructureToRegex(structure[1..])) == structure[1..]
    ensures RegexToStructure(StructureToRegex(structure)) == structure
  {
    ReadBackToken(structure[0], StructureToRegex(structure[1..]));
    assert structure == [structure[0]] + structure[1..];
  }

  /** The corrected translation loses nothing: reading the regex back gives the structure. */
  lemma {:induction false} RegexRoundTrip(structure: string)
    requires StructureChars(structure)
    ensures RegexToStructure(StructureToRegex(structure)) == structure
    decreases |structure|
  {
    if structure != [] {
      StructureCharsOfPart(structure, 1, |structure|);
      RegexRoundTrip(structure[1..]);
      if IsSpace(structure[0]) {
        SpaceRoundTrip(structure);
      } else {
        TokenRoundTrip(structure);
      }
    }
  }

  lemma {:induction false} ReplaceCharAbsent(s: string, c: char, rep: string)
    requires c !in s
    ensures ReplaceChar(s, c, rep) == s
    decreases |s|
  {
    if s != [] {
      ReplaceCharAbsent(s[1..], c, rep);
      assert s == [s[0]] + s[1..];
    }
  }

  lemma {:induction false} ReplaceRunsAbsent(s: string, cs: CharSet, rep: string)
    requires forall k :: 0 <= k < |s| ==> !InSet(cs, s[k])
    ensures ReplaceRuns(s, cs, 1, rep) == s
    decreases |s|
  {
    if s != [] {
      assert RunEnd(s, 0, cs, false) == 0;
      ReplaceRunsAbsent(s[1..], cs, rep);
      assert s == [s[0]] + s[1..];
    }
  }

  /**
   * The source escapes the brackets of the classes it has just written, so
   * a lower-case word becomes `\[a-z\]+`: a regex for `[a-z` followed by one
   * or more `]`, not for a lower-case word.
   */
  lemma AsWrittenEscapesItsOwnClasses()
    ensures StructureToRegexAsWritten("w") == "\\[a-z\\]+"
  {
    WordStage();
    SpaceStage();
    ParenStage();
    CloseParenStage();
    OpenStage();
    CloseStage();
  }

  lemma WordStage()
    ensures ReplaceChar(ReplaceChar(ReplaceChar("w", 'N', "\\d+"), 'W', "[A-Z]{2,}"), 'w', "[a-z]+") == "[a-z]+"
  {
    ReplaceCharAbsent("w", 'N', "\\d+");
    ReplaceCharAbsent("w", 'W', "[A-Z]{2,}");
  }

  lemma SpaceStage()
    ensures ReplaceRuns("[a-z]+", AnySpace, 1, "\\s+") == "[a-z]+"
  {
    var s := "[a-z]+";
    assert forall k :: 0 <= k < |s| ==> !InSet(AnySpace, s[k]) by {
      assert s == ['[', 'a', '-', 'z', ']', '+'];
    }
    ReplaceRunsAbsent(s, AnySpace, "\\s+");
  }

  lemma ParenStage()
    ensures ReplaceChar("[a-z]+", '(', "\\(") == "[a-z]+"
  {
    ReplaceCharAbsent("[a-z]+", '(', "\\(");
  }

  lemma CloseParenStage()
    ensures ReplaceChar("[a-z]+", ')', "\\)") == "[a-z]+"
  {
    ReplaceCharAbsent("[a-z]+", ')', "\\)");
  }

  lemma OpenStage()
    ensures ReplaceChar("[a-z]+", '[', "\\[") == "\\[a-z]+"
  {
    var back := "a-z]+";
    assert '[' !in back by {
      assert back == ['a', '-', 'z', ']', '+'];
    }
    ReplaceOnce([], '[', "\\[", back);
    assert "[a-z]+" == [] + (['['] + back);
    assert [] + ("\\[" + back) == "\\[a-z]+";
  }

  lemma CloseStage()
    ensures ReplaceChar("\\[a-z]+", ']', "\\]") == "\\[a-z\\]+"
  {
    var front, back := "\\[a-z", "+";
    assert ']' !in front && ']' !in back by {
      assert front == ['\\', '[', 'a', '-', 'z'];
    }
    ReplaceOnce(front, ']', "\\]", back);
    assert "\\[a-z]+" == front + ([']'] + back);
    assert front + ("\\]" + back) == "\\[a-z\\]+";
  }

  /** Replacing the one occurrence of `c`. */
  lemma ReplaceOnce(front: string, c: char, rep: string, back: string)
    requires c !in front && c !in back
    ensures ReplaceChar(front + ([c] + back), c, rep) == front + (rep + back)
  {
    ReplaceCharAbsent(front, c, rep);
    ReplaceCharAbsent(back, c, rep);
    ReplaceCharSplit(front, [c] + back, c, rep);
    assert ReplaceChar([c] + back, c, rep) == rep + ReplaceChar(back, c, rep) by {
      assert ([c] + back)[1..] == back;
    }
  }

  lemma {:induction false} ReplaceCharSplit(a: string, b: string, c: char, rep: string)
    ensures ReplaceChar(a + b, c, rep) == ReplaceChar(a, c, rep) + ReplaceChar(b, c, rep)
    decreases |a|
  {
    if a != [] {
      ReplaceCharSplit(a[1..], b, c, rep);
      assert (a + b)[1..] == a[1..] + b;
    } else {
      assert a + b == b;
    }
  }

  /** `RegexToStructure` reads the regex the source generates for `w` back as `[a-z]+`, not `w`. */
  lemma AsWrittenReadsBackWrong()
    ensures RegexToStructure("\\[a-z\\]+") == "[a-z]+"
  {
    ReadBackPlain('+', []);
    assert RegexToStructure("+") == "+";
    ReadBackEscaped(']', "+");
    assert "\\]+" == ['\\', ']'] + "+";
    ReadBackPlain('z', "\\]+");
    assert "z\\]+" == ['z'] + "\\]+";
    ReadBackPlain('-', "z\\]+");
    assert "-z\\]+" == ['-'] + "z\\]+";
    ReadBackPlain('a', "-z\\]+");
    assert "a-z\\]+" == ['a'] + "-z\\]+";
    ReadBackEscaped('[', "a-z\\]+");
    assert "\\[a-z\\]+" == ['\\', '['] + "a-z\\]+";
  }

  /** The corrected translation of `w` reads back as `w`. */
  lemma CorrectedReadsBack()
    ensures RegexToStructure(StructureToRegex("w")) == "w"
  {
    assert StructureToRegex("w") == "[a-z]+" + StructureToRegex([]);
    ReadBackLower([]);
  }

  /** `group.map(p => this.extractStructure(p.text))`. */
  function StructuresOf(group: seq<Entry>): (r: seq<string>)
    ensures |r| == |group|
  {
    if group == [] then [] else StructuresOf(group[..|group| - 1]) + [StructureOf(group[|group| - 1].text)]
  }

  lemma {:induction false} StructureAt(group: seq<Entry>, j: nat)
    requires j < |group|
    ensures StructuresOf(group)[j] == StructureOf(group[j].text)
  {
    if j < |group| - 1 {
      StructureAt(group[..|group| - 1], j);
    }
  }

  /**
   * What `generateRegexFromGroup` returns (the empty common structure counts
   * as none), with `structureToRegex` as the source writes it.
   */
  function RegexForGroup(group: seq<Entry>): Option<string>
  {
    if |group| < 3 then None
    else
      match CommonStructure(StructuresOf(group))
      case None => None
      case Some(common) => if common == [] then None else Some(StructureToRegexAsWritten(common))
  }

  method GenerateRegexFromGroup(group: seq<Entry>) returns (r: Option<string>)
    ensures r == RegexForGroup(group)
  {
    if |group| < 3 {
      return None;
    }
    var structures := StructuresOf(group);
    var commonStructure := FindCommonStructure(structures);
    if commonStructure.Some? && commonStructure.value != [] {
      return Some(StructureToRegexAsWritten(commonStructure.value));
    }
    return None;
  }

  /**
   * A generated regex comes from at least 3 examples and is the translation
   * of a structure of at least 3 characters that starts every example's
   * structure and that no longer common start extends.
   */
  lemma GroupRegexMeaning(group: seq<Entry>, p: string)
    requires RegexForGroup(group).Some?
    ensures |group| >= 3
    ensures var common := CommonStructure(StructuresOf(group)).value;
      && RegexForGroup(group).value == StructureToRegexAsWritten(common)
      && |common| >= 3
      && (forall j :: 0 <= j < |group| ==> IsPrefix(common, StructureOf(group[j].text)))
      && ((forall j :: 0 <= j < |group| ==> IsPrefix(p, StructureOf(group[j].text))) ==> IsPrefix(p, common))
  {
    var ss := StructuresOf(group);
    var common := CommonStructure(ss).value;
    CommonStructureMeaning(ss, p);
    forall j | 0 <= j < |group|
      ensures IsPrefix(common, StructureOf(group[j].text)) && ss[j] == StructureOf(group[j].text)
    {
      StructureAt(group, j);
    }
  }

  /** The regex of a group under the corrected translation. */
  function CorrectedRegexForGroup(group: seq<Entry>): Option<string>
  {
    if |group| < 3 then None
    else
      match CommonStructure(StructuresOf(group))
      case None => None
      case Some(common) => if common == [] then None else Some(StructureToRegex(common))
  }

  /**
   * Under the corrected translation a group's regex reads back as a
   * structure of at least 3 characters that starts every example's structure.
   */
  lemma CorrectedGroupRegexReadsBack(group: seq<Entry>)
    requires CorrectedRegexForGroup(group).Some?
    ensures |group| >= 3
    ensures |RegexToStructure(CorrectedRegexForGroup(group).value)| >= 3
    ensures forall j :: 0 <= j < |group| ==>
      IsPrefix(RegexToStructure(CorrectedRegexForGroup(group).value), StructureOf(group[j].text))
  {
    var ss := StructuresOf(group);
    var common := CommonStructure(ss).value;
    CommonStructureMeaning(ss, common);
    StructureAt(group, 0);
    StructureShape(group[0].text);
    StructureCharsOfPart(ss[0], 0, |common|);
    assert ss[0][0..|common|] == common;
    RegexRoundTrip(common);
    forall j | 0 <= j < |group|
      ensures IsPrefix(common, StructureOf(group[j].text))
    {
      StructureAt(group, j);
    }
  }

  // ---------------------------------------------------------------------
  // Generated patterns (generatePatternsForCategory, generateImprovedRules)
  // ---------------------------------------------------------------------

  /** One generated rule: the regex, its description and the first three examples. */
  datatype Generated = Generated(pattern: string, description: string, examples: seq<string>)

  /** What one group contributes: a rule when it has 3 members or more and a regex could be generated. */
  function GeneratedFor(group: seq<Entry>): seq<Generated>
  {
    if |group| >= 3 && RegexForGroup(group).Some? && RegexForGroup(group).value != [] then
      [Generated(RegexForGroup(group).value,
        "Auto-generated from " + NatToString(|group|) + " examples",
        [group[0].text, group[1].text, group[2].text])]
    else []
  }

  function PatternsFor(groups: seq<seq<Entry>>): seq<Generated>
  {
    if groups == [] then [] else PatternsFor(groups[..|groups| - 1]) + GeneratedFor(groups[|groups| - 1])
  }

  /** The rules generated for one category's lines. */
  function PatternsForCategory(patterns: seq<Entry>): seq<Generated>
  {
    PatternsFor(Grouped(patterns, Similar))
  }

  /** `generatePatternsForCategory`: group the lines, then one rule per large enough group. */
  method GeneratePatternsForCategory(patterns: seq<Entry>) returns (generated: seq<Generated>)
    ensures generated == PatternsForCategory(patterns)
  {
    generated := [];
    var grouped := GroupSimilarPatterns(patterns, Similar);
    var i := 0;
    while i < |grouped|
      invariant i <= |grouped|
      invariant generated == PatternsFor(grouped[..i])
    {
      var group := grouped[i];
      if |group| >= 3 {
        var pattern := GenerateRegexFromGroup(group);
        if pattern.Some? && pattern.value != [] {
          generated := generated + [Generated(pattern.value,
            "Auto-generated from " + NatToString(|group|) + " examples",
            [group[0].text, group[1].text, group[2].text])];
        }
      }
      assert grouped[..i + 1][..i] == grouped[..i];
      i := i + 1;
    }
    assert grouped[..i] == grouped;
  }

  /**
   * A rule's regex is the translation of a structure of at least 3
   * characters that starts each of its three examples' structures.
   */
  ghost predicate Supported(g: Generated) {
    && |g.examples| == 3
    && exists c :: g.pattern == StructureToRegexAsWritten(c) && |c| >= 3
         && IsPrefix(c, StructureOf(g.examples[0]))
         && IsPrefix(c, StructureOf(g.examples[1]))
         && IsPrefix(c, StructureOf(g.examples[2]))
  }

  lemma {:induction false} PatternsForSupported(groups: seq<seq<Entry>>)
    ensures forall k :: 0 <= k < |PatternsFor(groups)| ==> Supported(PatternsFor(groups)[k])
  {
    if groups != [] {
      PatternsForSupported(groups[..|groups| - 1]);
      GeneratedForSupported(groups[|groups| - 1]);
    }
  }

  lemma GeneratedForSupported(group: seq<Entry>)
    ensures forall k :: 0 <= k < |GeneratedFor(group)| ==> Supported(GeneratedFor(group)[k])
  {
    if |group| >= 3 && RegexForGroup(group).Some? && RegexForGroup(group).value != [] {
      var common := CommonStructure(StructuresOf(group)).value;
      GroupRegexMeaning(group, common);
      SupportedBy(group, common, "Auto-generated from " + NatToString(|group|) + " examples");
    }
  }

  lemma SupportedBy(group: seq<Entry>, common: string, description: string)
    requires |group| >= 3 && |common| >= 3
    requires IsPrefix(common, StructureOf(group[0].text))
    requires IsPrefix(common, StructureOf(group[1].text))
    requires IsPrefix(common, StructureOf(group[2].text))
    ensures Supported(Generated(StructureToRegexAsWritten(common), description, [group[0].text, group[1].text, group[2].text]))
  {
    var g := Generated(StructureToRegexAsWritten(common), description, [group[0].text, group[1].text, group[2].text]);
    assert g.pattern == StructureToRegexAsWritten(common);
  }

  /** Every generated rule is supported by its three examples. */
  lemma CategoryPatternsSupported(patterns: seq<Entry>)
    ensures forall k :: 0 <= k < |PatternsForCategory(patterns)| ==> Supported(PatternsForCategory(patterns)[k])
  {
    PatternsForSupported(Grouped(patterns, Similar));
  }

  /** The six keys of the object `generateImprovedRules` returns. */
  datatype RuleCategory =
    | CrossReferencePatterns
    | ConditionPatterns
    | ZeitRulePatterns
    | TechnicalStatusPatterns
    | VariablePatterns
    | IndustrialRulePatterns

  /** `mapCategoryToRuleCategory`: the first six categories have a rule list, the rest none. */
  function RuleCategoryOf(c: Category): Option<RuleCategory>
  {
    match c
    case CrossReferences => Some(CrossReferencePatterns)
    case Conditions => Some(ConditionPatterns)
    case ZeitPatterns => Some(ZeitRulePatterns)
    case TechnicalStatus => Some(TechnicalStatusPatterns)
    case VariableAssignments => Some(VariablePatterns)
    case IndustrialPatterns => Some(IndustrialRulePatterns)
    case _ => None
  }

  /** The one category whose lines feed a rule list. */
  function SourceCategory(rc: RuleCategory): (c: Category)
    ensures RuleCategoryOf(c) == Some(rc)
  {
    match rc
    case CrossReferencePatterns => CrossReferences
    case ConditionPatterns => Conditions
    case ZeitRulePatterns => ZeitPatterns
    case TechnicalStatusPatterns => TechnicalStatus
    case VariablePatterns => VariableAssignments
    case IndustrialRulePatterns => IndustrialPatterns
  }

  /** Each rule list is fed by exactly one category. */
  lemma RuleCategoryUnique(c: Category, rc: RuleCategory)
    ensures RuleCategoryOf(c) == Some(rc) <==> c == SourceCategory(rc)
  {
  }

  const NoRules: map<RuleCategory, seq<Generated>> := map[
    CrossReferencePatterns := [], ConditionPatterns := [], ZeitRulePatterns := [],
    TechnicalStatusPatterns := [], VariablePatterns := [], IndustrialRulePatterns := []
  ]

  /** The rules for one list, once the buckets before `k` have been visited. */
  function RulesUpTo(categorized: Categorized, rc: RuleCategory, k: nat): seq<Generated>
    requires |categorized| == |Buckets|
  {
    var j := BucketIndex(In(SourceCategory(rc)));
    if j < k then PatternsForCategory(categorized[j]) else []
  }

  /** The rule lists after visiting the `k`-th bucket, as one pass of the loop leaves them. */
  function Visit(rules: map<RuleCategory, seq<Generated>>, categorized: Categorized, k: nat): map<RuleCategory, seq<Generated>>
    requires |categorized| == |Buckets| && k < |Buckets|
  {
    var bucket := Buckets[k];
    if |categorized[k]| > 0 && bucket != Unrecognized && RuleCategoryOf(bucket.category).Some? then
      var rc := RuleCategoryOf(bucket.category).value;
      if rc in rules then rules[rc := rules[rc] + PatternsForCategory(categorized[k])] else rules
    else rules
  }

  /** The rule lists hold what the buckets before `k` feed them. */
  predicate RulesAfter(rules: map<RuleCategory, seq<Generated>>, categorized: Categorized, k: nat)
    requires |categorized| == |Buckets|
  {
    forall rc :: rc in rules && rules[rc] == RulesUpTo(categorized, rc, k)
  }

  lemma NoRulesAtStart(categorized: Categorized)
    requires |categorized| == |Buckets|
    ensures RulesAfter(NoRules, categorized, 0)
  {
    forall rc
      ensures rc in NoRules && NoRules[rc] == RulesUpTo(categorized, rc, 0)
    {
      match rc
      case CrossReferencePatterns =>
      case ConditionPatterns =>
      case ZeitRulePatterns =>
      case TechnicalStatusPatterns =>
      case VariablePatterns =>
      case IndustrialRulePatterns =>
    }
  }

  lemma VisitKeeps(rules: map<RuleCategory, seq<Generated>>, categorized: Categorized, k: nat)
    requires |categorized| == |Buckets| && k < |Buckets|
    requires RulesAfter(rules, categorized, k)
    ensures RulesAfter(Visit(rules, categorized, k), categorized, k + 1)
  {
    forall rc
      ensures rc in Visit(rules, categorized, k) && Visit(rules, categorized, k)[rc] == RulesUpTo(categorized, rc, k + 1)
    {
      VisitKeepsOne(rules, categorized, k, rc);
    }
  }

  /** Visiting the `k`-th bucket feeds the list `rc` exactly when that bucket is its source category. */
  lemma VisitKeepsOne(rules: map<RuleCategory, seq<Generated>>, categorized: Categorized, k: nat, rc: RuleCategory)
    requires |categorized| == |Buckets| && k < |Buckets|
    requires rc in rules && rules[rc] == RulesUpTo(categorized, rc, k)
    ensures rc in Visit(rules, categorized, k) && Visit(rules, categorized, k)[rc] == RulesUpTo(categorized, rc, k + 1)
  {
    BucketIndexOf(k);
    var j := BucketIndex(In(SourceCategory(rc)));
    if j == k {
      assert RulesUpTo(categorized, rc, k) == [];
      if categorized[k] == [] {
        assert PatternsForCategory(categorized[k]) == [];
      }
    } else {
      assert RulesUpTo(categorized, rc, k + 1) == RulesUpTo(categorized, rc, k);
      if Buckets[k] != Unrecognized {
        RuleCategoryUnique(Buckets[k].category, rc);
      }
    }
  }

  /**
   * `generateImprovedRules`: every rule list holds the rules generated from
   * the lines of its one source category; unrecognised lines and the last
   * four categories feed nothing.
   */
  method GenerateImprovedRules(categorizedPatterns: Categorized) returns (improvedRules: map<RuleCategory, seq<Generated>>)
    requires |categorizedPatterns| == |Buckets|
    ensures forall rc :: rc in improvedRules
    ensures forall rc :: improvedRules[rc] == PatternsForCategory(categorizedPatterns[BucketIndex(In(SourceCategory(rc)))])
  {
    improvedRules := NoRules;
    NoRulesAtStart(categorizedPatterns);
    var k := 0;
    while k < |Buckets|
      invariant k <= |Buckets|
      invariant RulesAfter(improvedRules, categorizedPatterns, k)
    {
      ghost var before := improvedRules;
      var bucket := Buckets[k];
      var patterns := categorizedPatterns[k];
      if |patterns| > 0 && bucket != Unrecognized {
        var ruleCategory := RuleCategoryOf(bucket.category);
        if ruleCategory.Some? && ruleCategory.value in improvedRules {
          var generated := GeneratePatternsForCategory(patterns);
          improvedRules := improvedRules[ruleCategory.value := improvedRules[ruleCategory.value] + generated];
        }
      }
      assert improvedRules == Visit(before, categorizedPatterns, k);
      VisitKeeps(before, categorizedPatterns, k);
      k := k + 1;
    }
  }
}
