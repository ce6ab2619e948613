/**
 * `normalizeStepFormatting` of test-normalization.js: a chain of global
 * `replace` calls that moves step and idle keywords onto their own lines,
 * brings step and idle headers into the form `KEYWORD N: ` and `KEYWORD: `,
 * upper-cases `VON SCHRITT n` lines, spaces colons and collapses runs of
 * white space.
 *
 * Every regular expression of the chain is a stage with a matcher
 * `MatchAt(stage, s, i)`: the match the regular expression finds when it is
 * tried at position `i` of `s`, with the end of the match and the text of the
 * replacement. A global replace scans the string from the left, replaces
 * each match and goes on after it, and copies every character where no match
 * starts.
 */
module Normalization {
  import opened Wrappers
  import opened Text
  import opened SyntaxRules
  import opened ConditionRegex

  /** `^` under the `m` flag: the start of the text or just after a line terminator. */
  predicate LineStart(s: string, i: nat) {
    i == 0 || (0 < i <= |s| && IsLineTerminator(s[i - 1]))
  }

  /** A match: where it ends and what replaces it. */
  datatype Hit = Hit(end: nat, text: string)

  /** `\s*[xy]?\s*` from `p`, where `seps` holds the characters of the class. */
  function AfterSeparator(s: string, p: nat, seps: string): (r: nat)
    requires p <= |s|
    ensures p <= r <= |s|
  {
    var q := SkipSpaces(s, p);
    SkipSpaces(s, if q < |s| && s[q] in seps then q + 1 else q)
  }

  /** `[^\n]*` from `a`: the end of the line, a line feed only. */
  function LineFeedFrom(s: string, a: nat): (r: nat)
    requires a <= |s|
    ensures a <= r <= |s|
  {
    IndexOf(s, '\n', a)
  }

  /**
   * `(k1|k2|k3)` under the `i` flag at `k`: the first keyword of `kws`
   * written there in any case, and the position where it ends.
   */
  function KeywordEnd(s: string, k: nat, kws: seq<string>): (r: Option<nat>)
    ensures r.Some? ==> k <= r.value <= |s|
  {
    match FirstKeywordAt(s, k, kws)
    case None => None
    case Some(w) => Some(k + |kws[w]|)
  }

  // ---------------------------------------------------------------------
  // Lines 22-26: a keyword after other text goes onto a line of its own
  // ---------------------------------------------------------------------

  /**
   * `\s+(SCHRITT|STAP|STEP)\s+(\d+)\s*[:.]?\s*([^\n]*)` from `j`, and the
   * text after the line break: `KEYWORD number: rest`.
   */
  function StepTail(s: string, j: nat): (r: Option<Hit>)
    requires j <= |s|
    ensures r.Some? ==> j < r.value.end <= |s|
  {
    if j < |s| && IsSpace(s[j]) then
      var k := SkipSpaces(s, j);
      match KeywordEnd(s, k, SchrittAlternatives)
      case None => None
      case Some(e) => NumberedTail(s, k, e)
    else None
  }

  /** `\s+(\d+)\s*[:.]?\s*([^\n]*)` after the keyword `s[k..e]`. */
  function NumberedTail(s: string, k: nat, e: nat): (r: Option<Hit>)
    requires k <= e <= |s|
    ensures r.Some? ==> e < r.value.end <= |s|
  {
    if e < |s| && IsSpace(s[e]) then
      var d := SkipSpaces(s, e);
      if d < |s| && IsDigit(s[d]) then
        var n := SkipDigits(s, d);
        var a := AfterSeparator(s, n, ":.");
        var end := LineFeedFrom(s, a);
        Some(Hit(end, Upper(s[k..e]) + " " + s[d..n] + ": " + s[a..end]))
      else None
    else None
  }

  /** `\s+(RUST|RUHE|IDLE)\s*[:.]?\s*([^\n]*)` from `j`, and the text after the line break: `KEYWORD: rest`. */
  function IdleTail(s: string, j: nat): (r: Option<Hit>)
    requires j <= |s|
    ensures r.Some? ==> j < r.value.end <= |s|
  {
    if j < |s| && IsSpace(s[j]) then
      var k := SkipSpaces(s, j);
      match KeywordEnd(s, k, RuheAlternatives)
      case None => None
      case Some(e) =>
        var a := AfterSeparator(s, e, ":.");
        var end := LineFeedFrom(s, a);
        Some(Hit(end, Upper(s[k..e]) + ": " + s[a..end]))
    else None
  }

  function Tail(step: bool, s: string, j: nat): (r: Option<Hit>)
    requires j <= |s|
    ensures r.Some? ==> j < r.value.end <= |s|
  {
    if step then StepTail(s, j) else IdleTail(s, j)
  }

  /**
   * `([^\n]+?)` followed by the tail: the shortest text before the keyword,
   * tried from `s[i..j]` on, as the lazy quantifier does.
   */
  function MoveToOwnLine(step: bool, s: string, i: nat, j: nat): (r: Option<Hit>)
    requires i < j <= |s|
    ensures r.Some? ==> j < r.value.end <= |s|
    decreases |s| - j
  {
    match Tail(step, s, j)
    case Some(t) => Some(Hit(t.end, Trim(s[i..j]) + "\n" + t.text))
    case None => if j < |s| && s[j] != '\n' then MoveToOwnLine(step, s, i, j + 1) else None
  }

  // ---------------------------------------------------------------------
  // Lines 30-39: the headers at the start of a line
  // ---------------------------------------------------------------------

  /** `^\s*(k1|k2|k3)`: a keyword of `kws` after the indentation of a line; the position where it ends. */
  function KeywordAtLineStart(s: string, i: nat, kws: seq<string>): (r: Option<nat>)
    requires i < |s|
    ensures r.Some? ==> SkipSpaces(s, i) <= r.value <= |s|
  {
    if LineStart(s, i) then KeywordEnd(s, SkipSpaces(s, i), kws) else None
  }

  /** `^\s*(RUST|RUHE|IDLE)\s*[:.]?\s*` becomes `KEYWORD: `. */
  function IdleHeaderAt(s: string, i: nat): (r: Option<Hit>)
    requires i < |s|
    ensures r.Some? ==> i < r.value.end <= |s|
  {
    match KeywordAtLineStart(s, i, RuheAlternatives)
    case None => None
    case Some(e) => Some(Hit(AfterSeparator(s, e, ":."), Upper(s[SkipSpaces(s, i)..e]) + ": "))
  }

  /** `^\s*(SCHRITT|STAP|STEP)\s*[-.]?\s*(\d+)\s*[:.]?\s*` becomes `KEYWORD number: `. */
  function StepHeaderAt(s: string, i: nat): (r: Option<Hit>)
    requires i < |s|
    ensures r.Some? ==> i < r.value.end <= |s|
  {
    match KeywordAtLineStart(s, i, SchrittAlternatives)
    case None => None
    case Some(e) => NumberedHeader(s, SkipSpaces(s, i), e)
  }

  /** `\s*[-.]?\s*(\d+)\s*[:.]?\s*` after the keyword `s[k..e]`. */
  function NumberedHeader(s: string, k: nat, e: nat): (r: Option<Hit>)
    requires k <= e <= |s|
    ensures r.Some? ==> e < r.value.end <= |s|
  {
    var d := AfterSeparator(s, e, "-.");
    if d < |s| && IsDigit(s[d]) then
      var n := SkipDigits(s, d);
      Some(Hit(AfterSeparator(s, n, ":."), Upper(s[k..e]) + " " + s[d..n] + ": "))
    else None
  }

  /** `^\s*(SCHRITT|STAP|STEP)\s*[:.](?!\s*\d)` becomes `KEYWORD 1: `. */
  function StepWithoutNumberAt(s: string, i: nat): (r: Option<Hit>)
    requires i < |s|
    ensures r.Some? ==> i < r.value.end <= |s|
  {
    match KeywordAtLineStart(s, i, SchrittAlternatives)
    case None => None
    case Some(e) => DefaultNumberHeader(s, SkipSpaces(s, i), e)
  }

  /** `\s*[:.](?!\s*\d)` after the keyword `s[k..e]`. */
  function DefaultNumberHeader(s: string, k: nat, e: nat): (r: Option<Hit>)
    requires k <= e <= |s|
    ensures r.Some? ==> e < r.value.end <= |s|
  {
    if SeparatorWithoutNumber(s, e) then Some(Hit(SkipSpaces(s, e) + 1, Upper(s[k..e]) + " 1: ")) else None
  }

  /** `\s*[:.](?!\s*\d)` matches at `e`. */
  predicate SeparatorWithoutNumber(s: string, e: nat)
    requires e <= |s|
  {
    var p := SkipSpaces(s, e);
    p < |s| && s[p] in ":." && !DigitAfterSpaces(s, p + 1)
  }

  /** `\s*\d` matches at `p`. */
  predicate DigitAfterSpaces(s: string, p: nat)
    requires p <= |s|
  {
    SkipSpaces(s, p) < |s| && IsDigit(s[SkipSpaces(s, p)])
  }

  /**
   * `\s*$` after position `lo`: the last position up to `hi` (the end of
   * the white space) that is the end of the text or holds a line
   * terminator, as the greedy `\s*` backtracks to it.
   */
  function LineEndWithin(s: string, lo: nat, hi: nat): (r: Option<nat>)
    requires lo <= hi <= |s|
    ensures r.Some? ==> lo <= r.value <= hi && (r.value == |s| || IsLineTerminator(s[r.value]))
    decreases hi
  {
    if hi == |s| || IsLineTerminator(s[hi]) then Some(hi)
    else if hi == lo then None
    else LineEndWithin(s, lo, hi - 1)
  }

  /** `^\s*(\+?\s*VON\s+(?:SCHRITT|STAP|STEP)\s+\d+)\s*$` becomes the declaration, upper-cased. */
  function StepDeclarationAt(s: string, i: nat): (r: Option<Hit>)
    requires i < |s|
    ensures r.Some? ==> i < r.value.end <= |s|
  {
    if !LineStart(s, i) then None else DeclarationFrom(s, SkipSpaces(s, i), SchrittAlternatives)
  }

  /** `\+?\s*` from the declaration's start `k`, then `VON`, a keyword of `kws` and the number. */
  function DeclarationFrom(s: string, k: nat, kws: seq<string>): (r: Option<Hit>)
    requires k <= |s|
    ensures r.Some? ==> k < r.value.end <= |s|
  {
    DeclarationAfter(s, k, if k < |s| && s[k] == '+' then SkipSpaces(s, k + 1) else k, kws)
  }

  /** `VON\s+` at `v`, a keyword of `kws`, and what follows it, for the declaration that starts at `k`. */
  function DeclarationAfter(s: string, k: nat, v: nat, kws: seq<string>): (r: Option<Hit>)
    requires k <= v <= |s|
    ensures r.Some? ==> k < r.value.end <= |s|
  {
    if !(VonAt(s, v) && IsSpace(s[v + 3])) then None
    else
      match KeywordEnd(s, SkipSpaces(s, v + 3), kws)
      case None => None
      case Some(e) => DeclarationEnd(s, k, e)
  }

  /** `VON` under the `i` flag at `v`, with a character after it. */
  predicate VonAt(s: string, v: nat) {
    v + 3 < |s| && LowerChar(s[v]) == 'v' && LowerChar(s[v + 1]) == 'o' && LowerChar(s[v + 2]) == 'n'
  }

  /** `\s+\d+` after the step keyword ending at `e`, then `\s*$`: the declaration `s[k..]` up to the number, upper-cased. */
  function DeclarationEnd(s: string, k: nat, e: nat): (r: Option<Hit>)
    requires k <= e <= |s|
    ensures r.Some? ==> e < r.value.end <= |s|
  {
    if e < |s| && IsSpace(s[e]) then
      var d := SkipSpaces(s, e);
      if d < |s| && IsDigit(s[d]) then
        var n := SkipDigits(s, d);
        match LineEndWithin(s, n, SkipSpaces(s, n))
        case None => None
        case Some(end) => Some(Hit(end, Upper(s[k..n])))
      else None
    else None
  }

  // ---------------------------------------------------------------------
  // Line 41: colon spacing
  // ---------------------------------------------------------------------

  /** `(\w)\s*:\s*` becomes the word character, a colon and one space. */
  function ColonSpacingAt(s: string, i: nat): (r: Option<Hit>)
    requires i < |s|
    ensures r.Some? ==> i < r.value.end <= |s|
  {
    if !IsWordChar(s[i]) then None
    else
      var p := SkipSpaces(s, i + 1);
      if p < |s| && s[p] == ':' then Some(Hit(SkipSpaces(s, p + 1), [s[i], ':', ' '])) else None
  }

  // ---------------------------------------------------------------------
  // The chain
  // ---------------------------------------------------------------------

  /** The regular expressions of the chain, in the order they are applied. */
  datatype Stage =
    | StepAfterText
    | IdleAfterText
    | IdleHeader
    | StepHeader
    | StepWithoutNumber
    | StepDeclaration
    | ColonSpacing

  function MatchAt(stage: Stage, s: string, i: nat): (r: Option<Hit>)
    requires i < |s|
    ensures r.Some? ==> i < r.value.end <= |s|
  {
    match stage
    case StepAfterText => if s[i] == '\n' then None else MoveToOwnLine(true, s, i, i + 1)
    case IdleAfterText => if s[i] == '\n' then None else MoveToOwnLine(false, s, i, i + 1)
    case IdleHeader => IdleHeaderAt(s, i)
    case StepHeader => StepHeaderAt(s, i)
    case StepWithoutNumber => StepWithoutNumberAt(s, i)
    case StepDeclaration => StepDeclarationAt(s, i)
    case ColonSpacing => ColonSpacingAt(s, i)
  }

  /** A global `replace` from position `i` on. */
  function ReplaceFrom(stage: Stage, s: string, i: nat): string
    requires i <= |s|
    decreases |s| - i
  {
    if i == |s| then []
    else
      match MatchAt(stage, s, i)
      case Some(h) => h.text + ReplaceFrom(stage, s, h.end)
      case None => [s[i]] + ReplaceFrom(stage, s, i + 1)
  }

  function ReplaceAll(stage: Stage, s: string): string
  {
    ReplaceFrom(stage, s, 0)
  }

  /** `normalizeStepFormatting`. */
  function NormalizeStepFormatting(text: string): string
  {
    var stepLines := ReplaceAll(StepAfterText, text);
    var idleLines := ReplaceAll(IdleAfterText, stepLines);
    var idleHeaders := ReplaceAll(IdleHeader, idleLines);
    var stepHeaders := ReplaceAll(StepHeader, idleHeaders);
    var defaultSteps := ReplaceAll(StepWithoutNumber, stepHeaders);
    var declarations := ReplaceAll(StepDeclaration, defaultSteps);
    var colons := ReplaceAll(ColonSpacing, declarations);
    ReplaceRuns(colons, AnySpace, 2, " ")
  }

  // ---------------------------------------------------------------------
  // The canonical forms the stages write
  // ---------------------------------------------------------------------

  /** Every character of every word is an upper-case ASCII letter. */
  predicate UpperWords(kws: seq<string>) {
    forall w, p :: 0 <= w < |kws| && 0 <= p < |kws[w]| ==> IsUpper(kws[w][p])
  }

  /** `KEYWORD: ` with an idle keyword in upper case. */
  predicate IdleHeaderText(t: string) {
    |t| >= 2 && t[|t| - 2..] == ": " && t[..|t| - 2] in RuheAlternatives
  }

  /** `KEYWORD N: ` with a keyword of `kws` and a number of one digit or more. */
  predicate HeaderWithNumber(t: string, kws: seq<string>) {
    var sp := IndexOf(t, ' ', 0);
    |t| >= 2 && t[|t| - 2..] == ": " && sp + 1 < |t| - 2
    && t[..sp] in kws
    && forall p :: sp < p < |t| - 2 ==> IsDigit(t[p])
  }

  /** `KEYWORD N: ` with a step keyword in upper case. */
  predicate StepHeaderText(t: string) {
    HeaderWithNumber(t, SchrittAlternatives)
  }

  /** A line that starts with an idle header and holds no line feed. */
  predicate IdleLine(x: string) {
    var c := IndexOf(x, ':', 0);
    c + 2 <= |x| && IdleHeaderText(x[..c + 2]) && '\n' !in x
  }

  /** A line that starts with a numbered header of `kws` and holds no line feed. */
  predicate NumberedHeaderLine(x: string, kws: seq<string>) {
    var c := IndexOf(x, ':', 0);
    c + 2 <= |x| && HeaderWithNumber(x[..c + 2], kws) && '\n' !in x
  }

  /** A line that starts with a step header and holds no line feed. */
  predicate StepLine(x: string) {
    NumberedHeaderLine(x, SchrittAlternatives)
  }

  /** Trimmed text, a line feed, and a line that starts with the header. */
  predicate MovedToOwnLine(step: bool, t: string) {
    var n := IndexOf(t, '\n', 0);
    n < |t| && IsTrimmed(t[..n]) && (if step then StepLine(t[n + 1..]) else IdleLine(t[n + 1..]))
  }

  // ---------------------------------------------------------------------
  // Keywords found ignoring case
  // ---------------------------------------------------------------------

  /** The step keywords of the chain are written in upper case. */
  lemma SchrittUpper()
    ensures UpperWords(SchrittAlternatives)
  {
  }

  /** The idle keywords of the chain are written in upper case. */
  lemma RuheUpper()
    ensures UpperWords(RuheAlternatives)
  {
  }

  lemma UpperOfFoldedChar(c: char, u: char)
    requires IsUpper(u) && LowerChar(c) == LowerChar(u)
    ensures UpperChar(c) == u
  {
  }

  /** A keyword written in upper case and found ignoring case at `k` upper-cases back to itself. */
  lemma UpperOfKeyword(s: string, k: nat, kw: string)
    requires AtIgnoreCase(s, k, kw) && forall p :: 0 <= p < |kw| ==> IsUpper(kw[p])
    ensures Upper(s[k..k + |kw|]) == kw
  {
    var x := s[k..k + |kw|];
    forall p | 0 <= p < |kw| ensures Upper(x)[p] == kw[p] {
      assert Lower(x)[p] == Lower(kw)[p];
      UpperOfFoldedChar(x[p], kw[p]);
    }
  }

  /** In a prefix-free table the keyword found at `k` is the only one there. */
  lemma KeywordChosen(s: string, k: nat, kws: seq<string>, w: nat)
    requires PrefixFree(kws) && w < |kws| && AtIgnoreCase(s, k, kws[w])
    ensures FirstKeywordAt(s, k, kws) == Some(w)
  {
    forall j | 0 <= j < |kws| && j != w ensures !AtIgnoreCase(s, k, kws[j]) {
      NotBothAt(s, k, kws[j], kws[w]);
    }
  }

  /** Where `b` is written in some case, no word `a` that neither starts nor is started by `b` is. */
  lemma NotBothAt(s: string, k: nat, a: string, b: string)
    requires AtIgnoreCase(s, k, b)
    requires !(|a| <= |b| && Lower(b)[..|a|] == Lower(a)) && !(|b| <= |a| && Lower(a)[..|b|] == Lower(b))
    ensures !AtIgnoreCase(s, k, a)
  {
    if |a| <= |b| {
      assert Lower(s[k..k + |a|]) == Lower(s[k..k + |b|])[..|a|];
    } else if k + |a| <= |s| {
      assert Lower(s[k..k + |a|])[..|b|] == Lower(s[k..k + |b|]);
    }
  }

  /** A keyword found at `k` is, upper-cased, a word of the table, written there in some case. */
  lemma KeywordEndHit(s: string, k: nat, kws: seq<string>)
    requires UpperWords(kws) && KeywordEnd(s, k, kws).Some?
    ensures var e := KeywordEnd(s, k, kws).value;
      k <= e <= |s| && Upper(s[k..e]) in kws && AtIgnoreCase(s, k, Upper(s[k..e]))
      && forall p :: 0 <= p < e - k ==> IsUpper(Upper(s[k..e])[p])
  {
    var w := FirstKeywordAt(s, k, kws).value;
    UpperOfKeyword(s, k, kws[w]);
  }

  /** Any word of a prefix-free upper-case table written at `k` in any case is found, and upper-cases to itself. */
  lemma KeywordEndFound(s: string, k: nat, kws: seq<string>, w: nat)
    requires PrefixFree(kws) && UpperWords(kws) && w < |kws| && AtIgnoreCase(s, k, kws[w])
    ensures KeywordEnd(s, k, kws) == Some(k + |kws[w]|)
    ensures Upper(s[k..k + |kws[w]|]) == kws[w]
  {
    KeywordChosen(s, k, kws, w);
    UpperOfKeyword(s, k, kws[w]);
  }

  /** A word written at `i`, ignoring case, has each of its letters there, ignoring case. */
  lemma LetterAt(s: string, i: nat, p: string, pos: nat)
    requires AtIgnoreCase(s, i, p) && pos < |p|
    ensures LowerChar(s[i + pos]) == LowerChar(p[pos])
  {
    assert Lower(s[i..i + |p|])[pos] == Lower(p)[pos];
  }

  /** The keyword found at `i` is `w` when it is written there and no earlier one of the table is. */
  lemma KeywordIs(s: string, i: nat, kws: seq<string>, w: nat)
    requires w < |kws| && AtIgnoreCase(s, i, kws[w])
    requires forall j :: 0 <= j < w ==> !AtIgnoreCase(s, i, kws[j])
    ensures KeywordEnd(s, i, kws) == Some(i + |kws[w]|)
  {
  }

  /** `SCHRITT`, `STAP` and `STEP` differ in their second or third letter, so the one written is found. */
  lemma SchrittChosen(s: string, k: nat, w: nat)
    requires w < |SchrittAlternatives| && AtIgnoreCase(s, k, SchrittAlternatives[w])
    ensures KeywordEnd(s, k, SchrittAlternatives) == Some(k + |SchrittAlternatives[w]|)
  {
    if w >= 1 {
      LetterAt(s, k, SchrittAlternatives[w], 1);
      NotAtByLetter(s, k, SchrittAlternatives[0], 1);
    }
    if w == 2 {
      LetterAt(s, k, SchrittAlternatives[w], 2);
      NotAtByLetter(s, k, SchrittAlternatives[1], 2);
    }
    KeywordIs(s, k, SchrittAlternatives, w);
  }

  /** `RUST`, `RUHE` and `IDLE` differ in their first or third letter, so the one written is found. */
  lemma RuheChosen(s: string, k: nat, w: nat)
    requires w < |RuheAlternatives| && AtIgnoreCase(s, k, RuheAlternatives[w])
    ensures KeywordEnd(s, k, RuheAlternatives) == Some(k + |RuheAlternatives[w]|)
  {
    if w == 1 {
      LetterAt(s, k, RuheAlternatives[w], 2);
      NotAtByLetter(s, k, RuheAlternatives[0], 2);
    }
    if w == 2 {
      LetterAt(s, k, RuheAlternatives[w], 0);
      NotAtByLetter(s, k, RuheAlternatives[0], 0);
      NotAtByLetter(s, k, RuheAlternatives[1], 0);
    }
    KeywordIs(s, k, RuheAlternatives, w);
  }

  lemma SchrittAtLineStart(s: string, i: nat, w: nat)
    requires i < |s| && LineStart(s, i) && w < |SchrittAlternatives|
    requires AtIgnoreCase(s, SkipSpaces(s, i), SchrittAlternatives[w])
    ensures KeywordAtLineStart(s, i, SchrittAlternatives) == Some(SkipSpaces(s, i) + |SchrittAlternatives[w]|)
    ensures Upper(s[SkipSpaces(s, i)..SkipSpaces(s, i) + |SchrittAlternatives[w]|]) == SchrittAlternatives[w]
  {
    var k := SkipSpaces(s, i);
    SchrittChosen(s, k, w);
    UpperOfKeyword(s, k, SchrittAlternatives[w]);
    assert KeywordAtLineStart(s, i, SchrittAlternatives) == KeywordEnd(s, k, SchrittAlternatives);
  }

  lemma RuheAtLineStart(s: string, i: nat, w: nat)
    requires i < |s| && LineStart(s, i) && w < |RuheAlternatives|
    requires AtIgnoreCase(s, SkipSpaces(s, i), RuheAlternatives[w])
    ensures KeywordAtLineStart(s, i, RuheAlternatives) == Some(SkipSpaces(s, i) + |RuheAlternatives[w]|)
    ensures Upper(s[SkipSpaces(s, i)..SkipSpaces(s, i) + |RuheAlternatives[w]|]) == RuheAlternatives[w]
  {
    var k := SkipSpaces(s, i);
    RuheChosen(s, k, w);
    UpperOfKeyword(s, k, RuheAlternatives[w]);
    assert KeywordAtLineStart(s, i, RuheAlternatives) == KeywordEnd(s, k, RuheAlternatives);
  }

  // ---------------------------------------------------------------------
  // The shape of the text written
  // ---------------------------------------------------------------------

  /** A keyword without spaces, a space, a number and `: ` is a numbered header. */
  lemma HeaderWithNumberOf(kws: seq<string>, kw: string, num: string)
    requires kw in kws && forall p :: 0 <= p < |kw| ==> IsUpper(kw[p])
    requires |num| >= 1 && forall p :: 0 <= p < |num| ==> IsDigit(num[p])
    ensures var t := kw + " " + num + ": ";
      HeaderWithNumber(t, kws) && IndexOf(t, ' ', 0) == |kw| && t[..|kw|] == kw
  {
    var t := kw + " " + num + ": ";
    assert t[|kw|] == ' ';
    assert forall p :: 0 <= p < |kw| ==> t[p] == kw[p];
    assert IndexOf(t, ' ', 0) == |kw|;
    assert t[..|kw|] == kw;
    assert t[|t| - 2..] == ": ";
    assert forall p :: |kw| < p < |t| - 2 ==> t[p] == num[p - |kw| - 1];
  }

  /** The header `NumberedHeader` writes after a keyword that upper-cases to `kw`. */
  lemma NumberedHeaderShape(s: string, k: nat, e: nat, kws: seq<string>, kw: string)
    requires k <= e <= |s| && NumberedHeader(s, k, e).Some?
    requires Upper(s[k..e]) == kw && kw in kws && forall p :: 0 <= p < |kw| ==> IsUpper(kw[p])
    ensures var t := NumberedHeader(s, k, e).value.text;
      HeaderWithNumber(t, kws) && t[..IndexOf(t, ' ', 0)] == kw
  {
    var d := AfterSeparator(s, e, "-.");
    var n := SkipDigits(s, d);
    HeaderWithNumberOf(kws, kw, s[d..n]);
  }

  /** A numbered header followed by text without a line feed is a line that starts with that header. */
  lemma NumberedLine(kws: seq<string>, kw: string, num: string, rest: string)
    requires kw in kws && forall p :: 0 <= p < |kw| ==> IsUpper(kw[p])
    requires |num| >= 1 && forall p :: 0 <= p < |num| ==> IsDigit(num[p])
    requires '\n' !in rest
    ensures NumberedHeaderLine(kw + " " + num + ": " + rest, kws)
  {
    NumberedLineAt(kw + " " + num + ": " + rest, kws, kw, num, rest);
  }

  lemma NumberedLineAt(x: string, kws: seq<string>, kw: string, num: string, rest: string)
    requires kw in kws && forall p :: 0 <= p < |kw| ==> IsUpper(kw[p])
    requires |num| >= 1 && forall p :: 0 <= p < |num| ==> IsDigit(num[p])
    requires '\n' !in rest && x == kw + " " + num + ": " + rest
    ensures NumberedHeaderLine(x, kws)
  {
    var c := |kw| + 1 + |num|;
    NumberedLineColon(x, kw, num, rest);
    assert x[..c + 2] == kw + " " + num + ": ";
    HeaderWithNumberOf(kws, kw, num);
    assert '\n' !in x by {
      assert forall p :: c + 2 <= p < |x| ==> x[p] == rest[p - c - 2];
    }
  }

  /** The first colon of `kw n: rest` is the one after the number. */
  lemma NumberedLineColon(x: string, kw: string, num: string, rest: string)
    requires forall p :: 0 <= p < |kw| ==> IsUpper(kw[p])
    requires forall p :: 0 <= p < |num| ==> IsDigit(num[p])
    requires x == kw + " " + num + ": " + rest
    ensures IndexOf(x, ':', 0) == |kw| + 1 + |num|
  {
    var c := |kw| + 1 + |num|;
    assert x[c] == ':';
    assert forall p :: 0 <= p < |kw| ==> x[p] == kw[p];
    assert forall p :: |kw| < p < c ==> x[p] == num[p - |kw| - 1];
  }

  /** An idle header followed by text without a line feed is an idle line. */
  lemma IdleHeaderLine(kw: string, rest: string)
    requires kw in RuheAlternatives && forall p :: 0 <= p < |kw| ==> IsUpper(kw[p])
    requires '\n' !in rest
    ensures IdleLine(kw + ": " + rest)
  {
    var x := kw + ": " + rest;
    assert x[|kw|] == ':';
    assert forall p :: 0 <= p < |kw| ==> x[p] == kw[p];
    assert IndexOf(x, ':', 0) == |kw|;
    assert x[..|kw| + 2] == kw + ": ";
    assert x[..|kw| + 2][..|kw|] == kw;
    assert forall p :: |kw| + 2 <= p < |x| ==> x[p] == rest[p - |kw| - 2];
  }

  // ---------------------------------------------------------------------
  // Lines 22-26: moving a keyword onto its own line
  // ---------------------------------------------------------------------

  /** The text `NumberedTail` writes after a keyword that upper-cases to `kw` is a line with a numbered header. */
  lemma NumberedTailLine(s: string, k: nat, e: nat, kws: seq<string>, kw: string)
    requires k <= e <= |s| && NumberedTail(s, k, e).Some?
    requires Upper(s[k..e]) == kw && kw in kws && forall p :: 0 <= p < |kw| ==> IsUpper(kw[p])
    ensures NumberedHeaderLine(NumberedTail(s, k, e).value.text, kws)
  {
    var d := SkipSpaces(s, e);
    var n := SkipDigits(s, d);
    var a := AfterSeparator(s, n, ":.");
    var end := LineFeedFrom(s, a);
    assert '\n' !in s[a..end];
    NumberedLine(kws, kw, s[d..n], s[a..end]);
  }

  /** The text `StepTail` writes after the line break is a step line. */
  lemma StepTailLine(s: string, j: nat)
    requires j <= |s| && StepTail(s, j).Some?
    ensures StepLine(StepTail(s, j).value.text)
  {
    var k := SkipSpaces(s, j);
    var e := KeywordEnd(s, k, SchrittAlternatives).value;
    SchrittUpper();
    KeywordEndHit(s, k, SchrittAlternatives);
    NumberedTailLine(s, k, e, SchrittAlternatives, Upper(s[k..e]));
  }

  /** The text `IdleTail` writes after the line break is an idle line. */
  lemma IdleTailLine(s: string, j: nat)
    requires j <= |s| && IdleTail(s, j).Some?
    ensures IdleLine(IdleTail(s, j).value.text)
  {
    var k := SkipSpaces(s, j);
    var e := KeywordEnd(s, k, RuheAlternatives).value;
    RuheUpper();
    KeywordEndHit(s, k, RuheAlternatives);
    var a := AfterSeparator(s, e, ":.");
    var end := LineFeedFrom(s, a);
    assert '\n' !in s[a..end];
    IdleHeaderLine(Upper(s[k..e]), s[a..end]);
  }

  lemma TrimKeepsOut(x: string, c: char)
    requires c !in x
    ensures c !in Trim(x)
  {
  }

  /** Trimmed text without a line feed, a line feed and a header line make a keyword moved onto its own line. */
  lemma OwnLineOf(step: bool, before: string, t: string)
    requires IsTrimmed(before) && '\n' !in before
    requires if step then StepLine(t) else IdleLine(t)
    ensures MovedToOwnLine(step, before + "\n" + t)
  {
    var x := before + "\n" + t;
    assert x[|before|] == '\n';
    assert forall p :: 0 <= p < |before| ==> x[p] == before[p];
    assert IndexOf(x, '\n', 0) == |before|;
    assert x[..|before|] == before;
    assert x[|before| + 1..] == t;
  }

  /** Trimmed text without a line feed, a line break and a tail is a keyword moved onto its own line. */
  lemma OwnLineText(step: bool, s: string, i: nat, j: nat)
    requires i < j <= |s| && '\n' !in s[i..j] && Tail(step, s, j).Some?
    ensures MovedToOwnLine(step, Trim(s[i..j]) + "\n" + Tail(step, s, j).value.text)
  {
    var t := Tail(step, s, j).value.text;
    assert if step then StepLine(t) else IdleLine(t) by {
      if step { StepTailLine(s, j); } else { IdleTailLine(s, j); }
    }
    TrimKeepsOut(s[i..j], '\n');
    OwnLineOf(step, Trim(s[i..j]), t);
  }

  /** What `MoveToOwnLine` writes, from any `j` on the first line of `s[i..]`. */
  lemma MoveToOwnLineShape(step: bool, s: string, i: nat, j: nat)
    requires i < j <= |s| && '\n' !in s[i..j] && MoveToOwnLine(step, s, i, j).Some?
    ensures MovedToOwnLine(step, MoveToOwnLine(step, s, i, j).value.text)
  {
    if step {
      StepOwnLineShape(s, i, j);
    } else {
      IdleOwnLineShape(s, i, j);
    }
  }

  lemma {:induction false} StepOwnLineShape(s: string, i: nat, j: nat)
    requires i < j <= |s| && '\n' !in s[i..j] && MoveToOwnLine(true, s, i, j).Some?
    ensures MovedToOwnLine(true, MoveToOwnLine(true, s, i, j).value.text)
    decreases |s| - j
  {
    if StepTail(s, j).Some? {
      OwnLineText(true, s, i, j);
    } else {
      assert '\n' !in s[i..j + 1] by {
        assert s[i..j + 1] == s[i..j] + [s[j]];
      }
      StepOwnLineShape(s, i, j + 1);
    }
  }

  lemma {:induction false} IdleOwnLineShape(s: string, i: nat, j: nat)
    requires i < j <= |s| && '\n' !in s[i..j] && MoveToOwnLine(false, s, i, j).Some?
    ensures MovedToOwnLine(false, MoveToOwnLine(false, s, i, j).value.text)
    decreases |s| - j
  {
    if IdleTail(s, j).Some? {
      OwnLineText(false, s, i, j);
    } else {
      assert '\n' !in s[i..j + 1] by {
        assert s[i..j + 1] == s[i..j] + [s[j]];
      }
      IdleOwnLineShape(s, i, j + 1);
    }
  }

  /**
   * Lines 22-26: a match of the first two replacements becomes trimmed
   * text, a line break, and a line that starts with the upper-case step
   * header `KEYWORD N: ` (or idle header `KEYWORD: `) and holds the rest of
   * the original line.
   */
  lemma OwnLineHit(step: bool, s: string, i: nat)
    requires i < |s| && MatchAt(if step then StepAfterText else IdleAfterText, s, i).Some?
    ensures MovedToOwnLine(step, MatchAt(if step then StepAfterText else IdleAfterText, s, i).value.text)
  {
    MoveToOwnLineShape(step, s, i, i + 1);
  }

  /**
   * The lazy `([^\n]+?)` reaches every position up to a line break: where
   * the tail matches at `j` and no line feed lies between `j0` and `j`, the
   * search started at `j0` finds a match.
   */
  lemma {:induction false} TailReached(step: bool, s: string, i: nat, j0: nat, j: nat)
    requires i < j0 <= j <= |s| && Tail(step, s, j).Some?
    requires LineFeedFree(s, j0, j)
    ensures MoveToOwnLine(step, s, i, j0).Some?
    decreases j - j0
  {
    if j0 < j {
      TailReached(step, s, i, j0 + 1, j);
    }
    TailReachedStep(step, s, i, j0);
  }

  /** No line feed in `s[lo..hi]`, stated one position at a time. */
  predicate LineFeedFree(s: string, lo: nat, hi: nat)
    requires lo <= hi <= |s|
    decreases hi - lo
  {
    lo == hi || (s[lo] != '\n' && LineFeedFree(s, lo + 1, hi))
  }

  lemma {:induction false} LineFeedFreeFrom(s: string, lo: nat, hi: nat)
    requires lo <= hi <= |s| && forall p :: lo <= p < hi ==> s[p] != '\n'
    ensures LineFeedFree(s, lo, hi)
    decreases hi - lo
  {
    if lo < hi {
      LineFeedFreeFrom(s, lo + 1, hi);
    }
  }

  /** One step of the lazy search: a tail at `j0`, or a match found from the next position on a line. */
  lemma TailReachedStep(step: bool, s: string, i: nat, j0: nat)
    requires i < j0 <= |s|
    requires Tail(step, s, j0).Some? || (j0 < |s| && s[j0] != '\n' && MoveToOwnLine(step, s, i, j0 + 1).Some?)
    ensures MoveToOwnLine(step, s, i, j0).Some?
  {
  }

  /**
   * Lines 22-24: text that does not start with a line feed, followed on the
   * same line by white space, a step keyword in any case, white space and a
   * digit, is matched where it starts.
   */
  lemma StepAfterTextFound(s: string, i: nat, j: nat, w: nat)
    requires i < j < |s| && s[i] != '\n' && forall p :: i < p < j ==> s[p] != '\n'
    requires IsSpace(s[j]) && w < |SchrittAlternatives|
    requires AtIgnoreCase(s, SkipSpaces(s, j), SchrittAlternatives[w])
    requires var e := SkipSpaces(s, j) + |SchrittAlternatives[w]|;
      e < |s| && IsSpace(s[e]) && SkipSpaces(s, e) < |s| && IsDigit(s[SkipSpaces(s, e)])
    ensures MatchAt(StepAfterText, s, i).Some?
  {
    SchrittChosen(s, SkipSpaces(s, j), w);
    assert StepTail(s, j).Some?;
    LineFeedFreeFrom(s, i + 1, j);
    TailReached(true, s, i, i + 1, j);
  }

  /**
   * Lines 25-26: text that does not start with a line feed, followed on the
   * same line by white space and an idle keyword in any case, is matched
   * where it starts.
   */
  lemma IdleAfterTextFound(s: string, i: nat, j: nat, w: nat)
    requires i < j < |s| && s[i] != '\n' && forall p :: i < p < j ==> s[p] != '\n'
    requires IsSpace(s[j]) && w < |RuheAlternatives|
    requires AtIgnoreCase(s, SkipSpaces(s, j), RuheAlternatives[w])
    ensures MatchAt(IdleAfterText, s, i).Some?
  {
    RuheChosen(s, SkipSpaces(s, j), w);
    assert IdleTail(s, j).Some?;
    LineFeedFreeFrom(s, i + 1, j);
    TailReached(false, s, i, i + 1, j);
  }

  // ---------------------------------------------------------------------
  // Lines 30, 32-33 and 35-36: the headers
  // ---------------------------------------------------------------------

  /**
   * Line 30: a match starts a line, holds an idle keyword in any case after
   * the indentation and becomes that keyword in upper case followed by `: `;
   * after the keyword it takes only white space and separators.
   */
  lemma IdleHeaderHit(s: string, i: nat)
    requires i < |s| && IdleHeaderAt(s, i).Some?
    ensures var h := IdleHeaderAt(s, i).value;
      var kw := h.text[..|h.text| - 2];
      LineStart(s, i) && IdleHeaderText(h.text) && AtIgnoreCase(s, SkipSpaces(s, i), kw)
      && forall p :: SkipSpaces(s, i) + |kw| <= p < h.end ==> IsSpace(s[p]) || s[p] in ":."
  {
    var k := SkipSpaces(s, i);
    var e := KeywordEnd(s, k, RuheAlternatives).value;
    RuheUpper();
    KeywordEndHit(s, k, RuheAlternatives);
    var h := IdleHeaderAt(s, i).value;
    assert h.text == Upper(s[k..e]) + ": ";
    assert h.text[..|h.text| - 2] == Upper(s[k..e]);
  }

  /** Line 30: an idle keyword at the start of a line, in any case, is rewritten to its upper-case form and `: `. */
  lemma IdleHeaderFound(s: string, i: nat, w: nat)
    requires i < |s| && LineStart(s, i) && w < |RuheAlternatives|
    requires AtIgnoreCase(s, SkipSpaces(s, i), RuheAlternatives[w])
    ensures IdleHeaderAt(s, i)
      == Some(Hit(AfterSeparator(s, SkipSpaces(s, i) + |RuheAlternatives[w]|, ":."), RuheAlternatives[w] + ": "))
  {
    RuheAtLineStart(s, i, w);
  }

  /**
   * Lines 32-33: a match starts a line, holds a step keyword in any case
   * after the indentation and becomes `KEYWORD N: `.
   */
  lemma StepHeaderHit(s: string, i: nat)
    requires i < |s| && StepHeaderAt(s, i).Some?
    ensures var t := StepHeaderAt(s, i).value.text;
      LineStart(s, i) && StepHeaderText(t) && AtIgnoreCase(s, SkipSpaces(s, i), t[..IndexOf(t, ' ', 0)])
  {
    var k := SkipSpaces(s, i);
    var e := KeywordEnd(s, k, SchrittAlternatives).value;
    SchrittUpper();
    KeywordEndHit(s, k, SchrittAlternatives);
    NumberedHeaderShape(s, k, e, SchrittAlternatives, Upper(s[k..e]));
  }

  /** The header `NumberedHeader` writes after a keyword that upper-cases to `kw`, where a number follows. */
  lemma NumberedHeaderText(s: string, k: nat, e: nat, kw: string)
    requires k <= e <= |s| && Upper(s[k..e]) == kw
    requires var d := AfterSeparator(s, e, "-."); d < |s| && IsDigit(s[d])
    ensures var d := AfterSeparator(s, e, "-.");
      var n := SkipDigits(s, d);
      NumberedHeader(s, k, e) == Some(Hit(AfterSeparator(s, n, ":."), kw + " " + s[d..n] + ": "))
  {
  }

  /**
   * Lines 32-33: a step keyword at the start of a line, in any case, with an
   * optional `-` or `.` and a number, becomes the upper-case keyword, the
   * number and `: `, and the separators after the number are taken with it.
   */
  lemma StepHeaderFound(s: string, i: nat, w: nat)
    requires i < |s| && LineStart(s, i) && w < |SchrittAlternatives|
    requires AtIgnoreCase(s, SkipSpaces(s, i), SchrittAlternatives[w])
    requires var d := AfterSeparator(s, SkipSpaces(s, i) + |SchrittAlternatives[w]|, "-.");
      d < |s| && IsDigit(s[d])
    ensures var d := AfterSeparator(s, SkipSpaces(s, i) + |SchrittAlternatives[w]|, "-.");
      var n := SkipDigits(s, d);
      StepHeaderAt(s, i) == Some(Hit(AfterSeparator(s, n, ":."), SchrittAlternatives[w] + " " + s[d..n] + ": "))
  {
    var k := SkipSpaces(s, i);
    var e := k + |SchrittAlternatives[w]|;
    SchrittAtLineStart(s, i, w);
    StepHeaderWith(s, i, e, SchrittAlternatives[w]);
  }

  /** A step keyword `kw` that ends at `e` is followed by what `NumberedHeader` reads from `e`. */
  lemma StepHeaderWith(s: string, i: nat, e: nat, kw: string)
    requires i < |s| && KeywordAtLineStart(s, i, SchrittAlternatives) == Some(e)
    requires SkipSpaces(s, i) <= e && Upper(s[SkipSpaces(s, i)..e]) == kw
    requires var d := AfterSeparator(s, e, "-."); d < |s| && IsDigit(s[d])
    ensures var d := AfterSeparator(s, e, "-.");
      var n := SkipDigits(s, d);
      StepHeaderAt(s, i) == Some(Hit(AfterSeparator(s, n, ":."), kw + " " + s[d..n] + ": "))
  {
    assert StepHeaderAt(s, i) == NumberedHeader(s, SkipSpaces(s, i), e);
    NumberedHeaderText(s, SkipSpaces(s, i), e, kw);
  }

  /** The header `DefaultNumberHeader` writes after a keyword that upper-cases to `kw`: the keyword numbered 1. */
  lemma DefaultNumberHeaderText(s: string, k: nat, e: nat, kw: string)
    requires k <= e <= |s| && Upper(s[k..e]) == kw
    requires SeparatorWithoutNumber(s, e)
    ensures DefaultNumberHeader(s, k, e) == Some(Hit(SkipSpaces(s, e) + 1, kw + " 1: "))
  {
  }

  /** Lines 35-36: a match starts a line and becomes a step header numbered 1. */
  lemma StepWithoutNumberHit(s: string, i: nat)
    requires i < |s| && StepWithoutNumberAt(s, i).Some?
    ensures var t := StepWithoutNumberAt(s, i).value.text;
      LineStart(s, i) && StepHeaderText(t) && t[|t| - 4..] == " 1: "
      && AtIgnoreCase(s, SkipSpaces(s, i), t[..IndexOf(t, ' ', 0)])
  {
    var k := SkipSpaces(s, i);
    var e := KeywordAtLineStart(s, i, SchrittAlternatives).value;
    var kw := Upper(s[k..e]);
    assert k <= e <= |s| && kw in SchrittAlternatives && AtIgnoreCase(s, k, kw)
      && forall p :: 0 <= p < |kw| ==> IsUpper(kw[p]) by {
      SchrittUpper();
      KeywordEndHit(s, k, SchrittAlternatives);
    }
    assert StepWithoutNumberAt(s, i).value.text == kw + " 1: ";
    HeaderWithNumberOf(SchrittAlternatives, kw, "1");
    assert kw + " 1: " == kw + " " + "1" + ": ";
  }

  /**
   * Lines 35-36: a step keyword at the start of a line followed by `:` or `.`
   * and no digit becomes the upper-case keyword numbered 1; only the
   * separator is consumed.
   */
  lemma StepWithoutNumberFound(s: string, i: nat, w: nat)
    requires i < |s| && LineStart(s, i) && w < |SchrittAlternatives|
    requires AtIgnoreCase(s, SkipSpaces(s, i), SchrittAlternatives[w])
    requires SeparatorWithoutNumber(s, SkipSpaces(s, i) + |SchrittAlternatives[w]|)
    ensures var p := SkipSpaces(s, SkipSpaces(s, i) + |SchrittAlternatives[w]|);
      StepWithoutNumberAt(s, i) == Some(Hit(p + 1, SchrittAlternatives[w] + " 1: "))
  {
    var k := SkipSpaces(s, i);
    var e := k + |SchrittAlternatives[w]|;
    SchrittAtLineStart(s, i, w);
    StepWithoutNumberWith(s, i, e, SchrittAlternatives[w]);
  }

  /** A step keyword `kw` that ends at `e` is followed by what `DefaultNumberHeader` reads from `e`. */
  lemma StepWithoutNumberWith(s: string, i: nat, e: nat, kw: string)
    requires i < |s| && KeywordAtLineStart(s, i, SchrittAlternatives) == Some(e)
    requires SkipSpaces(s, i) <= e && Upper(s[SkipSpaces(s, i)..e]) == kw
    requires SeparatorWithoutNumber(s, e)
    ensures StepWithoutNumberAt(s, i) == Some(Hit(SkipSpaces(s, e) + 1, kw + " 1: "))
  {
    assert StepWithoutNumberAt(s, i) == DefaultNumberHeader(s, SkipSpaces(s, i), e);
    DefaultNumberHeaderText(s, SkipSpaces(s, i), e, kw);
  }

  // ---------------------------------------------------------------------
  // Lines 38-39 and 41: declarations and colons
  // ---------------------------------------------------------------------

  lemma UpperCharFacts(c: char)
    ensures LowerChar(UpperChar(c)) == LowerChar(c) && !IsLower(UpperChar(c))
  {
  }

  /**
   * The replacement `h` of a declaration that starts at `k`: the declaration
   * upper-cased (the same text ignoring case, with no lower-case letter),
   * followed in `s` only by white space up to the end of the line.
   */
  predicate UpperCasedDeclaration(s: string, k: nat, h: Hit) {
    k + |h.text| <= h.end <= |s|
    && Lower(h.text) == Lower(s[k..k + |h.text|])
    && (forall p :: 0 <= p < |h.text| ==> !IsLower(h.text[p]))
    && (forall p :: k + |h.text| <= p < h.end ==> IsSpace(s[p]))
    && (h.end == |s| || IsLineTerminator(s[h.end]))
  }

  lemma DeclarationEndShape(s: string, k: nat, e: nat)
    requires k <= e <= |s| && DeclarationEnd(s, k, e).Some?
    ensures UpperCasedDeclaration(s, k, DeclarationEnd(s, k, e).value)
  {
    var d := SkipSpaces(s, e);
    var n := SkipDigits(s, d);
    var end := LineEndWithin(s, n, SkipSpaces(s, n)).value;
    var h := DeclarationEnd(s, k, e).value;
    assert h == Hit(end, Upper(s[k..n]));
    forall p | 0 <= p < |h.text| ensures Lower(h.text)[p] == Lower(s[k..n])[p] && !IsLower(h.text[p]) {
      UpperCharFacts(s[k + p]);
    }
  }

  /**
   * Lines 38-39: a match starts a line and ends at the end of a line; it is
   * replaced by the declaration without the indentation and the trailing
   * white space, the same ignoring case and with no lower-case letter.
   */
  lemma DeclarationHit(s: string, i: nat)
    requires i < |s| && StepDeclarationAt(s, i).Some?
    ensures LineStart(s, i) && UpperCasedDeclaration(s, SkipSpaces(s, i), StepDeclarationAt(s, i).value)
  {
    var k := SkipSpaces(s, i);
    var e := DeclarationKeywordEnd(s, k, SchrittAlternatives);
    DeclarationEndShape(s, k, e);
  }

  /** Where a declaration matches, it is what `DeclarationEnd` reads after the keyword's end. */
  lemma DeclarationKeywordEnd(s: string, k: nat, kws: seq<string>) returns (e: nat)
    requires k <= |s| && DeclarationFrom(s, k, kws).Some?
    ensures k <= e <= |s| && DeclarationFrom(s, k, kws) == DeclarationEnd(s, k, e)
  {
    var v := if k < |s| && s[k] == '+' then SkipSpaces(s, k + 1) else k;
    assert DeclarationFrom(s, k, kws) == DeclarationAfter(s, k, v, kws);
    e := AfterKeywordEnd(s, k, v, kws);
  }

  lemma AfterKeywordEnd(s: string, k: nat, v: nat, kws: seq<string>) returns (e: nat)
    requires k <= v <= |s| && DeclarationAfter(s, k, v, kws).Some?
    ensures k <= e <= |s| && DeclarationAfter(s, k, v, kws) == DeclarationEnd(s, k, e)
  {
    e := KeywordEnd(s, SkipSpaces(s, v + 3), kws).value;
  }

  /**
   * Line 41: a match is a word character and a colon with white space on
   * either side; it becomes the word character, the colon and one space.
   */
  lemma ColonHit(s: string, i: nat)
    requires i < |s| && ColonSpacingAt(s, i).Some?
    ensures var h := ColonSpacingAt(s, i).value;
      IsWordChar(s[i]) && h.text == [s[i], ':', ' ']
      && multiset(s[i + 1..h.end])[':'] == 1
      && forall p :: i < p < h.end ==> IsSpace(s[p]) || s[p] == ':'
  {
    var c := SkipSpaces(s, i + 1);
    var h := ColonSpacingAt(s, i).value;
    assert s[i + 1..h.end] == s[i + 1..c] + [':'] + s[c + 1..h.end];
    assert ':' !in s[i + 1..c];
    assert ':' !in s[c + 1..h.end];
  }

  /** `\s*$` finds the last line end within the white space when there is one. */
  lemma {:induction false} LineEndFound(s: string, lo: nat, hi: nat, t: nat)
    requires lo <= t <= hi <= |s| && (t == |s| || IsLineTerminator(s[t]))
    ensures LineEndWithin(s, lo, hi).Some?
    decreases hi
  {
    if !(hi == |s| || IsLineTerminator(s[hi])) && hi != lo {
      assert t < hi;
      LineEndFound(s, lo, hi - 1, t);
    }
  }

  /**
   * Lines 38-39: a line that holds, after its indentation, an optional `+`,
   * `VON` in any case, white space, a step keyword in any case, white space
   * and digits, and then only white space up to the end of the line, is
   * matched where it starts and replaced by that declaration upper-cased.
   */
  lemma DeclarationFound(s: string, i: nat, k: nat, v: nat, w: nat, e: nat, d: nat, n: nat, t: nat)
    requires i < |s| && LineStart(s, i) && k == SkipSpaces(s, i)
    requires v == if k < |s| && s[k] == '+' then SkipSpaces(s, k + 1) else k
    requires VonAt(s, v) && IsSpace(s[v + 3]) && w < |SchrittAlternatives|
    requires AtIgnoreCase(s, SkipSpaces(s, v + 3), SchrittAlternatives[w])
    requires e == SkipSpaces(s, v + 3) + |SchrittAlternatives[w]|
    requires e < |s| && IsSpace(s[e]) && d == SkipSpaces(s, e) && d < |s| && IsDigit(s[d])
    requires n == SkipDigits(s, d)
    requires n <= t <= |s| && (t == |s| || IsLineTerminator(s[t]))
    requires forall p :: n <= p < t ==> IsSpace(s[p])
    ensures StepDeclarationAt(s, i).Some? && StepDeclarationAt(s, i).value.text == Upper(s[k..n])
  {
    DeclarationStart(s, i, k, v);
    DeclarationRest(s, k, v, w, e, d, n, t);
  }

  /** The `^\s*` and `\+?\s*` of the pattern lead to `VON` at `v`. */
  lemma DeclarationStart(s: string, i: nat, k: nat, v: nat)
    requires i < |s| && LineStart(s, i) && k == SkipSpaces(s, i)
    requires v == if k < |s| && s[k] == '+' then SkipSpaces(s, k + 1) else k
    ensures k <= v <= |s| && StepDeclarationAt(s, i) == DeclarationAfter(s, k, v, SchrittAlternatives)
  {
    assert StepDeclarationAt(s, i) == DeclarationFrom(s, k, SchrittAlternatives);
    DeclarationFromAfter(s, k, v, SchrittAlternatives);
  }

  lemma DeclarationFromAfter(s: string, k: nat, v: nat, kws: seq<string>)
    requires k <= |s| && v == if k < |s| && s[k] == '+' then SkipSpaces(s, k + 1) else k
    ensures k <= v <= |s| && DeclarationFrom(s, k, kws) == DeclarationAfter(s, k, v, kws)
  {
  }

  /** From `VON` at `v` on: the keyword `w`, digits up to `n`, white space up to the line end `t`. */
  lemma DeclarationRest(s: string, k: nat, v: nat, w: nat, e: nat, d: nat, n: nat, t: nat)
    requires k <= v <= |s| && w < |SchrittAlternatives|
    requires VonAt(s, v) && IsSpace(s[v + 3])
    requires AtIgnoreCase(s, SkipSpaces(s, v + 3), SchrittAlternatives[w])
    requires e == SkipSpaces(s, v + 3) + |SchrittAlternatives[w]|
    requires e < |s| && IsSpace(s[e]) && d == SkipSpaces(s, e) && d < |s| && IsDigit(s[d])
    requires n == SkipDigits(s, d)
    requires n <= t <= |s| && (t == |s| || IsLineTerminator(s[t]))
    requires forall p :: n <= p < t ==> IsSpace(s[p])
    ensures DeclarationAfter(s, k, v, SchrittAlternatives).Some?
    ensures DeclarationAfter(s, k, v, SchrittAlternatives).value.text == Upper(s[k..n])
  {
    var q := SkipSpaces(s, v + 3);
    SchrittChosen(s, q, w);
    DeclarationThrough(s, k, v, q, e, SchrittAlternatives);
    SpacesUpTo(s, n, t);
    LineEndFound(s, n, SkipSpaces(s, n), t);
    DeclarationEndWith(s, k, e, n);
  }

  /** A run of white space from `n` to `t` is skipped over as a whole. */
  lemma {:induction false} SpacesUpTo(s: string, n: nat, t: nat)
    requires n <= t <= |s| && forall p :: n <= p < t ==> IsSpace(s[p])
    ensures t <= SkipSpaces(s, n)
    decreases t - n
  {
    if n < t {
      SpacesUpTo(s, n + 1, t);
    }
  }

  /** Once `VON` and a keyword ending at `e` are found, the rest is read by `DeclarationEnd`. */
  lemma DeclarationThrough(s: string, k: nat, v: nat, q: nat, e: nat, kws: seq<string>)
    requires k <= v <= |s|
    requires VonAt(s, v) && IsSpace(s[v + 3]) && q == SkipSpaces(s, v + 3)
    requires KeywordEnd(s, q, kws) == Some(e)
    ensures DeclarationAfter(s, k, v, kws) == DeclarationEnd(s, k, e)
  {
  }

  /** The declaration that `DeclarationEnd` writes once the digits end at `n` and a line end follows. */
  lemma DeclarationEndWith(s: string, k: nat, e: nat, n: nat)
    requires k <= e < |s| && IsSpace(s[e]) && SkipSpaces(s, e) < |s| && IsDigit(s[SkipSpaces(s, e)])
    requires n == SkipDigits(s, SkipSpaces(s, e)) && LineEndWithin(s, n, SkipSpaces(s, n)).Some?
    ensures DeclarationEnd(s, k, e).Some? && DeclarationEnd(s, k, e).value.text == Upper(s[k..n])
  {
  }

  /**
   * Line 41: a word character followed by white space and a colon is
   * matched there and becomes the character, the colon and one space; the
   * white space after the colon is taken with it.
   */
  lemma ColonFound(s: string, i: nat, c: nat)
    requires i < c < |s| && IsWordChar(s[i]) && s[c] == ':'
    requires forall p :: i < p < c ==> IsSpace(s[p])
    ensures ColonSpacingAt(s, i) == Some(Hit(SkipSpaces(s, c + 1), [s[i], ':', ' ']))
  {
    SkipSpacesTo(s, i + 1, c);
  }

  // ---------------------------------------------------------------------
  // The chain
  // ---------------------------------------------------------------------

  /** Up to the first position where the replacement matches, the text is copied as it is. */
  lemma {:induction false} ReplaceCopiesUpTo(stage: Stage, s: string, i: nat, j: nat)
    requires i <= j <= |s| && forall p :: i <= p < j ==> MatchAt(stage, s, p).None?
    ensures ReplaceFrom(stage, s, i) == s[i..j] + ReplaceFrom(stage, s, j)
    decreases j - i
  {
    if i < j {
      var rest := ReplaceFrom(stage, s, j);
      ReplaceCopiesUpTo(stage, s, i + 1, j);
      CopiedWhereNoMatch(stage, s, i);
      calc {
        ReplaceFrom(stage, s, i);
        [s[i]] + (s[i + 1..j] + rest);
        { assert s[i..j] == [s[i]] + s[i + 1..j]; }
        s[i..j] + rest;
      }
    } else {
      assert s[i..j] == [];
    }
  }

  lemma CopiedWhereNoMatch(stage: Stage, s: string, i: nat)
    requires i < |s| && MatchAt(stage, s, i).None?
    ensures ReplaceFrom(stage, s, i) == [s[i]] + ReplaceFrom(stage, s, i + 1)
  {
  }

  /**
   * The first match found from `i` on is replaced: the text before it is
   * copied, its replacement follows, and the scan goes on where it ends.
   */
  lemma FirstMatchReplaced(stage: Stage, s: string, i: nat, j: nat)
    requires i <= j < |s| && forall p :: i <= p < j ==> MatchAt(stage, s, p).None?
    requires MatchAt(stage, s, j).Some?
    ensures ReplaceFrom(stage, s, i)
      == s[i..j] + MatchAt(stage, s, j).value.text + ReplaceFrom(stage, s, MatchAt(stage, s, j).value.end)
  {
    ReplaceCopiesUpTo(stage, s, i, j);
  }

  /** Where a replacement matches nowhere, it leaves the text as it is. */
  lemma ReplaceUnchanged(stage: Stage, s: string, i: nat)
    requires i <= |s| && forall p :: i <= p < |s| ==> MatchAt(stage, s, p).None?
    ensures ReplaceFrom(stage, s, i) == s[i..]
  {
    ReplaceCopiesUpTo(stage, s, i, |s|);
  }

  /** No stage of the chain matches anywhere in `s`. */
  predicate NoStageMatches(s: string) {
    forall stage: Stage, p :: 0 <= p < |s| ==> MatchAt(stage, s, p).None?
  }

  /**
   * A text that no stage matches and that holds no two white-space
   * characters in a row is already normalized and comes back unchanged.
   */
  lemma NormalizedKeepsPlainText(text: string)
    requires NoStageMatches(text) && NoTwoInARow(text, AnySpace)
    ensures NormalizeStepFormatting(text) == text
  {
    forall stage: Stage ensures ReplaceAll(stage, text) == text {
      ReplaceUnchanged(stage, text, 0);
    }
    ReplaceRunsKeeps(text, AnySpace, " ");
  }

  /** Line 43: the normalized text never holds two white-space characters in a row. */
  lemma NormalizedSpacing(text: string)
    ensures var r := NormalizeStepFormatting(text);
      forall k :: 0 <= k < |r| - 1 ==> !(IsSpace(r[k]) && IsSpace(r[k + 1]))
  {
    var stepLines := ReplaceAll(StepAfterText, text);
    var idleLines := ReplaceAll(IdleAfterText, stepLines);
    var idleHeaders := ReplaceAll(IdleHeader, idleLines);
    var stepHeaders := ReplaceAll(StepHeader, idleHeaders);
    var defaultSteps := ReplaceAll(StepWithoutNumber, stepHeaders);
    var declarations := ReplaceAll(StepDeclaration, defaultSteps);
    var colons := ReplaceAll(ColonSpacing, declarations);
    ReplaceRunsSeparates(colons, AnySpace, 2, " ");
  }
}
