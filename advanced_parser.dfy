/**
 * The advanced line classifier: program headers carrying an FB number,
 * variable assignments, comments, `[`/`]` OR-blocks, step references
 * normalised to `FBn.KEYWORD steps`, entities and compound conditions, and
 * the program hierarchy built from what was found.
 *
 * Every pattern is a hand-written recogniser that settles on the match a
 * backtracking regular-expression engine settles on; a `.` is read as any
 * character.
 */
module Advanced {
  import opened Wrappers
  import opened Text
  import opened SyntaxRules

  // ------------------------------------------------------------------
  // What the detectors return
  // ------------------------------------------------------------------

  /** A program header; `assignments` collects the assignments read while it is the open program. */
  datatype FbProgram = FbProgram(programType: string, name: string, fbNumber: string, lineNumber: nat, assignments: seq<Assignment>)

  datatype Indexing = Indexing(property: string, index: string)

  datatype Assignment =
    | ComplexAssignment(arrayName: string, indices: seq<Indexing>, finalProperty: string, value: string,
                        lineNumber: nat, originalText: string)
    | MatrixAssignment(arrayName: string, index: string, property: string, value: string,
                       lineNumber: nat, originalText: string)
    | SimpleAssignment(name: string, description: string, value: string, lineNumber: nat, originalText: string)

  datatype CommentKind = SingleLine | MultiLine | Inline

  /** `codeContent` is present for an inline comment only. */
  datatype Comment = Comment(subtype: CommentKind, content: string, codeContent: Option<string>,
                             lineNumber: nat, originalText: string)

  datatype OrItem = OrItem(condition: string, lineNumber: nat, originalText: string)

  /** `endLine` is `null` until the `]` is read. */
  datatype OrBlock = OrBlock(items: seq<OrItem>, startLine: nat, endLine: Option<nat>)

  /** What `detectOrBlock` returns: not an OR-block line, or the block the line leaves behind. */
  datatype OrBlockResult = NotOrBlock | IsOrBlock(orBlock: OrBlock, completed: bool)

  /** `steps` holds `parseInt` of each `+`-separated piece; an empty piece reads as NaN, here `None`. */
  datatype Reference = Reference(description: string, program: string, fbNumber: string, stepKeyword: string,
                                 steps: seq<Option<nat>>, standardizedFormat: string,
                                 lineNumber: nat, originalText: string)

  datatype EntityKind = Kaesezaehler | Stoerung | Freigabe

  /** `name` is present for a Käsezähler only. */
  datatype Entity = Entity(entityType: EntityKind, name: Option<string>, description: string,
                           lineNumber: nat, originalText: string)

  datatype CompoundCondition =
    | ComparisonCondition(leftOperand: string, operator: string, rightOperand: string,
                          lineNumber: nat, originalText: string)
    | EvaluationCondition(subject: string, operator: string, value: string, lineNumber: nat, originalText: string)

  // ------------------------------------------------------------------
  // Character runs
  // ------------------------------------------------------------------

  /** `[A-Za-z0-9_\s]`, the characters of a program or entity name. */
  predicate IsNameChar(c: char) { IsWordChar(c) || IsSpace(c) }

  predicate AllNameChars(s: string) { forall k :: 0 <= k < |s| ==> IsNameChar(s[k]) }

  /** The end of the longest run of name characters that starts at `i`. */
  function SkipNameChars(s: string, i: nat): (r: nat)
    requires i <= |s|
    ensures i <= r <= |s|
    ensures forall k :: i <= k < r ==> IsNameChar(s[k])
    ensures r == |s| || !IsNameChar(s[r])
    decreases |s| - i
  {
    if i < |s| && IsNameChar(s[i]) then SkipNameChars(s, i + 1) else i
  }

  /** The start of the longest run of name characters that ends at `j`. */
  function NameRunStart(s: string, j: nat): (r: nat)
    requires j <= |s|
    ensures r <= j
    ensures forall k :: r <= k < j ==> IsNameChar(s[k])
    ensures r == 0 || !IsNameChar(s[r - 1])
  {
    if j > 0 && IsNameChar(s[j - 1]) then NameRunStart(s, j - 1) else j
  }

  /** `[<>=!]`, the characters of a comparison operator. */
  predicate IsOperatorChar(c: char) { c == '<' || c == '>' || c == '=' || c == '!' }

  /** The end of the longest run of operator characters that starts at `i`. */
  function SkipOperatorChars(s: string, i: nat): (r: nat)
    requires i <= |s|
    ensures i <= r <= |s|
    ensures forall k :: i <= k < r ==> IsOperatorChar(s[k])
    ensures r == |s| || !IsOperatorChar(s[r])
    decreases |s| - i
  {
    if i < |s| && IsOperatorChar(s[i]) then SkipOperatorChars(s, i + 1) else i
  }

  // ------------------------------------------------------------------
  // detectFBProgram
  // ------------------------------------------------------------------

  /** The alternatives `(Hauptprogramm|Unterprogramm|Programm)`, matched ignoring case. */
  const ProgramTypes: seq<string> := ["Hauptprogramm", "Unterprogramm", "Programm"]

  /**
   * `^(Hauptprogramm|Unterprogramm|Programm)\s+([A-Za-z0-9_\s]+)\s+(FB\d+)$`,
   * ignoring case. Read from the right: a run of digits ends the text, `FB`
   * precedes it, a space precedes that, and everything between the space
   * after the keyword and that one is a name character. The name is trimmed;
   * the program type and the FB number keep the case they are written in.
   */
  function DetectFBProgram(t: string, lineNumber: nat): (r: Option<FbProgram>)
    ensures r.Some? ==> r.value.lineNumber == lineNumber && r.value.assignments == []
    ensures r.Some? ==> StartsWith(t, r.value.programType) && EndsWith(t, r.value.fbNumber)
    ensures r.Some? ==> |r.value.fbNumber| >= 3 && AllDigits(r.value.fbNumber[2..])
  {
    match FirstKeywordAt(t, 0, ProgramTypes)
    case None => None
    case Some(k) => HeaderAfterKeyword(t, |ProgramTypes[k]|, lineNumber)
  }

  /** `\s+(.+?)\s+(FB\d+)$` after the program type ending at `w`, with the digits starting at `q`. */
  predicate HeaderShape(t: string, w: nat, q: nat) {
    q < |t| && w + 5 <= q && AtIgnoreCase(t, q - 2, "FB") && IsSpace(t[w]) && IsSpace(t[q - 3])
    && AllNameChars(t[w + 1..q - 3])
  }

  /** The rest of the header pattern once the program type ends at `w`: the FB digits run back from the end. */
  function HeaderAfterKeyword(t: string, w: nat, lineNumber: nat): (r: Option<FbProgram>)
    ensures r.Some? ==> r.value.lineNumber == lineNumber && r.value.assignments == []
  {
    HeaderEndingAt(t, w, SkipDigitsBack(t, |t|), lineNumber)
  }

  /** The header fields when the name runs from `w` to the `FB` whose digits start at `q`. */
  function HeaderEndingAt(t: string, w: nat, q: nat, lineNumber: nat): (r: Option<FbProgram>)
    ensures r.Some? ==> HeaderShape(t, w, q) && r.value.lineNumber == lineNumber && r.value.assignments == []
  {
    if HeaderShape(t, w, q) then Some(FbProgram(t[..w], Trim(t[w + 1..q - 3]), t[q - 2..], lineNumber, []))
    else None
  }

  // ------------------------------------------------------------------
  // detectVariableAssignment
  // ------------------------------------------------------------------

  /** Where `[A-Za-z_][A-Za-z0-9_]*` starting at `i` ends, when one starts there. */
  function IdentifierEnd(t: string, i: nat): (r: Option<nat>)
    requires i <= |t|
    ensures r.Some? ==> i < r.value <= |t|
  {
    if i < |t| && IsIdentStart(t[i]) then Some(SkipWordChars(t, i + 1)) else None
  }

  /** Where `\[([^\]]+)\]` starting at `i` has its `]`: at the first `]`, with something between. */
  function ClosingBracket(t: string, i: nat): (r: Option<nat>)
    requires i <= |t|
    ensures r.Some? ==> i + 1 < r.value < |t| && t[i] == '[' && t[r.value] == ']'
  {
    if i < |t| && t[i] == '[' then
      var j := IndexOf(t, ']', i + 1);
      if i + 1 < j < |t| then Some(j) else None
    else None
  }

  /** `\.` and an identifier after the `]` at `j`: where the identifier ends. */
  function MemberEnd(t: string, j: nat): (r: Option<nat>)
    requires j < |t|
    ensures r.Some? ==> j + 2 < r.value <= |t| && t[j + 1] == '.'
  {
    if j + 1 < |t| && t[j + 1] == '.' then IdentifierEnd(t, j + 2) else None
  }

  /** `\s*=.` from `i`: where the `=` is, when something follows it. */
  function EqualsAfter(t: string, i: nat): (r: Option<nat>)
    requires i <= |t|
    ensures r.Some? ==> i <= r.value && r.value + 1 < |t| && t[r.value] == '='
  {
    var e := SkipSpaces(t, i);
    if e + 1 < |t| && t[e] == '=' then Some(e) else None
  }

  /** `\s*=\s*(.+)$` from `i`: the value after the `=`, trimmed. */
  function ValueAfter(t: string, i: nat): Option<string>
    requires i <= |t|
  {
    match EqualsAfter(t, i)
    case None => None
    case Some(e) => Some(Trim(t[e + 1..]))
  }

  /** `^(id)\[([^\]]+)\]\.(id)\[([^\]]+)\]\.(id)\s*=\s*(.+)$`, as in `Horde[x].Etage_Daten[y].Status = 0`. */
  function ComplexAssignmentOf(t: string, lineNumber: nat): Option<Assignment>
  {
    match IdentifierEnd(t, 0)
    case None => None
    case Some(a) =>
      match ClosingBracket(t, a)
      case None => None
      case Some(b) =>
        match MemberEnd(t, b)
        case None => None
        case Some(c) =>
          match ClosingBracket(t, c)
          case None => None
          case Some(d) =>
            match MemberEnd(t, d)
            case None => None
            case Some(e) =>
              match ValueAfter(t, e)
              case None => None
              case Some(v) => Some(ComplexAssignmentAt(t, a, b, c, d, e, v, lineNumber))
  }

  /**
   * The complex assignment whose array name ends at `a`, whose `]`s are at
   * `b` and `d` and whose members end at `c` and `e`; the indices as written.
   */
  function ComplexAssignmentAt(t: string, a: nat, b: nat, c: nat, d: nat, e: nat, v: string, lineNumber: nat): Assignment
    requires a < b && b + 2 <= c < d && d + 2 <= e <= |t|
  {
    ComplexAssignment(t[..a], [Indexing(t[..a], t[a + 1..b]), Indexing(t[b + 2..c], t[c + 1..d])], t[d + 2..e], v, lineNumber, t)
  }

  /** `^(id)\[([^\]]+)\]\.(id)\s*=\s*(.+)$`, as in `Horde[x].Property = value`; the index is trimmed. */
  function MatrixAssignmentOf(t: string, lineNumber: nat): Option<Assignment>
  {
    match IdentifierEnd(t, 0)
    case None => None
    case Some(a) =>
      match ClosingBracket(t, a)
      case None => None
      case Some(b) =>
        match MemberEnd(t, b)
        case None => None
        case Some(c) =>
          match ValueAfter(t, c)
          case None => None
          case Some(v) => Some(MatrixAssignmentAt(t, a, b, c, v, lineNumber))
  }

  /** The matrix assignment whose array name ends at `a`, whose `]` is at `b` and whose member ends at `c`. */
  function MatrixAssignmentAt(t: string, a: nat, b: nat, c: nat, v: string, lineNumber: nat): Assignment
    requires a < b && b + 2 <= c <= |t|
  {
    MatrixAssignment(t[..a], Trim(t[a + 1..b]), t[b + 2..c], v, lineNumber, t)
  }

  /**
   * `^(id)\s*\(([^)]+)\)\s*=\s*(.+)$`, as in `Variable1 (Description) = 21`;
   * the description is trimmed (an identifier needs no trimming).
   */
  function SimpleAssignmentOf(t: string, lineNumber: nat): Option<Assignment>
  {
    match IdentifierEnd(t, 0)
    case None => None
    case Some(a) => SimpleAfterName(t, a, lineNumber)
  }

  /** The rest of the simple form once the variable name ends at `a`. */
  function SimpleAfterName(t: string, a: nat, lineNumber: nat): Option<Assignment>
    requires a <= |t|
  {
    match SimpleLayout(t, a)
    case None => None
    case Some((p, j, e)) => Some(SimpleAssignmentAt(t, a, p, j, e, lineNumber))
  }

  /** `\s*\(([^)]+)\)\s*=.` after the name: where the `(`, the first `)` and the `=` are. */
  function SimpleLayout(t: string, a: nat): (r: Option<(nat, nat, nat)>)
    requires a <= |t|
    ensures r.Some? ==> a <= r.value.0 < r.value.1 < r.value.2 < |t|
  {
    var p := SkipSpaces(t, a);
    if p < |t| && t[p] == '(' then
      var j := IndexOf(t, ')', p + 1);
      if p + 1 < j < |t| then
        match EqualsAfter(t, j + 1)
        case None => None
        case Some(e) => Some((p, j, e))
      else None
    else None
  }

  /** The simple assignment whose name ends at `a`, whose description runs from `p` to `j` and whose `=` is at `e`. */
  function SimpleAssignmentAt(t: string, a: nat, p: nat, j: nat, e: nat, lineNumber: nat): Assignment
    requires a <= p < j < e < |t|
  {
    SimpleAssignment(t[..a], Trim(t[p + 1..j]), Trim(t[e + 1..]), lineNumber, t)
  }

  /** The array of a complex or matrix assignment, the variable of a simple one. */
  function AssignedName(a: Assignment): string
  {
    if a.SimpleAssignment? then a.name else a.arrayName
  }

  /** The complex form, then the matrix form, then the simple form. */
  function DetectVariableAssignment(t: string, lineNumber: nat): (r: Option<Assignment>)
    ensures r.Some? ==> r.value.lineNumber == lineNumber && r.value.originalText == t
    ensures r.Some? ==> AssignedName(r.value) != [] && IsIdentStart(AssignedName(r.value)[0])
                        && StartsWith(t, AssignedName(r.value))
  {
    match ComplexAssignmentOf(t, lineNumber)
    case Some(a) => Some(a)
    case None =>
      match MatrixAssignmentOf(t, lineNumber)
      case Some(a) => Some(a)
      case None => SimpleAssignmentOf(t, lineNumber)
  }

  // ------------------------------------------------------------------
  // detectComment
  // ------------------------------------------------------------------

  /**
   * The lazy `^(.+?)\s*\/\/`: the shortest non-empty code part, from `e` on,
   * after which spaces and then `//` follow.
   */
  function InlineCommentFrom(t: string, e: nat): (r: Option<nat>)
    requires 1 <= e <= |t|
    ensures r.Some? ==> e <= r.value < |t| && At(t, SkipSpaces(t, r.value), "//")
    ensures r.Some? ==> forall f :: e <= f < r.value ==> !At(t, SkipSpaces(t, f), "//")
    ensures r.None? ==> forall f :: e <= f < |t| ==> !At(t, SkipSpaces(t, f), "//")
    decreases |t| - e
  {
    if e == |t| then None
    else if At(t, SkipSpaces(t, e), "//") then Some(e)
    else InlineCommentFrom(t, e + 1)
  }

  /**
   * `^\/\/\s*(.*)$`, then `^\/\*\s*(.*?)\s*\*\/$`, then `^(.+?)\s*\/\/\s*(.*)$`;
   * contents and code are trimmed.
   */
  function DetectComment(t: string, lineNumber: nat): (r: Option<Comment>)
    ensures r.Some? ==> r.value.lineNumber == lineNumber && r.value.originalText == t && IsTrimmed(r.value.content)
    ensures r.Some? ==> (r.value.subtype == SingleLine <==> StartsWith(t, "//"))
    ensures r.Some? ==> (r.value.codeContent.Some? <==> r.value.subtype == Inline)
  {
    if StartsWith(t, "//") then Some(Comment(SingleLine, Trim(t[2..]), None, lineNumber, t))
    else if |t| >= 4 && StartsWith(t, "/*") && EndsWith(t, "*/") then
      Some(Comment(MultiLine, Trim(t[2..|t| - 2]), None, lineNumber, t))
    else if t == [] then None
    else
      match InlineCommentFrom(t, 1)
      case None => None
      case Some(e) => Some(InlineComment(t, e, SkipSpaces(t, e), lineNumber))
  }

  /** The inline comment whose code part ends at `e` and whose `//` starts at `p`. */
  function InlineComment(t: string, e: nat, p: nat, lineNumber: nat): (r: Comment)
    requires e <= p && p + 2 <= |t|
    ensures r.subtype == Inline && r.codeContent.Some? && IsTrimmed(r.content)
  {
    Comment(Inline, Trim(t[p + 2..]), Some(Trim(t[..e])), lineNumber, t)
  }

  // ------------------------------------------------------------------
  // detectOrBlock
  // ------------------------------------------------------------------

  /**
   * `^\s*([A-Za-z_][A-Za-z0-9_\s]*)\s*\+?\s*$`: an identifier-like condition,
   * possibly followed by one `+`; the condition is trimmed.
   */
  function OrItemCondition(t: string): Option<string>
  {
    var a := SkipSpaces(t, 0);
    if a < |t| && IsIdentStart(t[a]) then
      var b := SkipNameChars(t, a + 1);
      if b == |t| || (t[b] == '+' && AllSpaces(t[b + 1..])) then Some(Trim(t[a..b])) else None
    else None
  }

  /**
   * `[` opens a fresh block whatever is open; `]` completes the open block at
   * this line; while a block is open an item line is appended to it.
   * (`^\s*\[\s*$` holds exactly when the trimmed text is `[`.)
   */
  function DetectOrBlock(t: string, lineNumber: nat, current: Option<OrBlock>): (r: OrBlockResult)
    ensures (r.IsOrBlock? && r.completed) <==> (Trim(t) == "]" && current.Some?)
    ensures current.None? ==> (r.IsOrBlock? <==> Trim(t) == "[")
    ensures Trim(t) == "[" ==> r.IsOrBlock?
  {
    if Trim(t) == "[" then IsOrBlock(OrBlock([], lineNumber, None), false)
    else if Trim(t) == "]" && current.Some? then IsOrBlock(current.value.(endLine := Some(lineNumber)), true)
    else if current.Some? && OrItemCondition(t).Some? then
      var block := current.value;
      IsOrBlock(block.(items := block.items + [OrItem(OrItemCondition(t).value, lineNumber, t)]), false)
    else NotOrBlock
  }

  // ------------------------------------------------------------------
  // normalizeReference
  // ------------------------------------------------------------------

  /** Positions of the tail `(SCHRITT|STAP|STEP)\s+([0-9+]+)\)\s*$` of a reference. */
  datatype StepTail = StepTail(keywordStart: nat, keywordEnd: nat, stepsStart: nat, close: nat)

  /**
   * The tail read from the right: the last `)` before trailing spaces, the
   * longest run of step characters before it, spaces, and a step keyword
   * ending there.
   */
  function StepTailOf(t: string): (r: Option<StepTail>)
    ensures r.Some? ==> r.value.keywordStart < r.value.keywordEnd < r.value.stepsStart < r.value.close < |t|
  {
    var e := SkipSpacesBack(t, |t|);
    if e == 0 || t[e - 1] != ')' then None
    else
      var s := StepListStart(t, e - 1);
      var b := SkipSpacesBack(t, s);
      if s == e - 1 || b == s then None
      else
        match KeywordEndingAt(t, b, true)
        case None => None
        case Some(k) => Some(StepTail(k, b, s, e - 1))
  }

  /**
   * `\(([A-Za-z0-9_\s]+)\s+` ending with the space at `j`: the position of
   * the `(`, which must leave a non-empty description before it.
   */
  function ProgramOpening(t: string, j: nat): (r: Option<nat>)
    requires j < |t|
    ensures r.Some? ==> 1 <= r.value && r.value + 1 < j
  {
    var st := NameRunStart(t, j);
    if IsSpace(t[j]) && 2 <= st < j && t[st - 1] == '(' then Some(st - 1) else None
  }

  /** The captures of a reference pattern, as matched; `fbNumber` is present in the qualified form only. */
  datatype ReferenceCaptures =
    ReferenceCaptures(description: string, program: string, fbNumber: Option<string>, keyword: string, steps: string)

  /**
   * The captures once the positions are known: the description before the
   * `(` at `o`, the program name from there to `c`, and the tail's keyword
   * and step list.
   */
  function CapturesAt(t: string, o: nat, c: nat, fbNumber: Option<string>, tail: StepTail): ReferenceCaptures
    requires o < c <= |t| && tail.keywordStart <= tail.keywordEnd <= |t| && tail.stepsStart <= tail.close <= |t|
  {
    ReferenceCaptures(t[..o], t[o + 1..c], fbNumber, t[tail.keywordStart..tail.keywordEnd], t[tail.stepsStart..tail.close])
  }

  /**
   * `\(([A-Za-z0-9_\s]+)\s+(FB\d+)\s+` before the tail's keyword: where the
   * `(` is, where the digits start and where they end.
   */
  function QualifiedLayout(t: string, tail: StepTail): (r: Option<(nat, nat, nat)>)
    requires tail.keywordStart < |t|
    ensures r.Some? ==> var (o, h, g) := r.value; o + 1 < h - 3 && h < g <= tail.keywordStart
  {
    var g := SkipSpacesBack(t, tail.keywordStart);
    var h := SkipDigitsBack(t, g);
    if g == tail.keywordStart || h == g || h < 3 || !AtIgnoreCase(t, h - 2, "FB") then None
    else
      match ProgramOpening(t, h - 3)
      case None => None
      case Some(o) => Some((o, h, g))
  }

  /** `^(.+?)\s*\(([A-Za-z0-9_\s]+)\s+(FB\d+)\s+(SCHRITT|STAP|STEP)\s+([0-9+]+)\)\s*$`, ignoring case. */
  function QualifiedReference(t: string): Option<ReferenceCaptures>
  {
    match StepTailOf(t)
    case None => None
    case Some(tail) => QualifiedBeforeTail(t, tail)
  }

  /** The qualified captures once the step tail is known. */
  function QualifiedBeforeTail(t: string, tail: StepTail): Option<ReferenceCaptures>
    requires tail.keywordStart <= tail.keywordEnd <= |t| && tail.stepsStart <= tail.close <= |t|
    requires tail.keywordStart < |t|
  {
    match QualifiedLayout(t, tail)
    case None => None
    case Some((o, h, g)) => Some(CapturesAt(t, o, h - 3, Some(t[h - 2..g]), tail))
  }

  /** `\(([A-Za-z0-9_\s]+)\s+` right before the tail's keyword: where the `(` is. */
  function UnqualifiedLayout(t: string, tail: StepTail): (r: Option<nat>)
    requires tail.keywordStart < |t|
    ensures r.Some? ==> r.value + 1 < tail.keywordStart - 1
  {
    if tail.keywordStart == 0 then None else ProgramOpening(t, tail.keywordStart - 1)
  }

  /** `^(.+?)\s*\(([A-Za-z0-9_\s]+)\s+(SCHRITT|STAP|STEP)\s+([0-9+]+)\)\s*$`, ignoring case. */
  function UnqualifiedReference(t: string): Option<ReferenceCaptures>
  {
    match StepTailOf(t)
    case None => None
    case Some(tail) => UnqualifiedBeforeTail(t, tail)
  }

  /** The unqualified captures once the step tail is known. */
  function UnqualifiedBeforeTail(t: string, tail: StepTail): Option<ReferenceCaptures>
    requires tail.keywordStart <= tail.keywordEnd <= |t| && tail.stepsStart <= tail.close <= |t|
    requires tail.keywordStart < |t|
  {
    match UnqualifiedLayout(t, tail)
    case None => None
    case Some(o) => Some(CapturesAt(t, o, tail.keywordStart - 1, None, tail))
  }

  /** The reference built from captures, description and program trimmed, and the FB number it is attributed to. */
  function ReferenceOf(x: ReferenceCaptures, fb: string, lineNumber: nat, t: string): Reference
  {
    Reference(Trim(x.description), Trim(x.program), fb, x.keyword, ParseStepList(x.steps),
              fb + "." + x.keyword + " " + x.steps, lineNumber, t)
  }

  /** `currentFB || 'UNKNOWN'`. */
  function FbOrUnknown(currentFB: Option<string>): string
  {
    if currentFB.Some? then currentFB.value else "UNKNOWN"
  }

  /**
   * The qualified form first, with the FB number it names; then the
   * unqualified form, attributed to the current FB.
   */
  function NormalizeReference(t: string, lineNumber: nat, currentFB: Option<string>): (r: Option<Reference>)
    ensures r.Some? ==> r.value.lineNumber == lineNumber && r.value.originalText == t
    ensures r.Some? ==> r.value.steps != [] && |r.value.stepKeyword| in {4, 7}
  {
    match QualifiedReference(t)
    case Some(x) => Some(ReferenceOf(x, x.fbNumber.value, lineNumber, t))
    case None =>
      match UnqualifiedReference(t)
      case Some(x) => Some(ReferenceOf(x, FbOrUnknown(currentFB), lineNumber, t))
      case None => None
  }

  // ------------------------------------------------------------------
  // detectEntity
  // ------------------------------------------------------------------

  const KaeseKeywords: seq<string> := ["Käsezähler", "Cheese Counter"]
  const StoerungKeywords: seq<string> := ["Störung", "Fault", "Error"]
  const FreigabeKeywords: seq<string> := ["Freigabe", "Release", "Enable"]

  /**
   * `^(Käsezähler|Cheese Counter)\s+([A-Za-z0-9_\s]+)\s*(.*)$`, ignoring case:
   * the name is the run of name characters after the keyword, the description
   * whatever follows it.
   */
  function KaeseEntity(t: string, lineNumber: nat): Option<Entity>
  {
    match FirstKeywordAt(t, 0, KaeseKeywords)
    case None => None
    case Some(k) =>
      var w := |KaeseKeywords[k]|;
      if w < |t| && IsSpace(t[w]) && w + 1 < SkipNameChars(t, w + 1) then
        var n := SkipNameChars(t, w + 1);
        Some(Entity(Kaesezaehler, Some(Trim(t[w + 1..n])), Trim(t[n..]), lineNumber, t))
      else None
  }

  /**
   * The description `(.+)` of `^(Störung|Fault|Error)\s*[:.]?\s*(.+)$` after
   * the keyword ending at `w`, as the backtracking match settles on it.
   */
  function FaultDescription(t: string, w: nat): Option<string>
    requires w <= |t|
  {
    var p := SkipSpaces(t, w);
    var marked := p < |t| && (t[p] == ':' || t[p] == '.');
    var q := if marked then SkipSpaces(t, p + 1) else p;
    if q < |t| then Some(Trim(t[q..]))
    else if marked then (if q > p + 1 then Some("") else Some([t[p]]))
    else if p > w then Some("")
    else None
  }

  function StoerungEntity(t: string, lineNumber: nat): Option<Entity>
  {
    match FirstKeywordAt(t, 0, StoerungKeywords)
    case None => None
    case Some(k) =>
      match FaultDescription(t, |StoerungKeywords[k]|)
      case None => None
      case Some(d) => Some(Entity(Stoerung, None, d, lineNumber, t))
  }

  /** `^(Freigabe|Release|Enable)\s+(.+)$`, ignoring case. */
  function FreigabeEntity(t: string, lineNumber: nat): Option<Entity>
  {
    match FirstKeywordAt(t, 0, FreigabeKeywords)
    case None => None
    case Some(k) =>
      var w := |FreigabeKeywords[k]|;
      if w + 1 < |t| && IsSpace(t[w]) then Some(Entity(Freigabe, None, Trim(t[w..]), lineNumber, t)) else None
  }

  /** Käsezähler, then Störung, then Freigabe. */
  function DetectEntity(t: string, lineNumber: nat): (r: Option<Entity>)
    ensures r.Some? ==> r.value.lineNumber == lineNumber && r.value.originalText == t
    ensures r.Some? ==> (r.value.name.Some? <==> r.value.entityType == Kaesezaehler)
  {
    match KaeseEntity(t, lineNumber)
    case Some(e) => Some(e)
    case None =>
      match StoerungEntity(t, lineNumber)
      case Some(e) => Some(e)
      case None => FreigabeEntity(t, lineNumber)
  }

  // ------------------------------------------------------------------
  // enhanceCondition
  // ------------------------------------------------------------------

  /**
   * Where a compound-condition pattern settles: the subject is `t[..subjectEnd]`,
   * the operator `t[operatorStart..operatorEnd]`, the operand `t[operatorEnd..]`,
   * the subject and the operand trimmed.
   */
  datatype MatchSplit = MatchSplit(subjectEnd: nat, operatorStart: nat, operatorEnd: nat)

  /**
   * `^(.+?)\s*([<>=!]+)\s*(.+)$` with the left operand ending at `e` or later:
   * the operator is the run of operator characters after the spaces, given
   * back by one when nothing else is left for the right operand.
   */
  function ComparisonSplit(t: string, e: nat): (r: Option<MatchSplit>)
    requires 1 <= e <= |t|
    ensures r.Some? ==> e <= r.value.subjectEnd <= r.value.operatorStart < r.value.operatorEnd < |t|
    decreases |t| - e
  {
    if e == |t| then None
    else
      var p := SkipSpaces(t, e);
      var o := SkipOperatorChars(t, p);
      if p < o < |t| then Some(MatchSplit(e, p, o))
      else if p + 2 <= o then Some(MatchSplit(e, p, o - 1))
      else ComparisonSplit(t, e + 1)
  }

  /** The comparison a split describes. */
  function ComparisonOf(t: string, x: MatchSplit, lineNumber: nat): CompoundCondition
    requires x.subjectEnd <= x.operatorStart <= x.operatorEnd <= |t|
  {
    ComparisonCondition(Trim(t[..x.subjectEnd]), t[x.operatorStart..x.operatorEnd], Trim(t[x.operatorEnd..]), lineNumber, t)
  }

  /** The comparison pattern with the left operand ending at `e` or later. */
  function ComparisonFrom(t: string, e: nat, lineNumber: nat): Option<CompoundCondition>
    requires 1 <= e <= |t|
  {
    match ComparisonSplit(t, e)
    case None => None
    case Some(x) => Some(ComparisonOf(t, x, lineNumber))
  }

  /** The operator of `(ist|is|==)` at `p` that leaves something after it, in that order. */
  function EvaluationOperator(t: string, p: nat): (r: Option<nat>)
    requires p <= |t|
    ensures r.Some? ==> r.value in {2, 3} && p + r.value < |t|
  {
    if AtIgnoreCase(t, p, "ist") && p + 3 < |t| then Some(3)
    else if AtIgnoreCase(t, p, "is") && p + 2 < |t| then Some(2)
    else if At(t, p, "==") && p + 2 < |t| then Some(2)
    else None
  }

  /** `^(.+?)\s*(ist|is|==)\s*(.+)$`, ignoring case, with the subject ending at `e` or later. */
  function EvaluationSplit(t: string, e: nat): (r: Option<MatchSplit>)
    requires 1 <= e <= |t|
    ensures r.Some? ==> e <= r.value.subjectEnd <= r.value.operatorStart < r.value.operatorEnd < |t|
    decreases |t| - e
  {
    if e == |t| then None
    else
      var p := SkipSpaces(t, e);
      match EvaluationOperator(t, p)
      case Some(w) => Some(MatchSplit(e, p, p + w))
      case None => EvaluationSplit(t, e + 1)
  }

  /** The evaluation a split describes. */
  function EvaluationOf(t: string, x: MatchSplit, lineNumber: nat): CompoundCondition
    requires x.subjectEnd <= x.operatorStart <= x.operatorEnd <= |t|
  {
    EvaluationCondition(Trim(t[..x.subjectEnd]), t[x.operatorStart..x.operatorEnd], Trim(t[x.operatorEnd..]), lineNumber, t)
  }

  /** The evaluation pattern with the subject ending at `e` or later. */
  function EvaluationFrom(t: string, e: nat, lineNumber: nat): Option<CompoundCondition>
    requires 1 <= e <= |t|
  {
    match EvaluationSplit(t, e)
    case None => None
    case Some(x) => Some(EvaluationOf(t, x, lineNumber))
  }

  /** The comparison form, then the evaluation form. */
  function EnhanceCondition(t: string, lineNumber: nat): (r: Option<CompoundCondition>)
    ensures r.Some? ==> r.value.lineNumber == lineNumber && r.value.originalText == t && r.value.operator != []
  {
    if t == [] then None
    else
      match ComparisonFrom(t, 1, lineNumber)
      case Some(c) => Some(c)
      case None => EvaluationFrom(t, 1, lineNumber)
  }

  // ------------------------------------------------------------------
  // enhanceWithAdvancedParsing, line by line
  // ------------------------------------------------------------------

  /** The lists `enhanceWithAdvancedParsing` fills. */
  datatype Collected = Collected(
    programs: seq<FbProgram>,
    variableAssignments: seq<Assignment>,
    comments: seq<Comment>,
    orBlocks: seq<OrBlock>,
    entities: seq<Entity>,
    normalizedReferences: seq<Reference>,
    compoundConditions: seq<CompoundCondition>)

  const NothingCollected: Collected := Collected([], [], [], [], [], [], [])

  /** What the detectors make of one line, tried in the order the loop tries them. */
  datatype LineKind =
    | Blank
    | ProgramLine(program: FbProgram)
    | AssignmentLine(assignment: Assignment)
    | CommentLine(comment: Comment)
    | OrBlockLine(orBlock: OrBlock, completed: bool)
    | ReferenceLine(reference: Reference)
    | EntityLine(entity: Entity)
    | ConditionLine(condition: CompoundCondition)
    | Unmatched

  /** What each detector makes of a trimmed, non-blank line, in the order they are tried. */
  datatype Detections = Detections(
    program: Option<FbProgram>,
    assignment: Option<Assignment>,
    comment: Option<Comment>,
    orBlock: OrBlockResult,
    reference: Option<Reference>,
    entity: Option<Entity>,
    condition: Option<CompoundCondition>)

  /** The line `t` (trimmed) numbered `lineNumber`, read with the OR-block `open` and the FB `currentFB` in force. */
  function Detect(t: string, lineNumber: nat, open: Option<OrBlock>, currentFB: Option<string>): Detections
  {
    Detections(DetectFBProgram(t, lineNumber), DetectVariableAssignment(t, lineNumber), DetectComment(t, lineNumber),
               DetectOrBlock(t, lineNumber, open), NormalizeReference(t, lineNumber, currentFB),
               DetectEntity(t, lineNumber), EnhanceCondition(t, lineNumber))
  }

  /** The first detector that matched decides; a line none matched is unmatched. */
  function FirstHit(d: Detections): LineKind
  {
    if d.program.Some? then ProgramLine(d.program.value)
    else if d.assignment.Some? then AssignmentLine(d.assignment.value)
    else if d.comment.Some? then CommentLine(d.comment.value)
    else if d.orBlock.IsOrBlock? then OrBlockLine(d.orBlock.orBlock, d.orBlock.completed)
    else if d.reference.Some? then ReferenceLine(d.reference.value)
    else if d.entity.Some? then EntityLine(d.entity.value)
    else if d.condition.Some? then ConditionLine(d.condition.value)
    else Unmatched
  }

  /** A blank line is skipped; any other line is what its first detection makes of it. */
  function KindOf(line: string, lineNumber: nat, open: Option<OrBlock>, currentFB: Option<string>): LineKind
  {
    var t := Trim(line);
    if t == [] then Blank else FirstHit(Detect(t, lineNumber, open, currentFB))
  }

  /** The state of the walk: what was found, the open program, the open OR-block and the current FB. */
  datatype Walk = Walk(found: Collected, currentProgram: Option<FbProgram>, currentOrBlock: Option<OrBlock>,
                       currentFB: Option<string>)

  /** `programs` with the open program, if any, pushed. */
  function Flushed(programs: seq<FbProgram>, current: Option<FbProgram>): seq<FbProgram>
  {
    if current.Some? then programs + [current.value] else programs
  }

  /**
   * What a line of kind `k` does: a header flushes the open program, opens
   * its own and sets the current FB; an assignment is recorded and also
   * appended to the open program; an OR-block line replaces the open block,
   * which is recorded and closed once completed; the other finds are recorded.
   */
  function Apply(st: Walk, k: LineKind): Walk
  {
    var found := st.found;
    match k
    case ProgramLine(p) =>
      st.(found := found.(programs := Flushed(found.programs, st.currentProgram)),
          currentProgram := Some(p), currentFB := Some(p.fbNumber))
    case AssignmentLine(a) =>
      var program := if st.currentProgram.Some? then
        Some(st.currentProgram.value.(assignments := st.currentProgram.value.assignments + [a]))
      else None;
      st.(found := found.(variableAssignments := found.variableAssignments + [a]), currentProgram := program)
    case CommentLine(c) => st.(found := found.(comments := found.comments + [c]))
    case OrBlockLine(b, completed) =>
      if completed then st.(found := found.(orBlocks := found.orBlocks + [b]), currentOrBlock := None)
      else st.(currentOrBlock := Some(b))
    case ReferenceLine(r) => st.(found := found.(normalizedReferences := found.normalizedReferences + [r]))
    case EntityLine(e) => st.(found := found.(entities := found.entities + [e]))
    case ConditionLine(c) => st.(found := found.(compoundConditions := found.compoundConditions + [c]))
    case Blank => st
    case Unmatched => st
  }

  /** Line `index` (0-based, so line number `index + 1`) read in state `st`. */
  function Step(st: Walk, line: string, index: nat): Walk
  {
    Apply(st, KindOf(line, index + 1, st.currentOrBlock, st.currentFB))
  }

  /** The state after the first `n` lines. */
  function WalkRun(lines: seq<string>, n: nat, start: Walk): Walk
    requires n <= |lines|
    decreases n, 1
  {
    if n == 0 then start else WalkLine(lines, n - 1, start)
  }

  /** The state after line `index`; a function of its own so that proofs unfold one line at a time. */
  function WalkLine(lines: seq<string>, index: nat, start: Walk): Walk
    requires index < |lines|
    decreases index + 1, 0
  {
    Step(WalkRun(lines, index, start), lines[index], index)
  }

  /** The state after every line of `text`, from no finds and the FB `currentFB`. */
  function Walked(text: string, currentFB: Option<string>): Walk
  {
    var lines := Split(text, '\n');
    WalkRun(lines, |lines|, Walk(NothingCollected, None, None, currentFB))
  }

  /** The end of input: the open program is pushed; an unclosed OR-block is dropped. */
  function Finished(st: Walk): Collected
  {
    st.found.(programs := Flushed(st.found.programs, st.currentProgram))
  }

  // ------------------------------------------------------------------
  // buildProgramHierarchy
  // ------------------------------------------------------------------

  datatype Relationship = Relationship(sourceProgram: Option<string>, targetProgram: string,
                                       targetSteps: seq<Option<nat>>, description: string)

  datatype Hierarchy = Hierarchy(mainPrograms: seq<FbProgram>, subPrograms: seq<FbProgram>,
                                 relationships: seq<Relationship>)

  /** The result: the lists found and the hierarchy built from them. */
  datatype Enhanced = Enhanced(found: Collected, programHierarchy: Hierarchy)

  /** `programType.toLowerCase().includes('haupt')`. */
  predicate IsMain(p: FbProgram) {
    Contains(Lower(p.programType), "haupt")
  }

  /** The main programs, in order. */
  function Mains(ps: seq<FbProgram>): seq<FbProgram>
  {
    if ps == [] then []
    else Mains(ps[..|ps| - 1]) + (if IsMain(ps[|ps| - 1]) then [ps[|ps| - 1]] else [])
  }

  /** The other programs, in order. */
  function Subs(ps: seq<FbProgram>): seq<FbProgram>
  {
    if ps == [] then []
    else Subs(ps[..|ps| - 1]) + (if IsMain(ps[|ps| - 1]) then [] else [ps[|ps| - 1]])
  }

  /** The relationship a reference contributes, from the FB that is current when the hierarchy is built. */
  function RelationshipOf(r: Reference, currentFB: Option<string>): Relationship
  {
    Relationship(currentFB, r.fbNumber, r.steps, r.description)
  }

  // ------------------------------------------------------------------
  // The parser object
  // ------------------------------------------------------------------

  class AdvancedParser {
    /** `programStructure.currentFB`: the FB number of the last program header read, by any call. */
    var currentFB: Option<string>

    constructor ()
      ensures currentFB == None
    {
      currentFB := None;
    }

    /**
     * `enhanceWithAdvancedParsing`: every line of `text` is read in order,
     * the last open program is pushed, and the hierarchy is built from the
     * programs and references found.
     */
    method EnhanceWithAdvancedParsing(text: string) returns (enhanced: Enhanced)
      modifies this
      ensures currentFB == Walked(text, old(currentFB)).currentFB
      ensures enhanced.found == Finished(Walked(text, old(currentFB)))
      ensures enhanced.programHierarchy.mainPrograms == Mains(enhanced.found.programs)
      ensures enhanced.programHierarchy.subPrograms == Subs(enhanced.found.programs)
      ensures |enhanced.programHierarchy.relationships| == |enhanced.found.normalizedReferences|
      ensures forall k :: 0 <= k < |enhanced.found.normalizedReferences| ==>
        enhanced.programHierarchy.relationships[k] == RelationshipOf(enhanced.found.normalizedReferences[k], currentFB)
    {
      var lines := Split(text, '\n');
      var found := NothingCollected;
      var currentProgram: Option<FbProgram> := None;
      var currentOrBlock: Option<OrBlock> := None;
      ghost var start := Walk(found, currentProgram, currentOrBlock, currentFB);
      for index := 0 to |lines|
        invariant Walk(found, currentProgram, currentOrBlock, currentFB) == WalkRun(lines, index, start)
      {
        found, currentProgram, currentOrBlock := ReadNextLine(lines, index, start, found, currentProgram, currentOrBlock);
      }
      if currentProgram.Some? {
        found := found.(programs := found.programs + [currentProgram.value]);
      }
      var hierarchy := BuildProgramHierarchy(found.programs, found.normalizedReferences);
      enhanced := Enhanced(found, hierarchy);
    }

    /** One turn of the `forEach`: line `index` read into the state the earlier lines left. */
    method ReadNextLine(lines: seq<string>, index: nat, ghost start: Walk,
                        found: Collected, program: Option<FbProgram>, block: Option<OrBlock>)
      returns (found': Collected, program': Option<FbProgram>, block': Option<OrBlock>)
      requires index < |lines|
      requires Walk(found, program, block, currentFB) == WalkRun(lines, index, start)
      modifies this
      ensures Walk(found', program', block', currentFB) == WalkRun(lines, index + 1, start)
    {
      found', program', block' := ReadLine(lines[index], index, found, program, block);
    }

    /**
     * The body of the `forEach` for line `index`: a blank line is skipped, any other is
     * recorded by the first detector that matches it. The detectors are pure, so computing
     * all seven before choosing gives what trying them one after another gives.
     */
    method ReadLine(line: string, index: nat, found: Collected, program: Option<FbProgram>, block: Option<OrBlock>)
      returns (found': Collected, program': Option<FbProgram>, block': Option<OrBlock>)
      modifies this
      ensures Walk(found', program', block', currentFB) == Step(Walk(found, program, block, old(currentFB)), line, index)
    {
      found', program', block' := found, program, block;
      var trimmed := Trim(line);
      if trimmed == [] {
        return;
      }
      var d := Detect(trimmed, index + 1, block, currentFB);
      assert KindOf(line, index + 1, block, currentFB) == FirstHit(d);
      found', program', block' := Record(d, found, program, block);
    }

    /** Records a line by its first detection, in the order the loop tries the detectors. */
    method Record(d: Detections, found: Collected, program: Option<FbProgram>, block: Option<OrBlock>)
      returns (found': Collected, program': Option<FbProgram>, block': Option<OrBlock>)
      modifies this
      ensures Walk(found', program', block', currentFB) == Apply(Walk(found, program, block, old(currentFB)), FirstHit(d))
    {
      found', program', block' := found, program, block;
      if d.program.Some? {
        if program.Some? {
          found' := found.(programs := found.programs + [program.value]);
        }
        program' := d.program;
        currentFB := Some(d.program.value.fbNumber);
        return;
      }
      if d.assignment.Some? {
        found' := found.(variableAssignments := found.variableAssignments + [d.assignment.value]);
        if program.Some? {
          program' := Some(program.value.(assignments := program.value.assignments + [d.assignment.value]));
        }
        return;
      }
      if d.comment.Some? {
        found' := found.(comments := found.comments + [d.comment.value]);
        return;
      }
      if d.orBlock.IsOrBlock? {
        block' := Some(d.orBlock.orBlock);
        if d.orBlock.completed {
          found' := found.(orBlocks := found.orBlocks + [d.orBlock.orBlock]);
          block' := None;
        }
        return;
      }
      if d.reference.Some? {
        found' := found.(normalizedReferences := found.normalizedReferences + [d.reference.value]);
        return;
      }
      if d.entity.Some? {
        found' := found.(entities := found.entities + [d.entity.value]);
        return;
      }
      if d.condition.Some? {
        found' := found.(compoundConditions := found.compoundConditions + [d.condition.value]);
      }
    }

    /**
     * `buildProgramHierarchy`: each program goes to the main or the sub list,
     * and each reference gives one relationship from the current FB.
     */
    method BuildProgramHierarchy(programs: seq<FbProgram>, references: seq<Reference>) returns (h: Hierarchy)
      ensures h.mainPrograms == Mains(programs) && h.subPrograms == Subs(programs)
      ensures |h.relationships| == |references|
      ensures forall k :: 0 <= k < |references| ==> h.relationships[k] == RelationshipOf(references[k], currentFB)
    {
      var mains, subs := [], [];
      for i := 0 to |programs|
        invariant mains == Mains(programs[..i]) && subs == Subs(programs[..i])
      {
        assert programs[..i + 1][..i] == programs[..i];
        if IsMain(programs[i]) {
          mains := mains + [programs[i]];
        } else {
          subs := subs + [programs[i]];
        }
      }
      assert programs[..|programs|] == programs;
      var relationships := [];
      for i := 0 to |references|
        invariant |relationships| == i
        invariant forall k :: 0 <= k < i ==> relationships[k] == RelationshipOf(references[k], currentFB)
      {
        relationships := relationships + [RelationshipOf(references[i], currentFB)];
      }
      h := Hierarchy(mains, subs, relationships);
    }
  }
}
