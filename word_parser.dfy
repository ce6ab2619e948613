/**
 * The Word-document front end: the IDB name derived from a program title,
 * the line-by-line conversion of a program's text into the listing format
 * the step parser reads, and the walk over a document's headings and
 * paragraphs that cuts it into programs.
 */
module WordParser {
  import opened Wrappers
  import opened Text
  import opened SyntaxRules
  import StandardWork

  // ------------------------------------------------------------------
  // generateIdbName
  // ------------------------------------------------------------------

  const FallbackIdbName: string := "Generated_IDB"

  /** The message of the `TypeError` raised by `w[0].toUpperCase()` on an empty word. */
  const EmptyWordError: string := "Cannot read properties of undefined (reading 'toUpperCase')"

  /** `[\d\.]`: a character of a leading chapter number such as `3.1.2`. */
  predicate IsNumberingChar(c: char) { IsDigit(c) || c == '.' }

  /** The end of the run of numbering characters that starts at `i`. */
  function SkipNumbering(s: string, i: nat): (r: nat)
    requires i <= |s|
    ensures i <= r <= |s|
    ensures forall k :: i <= k < r ==> IsNumberingChar(s[k])
    ensures r < |s| ==> !IsNumberingChar(s[r])
    decreases |s| - i
  {
    if i < |s| && IsNumberingChar(s[i]) then SkipNumbering(s, i + 1) else i
  }

  /** `.replace(/^[\d\.]+\s*\/, '')`: a leading chapter number and the spaces after it removed. */
  function StripNumbering(s: string): (r: string)
    ensures |r| <= |s| && r == s[|s| - |r|..]
    ensures s == [] || !IsNumberingChar(s[0]) ==> r == s
  {
    var n := SkipNumbering(s, 0);
    if n == 0 then s else s[SkipSpaces(s, n)..]
  }

  /** `.replace(/:/g, '_')`. */
  function ReplaceColons(s: string): (r: string)
    ensures |r| == |s|
    ensures forall k :: 0 <= k < |s| ==> r[k] == (if s[k] == ':' then '_' else s[k])
  {
    if s == [] then [] else [if s[0] == ':' then '_' else s[0]] + ReplaceColons(s[1..])
  }

  /** `w[0].toUpperCase() + w.slice(1)` on a non-empty word. */
  function Capitalised(w: string): (r: string)
    requires w != []
    ensures |r| == |w| && r[0] == UpperChar(w[0]) && r[1..] == w[1..]
  {
    [UpperChar(w[0])] + w[1..]
  }

  /**
   * `.map((w, i) => i ? w[0].toUpperCase() + w.slice(1) : w).join('')` on
   * `words`, whose first element has index `i` in the split: every word but
   * the very first is capitalised, and an empty one among them throws.
   */
  function CamelWords(words: seq<string>, i: nat): (r: Result<string>)
    ensures r.Failure? ==> r.error == EmptyWordError
    decreases |words|
  {
    if words == [] then Success([])
    else if i > 0 && words[0] == [] then Failure(EmptyWordError)
    else
      var head := if i == 0 then words[0] else Capitalised(words[0]);
      match CamelWords(words[1..], i + 1)
      case Failure(e) => Failure(e)
      case Success(tail) => Success(head + tail)
  }

  /** `.replace(/[^a-zA-Z0-9_]/g, '')`: the word characters of `s`, in order. */
  function WordCharsOf(s: string): (r: string)
    ensures |r| <= |s|
    ensures forall k :: 0 <= k < |r| ==> IsWordChar(r[k])
    ensures (forall k :: 0 <= k < |s| ==> IsWordChar(s[k])) ==> r == s
  {
    if s == [] then []
    else
      assert s == [s[0]] + s[1..];
      if IsWordChar(s[0]) then [s[0]] + WordCharsOf(s[1..])
      else WordCharsOf(s[1..])
  }

  /** Every word character is kept as often as it occurs. */
  lemma {:induction false} WordCharsOfCounts(s: string)
    ensures forall c :: multiset(WordCharsOf(s))[c] == if IsWordChar(c) then multiset(s)[c] else 0
    decreases |s|
  {
    if s != [] {
      var rest := WordCharsOf(s[1..]);
      WordCharsOfCounts(s[1..]);
      assert s == [s[0]] + s[1..];
      assert multiset(s) == multiset{s[0]} + multiset(s[1..]);
      if IsWordChar(s[0]) {
        assert multiset([s[0]] + rest) == multiset{s[0]} + multiset(rest);
      }
    }
  }

  /** Filtering a concatenation filters each part, so the kept characters stay in input order. */
  lemma {:induction false} WordCharsOfAppend(s: string, t: string)
    ensures WordCharsOf(s + t) == WordCharsOf(s) + WordCharsOf(t)
  {
    if s == [] {
      assert s + t == t;
    } else {
      assert (s + t)[0] == s[0] && (s + t)[1..] == s[1..] + t;
      WordCharsOfAppend(s[1..], t);
    }
  }

  /** The title text `split(' ')` cuts into words: number, outer spaces and colons dealt with. */
  function PreparedName(programName: string): (r: string)
    ensures r == [] || (r[0] != ' ' && r[|r| - 1] != ' ')
  {
    ReplaceColons(Trim(StripNumbering(programName)))
  }

  /**
   * `generateIdbName`: an identifier made from a program title. A title that
   * holds two spaces in a row fails the way the source throws.
   */
  function GenerateIdbName(programName: string): (r: Result<string>)
    ensures r.Success? ==> r.value != [] && forall k :: 0 <= k < |r.value| ==> IsWordChar(r.value[k])
    ensures r.Failure? ==> r.error == EmptyWordError
  {
    if programName == [] then Success(FallbackIdbName)
    else match CamelWords(Split(PreparedName(programName), ' '), 0)
      case Failure(e) => Failure(e)
      case Success(joined) =>
        var cleaned := WordCharsOf(joined);
        Success(if cleaned == [] then FallbackIdbName else cleaned)
  }

  // ------------------------------------------------------------------
  // convertToStandaardwerkFormat
  // ------------------------------------------------------------------

  /**
   * `^KW\s*[:\(]` ignoring case on a trimmed line: where the idle description
   * starts, after the `:` or `(` and the spaces that follow it.
   */
  function RestDescriptionStart(t: string, kw: string): (r: Option<nat>)
    ensures r.Some? ==> AtIgnoreCase(t, 0, kw) && |kw| < r.value <= |t|
  {
    if !AtIgnoreCase(t, 0, kw) then None
    else
      var p := SkipSpaces(t, |kw|);
      if p < |t| && (t[p] == ':' || t[p] == '(') then Some(SkipSpaces(t, p + 1)) else None
  }

  /** The first idle keyword from `j` on, in table order, that starts an idle header. */
  function FirstRestKeyword(t: string, kws: seq<string>, j: nat): (r: Option<nat>)
    requires j <= |kws|
    ensures r.Some? ==> j <= r.value < |kws| && RestDescriptionStart(t, kws[r.value]).Some?
    ensures r.Some? ==> forall m :: j <= m < r.value ==> RestDescriptionStart(t, kws[m]).None?
    ensures r.None? ==> forall m :: j <= m < |kws| ==> RestDescriptionStart(t, kws[m]).None?
    decreases |kws| - j
  {
    if j == |kws| then None
    else if RestDescriptionStart(t, kws[j]).Some? then Some(j)
    else FirstRestKeyword(t, kws, j + 1)
  }

  /** The digits of a step header and where the text matched by `^KW\s+(\d+)\s*[:\s]` ends. */
  datatype StepMatch = StepMatch(digits: string, end: nat)

  /**
   * `^KW\s+(\d+)\s*[:\s]` ignoring case on a trimmed line: the keyword, at
   * least one space, the step number, then a `:` after optional spaces, or
   * at least one space.
   */
  function StepHeaderMatch(t: string, kw: string): (r: Option<StepMatch>)
    ensures r.Some? ==> AtIgnoreCase(t, 0, kw) && |kw| < r.value.end <= |t|
    ensures r.Some? ==> r.value.digits != [] && AllDigits(r.value.digits)
  {
    if !AtIgnoreCase(t, 0, kw) then None
    else
      var s := SkipSpaces(t, |kw|);
      var q := SkipDigits(t, s);
      var p := SkipSpaces(t, q);
      if s == |kw| || q == s then None
      else if p < |t| && t[p] == ':' then Some(StepMatch(t[s..q], p + 1))
      else if p > q then Some(StepMatch(t[s..q], p))
      else None
  }

  /** The first step keyword from `j` on, in table order, that starts a step header. */
  function FirstStepKeyword(t: string, kws: seq<string>, j: nat): (r: Option<nat>)
    requires j <= |kws|
    ensures r.Some? ==> j <= r.value < |kws| && StepHeaderMatch(t, kws[r.value]).Some?
    ensures r.Some? ==> forall m :: j <= m < r.value ==> StepHeaderMatch(t, kws[m]).None?
    ensures r.None? ==> forall m :: j <= m < |kws| ==> StepHeaderMatch(t, kws[m]).None?
    decreases |kws| - j
  {
    if j == |kws| then None
    else if StepHeaderMatch(t, kws[j]).Some? then Some(j)
    else FirstStepKeyword(t, kws, j + 1)
  }

  /** `KW: desc` for an idle header, keyword upper-cased and one closing parenthesis dropped. */
  function RestLine(t: string, kw: string): string
    requires RestDescriptionStart(t, kw).Some?
  {
    Upper(kw) + ": " + StandardWork.DropClosingParenthesis(t[RestDescriptionStart(t, kw).value..])
  }

  /** `KW n: desc` for a step header, keyword upper-cased and description trimmed. */
  function StepLine(t: string, kw: string): string
    requires StepHeaderMatch(t, kw).Some?
  {
    var m := StepHeaderMatch(t, kw).value;
    Upper(kw) + " " + m.digits + ": " + Trim(t[m.end..])
  }

  /**
   * One line as `convertToStandaardwerkFormat` writes it: blank lines become
   * empty, idle headers are tried before step headers, and any other line is
   * kept as it was, indentation included.
   */
  function ConvertLine(line: string, keywords: StepKeywords): string
  {
    var t := Trim(line);
    if t == [] then []
    else match FirstRestKeyword(t, keywords.rest, 0)
      case Some(k) => RestLine(t, keywords.rest[k])
      case None =>
        match FirstStepKeyword(t, keywords.step, 0)
        case Some(k) => StepLine(t, keywords.step[k])
        case None => line
  }

  /** The lines of a program text, each converted on its own. */
  function ConvertLines(lines: seq<string>, keywords: StepKeywords): (r: seq<string>)
    ensures |r| == |lines|
    ensures forall k :: 0 <= k < |lines| ==> r[k] == ConvertLine(lines[k], keywords)
  {
    if lines == [] then [] else ConvertLines(lines[..|lines| - 1], keywords) + [ConvertLine(lines[|lines| - 1], keywords)]
  }

  /** One more line converted. */
  lemma ConvertLinesStep(lines: seq<string>, i: nat, converted: string, keywords: StepKeywords)
    requires i < |lines| && converted == ConvertLine(lines[i], keywords)
    ensures ConvertLines(lines[..i + 1], keywords) == ConvertLines(lines[..i], keywords) + [converted]
  {
    assert lines[..i + 1][..i] == lines[..i];
  }

  /** The converted lines of a program text, one for each line of it. */
  function ConvertedLines(rawContent: string, keywords: StepKeywords): (r: seq<string>)
    ensures |r| == |SplitLines(rawContent)|
  {
    ConvertLines(SplitLines(rawContent), keywords)
  }

  /** The converted text: the converted lines joined by newlines. */
  function ConvertedText(rawContent: string, keywords: StepKeywords): string
  {
    Join(ConvertedLines(rawContent, keywords), '\n')
  }

  /** `convertToStandaardwerkFormat`: each line of `rawContent` converted, in order. */
  method ConvertToStandaardwerkFormat(rawContent: string, keywords: StepKeywords) returns (result: string)
    ensures result == ConvertedText(rawContent, keywords)
  {
    var lines := SplitLines(rawContent);
    var outputLines: seq<string> := [];
    for i := 0 to |lines|
      invariant outputLines == ConvertLines(lines[..i], keywords)
    {
      var converted := ConvertNextLine(lines[i], keywords);
      ConvertLinesStep(lines, i, converted, keywords);
      outputLines := outputLines + [converted];
    }
    assert lines[..|lines|] == lines;
    result := Join(outputLines, '\n');
  }

  /** The body of the line loop: the idle keywords tried first, then the step keywords. */
  method ConvertNextLine(line: string, keywords: StepKeywords) returns (converted: string)
    ensures converted == ConvertLine(line, keywords)
  {
    var trimmedLine := Trim(line);
    if trimmedLine == [] {
      return [];
    }
    var rest := FindRestKeyword(trimmedLine, keywords.rest);
    if rest.Some? {
      return RestLine(trimmedLine, keywords.rest[rest.value]);
    }
    var step := FindStepKeyword(trimmedLine, keywords.step);
    if step.Some? {
      return StepLine(trimmedLine, keywords.step[step.value]);
    }
    return line;
  }

  /** The loop over the idle keywords, left at the first that starts an idle header. */
  method FindRestKeyword(trimmedLine: string, kws: seq<string>) returns (found: Option<nat>)
    ensures found == FirstRestKeyword(trimmedLine, kws, 0)
  {
    for j := 0 to |kws|
      invariant forall m :: 0 <= m < j ==> RestDescriptionStart(trimmedLine, kws[m]).None?
    {
      if RestDescriptionStart(trimmedLine, kws[j]).Some? {
        return Some(j);
      }
    }
    return None;
  }

  /** The loop over the step keywords, left at the first that starts a step header. */
  method FindStepKeyword(trimmedLine: string, kws: seq<string>) returns (found: Option<nat>)
    ensures found == FirstStepKeyword(trimmedLine, kws, 0)
  {
    for j := 0 to |kws|
      invariant forall m :: 0 <= m < j ==> StepHeaderMatch(trimmedLine, kws[m]).None?
    {
      if StepHeaderMatch(trimmedLine, kws[j]).Some? {
        FirstStepKeywordIs(trimmedLine, kws, j);
        return Some(j);
      }
    }
    return None;
  }

  /** The keyword the search stops at is the first that starts a step header. */
  lemma FirstStepKeywordIs(t: string, kws: seq<string>, j: nat)
    requires j < |kws| && StepHeaderMatch(t, kws[j]).Some?
    requires forall m :: 0 <= m < j ==> StepHeaderMatch(t, kws[m]).None?
    ensures FirstStepKeyword(t, kws, 0) == Some(j)
  {
  }

  // ------------------------------------------------------------------
  // The walk over the document's blocks
  // ------------------------------------------------------------------

  /** The kind of a block the HTML conversion yields: a heading `h1`..`h6` or a paragraph `p`. */
  datatype BlockKind = Heading(level: nat) | Paragraph

  /** A heading or paragraph with its text, as the document walk receives it. */
  datatype Block = Block(kind: BlockKind, content: string)

  /** What the program-title pattern captures: the trimmed name, `FB` or `FC`, and the block number. */
  datatype ProgramTitle = ProgramTitle(name: string, blockType: string, number: nat)

  /** `\s+(FB|FC)(\d+)` at `i`, ignoring case, with the text before `i` as the name. */
  function TitleAt(t: string, i: nat): (r: Option<ProgramTitle>)
    requires i <= |t|
    ensures r.Some? ==> (r.value.blockType == "FB" || r.value.blockType == "FC") && IsTrimmed(r.value.name)
  {
    var p := SkipSpaces(t, i);
    if p == i || p + 2 >= |t| then None
    else if LowerChar(t[p]) == 'f' && (LowerChar(t[p + 1]) == 'b' || LowerChar(t[p + 1]) == 'c') && IsDigit(t[p + 2]) then
      var q := SkipDigits(t, p + 2);
      Some(ProgramTitle(Trim(t[..i]), if LowerChar(t[p + 1]) == 'b' then "FB" else "FC", DigitsValue(t[p + 2..q])))
    else None
  }

  /**
   * The lazy `^(.*?)` of the title pattern: the first name end from `i` on
   * that a title follows, the name staying on the first line.
   */
  function TitleFrom(t: string, i: nat): (r: Option<ProgramTitle>)
    requires i <= |t|
    ensures r.Some? ==> (r.value.blockType == "FB" || r.value.blockType == "FC") && IsTrimmed(r.value.name)
    decreases |t| - i
  {
    match TitleAt(t, i)
    case Some(m) => Some(m)
    case None => if i < |t| && !IsLineTerminator(t[i]) then TitleFrom(t, i + 1) else None
  }

  /** `PROGRAM_TITLE_REGEX`, `/^(.*?)\s+(FB|FC)(\d+)/i`. */
  function MatchProgramTitle(t: string): (r: Option<ProgramTitle>)
    ensures r.Some? ==> (r.value.blockType == "FB" || r.value.blockType == "FC") && IsTrimmed(r.value.name)
  {
    TitleFrom(t, 0)
  }

  /** The end of what `.*` matches from `i`: the next line terminator or the end. */
  function LineEnd(t: string, i: nat): (r: nat)
    requires i <= |t|
    ensures i <= r <= |t| && NoLineTerminator(t[i..r])
    ensures r < |t| ==> IsLineTerminator(t[r])
    decreases |t| - i
  {
    if i < |t| && !IsLineTerminator(t[i]) then LineEnd(t, i + 1) else i
  }

  /** `Symbolik\s+IDB\s*:\s*(.*)` at `i`, ignoring case: the trimmed text after the colon. */
  function IdbAt(t: string, i: nat): (r: Option<string>)
    requires i <= |t|
    ensures r.Some? ==> IsTrimmed(r.value)
  {
    if !AtIgnoreCase(t, i, "symbolik") then None
    else
      var p := SkipSpaces(t, i + 8);
      if p == i + 8 || !AtIgnoreCase(t, p, "idb") then None
      else
        var c := SkipSpaces(t, p + 3);
        if c < |t| && t[c] == ':' then
          var v := SkipSpaces(t, c + 1);
          Some(Trim(t[v..LineEnd(t, v)]))
        else None
  }

  /** The leftmost match from `i` on of the unanchored IDB pattern. */
  function IdbFrom(t: string, i: nat): (r: Option<string>)
    requires i <= |t|
    ensures r.Some? ==> IsTrimmed(r.value)
    decreases |t| - i
  {
    match IdbAt(t, i)
    case Some(v) => Some(v)
    case None => if i < |t| then IdbFrom(t, i + 1) else None
  }

  /** `SYMBOLIK_IDB_REGEX`, `/Symbolik\s+IDB\s*:\s*(.*)/i`, with its group trimmed. */
  function MatchSymbolikIdb(t: string): (r: Option<string>)
    ensures r.Some? ==> IsTrimmed(r.value)
  {
    IdbFrom(t, 0)
  }

  /** `\s+IDB` at `i`, ignoring case. */
  predicate SpacedIdbAt(t: string, i: nat)
    requires i <= |t|
  {
    var p := SkipSpaces(t, i);
    p > i && AtIgnoreCase(t, p, "idb")
  }

  /** `/^(Symbool|Symbolik)\s+IDB/i`: the other spellings of an IDB line. */
  predicate IsIdbVariant(t: string)
  {
    (AtIgnoreCase(t, 0, "symbool") && SpacedIdbAt(t, 7)) || (AtIgnoreCase(t, 0, "symbolik") && SpacedIdbAt(t, 8))
  }

  /** A program being read: where it sits in the document, its title and its IDB name so far. */
  datatype ProgramHeader = ProgramHeader(
    path: seq<string>, fullTitle: string, name: string, blockType: string, fbNumber: nat, idbName: Option<string>)

  /** The analysis of a saved program: its converted text, or the message of the exception it raised. */
  datatype Outcome = Analysed(processedContent: string) | AnalysisFailed(message: string)

  /** A program as `saveCurrentProgram` pushes it to `result.programs`. */
  datatype SavedProgram = SavedProgram(header: ProgramHeader, rawContent: string, outcome: Outcome)

  /** An entry of `result.warnings`. */
  datatype Warning = DuplicateNumber(number: nat, name: string) | AnalysisError(name: string, message: string)

  /** The text of a warning. */
  function WarningText(w: Warning): string
  {
    match w
    case DuplicateNumber(n, name) => "Dubbel FB/FC nummer " + NatToString(n) + " bij \"" + name + "\""
    case AnalysisError(name, message) => "Analysefout in \"" + name + "\": " + message
  }

  /** The IDB name a saved program gets: the one read from the document, or one made from its name. */
  function ResolvedIdbName(h: ProgramHeader): Result<string>
  {
    if h.idbName.Some? && h.idbName.value != [] then Success(h.idbName.value) else GenerateIdbName(h.name)
  }

  /** The walk's variables: the closure state of the source's loop and its `result`. */
  datatype WalkState = WalkState(
    started: bool, collecting: bool, buffer: seq<string>, current: Option<ProgramHeader>,
    path: seq<Option<string>>, seen: set<nat>, programs: seq<SavedProgram>, warnings: seq<Warning>)

  /** The six heading levels the folder path records. */
  const PathLevels: nat := 6

  const InitialWalk: WalkState :=
    WalkState(false, false, [], None, [None, None, None, None, None, None], {}, [], [])

  /**
   * The program `saveCurrentProgram` records for the open program `h` with
   * the text `rawContent`: with its IDB name and converted text, or, when
   * making the IDB name throws, with the exception and a warning.
   */
  function Saved(h: ProgramHeader, rawContent: string, keywords: StepKeywords): (SavedProgram, seq<Warning>)
  {
    match ResolvedIdbName(h)
    case Success(idb) =>
      (SavedProgram(h.(idbName := Some(idb)), Trim(rawContent), Analysed(ConvertedText(rawContent, keywords))), [])
    case Failure(e) =>
      (SavedProgram(h, rawContent, AnalysisFailed(e)), [AnalysisError(h.name, e)])
  }

  /** `saveCurrentProgram`: the open program, if any, recorded, and none open any more. */
  function Saving(st: WalkState, rawContent: string, keywords: StepKeywords): WalkState
  {
    if st.current.None? then st
    else
      var saved := Saved(st.current.value, rawContent, keywords);
      st.(programs := st.programs + [saved.0], warnings := st.warnings + saved.1, current := None)
  }

  /** The open program saved with its buffered lines, if it has any. */
  function Flush(st: WalkState, keywords: StepKeywords): WalkState
  {
    if st.current.Some? && st.buffer != [] then Saving(st, Join(st.buffer, '\n'), keywords) else st
  }

  /** `path` with every level from `from` on emptied. */
  function Cleared(path: seq<Option<string>>, from: int): (r: seq<Option<string>>)
    ensures |r| == |path|
  {
    seq(|path|, j requires 0 <= j < |path| => if j >= from then None else path[j])
  }

  /** `filter(p => p)`: the levels that hold a non-empty name. */
  function Present(path: seq<Option<string>>): (r: seq<string>)
    ensures |r| <= |path|
    ensures forall k :: 0 <= k < |r| ==> r[k] != []
    ensures forall x :: x in r <==> x != [] && Some(x) in path
  {
    if path == [] then []
    else
      assert path == [path[0]] + path[1..];
      (if path[0].Some? && path[0].value != [] then [path[0].value] else []) + Present(path[1..])
  }

  /** Filtering a concatenation filters each part, so the kept names stay in level order. */
  lemma {:induction false} PresentAppend(p: seq<Option<string>>, q: seq<Option<string>>)
    ensures Present(p + q) == Present(p) + Present(q)
  {
    if p == [] {
      assert p + q == q;
    } else {
      assert (p + q)[0] == p[0] && (p + q)[1..] == p[1..] + q;
      PresentAppend(p[1..], q);
    }
  }

  /** A block with the patterns the walk tries on it already applied. */
  datatype BlockReading = BlockReading(
    kind: BlockKind, content: string, title: Option<ProgramTitle>, idb: Option<string>, idbVariant: bool)

  function ReadingOf(b: Block): BlockReading
  {
    BlockReading(b.kind, b.content, MatchProgramTitle(b.content), MatchSymbolikIdb(b.content), IsIdbVariant(b.content))
  }

  function Readings(blocks: seq<Block>): (r: seq<BlockReading>)
    ensures |r| == |blocks|
  {
    if blocks == [] then [] else Readings(blocks[..|blocks| - 1]) + [ReadingOf(blocks[|blocks| - 1])]
  }

  /** Block `i` is read on its own. */
  lemma {:induction false} ReadingAt(blocks: seq<Block>, i: nat)
    requires i < |blocks|
    ensures Readings(blocks)[i] == ReadingOf(blocks[i])
  {
    if i < |blocks| - 1 {
      ReadingAt(blocks[..|blocks| - 1], i);
    }
  }

  /**
   * A program title: the open program is saved if it has text, and a new one
   * is opened with the path of the levels up to the title's own, an empty
   * buffer and a warning when its number was seen before.
   */
  function OpenProgram(st: WalkState, kind: BlockKind, content: string, m: ProgramTitle, keywords: StepKeywords): WalkState
  {
    Opened(Flush(st, keywords), st.path, st.seen, kind, content, m)
  }

  /**
   * The new program opened on top of `flushed`, the state the flush left;
   * `path` and `seen` are the ones read before the flush.
   */
  function Opened(flushed: WalkState, path: seq<Option<string>>, seen: set<nat>,
                  kind: BlockKind, content: string, m: ProgramTitle): WalkState
  {
    var lvl: int := if kind.Heading? then kind.level - 1 else -1;
    var pathCopy := if lvl >= 0 then Cleared(path, lvl + 1) else path;
    var header := ProgramHeader(Present(pathCopy), content, m.name, m.blockType, m.number, None);
    flushed.(current := Some(header), buffer := [], collecting := true,
             warnings := flushed.warnings + (if m.number in seen then [DuplicateNumber(m.number, m.name)] else []),
             seen := seen + {m.number})
  }

  /** A paragraph of a program: an IDB line names the program, any other line is buffered. */
  function Collect(st: WalkState, content: string, idb: Option<string>, idbVariant: bool): WalkState
  {
    if idb.Some? && st.current.Some? then st.(current := Some(st.current.value.(idbName := idb)))
    else if idbVariant then st
    else if '\n' in content then st.(buffer := st.buffer + Split(content, '\n'))
    else st.(buffer := st.buffer + [content])
  }

  /** A heading at `level` names its level of the path, up to its first tab, and empties the levels below. */
  function UpdatePath(st: WalkState, level: nat, content: string): WalkState
  {
    var lvl := level - 1;
    if 0 <= lvl < |st.path| then st.(path := Cleared(st.path[lvl := Some(Split(content, '\t')[0])], lvl + 1)) else st
  }

  /** One block of the walk. Nothing happens before the first heading. */
  function Apply(st: WalkState, rd: BlockReading, keywords: StepKeywords): WalkState
  {
    if !st.started && !rd.kind.Heading? then st
    else
      var st1 := st.(started := true);
      var st2 :=
        match rd.title
        case Some(m) => OpenProgram(st1, rd.kind, rd.content, m, keywords)
        case None => if st1.collecting && rd.kind.Paragraph? then Collect(st1, rd.content, rd.idb, rd.idbVariant) else st1;
      if rd.kind.Heading? then UpdatePath(st2, rd.kind.level, rd.content) else st2
  }

  /** The walk over the first `n` blocks. */
  function WalkRun(rs: seq<BlockReading>, n: nat, keywords: StepKeywords): WalkState
    requires n <= |rs|
    decreases n, 1
  {
    if n == 0 then InitialWalk else WalkBlock(rs, n - 1, keywords)
  }

  /** The walk up to and including block `index`. */
  function WalkBlock(rs: seq<BlockReading>, index: nat, keywords: StepKeywords): WalkState
    requires index < |rs|
    decreases index + 1, 0
  {
    Apply(WalkRun(rs, index, keywords), rs[index], keywords)
  }

  /** The walk over the whole document, the last program saved if it has text. */
  function Segmentation(blocks: seq<Block>, keywords: StepKeywords): WalkState
  {
    Flush(WalkRun(Readings(blocks), |blocks|, keywords), keywords)
  }

  /** The `try` block of `saveCurrentProgram`: the program as recorded, and the warning when it throws. */
  method AnalyseProgram(h: ProgramHeader, rawContent: string, keywords: StepKeywords)
    returns (saved: SavedProgram, warning: seq<Warning>)
    ensures (saved, warning) == Saved(h, rawContent, keywords)
  {
    var standardwerkContent := ConvertToStandaardwerkFormat(rawContent, keywords);
    var idbName := ResolvedIdbName(h);
    if idbName.Success? {
      saved, warning := SavedProgram(h.(idbName := Some(idbName.value)), Trim(rawContent), Analysed(standardwerkContent)), [];
    } else {
      saved, warning := SavedProgram(h, rawContent, AnalysisFailed(idbName.error)), [AnalysisError(h.name, idbName.error)];
    }
  }

  /** The path loops: every level from `from` on set to null. */
  method ClearFrom(path: seq<Option<string>>, from: int) returns (r: seq<Option<string>>)
    ensures r == Cleared(path, from)
  {
    r := path;
    var i := if from < 0 then 0 else from;
    while i < |r|
      invariant |r| == |path|
      invariant forall j :: 0 <= j < |r| ==> r[j] == (if j >= from && j < i then None else path[j])
    {
      r := r[i := None];
      i := i + 1;
    }
  }

  /**
   * The closure state of the source's document walk: the `result` it
   * fills, the numbers seen, the open program, the heading path and the
   * content buffer.
   */
  class WordDocumentParser {
    const keywords: StepKeywords
    var programs: seq<SavedProgram>
    var warnings: seq<Warning>
    var seenFbNumbers: set<nat>
    var currentProgram: Option<ProgramHeader>
    var currentPath: seq<Option<string>>
    var started: bool
    var collectingContent: bool
    var contentBuffer: seq<string>

    function State(): WalkState
      reads this
    {
      WalkState(started, collectingContent, contentBuffer, currentProgram, currentPath, seenFbNumbers, programs, warnings)
    }

    constructor(keywords: StepKeywords)
      ensures this.keywords == keywords && State() == InitialWalk
    {
      this.keywords := keywords;
      programs := [];
      warnings := [];
      seenFbNumbers := {};
      currentProgram := None;
      currentPath := [None, None, None, None, None, None];
      started := false;
      collectingContent := false;
      contentBuffer := [];
    }

    /** `saveCurrentProgram`, the program's text being `rawContent`. */
    method SaveCurrentProgram(rawContent: string)
      modifies this
      ensures State() == Saving(old(State()), rawContent, keywords)
    {
      if currentProgram.None? {
        return;
      }
      var saved, warning := AnalyseProgram(currentProgram.value, rawContent, keywords);
      warnings := warnings + warning;
      programs := programs + [saved];
      currentProgram := None;
    }

    /** The body of the walk's loop, for one block. */
    method ReadBlock(item: Block)
      modifies this
      ensures State() == Apply(old(State()), ReadingOf(item), keywords)
    {
      if !started && item.kind.Heading? {
        started := true;
      }
      if !started {
        return;
      }
      var txt := item.content;
      var programMatch := MatchProgramTitle(txt);
      if programMatch.Some? {
        StartProgram(item.kind, txt, programMatch.value);
      } else if collectingContent && item.kind.Paragraph? {
        CollectParagraph(txt);
      }
      if item.kind.Heading? {
        UpdateCurrentPath(item.kind.level, txt);
      }
    }

    /** A program title: the open program saved if it has text, and the new one opened. */
    method StartProgram(kind: BlockKind, txt: string, m: ProgramTitle)
      modifies this
      ensures State() == OpenProgram(old(State()), kind, txt, m, keywords)
    {
      var seen := seenFbNumbers;
      var path := currentPath;
      SaveLast();
      OpenAfterFlush(path, seen, kind, txt, m);
    }

    /** The second half of a program title: the new program opened from the `path` and `seen` read before the flush. */
    method OpenAfterFlush(path: seq<Option<string>>, seen: set<nat>, kind: BlockKind, txt: string, m: ProgramTitle)
      modifies this
      ensures State() == Opened(old(State()), path, seen, kind, txt, m)
    {
      var lvl: int := if kind.Heading? then kind.level - 1 else -1;
      var pathCopy := path;
      if lvl >= 0 {
        pathCopy := ClearFrom(pathCopy, lvl + 1);
      }
      currentProgram := Some(ProgramHeader(Present(pathCopy), txt, m.name, m.blockType, m.number, None));
      contentBuffer := [];
      collectingContent := true;
      if m.number in seen {
        warnings := warnings + [DuplicateNumber(m.number, m.name)];
      }
      seenFbNumbers := seen + {m.number};
    }

    /** A paragraph of the open program. */
    method CollectParagraph(rawText: string)
      modifies this
      ensures State() == Collect(old(State()), rawText, MatchSymbolikIdb(rawText), IsIdbVariant(rawText))
    {
      var idbMatch := MatchSymbolikIdb(rawText);
      if idbMatch.Some? && currentProgram.Some? {
        currentProgram := Some(currentProgram.value.(idbName := idbMatch));
        return;
      }
      if IsIdbVariant(rawText) {
        return;
      }
      if '\n' in rawText {
        contentBuffer := contentBuffer + Split(rawText, '\n');
      } else {
        contentBuffer := contentBuffer + [rawText];
      }
    }

    /** A heading at `level`: its level of the path set, the levels below emptied. */
    method UpdateCurrentPath(level: nat, txt: string)
      modifies this
      ensures State() == UpdatePath(old(State()), level, txt)
    {
      var lvl: int := level - 1;
      if 0 <= lvl < |currentPath| {
        currentPath := currentPath[lvl := Some(Split(txt, '\t')[0])];
        currentPath := ClearFrom(currentPath, lvl + 1);
      }
    }

    /** One turn of the loop over the blocks, `rs` being the readings of the whole document. */
    method ReadNextBlock(item: Block, ghost rs: seq<BlockReading>, i: nat)
      requires i < |rs| && rs[i] == ReadingOf(item)
      requires State() == WalkRun(rs, i, keywords)
      modifies this
      ensures State() == WalkRun(rs, i + 1, keywords)
    {
      ReadBlock(item);
    }

    /** After the loop: the last program saved if it has text. */
    method SaveLast()
      modifies this
      ensures State() == Flush(old(State()), keywords)
    {
      if currentProgram.Some? && |contentBuffer| > 0 {
        SaveCurrentProgram(Join(contentBuffer, '\n'));
      }
    }
  }

  /**
   * The block walk of `parseWordDocument`: the programs it records and the
   * warnings it raises for the document's headings and paragraphs.
   */
  method ParseWordDocument(structured: seq<Block>, keywords: StepKeywords)
    returns (programs: seq<SavedProgram>, warnings: seq<Warning>)
    ensures programs == Segmentation(structured, keywords).programs
    ensures warnings == Segmentation(structured, keywords).warnings
  {
    var parser := new WordDocumentParser(keywords);
    ghost var rs := Readings(structured);
    for i := 0 to |structured|
      invariant parser.State() == WalkRun(rs, i, keywords)
    {
      ReadingAt(structured, i);
      parser.ReadNextBlock(structured[i], rs, i);
    }
    ghost var walked := parser.State();
    parser.SaveLast();
    programs, warnings := parser.programs, parser.warnings;
    SegmentationOf(structured, keywords, walked, parser.State());
  }

  lemma SegmentationOf(blocks: seq<Block>, keywords: StepKeywords, walked: WalkState, final: WalkState)
    requires walked == WalkRun(Readings(blocks), |blocks|, keywords)
    requires final == Flush(walked, keywords)
    ensures final == Segmentation(blocks, keywords)
  {
  }
}
