/**
 * What the advanced line classifier promises: one program per header line
 * and the current FB taken from the last of them, OR-blocks that close after
 * their items, the open program's assignments tracked in order, patterns
 * that read back what they describe, and a hierarchy that splits the
 * programs into main and sub.
 */
module AdvancedFacts {
  import opened Wrappers
  import opened Text
  import opened SyntaxRules
  import opened Advanced
  import StandardWork

  // ------------------------------------------------------------------
  // The first hit
  // ------------------------------------------------------------------

  /** A line is a header line exactly when the program-header pattern matches it. */
  predicate IsHeader(line: string, index: nat) {
    Trim(line) != [] && DetectFBProgram(Trim(line), index + 1).Some?
  }

  /** The header detection wins whenever it matches; nothing else reads as a header. */
  lemma FirstHitProgram(d: Detections)
    ensures FirstHit(d).ProgramLine? <==> d.program.Some?
    ensures d.program.Some? ==> FirstHit(d) == ProgramLine(d.program.value)
  {
  }

  /** An OR-block reading is the OR-block detection itself. */
  lemma FirstHitOrBlock(d: Detections)
    ensures FirstHit(d).OrBlockLine? ==> d.orBlock == IsOrBlock(FirstHit(d).orBlock, FirstHit(d).completed)
  {
  }

  /** A header line is always read as a header, whatever else it matches; no other line is. */
  lemma KindOfHeader(line: string, index: nat, open: Option<OrBlock>, fb: Option<string>)
    ensures KindOf(line, index + 1, open, fb).ProgramLine? <==> IsHeader(line, index)
    ensures IsHeader(line, index) ==>
      KindOf(line, index + 1, open, fb) == ProgramLine(DetectFBProgram(Trim(line), index + 1).value)
  {
    var t := Trim(line);
    if t != [] {
      var d := Detect(t, index + 1, open, fb);
      assert KindOf(line, index + 1, open, fb) == FirstHit(d);
      assert d.program == DetectFBProgram(t, index + 1);
      FirstHitProgram(d);
    }
  }

  /** An OR-block line is read as what the OR-block pattern makes of it with the block open before it. */
  lemma KindOfOrBlock(line: string, index: nat, open: Option<OrBlock>, fb: Option<string>)
    ensures var k := KindOf(line, index + 1, open, fb);
      k.OrBlockLine? ==> IsOrBlock(k.orBlock, k.completed) == DetectOrBlock(Trim(line), index + 1, open)
  {
    var t := Trim(line);
    if t != [] {
      var d := Detect(t, index + 1, open, fb);
      assert KindOf(line, index + 1, open, fb) == FirstHit(d);
      assert d.orBlock == DetectOrBlock(t, index + 1, open);
      FirstHitOrBlock(d);
    }
  }

  // ------------------------------------------------------------------
  // Programs and the current FB
  // ------------------------------------------------------------------

  /** The number of header lines among the first `n`. */
  function HeaderCount(lines: seq<string>, n: nat): nat
    requires n <= |lines|
  {
    if n == 0 then 0 else HeaderCount(lines, n - 1) + (if IsHeader(lines[n - 1], n - 1) then 1 else 0)
  }

  /** The open program, counted as one. */
  function OpenCount(st: Walk): nat {
    if st.currentProgram.Some? then 1 else 0
  }

  /** A header line flushes the open program and opens its own; no other line touches the programs. */
  lemma ApplyPrograms(st: Walk, k: LineKind)
    ensures var next := Apply(st, k);
      |next.found.programs| + OpenCount(next) == |st.found.programs| + OpenCount(st) + (if k.ProgramLine? then 1 else 0)
  {
  }

  lemma StepPrograms(st: Walk, line: string, index: nat)
    ensures var next := Step(st, line, index);
      |next.found.programs| + OpenCount(next) == |st.found.programs| + OpenCount(st) + (if IsHeader(line, index) then 1 else 0)
  {
    KindOfHeader(line, index, st.currentOrBlock, st.currentFB);
    ApplyPrograms(st, KindOf(line, index + 1, st.currentOrBlock, st.currentFB));
  }

  /** Programs pushed plus the open one, against the header lines among the first `n`. */
  predicate ProgramsMatchHeaders(lines: seq<string>, n: nat, start: Walk)
    requires n <= |lines|
  {
    var st := WalkRun(lines, n, start);
    |st.found.programs| + OpenCount(st) == |start.found.programs| + OpenCount(start) + HeaderCount(lines, n)
  }

  lemma NextLinePrograms(lines: seq<string>, n: nat, start: Walk)
    requires 0 < n <= |lines| && ProgramsMatchHeaders(lines, n - 1, start)
    ensures ProgramsMatchHeaders(lines, n, start)
  {
    StepPrograms(WalkRun(lines, n - 1, start), lines[n - 1], n - 1);
  }

  lemma {:induction false} WalkRunPrograms(lines: seq<string>, n: nat, start: Walk)
    requires n <= |lines|
    ensures ProgramsMatchHeaders(lines, n, start)
  {
    if n > 0 {
      WalkRunPrograms(lines, n - 1, start);
      NextLinePrograms(lines, n, start);
    }
  }

  /** `enhanceWithAdvancedParsing` returns one program per header line of the text. */
  lemma ProgramsCounted(text: string, fb: Option<string>)
    ensures var lines := Split(text, '\n');
      |Finished(Walked(text, fb)).programs| == HeaderCount(lines, |lines|)
  {
    var lines := Split(text, '\n');
    WalkRunPrograms(lines, |lines|, Walk(NothingCollected, None, None, fb));
    assert ProgramsMatchHeaders(lines, |lines|, Walk(NothingCollected, None, None, fb));
  }

  /** The FB number of the last header line among the first `n`, or `fb` when there is none. */
  function LastFB(lines: seq<string>, n: nat, fb: Option<string>): Option<string>
    requires n <= |lines|
  {
    if n == 0 then fb
    else if IsHeader(lines[n - 1], n - 1) then Some(DetectFBProgram(Trim(lines[n - 1]), n).value.fbNumber)
    else LastFB(lines, n - 1, fb)
  }

  lemma ApplyFB(st: Walk, k: LineKind)
    ensures Apply(st, k).currentFB == if k.ProgramLine? then Some(k.program.fbNumber) else st.currentFB
  {
  }

  /** Only a header line changes the current FB, to its own FB number. */
  lemma StepFB(st: Walk, line: string, index: nat)
    ensures Step(st, line, index).currentFB
         == if IsHeader(line, index) then Some(DetectFBProgram(Trim(line), index + 1).value.fbNumber) else st.currentFB
  {
    KindOfHeader(line, index, st.currentOrBlock, st.currentFB);
    ApplyFB(st, KindOf(line, index + 1, st.currentOrBlock, st.currentFB));
  }

  predicate FBIsLastHeader(lines: seq<string>, n: nat, start: Walk)
    requires n <= |lines|
  {
    WalkRun(lines, n, start).currentFB == LastFB(lines, n, start.currentFB)
  }

  lemma NextLineFB(lines: seq<string>, n: nat, start: Walk)
    requires 0 < n <= |lines| && FBIsLastHeader(lines, n - 1, start)
    ensures FBIsLastHeader(lines, n, start)
  {
    StepFB(WalkRun(lines, n - 1, start), lines[n - 1], n - 1);
  }

  lemma {:induction false} WalkRunFB(lines: seq<string>, n: nat, start: Walk)
    requires n <= |lines|
    ensures FBIsLastHeader(lines, n, start)
  {
    if n > 0 {
      WalkRunFB(lines, n - 1, start);
      NextLineFB(lines, n, start);
    }
  }

  /**
   * After a call the current FB is that of the text's last header line; a
   * text without one leaves the FB an earlier call set.
   */
  lemma CurrentFBIsLastHeader(text: string, fb: Option<string>)
    ensures var lines := Split(text, '\n');
      Walked(text, fb).currentFB == LastFB(lines, |lines|, fb)
  {
    var lines := Split(text, '\n');
    WalkRunFB(lines, |lines|, Walk(NothingCollected, None, None, fb));
    assert FBIsLastHeader(lines, |lines|, Walk(NothingCollected, None, None, fb));
  }

  // ------------------------------------------------------------------
  // The open program's assignments
  // ------------------------------------------------------------------

  predicate IsSuffix(a: seq<Assignment>, b: seq<Assignment>) {
    |a| <= |b| && b[|b| - |a|..] == a
  }

  /** The open program's assignments are the last ones recorded, in order. */
  predicate AssignmentsTracked(st: Walk) {
    st.currentProgram.Some? ==> IsSuffix(st.currentProgram.value.assignments, st.found.variableAssignments)
  }

  /** A header opens a program with no assignments. */
  lemma HeaderHasNoAssignments(t: string, n: nat)
    ensures DetectFBProgram(t, n).Some? ==> DetectFBProgram(t, n).value.assignments == []
  {
  }

  lemma ApplyTracked(st: Walk, k: LineKind)
    requires AssignmentsTracked(st)
    requires k.ProgramLine? ==> k.program.assignments == []
    ensures AssignmentsTracked(Apply(st, k))
  {
    if k.AssignmentLine? && st.currentProgram.Some? {
      var a := st.currentProgram.value.assignments;
      var b := st.found.variableAssignments;
      assert (b + [k.assignment])[|b + [k.assignment]| - |a + [k.assignment]|..] == b[|b| - |a|..] + [k.assignment];
    }
  }

  /** One more line keeps the open program's assignments tracked. */
  lemma StepTracked(st: Walk, line: string, index: nat)
    requires AssignmentsTracked(st)
    ensures AssignmentsTracked(Step(st, line, index))
  {
    KindOfHeader(line, index, st.currentOrBlock, st.currentFB);
    HeaderHasNoAssignments(Trim(line), index + 1);
    ApplyTracked(st, KindOf(line, index + 1, st.currentOrBlock, st.currentFB));
  }

  predicate TrackedAfter(lines: seq<string>, n: nat, start: Walk)
    requires n <= |lines|
  {
    AssignmentsTracked(WalkRun(lines, n, start))
  }

  lemma NextLineTracked(lines: seq<string>, n: nat, start: Walk)
    requires 0 < n <= |lines| && TrackedAfter(lines, n - 1, start)
    ensures TrackedAfter(lines, n, start)
  {
    StepTracked(WalkRun(lines, n - 1, start), lines[n - 1], n - 1);
  }

  lemma {:induction false} WalkRunTracked(lines: seq<string>, n: nat, start: Walk)
    requires n <= |lines| && AssignmentsTracked(start)
    ensures TrackedAfter(lines, n, start)
  {
    if n > 0 {
      WalkRunTracked(lines, n - 1, start);
      NextLineTracked(lines, n, start);
    }
  }

  /**
   * Every assignment line read while a program is open is recorded both in
   * the list of assignments and in that program, in the same order.
   */
  lemma OpenProgramAssignments(text: string, fb: Option<string>)
    ensures AssignmentsTracked(Walked(text, fb))
  {
    var lines := Split(text, '\n');
    WalkRunTracked(lines, |lines|, Walk(NothingCollected, None, None, fb));
    assert TrackedAfter(lines, |lines|, Walk(NothingCollected, None, None, fb));
  }

  // ------------------------------------------------------------------
  // OR-blocks
  // ------------------------------------------------------------------

  /** Items come after the `[` line and in line order. */
  predicate ItemsInOrder(b: OrBlock) {
    && (forall i :: 0 <= i < |b.items| ==> b.startLine < b.items[i].lineNumber)
    && (forall i, j :: 0 <= i < j < |b.items| ==> b.items[i].lineNumber < b.items[j].lineNumber)
  }

  /** A recorded block: closed by a `]` line after its start and after every item. */
  predicate ClosedBlock(b: OrBlock) {
    && ItemsInOrder(b) && b.endLine.Some? && b.startLine < b.endLine.value
    && forall i :: 0 <= i < |b.items| ==> b.items[i].lineNumber < b.endLine.value
  }

  /** The open block after `n` lines: not closed, begun and filled within those lines. */
  predicate OpenBlock(b: OrBlock, n: nat) {
    && ItemsInOrder(b) && b.endLine.None? && b.startLine <= n
    && forall i :: 0 <= i < |b.items| ==> b.items[i].lineNumber <= n
  }

  predicate BlocksWellFormed(st: Walk, n: nat) {
    && (forall i :: 0 <= i < |st.found.orBlocks| ==> ClosedBlock(st.found.orBlocks[i]))
    && (st.currentOrBlock.Some? ==> OpenBlock(st.currentOrBlock.value, n))
  }

  /**
   * What an OR-block line at line `n` leaves: a fresh empty block, the open
   * block closed at `n`, or the open block with one more item at `n`.
   */
  predicate BlockShape(b: OrBlock, completed: bool, open: Option<OrBlock>, n: nat) {
    || (!completed && b == OrBlock([], n, None))
    || (completed && open.Some? && b == open.value.(endLine := Some(n)))
    || (!completed && open.Some? && |b.items| == |open.value.items| + 1 && b.items[..|open.value.items|] == open.value.items
        && b.items[|open.value.items|].lineNumber == n && b.startLine == open.value.startLine && b.endLine == open.value.endLine)
  }

  /** `[` opens a fresh block, `]` closes the open one, an item extends the open one. */
  lemma DetectOrBlockShape(t: string, n: nat, open: Option<OrBlock>)
    ensures var r := DetectOrBlock(t, n, open);
      r.IsOrBlock? ==> BlockShape(r.orBlock, r.completed, open, n)
  {
  }

  /** An item condition as written: `[A-Za-z_][A-Za-z0-9_\s]*`, not ending in a space. */
  predicate IsItemName(s: string) {
    s != [] && IsIdentStart(s[0]) && AllNameChars(s) && IsTrimmed(s)
  }

  /** Where the item pattern's runs end in `name` and in `name +`. */
  lemma ItemLayout(name: string)
    requires IsItemName(name)
    ensures SkipSpaces(name, 0) == 0 && SkipNameChars(name, 1) == |name|
    ensures var t := name + " +";
      && SkipSpaces(t, 0) == 0 && SkipNameChars(t, 1) == |name| + 1
      && t[0] == name[0] && t[|name| + 1] == '+' && t[..|name| + 1] == name + " " && t[|name| + 2..] == []
  {
    SkipSpacesTo(name, 0, 0);
    SkipNameCharsTo(name, 1, |name|);
    var t := name + " +";
    SkipSpacesTo(t, 0, 0);
    forall k | 1 <= k < |name| + 1 ensures IsNameChar(t[k]) {
      if k < |name| {
        assert t[k] == name[k];
      }
    }
    SkipNameCharsTo(t, 1, |name| + 1);
    assert t[..|name| + 1] == name + " ";
  }

  /** With a block open, the item line `name`, or `name +`, appends the item `name` to that block. */
  lemma OrItemReadsBack(name: string, n: nat, block: OrBlock)
    requires IsItemName(name)
    ensures DetectOrBlock(name, n, Some(block)) == IsOrBlock(block.(items := block.items + [OrItem(name, n, name)]), false)
    ensures var t := name + " +";
      DetectOrBlock(t, n, Some(block)) == IsOrBlock(block.(items := block.items + [OrItem(name, n, t)]), false)
  {
    var t := name + " +";
    ItemLayout(name);
    TrimOfTrimmed(name);
    TrimBeforeSpace(name);
    TrimOfTrimmed(t);
  }

  lemma ApplyBlocks(st: Walk, k: LineKind, n: nat)
    requires BlocksWellFormed(st, n)
    requires k.OrBlockLine? ==> BlockShape(k.orBlock, k.completed, st.currentOrBlock, n + 1)
    ensures BlocksWellFormed(Apply(st, k), n + 1)
  {
    if k.OrBlockLine? && k.completed {
      assert ClosedBlock(k.orBlock);
    }
  }

  /** Reading any line after the first `index` keeps the blocks well formed. */
  lemma StepBlocks(st: Walk, line: string, index: nat)
    requires BlocksWellFormed(st, index)
    ensures BlocksWellFormed(Step(st, line, index), index + 1)
  {
    KindOfOrBlock(line, index, st.currentOrBlock, st.currentFB);
    DetectOrBlockShape(Trim(line), index + 1, st.currentOrBlock);
    ApplyBlocks(st, KindOf(line, index + 1, st.currentOrBlock, st.currentFB), index);
  }

  lemma NextLineBlocks(lines: seq<string>, n: nat, start: Walk)
    requires 0 < n <= |lines| && BlocksWellFormed(WalkRun(lines, n - 1, start), n - 1)
    ensures BlocksWellFormed(WalkRun(lines, n, start), n)
  {
    StepBlocks(WalkRun(lines, n - 1, start), lines[n - 1], n - 1);
  }

  lemma {:induction false} WalkRunBlocks(lines: seq<string>, n: nat, start: Walk)
    requires n <= |lines| && BlocksWellFormed(start, 0)
    ensures BlocksWellFormed(WalkRun(lines, n, start), n)
  {
    if n > 0 {
      WalkRunBlocks(lines, n - 1, start);
      NextLineBlocks(lines, n, start);
    }
  }

  /**
   * Every recorded OR-block was closed by a `]` line that comes after its `[`
   * line and after each of its items, and its items are in line order; an
   * unclosed block is never recorded.
   */
  lemma OrBlocksClosed(text: string, fb: Option<string>)
    ensures var blocks := Finished(Walked(text, fb)).orBlocks;
      forall i :: 0 <= i < |blocks| ==> ClosedBlock(blocks[i])
  {
    var lines := Split(text, '\n');
    WalkRunBlocks(lines, |lines|, Walk(NothingCollected, None, None, fb));
  }

  // ------------------------------------------------------------------
  // Program headers
  // ------------------------------------------------------------------

  /** `s` has no occurrence of `p` from `i` on when `p`'s first character is nowhere in `s`. */
  lemma {:induction false} AbsentFirstChar(s: string, p: string, i: nat)
    requires p != [] && p[0] !in s
    ensures !ContainsFrom(s, p, i)
    decreases |s| - i
  {
    if i + |p| <= |s| {
      assert s[i] in s;
      assert s[i..i + |p|][0] == s[i];
      AbsentFirstChar(s, p, i + 1);
    }
  }

  /** Lower-casing a text without `h` or `H` gives a text without `h`. */
  lemma NoLowerH(s: string)
    requires 'h' !in s && 'H' !in s
    ensures 'h' !in Lower(s)
  {
    forall j | 0 <= j < |s|
      ensures Lower(s)[j] != 'h'
    {
      assert s[j] in s;
    }
  }

  /** A text starting with `Haupt` contains `haupt` once lower-cased. */
  lemma HauptLowered(s: string)
    requires |s| >= 5 && s[0] == 'H' && s[1] == 'a' && s[2] == 'u' && s[3] == 'p' && s[4] == 't'
    ensures Contains(Lower(s), "haupt")
  {
    assert Lower(s)[0..5] == "haupt";
  }

  /** Only `Hauptprogramm` lower-cases to a text containing `haupt`. */
  lemma MainProgramTypes(k: nat)
    requires k < |ProgramTypes|
    ensures Contains(Lower(ProgramTypes[k]), "haupt") <==> k == 0
  {
    if k == 0 {
      HauptLowered(ProgramTypes[0]);
    } else {
      NoLowerH(ProgramTypes[k]);
      AbsentFirstChar(Lower(ProgramTypes[k]), "haupt", 0);
    }
  }

  /** A detected header's type is the keyword matched, up to case. */
  lemma ProgramTypeLowered(t: string, k: nat)
    requires k < |ProgramTypes| && AtIgnoreCase(t, 0, ProgramTypes[k])
    ensures Lower(t[..|ProgramTypes[k]|]) == Lower(ProgramTypes[k])
  {
    assert t[0..|ProgramTypes[k]|] == t[..|ProgramTypes[k]|];
  }

  /** A header's program is main exactly when its keyword is `Hauptprogramm`, in any case. */
  lemma HeaderMainIff(t: string, n: nat)
    requires DetectFBProgram(t, n).Some?
    ensures IsMain(DetectFBProgram(t, n).value) <==> FirstKeywordAt(t, 0, ProgramTypes) == Some(0)
  {
    var k := FirstKeywordAt(t, 0, ProgramTypes).value;
    ProgramTypeLowered(t, k);
    MainProgramTypes(k);
  }

  // ------------------------------------------------------------------
  // The program hierarchy
  // ------------------------------------------------------------------

  /** The main and the sub lists together hold each program once. */
  lemma MainsSubsPartition(ps: seq<FbProgram>)
    ensures |Mains(ps)| + |Subs(ps)| == |ps|
    ensures multiset(Mains(ps)) + multiset(Subs(ps)) == multiset(ps)
  {
    MainsSubsMultiset(ps);
    assert |multiset(Mains(ps)) + multiset(Subs(ps))| == |multiset(ps)|;
  }

  lemma {:induction false} MainsSubsMultiset(ps: seq<FbProgram>)
    ensures multiset(Mains(ps)) + multiset(Subs(ps)) == multiset(ps)
  {
    if ps != [] {
      var init, last := ps[..|ps| - 1], ps[|ps| - 1];
      assert ps == init + [last];
      calc {
        multiset(Mains(ps)) + multiset(Subs(ps));
        == { MainsSubsLast(ps); }
        multiset(Mains(init)) + multiset(Subs(init)) + multiset{last};
        == { MainsSubsMultiset(init); }
        multiset(init) + multiset{last};
        == multiset(init) + multiset([last]);
        == multiset(init + [last]);
      }
    }
  }

  /** The last program goes to exactly one of the two lists. */
  lemma MainsSubsLast(ps: seq<FbProgram>)
    requires ps != []
    ensures var init := ps[..|ps| - 1];
      multiset(Mains(ps)) + multiset(Subs(ps)) == multiset(Mains(init)) + multiset(Subs(init)) + multiset{ps[|ps| - 1]}
  {
    var init, last := ps[..|ps| - 1], ps[|ps| - 1];
    if IsMain(last) {
      assert Mains(ps) == Mains(init) + [last] && Subs(ps) == Subs(init);
    } else {
      assert Mains(ps) == Mains(init) && Subs(ps) == Subs(init) + [last];
    }
  }

  /** The main list holds only main programs. */
  lemma {:induction false} MainsAreMain(ps: seq<FbProgram>)
    ensures forall i :: 0 <= i < |Mains(ps)| ==> IsMain(Mains(ps)[i])
  {
    if ps != [] {
      MainsAreMain(ps[..|ps| - 1]);
    }
  }

  /** The sub list holds only programs that are not main. */
  lemma {:induction false} SubsAreNotMain(ps: seq<FbProgram>)
    ensures forall i :: 0 <= i < |Subs(ps)| ==> !IsMain(Subs(ps)[i])
  {
    if ps != [] {
      SubsAreNotMain(ps[..|ps| - 1]);
    }
  }

  // ------------------------------------------------------------------
  // Assignments
  // ------------------------------------------------------------------

  /** Where the text at `i` is neither a space nor `=`, no value follows. */
  lemma NoValueAt(t: string, i: nat)
    requires i < |t| && !IsSpace(t[i]) && t[i] != '='
    ensures ValueAfter(t, i).None?
  {
    SkipSpacesTo(t, i, i);
  }

  /** An identifier followed directly by `[` is not a simple assignment. */
  lemma BracketNotSimple(t: string, n: nat)
    requires IdentifierEnd(t, 0).Some?
    requires IdentifierEnd(t, 0).value < |t| && t[IdentifierEnd(t, 0).value] == '['
    ensures SimpleAssignmentOf(t, n).None?
  {
    var a := IdentifierEnd(t, 0).value;
    SkipSpacesTo(t, a, a);
  }

  /** An identifier not followed directly by `[` is neither a complex nor a matrix assignment. */
  lemma NoBracketNotIndexed(t: string, n: nat)
    requires IdentifierEnd(t, 0).Some?
    requires !(IdentifierEnd(t, 0).value < |t| && t[IdentifierEnd(t, 0).value] == '[')
    ensures ComplexAssignmentOf(t, n).None? && MatrixAssignmentOf(t, n).None?
  {
  }

  /** A complex assignment has a second `[` where a matrix assignment would need its `=`. */
  lemma ComplexNotMatrix(t: string, n: nat)
    ensures ComplexAssignmentOf(t, n).None? || MatrixAssignmentOf(t, n).None?
  {
    if ComplexAssignmentOf(t, n).Some? {
      var a := IdentifierEnd(t, 0).value;
      var b := ClosingBracket(t, a).value;
      var c := MemberEnd(t, b).value;
      assert ClosingBracket(t, c).Some?;
      NoValueAt(t, c);
    }
  }

  /** The three assignment forms never match the same line, so the order they are tried in does not matter. */
  lemma AssignmentFormsExclusive(t: string, n: nat)
    ensures ComplexAssignmentOf(t, n).None? || MatrixAssignmentOf(t, n).None?
    ensures ComplexAssignmentOf(t, n).None? || SimpleAssignmentOf(t, n).None?
    ensures MatrixAssignmentOf(t, n).None? || SimpleAssignmentOf(t, n).None?
  {
    ComplexNotMatrix(t, n);
    if IdentifierEnd(t, 0).Some? {
      var a := IdentifierEnd(t, 0).value;
      if a < |t| && t[a] == '[' {
        BracketNotSimple(t, n);
      } else {
        NoBracketNotIndexed(t, n);
      }
    }
  }

  // ------------------------------------------------------------------
  // Compound conditions
  // ------------------------------------------------------------------

  /** `==` is a run of at least two operator characters. */
  lemma EqualsIsOperatorRun(t: string, p: nat)
    requires p + 2 <= |t| && t[p..p + 2] == "=="
    ensures SkipOperatorChars(t, p) >= p + 2
  {
    assert t[p] == '=' && t[p + 1] == '=';
    assert SkipOperatorChars(t, p + 1) >= p + 2;
  }

  /**
   * Where no comparison starts at or after `e`, an evaluation found from
   * `e` is never an `==` one: any `==` would have been read as a comparison.
   */
  lemma {:induction false} EvaluationNotEqualsFrom(t: string, e: nat)
    requires 1 <= e <= |t| && ComparisonSplit(t, e).None?
    ensures var x := EvaluationSplit(t, e);
      x.Some? ==> t[x.value.operatorStart..x.value.operatorEnd] != "=="
    decreases |t| - e
  {
    if e < |t| {
      var p := SkipSpaces(t, e);
      match EvaluationOperator(t, p)
      case Some(w) =>
        if t[p..p + w] == "==" {
          EqualsIsOperatorRun(t, p);
        }
      case None =>
        EvaluationNotEqualsFrom(t, e + 1);
    }
  }

  /** The comparison form is tried first, so an evaluation condition never has the operator `==`. */
  lemma EvaluationNeverEquals(t: string, n: nat)
    ensures var c := EnhanceCondition(t, n);
      c.Some? && c.value.EvaluationCondition? ==> c.value.operator != "=="
  {
    if t != [] && ComparisonSplit(t, 1).None? {
      EvaluationNotEqualsFrom(t, 1);
    }
  }

  /** A comparison's operator is a non-empty run of `<`, `>`, `=` and `!`. */
  lemma {:induction false} ComparisonOperatorFrom(t: string, e: nat)
    requires 1 <= e <= |t|
    ensures var x := ComparisonSplit(t, e);
      x.Some? ==> forall k :: x.value.operatorStart <= k < x.value.operatorEnd ==> IsOperatorChar(t[k])
    decreases |t| - e
  {
    if e < |t| {
      var p := SkipSpaces(t, e);
      var o := SkipOperatorChars(t, p);
      if !(p < o < |t|) && !(p + 2 <= o) {
        ComparisonOperatorFrom(t, e + 1);
      }
    }
  }

  /** A comparison condition's operator is a non-empty run of `<`, `>`, `=` and `!`. */
  lemma ConditionOperator(t: string, n: nat)
    ensures var c := EnhanceCondition(t, n);
      c.Some? && c.value.ComparisonCondition? ==>
        c.value.operator != [] && forall k :: 0 <= k < |c.value.operator| ==> IsOperatorChar(c.value.operator[k])
  {
    if t != [] && ComparisonSplit(t, 1).Some? {
      ComparisonOperatorFrom(t, 1);
    }
  }

  // ------------------------------------------------------------------
  // Runs read from a known layout
  // ------------------------------------------------------------------

  lemma {:induction false} SkipNameCharsTo(s: string, i: nat, j: nat)
    requires i <= j <= |s|
    requires forall k :: i <= k < j ==> IsNameChar(s[k])
    requires j == |s| || !IsNameChar(s[j])
    ensures SkipNameChars(s, i) == j
    decreases j - i
  {
    if i < j { SkipNameCharsTo(s, i + 1, j); }
  }

  lemma {:induction false} NameRunStartTo(s: string, j: nat, i: nat)
    requires i <= j <= |s|
    requires forall k :: i <= k < j ==> IsNameChar(s[k])
    requires i == 0 || !IsNameChar(s[i - 1])
    ensures NameRunStart(s, j) == i
    decreases j - i
  {
    if i < j { NameRunStartTo(s, j - 1, i); }
  }

  lemma {:induction false} StepListStartTo(s: string, j: nat, i: nat)
    requires i <= j <= |s|
    requires forall k :: i <= k < j ==> IsStepListChar(s[k])
    requires i == 0 || !IsStepListChar(s[i - 1])
    ensures StepListStart(s, j) == i
    decreases j - i
  {
    if i < j { StepListStartTo(s, j - 1, i); }
  }

  lemma {:induction false} SkipOperatorCharsTo(s: string, i: nat, j: nat)
    requires i <= j <= |s|
    requires forall k :: i <= k < j ==> IsOperatorChar(s[k])
    requires j == |s| || !IsOperatorChar(s[j])
    ensures SkipOperatorChars(s, i) == j
    decreases j - i
  {
    if i < j { SkipOperatorCharsTo(s, i + 1, j); }
  }

  /** A name `x` written at `t[i..j]` and not followed by a name character is the run from `i`. */
  lemma NameRunAfter(t: string, i: nat, j: nat, x: string)
    requires i <= j <= |t| && t[i..j] == x && AllNameChars(x) && (j == |t| || !IsNameChar(t[j]))
    ensures SkipNameChars(t, i) == j
  {
    forall k | i <= k < j ensures IsNameChar(t[k]) {
      assert t[k] == x[k - i];
    }
    SkipNameCharsTo(t, i, j);
  }

  /** A name `x` written at `t[i..j]` and not preceded by a name character is the run ending at `j`. */
  lemma NameRunBefore(t: string, i: nat, j: nat, x: string)
    requires i <= j <= |t| && t[i..j] == x && AllNameChars(x) && (i == 0 || !IsNameChar(t[i - 1]))
    ensures NameRunStart(t, j) == i
  {
    forall k | i <= k < j ensures IsNameChar(t[k]) {
      assert t[k] == x[k - i];
    }
    NameRunStartTo(t, j, i);
  }

  /** Digits `x` written at `t[i..j]` and not preceded by a digit are the run ending at `j`. */
  lemma DigitRunBefore(t: string, i: nat, j: nat, x: string)
    requires i <= j <= |t| && t[i..j] == x && AllDigits(x) && (i == 0 || !IsDigit(t[i - 1]))
    ensures SkipDigitsBack(t, j) == i
  {
    forall k | i <= k < j ensures IsDigit(t[k]) {
      assert t[k] == x[k - i];
    }
    SkipDigitsBackTo(t, j, i);
  }

  /** A step list `x` written at `t[i..j]` and not preceded by a step character is the run ending at `j`. */
  lemma StepRunBefore(t: string, i: nat, j: nat, x: string)
    requires i <= j <= |t| && t[i..j] == x && (forall k :: 0 <= k < |x| ==> IsStepListChar(x[k]))
    requires i == 0 || !IsStepListChar(t[i - 1])
    ensures StepListStart(t, j) == i
  {
    forall k | i <= k < j ensures IsStepListChar(t[k]) {
      assert t[k] == x[k - i];
    }
    StepListStartTo(t, j, i);
  }

  /** An operator `x` written at `t[i..j]` and not followed by an operator character is the run from `i`. */
  lemma OperatorRunAfter(t: string, i: nat, j: nat, x: string)
    requires i <= j <= |t| && t[i..j] == x && (forall k :: 0 <= k < |x| ==> IsOperatorChar(x[k]))
    requires j == |t| || !IsOperatorChar(t[j])
    ensures SkipOperatorChars(t, i) == j
  {
    forall k | i <= k < j ensures IsOperatorChar(t[k]) {
      assert t[k] == x[k - i];
    }
    SkipOperatorCharsTo(t, i, j);
  }

  /** The keyword a text starts with is found when every earlier one starts with another letter. */
  lemma KeywordByFirstLetter(t: string, kws: seq<string>, k: nat)
    requires k < |kws| && kws[k] != [] && StartsWith(t, kws[k])
    requires forall j :: 0 <= j < k ==> kws[j] != [] && LowerChar(kws[j][0]) != LowerChar(kws[k][0])
    ensures FirstKeywordAt(t, 0, kws) == Some(k)
  {
    assert t[0] == t[..|kws[k]|][0] == kws[k][0];
    forall j | 0 <= j < k ensures !AtIgnoreCase(t, 0, kws[j]) {
      NotAtByLetter(t, 0, kws[j], 0);
    }
    FirstKeywordIs(t, kws, k);
  }

  /** No keyword of a list starts a text whose letter at `pos` differs from that of each keyword. */
  lemma NoKeywordByLetter(t: string, kws: seq<string>, pos: nat)
    requires forall j :: 0 <= j < |kws| ==> pos < |kws[j]| && (pos < |t| ==> LowerChar(t[pos]) != LowerChar(kws[j][pos]))
    ensures FirstKeywordAt(t, 0, kws).None?
  {
    forall j | 0 <= j < |kws| ensures !AtIgnoreCase(t, 0, kws[j]) {
      NotAtByLetter(t, 0, kws[j], pos);
    }
  }

  // ------------------------------------------------------------------
  // Program headers and assignments read back
  // ------------------------------------------------------------------

  lemma HeaderLayout(t: string, kw: string, name: string, digits: string)
    requires t == kw + " " + name + " FB" + digits
    ensures var w := |kw|; var q := |t| - |digits|;
      && StartsWith(t, kw) && t[..w] == kw && t[w] == ' ' && t[w + 1..q - 3] == name && t[q - 3] == ' '
      && t[q - 2..q] == "FB" && t[q - 1] == 'B' && t[q..] == digits && t[q..|t|] == digits && t[q - 2..] == "FB" + digits
  {
    var w := |kw|;
    var q := |t| - |digits|;
    assert t[..w] == kw;
    assert t[w + 1..q - 3] == name;
    assert t[q - 2..q] == "FB";
    assert t[q..] == digits;
    assert t[q - 2..] == "FB" + digits;
  }

  /** The header pattern after a program type ending at `w`: space, name, space, `FB` and the digits ending the text. */
  lemma HeaderAt(t: string, w: nat, q: nat, n: nat)
    requires HeaderShape(t, w, q)
    ensures HeaderEndingAt(t, w, q, n) == Some(FbProgram(t[..w], Trim(t[w + 1..q - 3]), t[q - 2..], n, []))
  {
  }

  /** Text holding `p` at `i` holds it there ignoring case. */
  lemma AtFromSlice(t: string, i: nat, p: string)
    requires i + |p| <= |t| && t[i..i + |p|] == p
    ensures AtIgnoreCase(t, i, p)
  {
  }

  /** `TYPE name FBnn` is a header of that type, name and FB number, with no assignments yet. */
  lemma ProgramHeaderReadsBack(k: nat, name: string, digits: string, n: nat)
    requires k < |ProgramTypes|
    requires name != [] && IsTrimmed(name) && AllNameChars(name)
    requires digits != [] && AllDigits(digits)
    ensures var t := ProgramTypes[k] + " " + name + " FB" + digits;
      DetectFBProgram(t, n) == Some(FbProgram(ProgramTypes[k], name, "FB" + digits, n, []))
  {
    var kw := ProgramTypes[k];
    var t := kw + " " + name + " FB" + digits;
    var q := |t| - |digits|;
    HeaderLayout(t, kw, name, digits);
    KeywordByFirstLetter(t, ProgramTypes, k);
    DigitRunBefore(t, q, |t|, digits);
    AtFromSlice(t, q - 2, "FB");
    HeaderAt(t, |kw|, q, n);
    assert DetectFBProgram(t, n) == HeaderEndingAt(t, |kw|, q, n);
    TrimOfTrimmed(name);
  }

  lemma AssignmentLayout(t: string, a: nat, j: nat, name: string, desc: string, value: string)
    requires t == name + " (" + desc + ") = " + value && a == |name| && j == a + 2 + |desc|
    ensures j + 3 < |t| && t[..a] == name && t[a] == ' ' && t[a + 1] == '(' && t[a + 2..j] == desc && t[j] == ')'
    ensures t[j + 1] == ' ' && t[j + 2] == '=' && t[j + 3..] == " " + value
  {
    assert t[..a] == name;
    assert t[a + 2..j] == desc;
    assert t[j + 3..] == " " + value;
  }

  /** An identifier `name` written at the start of `t` and followed by a non-word character. */
  lemma IdentifierAt(t: string, name: string)
    requires name != [] && IsIdentStart(name[0]) && forall k :: 1 <= k < |name| ==> IsWordChar(name[k])
    requires |name| < |t| && t[..|name|] == name && !IsWordChar(t[|name|])
    ensures IdentifierEnd(t, 0) == Some(|name|)
  {
    forall k | 1 <= k < |name| ensures IsWordChar(t[k]) {
      assert t[k] == name[k];
    }
    assert t[0] == name[0];
    StandardWork.SkipWordCharsTo(t, 1, |name|);
  }

  /** The first `)` from `i` on is the one at `j` when `t[i..j]` holds none. */
  lemma CloseAt(t: string, i: nat, j: nat, x: string)
    requires i <= j < |t| && t[i..j] == x && ')' !in x && t[j] == ')'
    ensures IndexOf(t, ')', i) == j
  {
    forall k | i <= k < j ensures t[k] != ')' {
      assert t[k] == x[k - i] && x[k - i] in x;
    }
  }

  /** The simple assignment pattern at a known layout. */
  /** `\s*=` after a space: the `=` is the one right after it. */
  lemma EqualsAt(t: string, i: nat)
    requires i + 2 < |t| && t[i] == ' ' && t[i + 1] == '='
    ensures EqualsAfter(t, i) == Some(i + 1)
  {
    SkipSpacesTo(t, i, i + 1);
  }

  /** A trimmed slice trims to itself. */
  lemma SliceTrimmed(t: string, i: nat, j: nat, x: string)
    requires i <= j <= |t| && t[i..j] == x && IsTrimmed(x)
    ensures Trim(t[i..j]) == x
  {
    TrimOfTrimmed(x);
  }

  /** A space and then a trimmed text trims to that text. */
  lemma SuffixAfterSpace(t: string, i: nat, x: string)
    requires i <= |t| && t[i..] == " " + x && x != [] && IsTrimmed(x)
    ensures Trim(t[i..]) == x
  {
    TrimAfterSpace(x);
  }

  /** An identifier followed by something other than `[` can only be a simple assignment. */
  lemma SimpleOnly(t: string, n: nat)
    requires IdentifierEnd(t, 0).Some? && IdentifierEnd(t, 0).value < |t| && t[IdentifierEnd(t, 0).value] != '['
    ensures DetectVariableAssignment(t, n) == SimpleAssignmentOf(t, n)
  {
    NoBracketNotIndexed(t, n);
  }

  /** The simple pattern after a name ending at `a`: a space, `(`, the first `)` at `j`, a space and `=`. */
  lemma SimpleLayoutAt(t: string, a: nat, j: nat)
    requires a + 2 < j && j + 3 < |t| && t[a + 1] == '('
    requires SkipSpaces(t, a) == a + 1 && IndexOf(t, ')', a + 2) == j && EqualsAfter(t, j + 1) == Some(j + 2)
    ensures SimpleLayout(t, a) == Some((a + 1, j, j + 2))
  {
  }

  lemma SimpleAt(t: string, a: nat, j: nat, n: nat)
    requires a + 2 < j && j + 3 < |t| && SimpleLayout(t, a) == Some((a + 1, j, j + 2))
    ensures SimpleAfterName(t, a, n) == Some(SimpleAssignmentAt(t, a, a + 1, j, j + 2, n))
  {
    var (p, k, e) := SimpleLayout(t, a).value;
    assert p == a + 1 && k == j && e == j + 2;
  }

  /** A simple assignment found once the name, the `(`, the first `)` and the `=` are where they are written. */
  lemma SimpleFound(t: string, a: nat, j: nat, name: string, desc: string, n: nat)
    requires name != [] && IsIdentStart(name[0]) && forall k :: 1 <= k < |name| ==> IsWordChar(name[k])
    requires desc != [] && ')' !in desc
    requires a == |name| && j == a + 2 + |desc| && j + 3 < |t|
    requires t[..a] == name && t[a] == ' ' && t[a + 1] == '(' && t[a + 2..j] == desc && t[j] == ')'
    requires t[j + 1] == ' ' && t[j + 2] == '='
    ensures DetectVariableAssignment(t, n) == Some(SimpleAssignmentAt(t, a, a + 1, j, j + 2, n))
  {
    IdentifierAt(t, name);
    NameThenSimple(t, a, n);
    SimpleLayoutWritten(t, a, j, desc);
    SimpleAt(t, a, j, n);
  }

  /** After an identifier ending at `a` and not followed by `[`, only the simple form is left to try. */
  lemma NameThenSimple(t: string, a: nat, n: nat)
    requires IdentifierEnd(t, 0) == Some(a) && a < |t| && t[a] != '['
    ensures DetectVariableAssignment(t, n) == SimpleAfterName(t, a, n)
  {
    SimpleOnly(t, n);
  }

  /** After a name ending at `a`: ` (desc) =`, with no `)` inside `desc`. */
  lemma SimpleLayoutWritten(t: string, a: nat, j: nat, desc: string)
    requires desc != [] && ')' !in desc
    requires j == a + 2 + |desc| && j + 3 < |t|
    requires t[a] == ' ' && t[a + 1] == '(' && t[a + 2..j] == desc && t[j] == ')' && t[j + 1] == ' ' && t[j + 2] == '='
    ensures SimpleLayout(t, a) == Some((a + 1, j, j + 2))
  {
    CloseAt(t, a + 2, j, desc);
    SkipSpacesTo(t, a, a + 1);
    EqualsAt(t, j + 1);
    SimpleLayoutAt(t, a, j);
  }

  /** The fields of that assignment are the name, the description and the value as written. */
  lemma SimpleRecord(t: string, a: nat, j: nat, name: string, desc: string, value: string, n: nat)
    requires desc != [] && IsTrimmed(desc) && value != [] && IsTrimmed(value)
    requires a + 2 < j && j + 3 < |t| && t[..a] == name && t[a + 2..j] == desc && t[j + 3..] == " " + value
    ensures SimpleAssignmentAt(t, a, a + 1, j, j + 2, n) == SimpleAssignment(name, desc, value, n, t)
  {
    SliceTrimmed(t, a + 2, j, desc);
    SuffixAfterSpace(t, j + 3, value);
  }

  /** `name (desc) = value` is the simple assignment of `value` to `name`, described by `desc`. */
  lemma SimpleAssignmentReadsBack(name: string, desc: string, value: string, n: nat)
    requires name != [] && IsIdentStart(name[0]) && forall k :: 1 <= k < |name| ==> IsWordChar(name[k])
    requires desc != [] && IsTrimmed(desc) && ')' !in desc
    requires value != [] && IsTrimmed(value)
    ensures var t := name + " (" + desc + ") = " + value;
      DetectVariableAssignment(t, n) == Some(SimpleAssignment(name, desc, value, n, t))
  {
    var t := name + " (" + desc + ") = " + value;
    var a := |name|;
    var j := a + 2 + |desc|;
    AssignmentLayout(t, a, j, name, desc, value);
    SimpleFound(t, a, j, name, desc, n);
    SimpleRecord(t, a, j, name, desc, value, n);
  }

  /** `[A-Za-z_][A-Za-z0-9_]*`, written out. */
  predicate IsIdentifier(s: string) {
    s != [] && IsIdentStart(s[0]) && forall k :: 1 <= k < |s| ==> IsWordChar(s[k])
  }

  /** An identifier written at `i` and followed by a non-word character ends right after it. */
  lemma IdentifierFrom(t: string, i: nat, name: string)
    requires IsIdentifier(name)
    requires i + |name| < |t| && t[i..i + |name|] == name && !IsWordChar(t[i + |name|])
    ensures IdentifierEnd(t, i) == Some(i + |name|)
  {
    forall k | i + 1 <= k < i + |name| ensures IsWordChar(t[k]) {
      assert t[k] == name[k - i];
    }
    assert t[i] == name[0];
    StandardWork.SkipWordCharsTo(t, i + 1, i + |name|);
  }

  /** `[x]` at `i`, with no `]` inside a non-empty `x`, closes at `j`. */
  lemma BracketAt(t: string, i: nat, j: nat, x: string)
    requires i + 1 < j < |t| && t[i] == '[' && t[i + 1..j] == x && ']' !in x && t[j] == ']'
    ensures ClosingBracket(t, i) == Some(j)
  {
    forall k | i + 1 <= k < j ensures t[k] != ']' {
      assert t[k] == x[k - i - 1] && x[k - i - 1] in x;
    }
  }

  /** `.name` after the `]` at `j`, followed by a non-word character: the member ends at `e`. */
  lemma MemberAt(t: string, j: nat, e: nat, name: string)
    requires IsIdentifier(name) && e == j + 2 + |name| && e < |t|
    requires t[j + 1] == '.' && t[j + 2..e] == name && !IsWordChar(t[e])
    ensures MemberEnd(t, j) == Some(e)
  {
    IdentifierFrom(t, j + 2, name);
  }

  /** ` = value` at `e`: the value read is `value`. */
  lemma ValueAt(t: string, e: nat, value: string)
    requires value != [] && IsTrimmed(value)
    requires e + 2 <= |t| && t[e] == ' ' && t[e + 1] == '=' && t[e + 2..] == " " + value
    ensures ValueAfter(t, e) == Some(value)
  {
    EqualsAt(t, e);
    SuffixAfterSpace(t, e + 2, value);
  }

  lemma MatrixLayout(t: string, arr: string, idx: string, prop: string, value: string, a: nat, b: nat, c: nat)
    requires t == arr + "[" + idx + "]." + prop + " = " + value
    requires a == |arr| && b == a + 1 + |idx| && c == b + 2 + |prop|
    ensures c + 2 <= |t| && t[..a] == arr && t[a] == '[' && t[a + 1..b] == idx && t[b] == ']' && t[b + 1] == '.'
    ensures t[b + 2..c] == prop && t[c] == ' ' && t[c + 1] == '=' && t[c + 2..] == " " + value
  {
    assert t[..a] == arr;
    assert t[a + 1..b] == idx;
    assert t[b + 2..c] == prop;
    assert t[c + 2..] == " " + value;
  }

  /** The matrix pattern at a known layout: name to `a`, `]` at `b`, member to `c`, ` = value` after. */
  lemma MatrixFound(t: string, arr: string, idx: string, prop: string, value: string, a: nat, b: nat, c: nat, n: nat)
    requires IsIdentifier(arr) && IsIdentifier(prop) && idx != [] && ']' !in idx && value != [] && IsTrimmed(value)
    requires a == |arr| && b == a + 1 + |idx| && c == b + 2 + |prop|
    requires c + 2 <= |t| && t[..a] == arr && t[a] == '[' && t[a + 1..b] == idx && t[b] == ']' && t[b + 1] == '.'
    requires t[b + 2..c] == prop && t[c] == ' ' && t[c + 1] == '=' && t[c + 2..] == " " + value
    ensures MatrixAssignmentOf(t, n) == Some(MatrixAssignment(arr, Trim(idx), prop, value, n, t))
    ensures ComplexAssignmentOf(t, n).None?
  {
    IdentifierFrom(t, 0, arr);
    BracketAt(t, a, b, idx);
    MemberAt(t, b, c, prop);
    ValueAt(t, c, value);
    MatrixAt(t, a, b, c, value, n);
    MatrixRecord(t, a, b, c, arr, idx, prop, value, n);
  }

  /** The fields of that assignment are the name and member as written and the index trimmed. */
  lemma MatrixRecord(t: string, a: nat, b: nat, c: nat, arr: string, idx: string, prop: string, value: string, n: nat)
    requires a < b && b + 2 <= c <= |t|
    requires t[..a] == arr && t[a + 1..b] == idx && t[b + 2..c] == prop
    ensures MatrixAssignmentAt(t, a, b, c, value, n) == MatrixAssignment(arr, Trim(idx), prop, value, n, t)
  {
  }

  /** The matrix pattern once each of its searches is known to land where it does; no second `[` follows. */
  lemma MatrixAt(t: string, a: nat, b: nat, c: nat, value: string, n: nat)
    requires a < b && b + 2 <= c < |t| && t[c] != '['
    requires IdentifierEnd(t, 0) == Some(a) && ClosingBracket(t, a) == Some(b) && MemberEnd(t, b) == Some(c)
    requires ValueAfter(t, c) == Some(value)
    ensures MatrixAssignmentOf(t, n) == Some(MatrixAssignmentAt(t, a, b, c, value, n))
    ensures ComplexAssignmentOf(t, n).None?
  {
  }

  /**
   * `arr[idx].prop = value` is the matrix assignment of `value` to member
   * `prop` of row `idx`, trimmed, of `arr`.
   */
  lemma MatrixAssignmentReadsBack(arr: string, idx: string, prop: string, value: string, n: nat)
    requires IsIdentifier(arr) && IsIdentifier(prop)
    requires idx != [] && ']' !in idx
    requires value != [] && IsTrimmed(value)
    ensures var t := arr + "[" + idx + "]." + prop + " = " + value;
      DetectVariableAssignment(t, n) == Some(MatrixAssignment(arr, Trim(idx), prop, value, n, t))
  {
    var t := arr + "[" + idx + "]." + prop + " = " + value;
    var a := |arr|;
    var b := a + 1 + |idx|;
    var c := b + 2 + |prop|;
    MatrixLayout(t, arr, idx, prop, value, a, b, c);
    MatrixFound(t, arr, idx, prop, value, a, b, c, n);
  }

  lemma ComplexLayout(t: string, arr: string, i1: string, p1: string, i2: string, p2: string, value: string,
                      a: nat, b: nat, c: nat, d: nat, e: nat)
    requires t == arr + "[" + i1 + "]." + p1 + "[" + i2 + "]." + p2 + " = " + value
    requires a == |arr| && b == a + 1 + |i1| && c == b + 2 + |p1| && d == c + 1 + |i2| && e == d + 2 + |p2|
    ensures e + 2 <= |t| && t[..a] == arr && t[a] == '[' && t[a + 1..b] == i1 && t[b] == ']' && t[b + 1] == '.'
    ensures t[b + 2..c] == p1 && t[c] == '[' && t[c + 1..d] == i2 && t[d] == ']' && t[d + 1] == '.'
    ensures t[d + 2..e] == p2 && t[e] == ' ' && t[e + 1] == '=' && t[e + 2..] == " " + value
  {
    assert t[..a] == arr;
    assert t[a + 1..b] == i1;
    assert t[b + 2..c] == p1;
    assert t[c + 1..d] == i2;
    assert t[d + 2..e] == p2;
    assert t[e + 2..] == " " + value;
  }

  /** The complex pattern at a known layout: name to `a`, `]` at `b`, member to `c`, `]` at `d`, member to `e`. */
  lemma ComplexFound(t: string, arr: string, i1: string, p1: string, i2: string, p2: string, value: string,
                     a: nat, b: nat, c: nat, d: nat, e: nat, n: nat)
    requires IsIdentifier(arr) && IsIdentifier(p1) && IsIdentifier(p2)
    requires i1 != [] && ']' !in i1 && i2 != [] && ']' !in i2 && value != [] && IsTrimmed(value)
    requires a == |arr| && b == a + 1 + |i1| && c == b + 2 + |p1| && d == c + 1 + |i2| && e == d + 2 + |p2|
    requires e + 2 <= |t| && t[..a] == arr && t[a] == '[' && t[a + 1..b] == i1 && t[b] == ']' && t[b + 1] == '.'
    requires t[b + 2..c] == p1 && t[c] == '[' && t[c + 1..d] == i2 && t[d] == ']' && t[d + 1] == '.'
    requires t[d + 2..e] == p2 && t[e] == ' ' && t[e + 1] == '=' && t[e + 2..] == " " + value
    ensures ComplexAssignmentOf(t, n) == Some(ComplexAssignment(arr, [Indexing(arr, i1), Indexing(p1, i2)], p2, value, n, t))
  {
    IdentifierFrom(t, 0, arr);
    BracketAt(t, a, b, i1);
    MemberAt(t, b, c, p1);
    BracketAt(t, c, d, i2);
    MemberAt(t, d, e, p2);
    ValueAt(t, e, value);
    ComplexAt(t, a, b, c, d, e, value, n);
    ComplexRecord(t, a, b, c, d, e, arr, i1, p1, i2, p2, value, n);
  }

  /** The fields of that assignment are the names and indices as written. */
  lemma ComplexRecord(t: string, a: nat, b: nat, c: nat, d: nat, e: nat,
                      arr: string, i1: string, p1: string, i2: string, p2: string, value: string, n: nat)
    requires a < b && b + 2 <= c < d && d + 2 <= e <= |t|
    requires t[..a] == arr && t[a + 1..b] == i1 && t[b + 2..c] == p1 && t[c + 1..d] == i2 && t[d + 2..e] == p2
    ensures ComplexAssignmentAt(t, a, b, c, d, e, value, n) == ComplexAssignment(arr, [Indexing(arr, i1), Indexing(p1, i2)], p2, value, n, t)
  {
  }

  /** The complex pattern once each of its searches is known to land where it does. */
  lemma ComplexAt(t: string, a: nat, b: nat, c: nat, d: nat, e: nat, value: string, n: nat)
    requires a < b && b + 2 <= c < d && d + 2 <= e <= |t|
    requires IdentifierEnd(t, 0) == Some(a) && ClosingBracket(t, a) == Some(b) && MemberEnd(t, b) == Some(c)
    requires ClosingBracket(t, c) == Some(d) && MemberEnd(t, d) == Some(e) && ValueAfter(t, e) == Some(value)
    ensures ComplexAssignmentOf(t, n) == Some(ComplexAssignmentAt(t, a, b, c, d, e, value, n))
  {
  }

  /**
   * `arr[i1].p1[i2].p2 = value` is the complex assignment of `value` to `p2`
   * through `arr` indexed by `i1` and `p1` indexed by `i2`, the indices as written.
   */
  lemma ComplexAssignmentReadsBack(arr: string, i1: string, p1: string, i2: string, p2: string, value: string, n: nat)
    requires IsIdentifier(arr) && IsIdentifier(p1) && IsIdentifier(p2)
    requires i1 != [] && ']' !in i1 && i2 != [] && ']' !in i2
    requires value != [] && IsTrimmed(value)
    ensures var t := arr + "[" + i1 + "]." + p1 + "[" + i2 + "]." + p2 + " = " + value;
      DetectVariableAssignment(t, n) == Some(ComplexAssignment(arr, [Indexing(arr, i1), Indexing(p1, i2)], p2, value, n, t))
  {
    var t := arr + "[" + i1 + "]." + p1 + "[" + i2 + "]." + p2 + " = " + value;
    var a := |arr|;
    var b := a + 1 + |i1|;
    var c := b + 2 + |p1|;
    var d := c + 1 + |i2|;
    var e := d + 2 + |p2|;
    ComplexLayout(t, arr, i1, p1, i2, p2, value, a, b, c, d, e);
    ComplexFound(t, arr, i1, p1, i2, p2, value, a, b, c, d, e, n);
  }

  // ------------------------------------------------------------------
  // Comments read back
  // ------------------------------------------------------------------

  /** `// text` is a single-line comment holding `text`, trimmed. */
  lemma SingleLineCommentReadsBack(text: string, n: nat)
    ensures DetectComment("//" + text, n) == Some(Comment(SingleLine, Trim(text), None, n, "//" + text))
  {
    assert ("//" + text)[2..] == text;
  }

  /** `/* text */` is a multi-line comment holding `text`, trimmed. */
  lemma MultiLineCommentReadsBack(text: string, n: nat)
    ensures var t := "/*" + text + "*/";
      DetectComment(t, n) == Some(Comment(MultiLine, Trim(text), None, n, t))
  {
    var t := "/*" + text + "*/";
    assert t[1] == '*';
    assert t[..2] == "/*" && t[|t| - 2..] == "*/" && t[2..|t| - 2] == text;
  }

  lemma InlineLayout(t: string, code: string, text: string)
    requires code != [] && t == code + " //" + text
    ensures var c := |code|;
      && t[..c] == code && t[0] == code[0] && t[c - 1] == code[c - 1] && t[c] == ' '
      && t[c + 1..c + 3] == "//" && t[c + 1] == '/' && t[c + 3..] == text
  {
    var c := |code|;
    assert t[..c] == code;
    assert t[c + 1..c + 3] == "//";
    assert t[c + 3..] == text;
  }

  /** Inside code that holds no `/` and ends in a non-space, no `//` follows any shorter code part. */
  lemma NoCommentWithin(t: string, c: nat, code: string)
    requires 1 <= c < |t| && t[..c] == code && '/' !in code && !IsSpace(t[c - 1])
    ensures forall f :: 1 <= f < c ==> !At(t, SkipSpaces(t, f), "//")
  {
    forall f | 1 <= f < c ensures !At(t, SkipSpaces(t, f), "//") {
      var p := SkipSpaces(t, f);
      assert p < c;
      assert t[p] == code[p] && code[p] in code;
    }
  }

  /** The lazy code part is the first `c` from 1 on that spaces and `//` follow. */
  lemma InlineSearch(t: string, c: nat)
    requires 1 <= c < |t| && At(t, SkipSpaces(t, c), "//")
    requires forall f :: 1 <= f < c ==> !At(t, SkipSpaces(t, f), "//")
    ensures InlineCommentFrom(t, 1) == Some(c)
  {
  }

  /** The inline comment pattern at a known layout: code ending at `c`, a space, `//`, the text. */
  lemma InlineAt(t: string, c: nat, n: nat)
    requires 1 <= c && c + 3 <= |t| && !StartsWith(t, "//") && !StartsWith(t, "/*")
    requires SkipSpaces(t, c) == c + 1 && InlineCommentFrom(t, 1) == Some(c)
    ensures DetectComment(t, n) == Some(InlineComment(t, c, c + 1, n))
  {
  }

  /**
   * `code //text` with code that holds no `/` is an inline comment: the
   * shortest code part the lazy match settles on is all of `code`.
   */
  lemma InlineCommentReadsBack(code: string, text: string, n: nat)
    requires code != [] && IsTrimmed(code) && '/' !in code
    ensures var t := code + " //" + text;
      DetectComment(t, n) == Some(Comment(Inline, Trim(text), Some(code), n, t))
  {
    var t := code + " //" + text;
    var c := |code|;
    InlineLayout(t, code, text);
    assert code[0] in code;
    NoCommentWithin(t, c, code);
    SkipSpacesTo(t, c, c + 1);
    assert At(t, c + 1, "//");
    InlineSearch(t, c);
    assert t[0] != '/';
    InlineAt(t, c, n);
    TrimOfTrimmed(code);
  }

  // ------------------------------------------------------------------
  // Entities read back
  // ------------------------------------------------------------------

  lemma KaeseLayout(t: string, kw: string, name: string, desc: string)
    requires t == kw + " " + name + " " + desc
    ensures var w := |kw|; var m := w + |name| + 2;
      && StartsWith(t, kw) && t[w] == ' ' && t[w + 1..m] == name + " " && t[m..] == desc && |t| == m + |desc|
  {
    var w := |kw|;
    var m := w + |name| + 2;
    assert t[..w] == kw;
    assert t[w + 1..m] == name + " ";
    assert t[m..] == desc;
  }

  /** The counter pattern at a known layout: keyword, space, the name run ending at `m`. */
  lemma KaeseAt(t: string, k: nat, m: nat, n: nat)
    requires k < |KaeseKeywords| && FirstKeywordAt(t, 0, KaeseKeywords) == Some(k)
    requires var w := |KaeseKeywords[k]|; w < |t| && IsSpace(t[w]) && w + 1 < m && SkipNameChars(t, w + 1) == m
    ensures DetectEntity(t, n) == Some(Entity(Kaesezaehler, Some(Trim(t[|KaeseKeywords[k]| + 1..m])), Trim(t[m..]), n, t))
  {
  }

  /**
   * `Käsezähler NAME desc`, the description not starting with a name
   * character, is the counter `NAME` with that description.
   */
  lemma KaeseReadsBack(k: nat, name: string, desc: string, n: nat)
    requires k < |KaeseKeywords|
    requires name != [] && IsTrimmed(name) && AllNameChars(name)
    requires IsTrimmed(desc) && (desc == [] || !IsNameChar(desc[0]))
    ensures var t := KaeseKeywords[k] + " " + name + " " + desc;
      DetectEntity(t, n) == Some(Entity(Kaesezaehler, Some(name), desc, n, t))
  {
    var kw := KaeseKeywords[k];
    var t := kw + " " + name + " " + desc;
    var m := |kw| + |name| + 2;
    KaeseLayout(t, kw, name, desc);
    KeywordByFirstLetter(t, KaeseKeywords, k);
    assert AllNameChars(name + " ") by {
      forall j | 0 <= j < |name| + 1 ensures IsNameChar((name + " ")[j]) {
        if j < |name| { assert (name + " ")[j] == name[j]; }
      }
    }
    assert m < |t| ==> t[m] == desc[0];
    NameRunAfter(t, |kw| + 1, m, name + " ");
    KaeseAt(t, k, m, n);
    TrimBeforeSpace(name);
    TrimOfTrimmed(desc);
  }

  lemma StoerungLayout(t: string, kw: string, desc: string)
    requires kw != [] && desc != [] && t == kw + ": " + desc
    ensures var w := |kw|;
      && StartsWith(t, kw) && t[0] == kw[0] && t[w] == ':' && t[w + 1] == ' ' && t[w + 2] == desc[0] && t[w + 2..] == desc
  {
    assert t[..|kw|] == kw;
    assert t[|kw| + 2..] == desc;
  }

  /** The fault pattern at a known layout: keyword, `:`, a space, the description. */
  lemma StoerungAt(t: string, k: nat, n: nat)
    requires FirstKeywordAt(t, 0, KaeseKeywords).None?
    requires k < |StoerungKeywords| && FirstKeywordAt(t, 0, StoerungKeywords) == Some(k)
    requires var w := |StoerungKeywords[k]|; w + 2 < |t| && t[w] == ':' && t[w + 1] == ' ' && !IsSpace(t[w + 2])
    ensures DetectEntity(t, n) == Some(Entity(Stoerung, None, Trim(t[|StoerungKeywords[k]| + 2..]), n, t))
  {
    var w := |StoerungKeywords[k]|;
    SkipSpacesTo(t, w, w);
    SkipSpacesTo(t, w + 1, w + 2);
  }

  /** `Störung: desc` is a fault with description `desc`. */
  lemma StoerungReadsBack(k: nat, desc: string, n: nat)
    requires k < |StoerungKeywords| && desc != [] && IsTrimmed(desc)
    ensures var t := StoerungKeywords[k] + ": " + desc;
      DetectEntity(t, n) == Some(Entity(Stoerung, None, desc, n, t))
  {
    var kw := StoerungKeywords[k];
    var t := kw + ": " + desc;
    StoerungLayout(t, kw, desc);
    NoKeywordByLetter(t, KaeseKeywords, 0);
    KeywordByFirstLetter(t, StoerungKeywords, k);
    StoerungAt(t, k, n);
    TrimOfTrimmed(desc);
  }

  lemma FreigabeLayout(t: string, kw: string, desc: string)
    requires |kw| >= 3 && desc != [] && t == kw + " " + desc
    ensures StartsWith(t, kw) && t[0] == kw[0] && t[2] == kw[2] && t[|kw|] == ' ' && t[|kw|..] == " " + desc
  {
    assert t[..|kw|] == kw;
    assert t[|kw|..] == " " + desc;
  }

  /** The release pattern at a known layout: keyword, a space, the description. */
  lemma FreigabeAt(t: string, k: nat, n: nat)
    requires FirstKeywordAt(t, 0, KaeseKeywords).None? && FirstKeywordAt(t, 0, StoerungKeywords).None?
    requires k < |FreigabeKeywords| && FirstKeywordAt(t, 0, FreigabeKeywords) == Some(k)
    requires var w := |FreigabeKeywords[k]|; w + 1 < |t| && IsSpace(t[w])
    ensures DetectEntity(t, n) == Some(Entity(Freigabe, None, Trim(t[|FreigabeKeywords[k]|..]), n, t))
  {
  }

  /** `Freigabe desc` is a release with description `desc`. */
  lemma FreigabeReadsBack(k: nat, desc: string, n: nat)
    requires k < |FreigabeKeywords| && desc != [] && IsTrimmed(desc)
    ensures var t := FreigabeKeywords[k] + " " + desc;
      DetectEntity(t, n) == Some(Entity(Freigabe, None, desc, n, t))
  {
    var kw := FreigabeKeywords[k];
    var t := kw + " " + desc;
    FreigabeLayout(t, kw, desc);
    NoKeywordByLetter(t, KaeseKeywords, 0);
    NoKeywordByLetter(t, StoerungKeywords, 2);
    KeywordByFirstLetter(t, FreigabeKeywords, k);
    FreigabeAt(t, k, n);
    TrimAfterSpace(desc);
  }

  // ------------------------------------------------------------------
  // Comparisons read back
  // ------------------------------------------------------------------

  /**
   * Where the left operand holds no operator character and ends at `c`,
   * every split tried before `c` moves on.
   */
  lemma {:induction false} ComparisonSplitFrom(t: string, e: nat, c: nat)
    requires 1 <= e <= c < |t| && !IsSpace(t[c - 1])
    requires forall k :: 0 <= k < c ==> !IsOperatorChar(t[k])
    ensures ComparisonSplit(t, e) == ComparisonSplit(t, c)
    decreases c - e
  {
    if e < c {
      var p := SkipSpaces(t, e);
      assert p < c;
      SkipOperatorCharsTo(t, p, p);
      ComparisonSplitFrom(t, e + 1, c);
    }
  }

  lemma ComparisonLayout(t: string, left: string, op: string, right: string)
    requires left != [] && op != [] && t == left + " " + op + " " + right
    ensures var c := |left|; var o := c + 1 + |op|;
      && t[..c] == left && t[c - 1] == left[c - 1] && t[c] == ' ' && t[c + 1] == op[0]
      && t[c + 1..o] == op && t[o] == ' ' && t[o..] == " " + right
  {
    var c := |left|;
    var o := c + 1 + |op|;
    assert t[..c] == left;
    assert t[c + 1..o] == op;
    assert t[o..] == " " + right;
  }

  /** The comparison split at a known layout: left operand to `c`, a space, the operator run to `o`. */
  lemma ComparisonSplitAt(t: string, c: nat, o: nat)
    requires 1 <= c && c + 1 < o < |t| && IsSpace(t[c]) && !IsSpace(t[c + 1]) && SkipOperatorChars(t, c + 1) == o
    requires ComparisonSplit(t, 1) == ComparisonSplit(t, c)
    ensures ComparisonSplit(t, 1) == Some(MatchSplit(c, c + 1, o))
  {
    SkipSpacesTo(t, c, c + 1);
  }

  /** A comparison split found: the condition is the comparison it describes. */
  lemma ComparisonFound(t: string, x: MatchSplit, n: nat)
    requires t != [] && ComparisonSplit(t, 1) == Some(x)
    ensures EnhanceCondition(t, n) == Some(ComparisonOf(t, x, n))
  {
  }

  /** The comparison at a known split, where a trimmed left operand and a trimmed right one sit. */
  lemma ComparisonRecord(t: string, c: nat, o: nat, left: string, op: string, right: string, n: nat)
    requires c < o <= |t| && t[..c] == left && IsTrimmed(left) && t[c + 1..o] == op
    requires right != [] && IsTrimmed(right) && t[o..] == " " + right
    ensures ComparisonOf(t, MatchSplit(c, c + 1, o), n) == ComparisonCondition(left, op, right, n, t)
  {
    TrimOfTrimmed(left);
    TrimAfterSpace(right);
  }

  /** The searches of the comparison pattern at a laid-out text: the split tried from 1 moves to `c`, the operator run ends at `o`. */
  lemma ComparisonRuns(t: string, left: string, op: string, c: nat, o: nat)
    requires left != [] && forall k :: 0 <= k < |left| ==> !IsOperatorChar(left[k])
    requires op != [] && forall k :: 0 <= k < |op| ==> IsOperatorChar(op[k])
    requires c == |left| && o == c + 1 + |op| && o < |t|
    requires t[..c] == left && t[c - 1] == left[c - 1] && t[c + 1..o] == op && t[o] == ' '
    requires !IsSpace(left[c - 1])
    ensures ComparisonSplit(t, 1) == ComparisonSplit(t, c) && SkipOperatorChars(t, c + 1) == o
  {
    forall k | 0 <= k < c ensures !IsOperatorChar(t[k]) {
      assert t[k] == left[k];
    }
    ComparisonSplitFrom(t, 1, c);
    OperatorRunAfter(t, c + 1, o, op);
  }

  /** Where the comparison split lands in `left op right`. */
  lemma ComparisonLocated(t: string, left: string, op: string, right: string, c: nat, o: nat)
    requires left != [] && forall k :: 0 <= k < |left| ==> !IsOperatorChar(left[k])
    requires op != [] && forall k :: 0 <= k < |op| ==> IsOperatorChar(op[k])
    requires !IsSpace(left[|left| - 1]) && t == left + " " + op + " " + right
    requires c == |left| && o == c + 1 + |op|
    ensures o < |t| && ComparisonSplit(t, 1) == Some(MatchSplit(c, c + 1, o))
    ensures t[..c] == left && t[c + 1..o] == op && t[o..] == " " + right
  {
    ComparisonLayout(t, left, op, right);
    ComparisonRuns(t, left, op, c, o);
    ComparisonSplitAt(t, c, o);
  }

  /** `left op right`, with no operator character in `left`, is the comparison `op` of `left` and `right`. */
  lemma ComparisonReadsBack(left: string, op: string, right: string, n: nat)
    requires left != [] && IsTrimmed(left) && forall k :: 0 <= k < |left| ==> !IsOperatorChar(left[k])
    requires op != [] && forall k :: 0 <= k < |op| ==> IsOperatorChar(op[k])
    requires right != [] && IsTrimmed(right)
    ensures var t := left + " " + op + " " + right;
      EnhanceCondition(t, n) == Some(ComparisonCondition(left, op, right, n, t))
  {
    var t := left + " " + op + " " + right;
    var c := |left|;
    var o := c + 1 + |op|;
    ComparisonLocated(t, left, op, right, c, o);
    ComparisonFound(t, MatchSplit(c, c + 1, o), n);
    ComparisonRecord(t, c, o, left, op, right, n);
  }

  /** Where no operator character occurs from `e` on, no comparison split is found from `e`. */
  lemma {:induction false} NoComparisonFrom(t: string, e: nat)
    requires 1 <= e <= |t| && forall k :: e <= k < |t| ==> !IsOperatorChar(t[k])
    ensures ComparisonSplit(t, e).None?
    decreases |t| - e
  {
    if e < |t| {
      var p := SkipSpaces(t, e);
      SkipOperatorCharsTo(t, p, p);
      NoComparisonFrom(t, e + 1);
    }
  }

  /** Where `is` does not start at `p`, in any case, neither does `ist`. */
  lemma NotIsNotIst(t: string, p: nat)
    requires !AtIgnoreCase(t, p, "is")
    ensures !AtIgnoreCase(t, p, "ist")
  {
    if p + 3 <= |t| {
      assert Lower(t[p..p + 3])[..2] == Lower(t[p..p + 2]);
      assert Lower("ist")[..2] == Lower("is");
    }
  }

  /** `is` does not start at `p` when a space follows the character there. */
  lemma NoIsBeforeSpace(t: string, p: nat)
    requires p + 1 < |t| && IsSpace(t[p + 1])
    ensures !AtIgnoreCase(t, p, "is")
  {
    assert Lower(t[p..p + 2])[1] == LowerChar(t[p + 1]) == t[p + 1];
  }

  /** `ist` does not start at `p` when a space is the third character from there. */
  lemma NoIstBeforeSpace(t: string, p: nat)
    requires p + 2 < |t| && IsSpace(t[p + 2])
    ensures !AtIgnoreCase(t, p, "ist")
  {
    assert Lower(t[p..p + 3])[2] == LowerChar(t[p + 2]) == t[p + 2];
  }

  /**
   * Inside a subject that ends at `s` before a space, holds no operator
   * character and no `is` after its first character, no evaluation
   * operator starts at `p`.
   */
  lemma NoEvaluationAt(t: string, p: nat, s: nat)
    requires 1 <= p < s < |t| && IsSpace(t[s]) && !IsOperatorChar(t[p])
    requires p + 2 <= s ==> !AtIgnoreCase(t, p, "is")
    ensures EvaluationOperator(t, p).None?
  {
    if p + 2 > s {
      NoIsBeforeSpace(t, p);
    }
    NotIsNotIst(t, p);
    assert p + 2 <= |t| ==> t[p..p + 2][0] == t[p];
  }

  /** Every split the lazy subject tries before `s` moves on. */
  lemma {:induction false} EvaluationSplitFrom(t: string, e: nat, s: nat)
    requires 1 <= e <= s < |t| && !IsSpace(t[s - 1]) && IsSpace(t[s])
    requires forall k :: 0 <= k < s ==> !IsOperatorChar(t[k])
    requires forall k :: 1 <= k && k + 2 <= s ==> !AtIgnoreCase(t, k, "is")
    ensures EvaluationSplit(t, e) == EvaluationSplit(t, s)
    decreases s - e
  {
    if e < s {
      var p := SkipSpaces(t, e);
      assert p < s;
      NoEvaluationAt(t, p, s);
      EvaluationSplitFrom(t, e + 1, s);
    }
  }

  /** The letters of `ist` and `is`, in any case, are neither spaces nor operator characters. */
  lemma EvaluationWordChars(op: string)
    requires EqualsIgnoreCase(op, "ist") || EqualsIgnoreCase(op, "is")
    ensures |op| == 2 || |op| == 3
    ensures forall k :: 0 <= k < |op| ==> !IsSpace(op[k]) && !IsOperatorChar(op[k])
  {
    forall k | 0 <= k < |op| ensures !IsSpace(op[k]) && !IsOperatorChar(op[k]) {
      assert Lower(op)[k] == LowerChar(op[k]) && LowerChar(op[k]) in "ist";
    }
  }

  /** The text of `subject op value` holds no operator character anywhere. */
  lemma EvaluationNoOperatorChars(t: string, subject: string, op: string, value: string)
    requires forall k :: 0 <= k < |subject| ==> !IsOperatorChar(subject[k])
    requires forall k :: 0 <= k < |op| ==> !IsOperatorChar(op[k])
    requires forall k :: 0 <= k < |value| ==> !IsOperatorChar(value[k])
    requires t == subject + " " + op + " " + value
    ensures forall k :: 0 <= k < |t| ==> !IsOperatorChar(t[k])
  {
    forall k | 0 <= k < |t| ensures !IsOperatorChar(t[k]) {
      var c := |subject|;
      var o := c + 1 + |op|;
      if k < c {
        assert t[k] == subject[k];
      } else if c < k < o {
        assert t[k] == op[k - c - 1];
      } else if o < k {
        assert t[k] == value[k - o - 1];
      }
    }
  }

  /** The subject's `is`-freeness, read in the whole text. */
  lemma SubjectHasNoIs(t: string, subject: string, s: nat)
    requires s == |subject| <= |t| && t[..s] == subject
    requires forall k :: 1 <= k ==> !AtIgnoreCase(subject, k, "is")
    ensures forall k :: 1 <= k && k + 2 <= s ==> !AtIgnoreCase(t, k, "is")
  {
    forall k | 1 <= k && k + 2 <= s ensures !AtIgnoreCase(t, k, "is") {
      assert t[k..k + 2] == subject[k..k + 2];
      assert !AtIgnoreCase(subject, k, "is");
    }
  }

  /** Every split tried inside the subject moves on to the subject's end. */
  lemma SubjectSearched(t: string, subject: string, c: nat)
    requires subject != [] && IsTrimmed(subject) && forall k :: 0 <= k < |subject| ==> !IsOperatorChar(subject[k])
    requires forall k :: 1 <= k ==> !AtIgnoreCase(subject, k, "is")
    requires c == |subject| < |t| && t[..c] == subject && t[c - 1] == subject[c - 1] && t[c] == ' '
    ensures EvaluationSplit(t, 1) == EvaluationSplit(t, c)
  {
    SubjectHasNoIs(t, subject, c);
    forall k | 0 <= k < c ensures !IsOperatorChar(t[k]) {
      assert t[k] == subject[k];
    }
    EvaluationSplitFrom(t, 1, c);
  }

  /** The operator found right after the subject's space is `op`, as long as it is written. */
  lemma EvaluationOperatorAt(t: string, p: nat, op: string)
    requires EqualsIgnoreCase(op, "ist") || EqualsIgnoreCase(op, "is")
    requires p + |op| < |t| && t[p..p + |op|] == op && IsSpace(t[p + |op|])
    ensures EvaluationOperator(t, p) == Some(|op|)
  {
    if EqualsIgnoreCase(op, "is") {
      NoIstBeforeSpace(t, p);
    }
  }

  /** After the subject's space, the operator `op` as written gives the split at the subject's end. */
  lemma OperatorAfterSubject(t: string, op: string, c: nat, o: nat)
    requires EqualsIgnoreCase(op, "ist") || EqualsIgnoreCase(op, "is")
    requires 1 <= c && o == c + 1 + |op| && o < |t| && t[c] == ' ' && t[c + 1..o] == op && t[o] == ' '
    ensures EvaluationSplit(t, c) == Some(MatchSplit(c, c + 1, o))
  {
    EvaluationWordChars(op);
    assert t[c + 1] == op[0];
    SkipSpacesTo(t, c, c + 1);
    EvaluationOperatorAt(t, c + 1, op);
    EvaluationSplitAt(t, c, o);
  }

  /** The evaluation split at the subject's end, once the operator after its space is known. */
  lemma EvaluationSplitAt(t: string, c: nat, o: nat)
    requires 1 <= c < o < |t| && SkipSpaces(t, c) == c + 1 && EvaluationOperator(t, c + 1) == Some(o - c - 1)
    ensures EvaluationSplit(t, c) == Some(MatchSplit(c, c + 1, o))
  {
  }

  /** The evaluation at a known split, where a trimmed subject and a trimmed value sit. */
  lemma EvaluationRecord(t: string, c: nat, o: nat, subject: string, op: string, value: string, n: nat)
    requires c < o <= |t| && t[..c] == subject && IsTrimmed(subject) && t[c + 1..o] == op
    requires value != [] && IsTrimmed(value) && t[o..] == " " + value
    ensures EvaluationOf(t, MatchSplit(c, c + 1, o), n) == EvaluationCondition(subject, op, value, n, t)
  {
    TrimOfTrimmed(subject);
    TrimAfterSpace(value);
  }

  /**
   * `subject op value`, with `op` one of `ist` and `is` in any case, is the
   * evaluation `op` of `subject` against `value`, when no comparison can be
   * read in it and the subject holds no earlier `is`.
   */
  lemma EvaluationReadsBack(subject: string, op: string, value: string, n: nat)
    requires subject != [] && IsTrimmed(subject) && forall k :: 0 <= k < |subject| ==> !IsOperatorChar(subject[k])
    requires forall k :: 1 <= k ==> !AtIgnoreCase(subject, k, "is")
    requires EqualsIgnoreCase(op, "ist") || EqualsIgnoreCase(op, "is")
    requires value != [] && IsTrimmed(value) && forall k :: 0 <= k < |value| ==> !IsOperatorChar(value[k])
    ensures var t := subject + " " + op + " " + value;
      EnhanceCondition(t, n) == Some(EvaluationCondition(subject, op, value, n, t))
  {
    var t := subject + " " + op + " " + value;
    var c := |subject|;
    EvaluationWordChars(op);
    var o := c + 1 + |op|;
    ComparisonLayout(t, subject, op, value);
    EvaluationNoOperatorChars(t, subject, op, value);
    NoComparisonFrom(t, 1);
    SubjectSearched(t, subject, c);
    OperatorAfterSubject(t, op, c, o);
    EvaluationRecord(t, c, o, subject, op, value, n);
  }

  // ------------------------------------------------------------------
  // References read back
  // ------------------------------------------------------------------

  lemma TailLayout(t: string, pre: string, kw: string, steps: string)
    requires pre != [] && kw != [] && t == pre + " " + kw + " " + steps + ")"
    ensures var a := |pre| + 1; var b := a + |kw|;
      && t[..a] == pre + " " && t[a..b] == kw && t[b - 1] == kw[|kw| - 1] && t[b] == ' '
      && t[b + 1..|t| - 1] == steps && t[|t| - 1] == ')'
  {
    var a := |pre| + 1;
    var b := a + |kw|;
    assert t[..a] == pre + " ";
    assert t[a..b] == kw;
    assert t[b + 1..|t| - 1] == steps;
  }

  /** The step tail at a known layout: keyword ending at `b`, a space, the step run, `)`. */
  lemma TailAt(t: string, a: nat, b: nat)
    requires b + 1 < |t| - 1 && t[|t| - 1] == ')' && StepListStart(t, |t| - 1) == b + 1
    requires SkipSpacesBack(t, b + 1) == b && KeywordEndingAt(t, b, true) == Some(a)
    ensures StepTailOf(t) == Some(StepTail(a, b, b + 1, |t| - 1))
  {
    SkipSpacesBackTo(t, |t|, |t|);
  }

  /** `pre KW steps)`, `pre` ending in a non-space: the searches of the step tail land at `a` and `b`. */
  lemma StepTailSearches(t: string, pre: string, k: nat, steps: string, a: nat, b: nat)
    requires pre != [] && !IsSpace(pre[|pre| - 1])
    requires k < |SchrittAlternatives|
    requires steps != [] && forall j :: 0 <= j < |steps| ==> IsStepListChar(steps[j])
    requires t == pre + " " + SchrittAlternatives[k] + " " + steps + ")"
    requires a == |pre| + 1 && b == a + |SchrittAlternatives[k]|
    ensures b + 1 < |t| - 1 && t[|t| - 1] == ')' && StepListStart(t, |t| - 1) == b + 1
    ensures SkipSpacesBack(t, b + 1) == b && KeywordEndingAt(t, b, true) == Some(a)
    ensures t[..a] == pre + " " && t[a..b] == SchrittAlternatives[k] && t[b + 1..|t| - 1] == steps
  {
    var kw := SchrittAlternatives[k];
    TailLayout(t, pre, kw, steps);
    assert !IsSpace(kw[|kw| - 1]);
    StepRunBefore(t, b + 1, |t| - 1, steps);
    SkipSpacesBackTo(t, b + 1, b);
    KeywordEndingAtIs(t, k, b, true);
  }

  /** `pre KW steps)`, `pre` ending in a non-space: the step tail starts right after `pre`. */
  lemma StepTailAfter(t: string, pre: string, k: nat, steps: string, a: nat, b: nat)
    requires pre != [] && !IsSpace(pre[|pre| - 1])
    requires k < |SchrittAlternatives|
    requires steps != [] && forall j :: 0 <= j < |steps| ==> IsStepListChar(steps[j])
    requires t == pre + " " + SchrittAlternatives[k] + " " + steps + ")"
    requires a == |pre| + 1 && b == a + |SchrittAlternatives[k]|
    ensures StepTailOf(t) == Some(StepTail(a, b, b + 1, |t| - 1))
    ensures t[..a] == pre + " " && t[a..b] == SchrittAlternatives[k] && t[b + 1..|t| - 1] == steps
  {
    StepTailSearches(t, pre, k, steps, a, b);
    TailAt(t, a, b);
  }

  lemma QualifiedHeadLayout(t: string, x: string, desc: string, prog: string, digits: string, o: nat, h: nat, g: nat)
    requires desc != [] && prog != [] && digits != [] && x == desc + " (" + prog + " FB" + digits + " "
    requires o == |desc| + 1 && h == o + |prog| + 4 && g == h + |digits| && |x| <= |t| && t[..|x|] == x
    ensures |x| == g + 1 && t[..o] == desc + " " && t[o] == '(' && t[o + 1..h - 3] == prog && t[h - 3] == ' '
    ensures t[h - 2..h] == "FB" && t[h - 1] == 'B' && t[h..g] == digits && t[h - 2..g] == "FB" + digits
    ensures t[g - 1] == digits[|digits| - 1] && t[g] == ' '
  {
    assert x[..o] == desc + " ";
    assert x[o + 1..h - 3] == prog;
    assert x[h - 2..h] == "FB";
    assert x[h..g] == digits;
    assert x[h - 2..g] == "FB" + digits;
    assert t[..o] == x[..o] && t[o + 1..h - 3] == x[o + 1..h - 3];
    assert t[h - 2..h] == x[h - 2..h] && t[h..g] == x[h..g] && t[h - 2..g] == x[h - 2..g];
  }

  /** The `(` at `o` opens a program name that runs to the space at `j`. */
  lemma OpeningAt(t: string, j: nat, o: nat)
    requires 1 <= o && o + 1 < j < |t| && t[o] == '(' && IsSpace(t[j]) && NameRunStart(t, j) == o + 1
    ensures ProgramOpening(t, j) == Some(o)
  {
  }

  /** The qualified layout at known positions: `(` at `o`, digits from `h` to `g`, a space before the keyword. */
  lemma QualifiedLayoutAt(t: string, tail: StepTail, o: nat, h: nat, g: nat)
    requires tail.keywordStart < |t| && g + 1 == tail.keywordStart && SkipSpacesBack(t, tail.keywordStart) == g
    requires 3 <= h < g && SkipDigitsBack(t, g) == h && AtIgnoreCase(t, h - 2, "FB")
    requires ProgramOpening(t, h - 3) == Some(o)
    ensures QualifiedLayout(t, tail) == Some((o, h, g))
  {
  }

  /** A step tail found: what follows depends only on the text before it. */
  lemma TailFound(t: string, tail: StepTail)
    requires StepTailOf(t) == Some(tail)
    ensures QualifiedReference(t) == QualifiedBeforeTail(t, tail)
    ensures UnqualifiedReference(t) == UnqualifiedBeforeTail(t, tail)
  {
  }

  /** A qualified layout found: the captures are taken at those positions. */
  lemma QualifiedCaptured(t: string, tail: StepTail, o: nat, h: nat, g: nat)
    requires tail.keywordStart <= tail.keywordEnd <= |t| && tail.stepsStart <= tail.close <= |t| && tail.keywordStart < |t|
    requires QualifiedLayout(t, tail) == Some((o, h, g))
    ensures QualifiedBeforeTail(t, tail) == Some(CapturesAt(t, o, h - 3, Some(t[h - 2..g]), tail))
  {
  }

  /** Qualified captures make the reference, attributed to the FB they name. */
  lemma QualifiedFound(t: string, x: ReferenceCaptures, fbNumber: string, n: nat, fb: Option<string>)
    requires QualifiedReference(t) == Some(x) && x.fbNumber == Some(fbNumber)
    ensures NormalizeReference(t, n, fb) == Some(ReferenceOf(x, fbNumber, n, t))
  {
  }

  /** Captures holding a trimmed description followed by a space and a trimmed name make a reference to those. */
  lemma TrimmedReference(x: ReferenceCaptures, desc: string, prog: string, kw: string, steps: string,
                         fb: string, n: nat, t: string)
    requires desc != [] && IsTrimmed(desc) && x.description == desc + " " && prog != [] && IsTrimmed(prog) && x.program == prog
    requires x.keyword == kw && x.steps == steps
    ensures ReferenceOf(x, fb, n, t) == Reference(desc, prog, fb, kw, ParseStepList(steps), fb + "." + kw + " " + steps, n, t)
  {
    TrimBeforeSpace(desc);
    TrimOfTrimmed(prog);
  }


  /** The head searches at a laid-out head: spaces back to `g`, digits back to `h`, `FB`, the `(` at `o`. */
  lemma QualifiedHeadRuns(t: string, prog: string, digits: string, o: nat, h: nat, g: nat)
    requires 1 <= o && o + 1 < h - 3 && h < g < |t| && AllNameChars(prog) && AllDigits(digits)
    requires t[o] == '(' && t[o + 1..h - 3] == prog && t[h - 3] == ' ' && t[h - 2..h] == "FB" && t[h - 1] == 'B'
    requires t[h..g] == digits && t[g - 1] == digits[|digits| - 1] && t[g] == ' '
    ensures SkipSpacesBack(t, g + 1) == g && SkipDigitsBack(t, g) == h && AtIgnoreCase(t, h - 2, "FB")
    ensures ProgramOpening(t, h - 3) == Some(o)
  {
    SkipSpacesBackTo(t, g + 1, g);
    DigitRunBefore(t, h, g, digits);
    NameRunBefore(t, o + 1, h - 3, prog);
    AtFromSlice(t, h - 2, "FB");
    OpeningAt(t, h - 3, o);
  }

  /** The head `desc (prog FBnn ` at the start of `t`: where its searches land and what sits between. */
  lemma QualifiedHead(t: string, x: string, desc: string, prog: string, digits: string, o: nat, h: nat, g: nat)
    requires desc != [] && prog != [] && AllNameChars(prog) && digits != [] && AllDigits(digits)
    requires x == desc + " (" + prog + " FB" + digits + " " && |x| < |t| && t[..|x|] == x
    requires o == |desc| + 1 && h == o + |prog| + 4 && g == h + |digits|
    ensures g + 1 == |x| && SkipSpacesBack(t, g + 1) == g && SkipDigitsBack(t, g) == h && AtIgnoreCase(t, h - 2, "FB")
    ensures ProgramOpening(t, h - 3) == Some(o)
    ensures t[..o] == desc + " " && t[o + 1..h - 3] == prog && t[h - 2..g] == "FB" + digits
  {
    QualifiedHeadLayout(t, x, desc, prog, digits, o, h, g);
    QualifiedHeadRuns(t, prog, digits, o, h, g);
  }

  /** Where the searches for the qualified form land in `desc (prog FBnn KW steps)`. */
  lemma QualifiedLocated(t: string, pre: string, desc: string, prog: string, digits: string, k: nat, steps: string,
                         o: nat, h: nat, g: nat, a: nat, b: nat)
    requires desc != [] && prog != [] && AllNameChars(prog)
    requires digits != [] && AllDigits(digits) && k < |SchrittAlternatives|
    requires steps != [] && forall j :: 0 <= j < |steps| ==> IsStepListChar(steps[j])
    requires pre == desc + " (" + prog + " FB" + digits && t == pre + " " + SchrittAlternatives[k] + " " + steps + ")"
    requires o == |desc| + 1 && h == o + |prog| + 4 && g == h + |digits| && a == g + 1 && b == a + |SchrittAlternatives[k]|
    ensures b + 1 < |t| && StepTailOf(t) == Some(StepTail(a, b, b + 1, |t| - 1))
    ensures QualifiedLayout(t, StepTail(a, b, b + 1, |t| - 1)) == Some((o, h, g))
    ensures t[..o] == desc + " " && t[o + 1..h - 3] == prog && t[h - 2..g] == "FB" + digits
    ensures t[a..b] == SchrittAlternatives[k] && t[b + 1..|t| - 1] == steps
  {
    var tail := StepTail(a, b, b + 1, |t| - 1);
    assert pre[|pre| - 1] == digits[|digits| - 1];
    StepTailAfter(t, pre, k, steps, a, b);
    QualifiedHead(t, pre + " ", desc, prog, digits, o, h, g);
    QualifiedLayoutAt(t, tail, o, h, g);
  }

  /** The qualified form found at known positions, with a trimmed description and name there. */
  lemma QualifiedReferenceAt(t: string, o: nat, h: nat, g: nat, a: nat, b: nat, desc: string, prog: string,
                             fbNumber: string, kw: string, steps: string, n: nat, fb: Option<string>)
    requires b + 1 < |t| && StepTailOf(t) == Some(StepTail(a, b, b + 1, |t| - 1))
    requires QualifiedLayout(t, StepTail(a, b, b + 1, |t| - 1)) == Some((o, h, g))
    requires desc != [] && IsTrimmed(desc) && t[..o] == desc + " " && prog != [] && IsTrimmed(prog) && t[o + 1..h - 3] == prog
    requires t[h - 2..g] == fbNumber && t[a..b] == kw && t[b + 1..|t| - 1] == steps
    ensures NormalizeReference(t, n, fb)
         == Some(Reference(desc, prog, fbNumber, kw, ParseStepList(steps), fbNumber + "." + kw + " " + steps, n, t))
  {
    var tail := StepTail(a, b, b + 1, |t| - 1);
    TailFound(t, tail);
    QualifiedCaptured(t, tail, o, h, g);
    var x := CapturesAt(t, o, h - 3, Some(t[h - 2..g]), tail);
    QualifiedFound(t, x, fbNumber, n, fb);
    TrimmedReference(x, desc, prog, kw, steps, fbNumber, n, t);
  }

  /**
   * `desc (prog FBnn KW steps)` reads back as a reference to those steps of
   * that program, attributed to the FB it names whatever FB is current.
   */
  lemma QualifiedReferenceReadsBack(desc: string, prog: string, digits: string, k: nat, steps: string,
                                    n: nat, fb: Option<string>)
    requires desc != [] && IsTrimmed(desc) && prog != [] && IsTrimmed(prog) && AllNameChars(prog)
    requires digits != [] && AllDigits(digits) && k < |SchrittAlternatives|
    requires steps != [] && forall j :: 0 <= j < |steps| ==> IsStepListChar(steps[j])
    ensures var kw := SchrittAlternatives[k];
      var t := desc + " (" + prog + " FB" + digits + " " + kw + " " + steps + ")";
      NormalizeReference(t, n, fb)
        == Some(Reference(desc, prog, "FB" + digits, kw, ParseStepList(steps),
                          "FB" + digits + "." + kw + " " + steps, n, t))
  {
    var kw := SchrittAlternatives[k];
    var pre := desc + " (" + prog + " FB" + digits;
    var t := pre + " " + kw + " " + steps + ")";
    var o := |desc| + 1;
    var h := o + |prog| + 4;
    var g := h + |digits|;
    var a := g + 1;
    var b := a + |kw|;
    QualifiedLocated(t, pre, desc, prog, digits, k, steps, o, h, g, a, b);
    QualifiedReferenceAt(t, o, h, g, a, b, desc, prog, "FB" + digits, kw, steps, n, fb);
  }

  /** An unqualified layout found: the captures are taken at that position, the name ending at `g`. */
  lemma UnqualifiedCaptured(t: string, tail: StepTail, o: nat, g: nat)
    requires tail.keywordStart <= tail.keywordEnd <= |t| && tail.stepsStart <= tail.close <= |t| && tail.keywordStart < |t|
    requires g + 1 == tail.keywordStart && UnqualifiedLayout(t, tail) == Some(o)
    ensures UnqualifiedBeforeTail(t, tail) == Some(CapturesAt(t, o, g, None, tail))
  {
  }

  /** No qualified layout: no qualified captures either. */
  lemma QualifiedRejected(t: string, tail: StepTail)
    requires tail.keywordStart <= tail.keywordEnd <= |t| && tail.stepsStart <= tail.close <= |t| && tail.keywordStart < |t|
    requires QualifiedLayout(t, tail).None?
    ensures QualifiedBeforeTail(t, tail).None?
  {
  }

  /** The qualified form rejected and the unqualified one found: the reference goes to the current FB. */
  lemma UnqualifiedFound(t: string, x: ReferenceCaptures, n: nat, fb: Option<string>)
    requires QualifiedReference(t).None? && UnqualifiedReference(t) == Some(x)
    ensures NormalizeReference(t, n, fb) == Some(ReferenceOf(x, FbOrUnknown(fb), n, t))
  {
  }

  lemma UnqualifiedHeadLayout(t: string, x: string, desc: string, prog: string, o: nat, g: nat)
    requires desc != [] && prog != [] && x == desc + " (" + prog + " "
    requires o == |desc| + 1 && g == o + 1 + |prog| && |x| <= |t| && t[..|x|] == x
    ensures |x| == g + 1 && t[..o] == desc + " " && t[o] == '(' && t[o + 1..g] == prog
    ensures t[g - 1] == prog[|prog| - 1] && t[g] == ' '
  {
    assert x[..o] == desc + " ";
    assert x[o + 1..g] == prog;
    assert t[..o] == x[..o] && t[o + 1..g] == x[o + 1..g];
  }

  /** No digits before the space ahead of the keyword: the qualified form does not apply. */
  lemma NotQualifiedAt(t: string, tail: StepTail, g: nat)
    requires g + 1 == tail.keywordStart < |t| && SkipSpacesBack(t, tail.keywordStart) == g && SkipDigitsBack(t, g) == g
    ensures QualifiedLayout(t, tail).None?
  {
  }

  /** A program name opening at `o` and running to the space ahead of the keyword: the unqualified form applies. */
  lemma UnqualifiedLayoutAt(t: string, tail: StepTail, o: nat, g: nat)
    requires g + 1 == tail.keywordStart < |t| && ProgramOpening(t, g) == Some(o)
    ensures UnqualifiedLayout(t, tail) == Some(o)
  {
  }

  /** The head searches at a laid-out head: spaces back to `g`, no digits there, the `(` at `o`. */
  lemma UnqualifiedHeadRuns(t: string, prog: string, o: nat, g: nat)
    requires 1 <= o && o + 1 < g < |t| && prog != [] && AllNameChars(prog)
    requires !IsDigit(prog[|prog| - 1]) && !IsSpace(prog[|prog| - 1])
    requires t[o] == '(' && t[o + 1..g] == prog && t[g - 1] == prog[|prog| - 1] && t[g] == ' '
    ensures SkipSpacesBack(t, g + 1) == g && SkipDigitsBack(t, g) == g && ProgramOpening(t, g) == Some(o)
  {
    SkipSpacesBackTo(t, g + 1, g);
    SkipDigitsBackTo(t, g, g);
    NameRunBefore(t, o + 1, g, prog);
    OpeningAt(t, g, o);
  }

  /** The head `desc (prog ` at the start of `t`: where its searches land and what sits between. */
  lemma UnqualifiedHead(t: string, x: string, desc: string, prog: string, o: nat, g: nat)
    requires desc != [] && prog != [] && AllNameChars(prog) && !IsDigit(prog[|prog| - 1]) && !IsSpace(prog[|prog| - 1])
    requires x == desc + " (" + prog + " " && |x| < |t| && t[..|x|] == x
    requires o == |desc| + 1 && g == o + 1 + |prog|
    ensures g + 1 == |x| && SkipSpacesBack(t, g + 1) == g && SkipDigitsBack(t, g) == g && ProgramOpening(t, g) == Some(o)
    ensures t[..o] == desc + " " && t[o + 1..g] == prog
  {
    UnqualifiedHeadLayout(t, x, desc, prog, o, g);
    UnqualifiedHeadRuns(t, prog, o, g);
  }

  /** Where the searches for the unqualified form land in `desc (prog KW steps)`. */
  lemma UnqualifiedLocated(t: string, pre: string, desc: string, prog: string, k: nat, steps: string,
                           o: nat, g: nat, a: nat, b: nat)
    requires desc != [] && prog != [] && AllNameChars(prog)
    requires !IsDigit(prog[|prog| - 1]) && !IsSpace(prog[|prog| - 1]) && k < |SchrittAlternatives|
    requires steps != [] && forall j :: 0 <= j < |steps| ==> IsStepListChar(steps[j])
    requires pre == desc + " (" + prog && t == pre + " " + SchrittAlternatives[k] + " " + steps + ")"
    requires o == |desc| + 1 && g == o + 1 + |prog| && a == g + 1 && b == a + |SchrittAlternatives[k]|
    ensures b + 1 < |t| && StepTailOf(t) == Some(StepTail(a, b, b + 1, |t| - 1))
    ensures QualifiedLayout(t, StepTail(a, b, b + 1, |t| - 1)).None?
    ensures UnqualifiedLayout(t, StepTail(a, b, b + 1, |t| - 1)) == Some(o)
    ensures t[..o] == desc + " " && t[o + 1..g] == prog
    ensures t[a..b] == SchrittAlternatives[k] && t[b + 1..|t| - 1] == steps
  {
    var tail := StepTail(a, b, b + 1, |t| - 1);
    assert pre[|pre| - 1] == prog[|prog| - 1];
    StepTailAfter(t, pre, k, steps, a, b);
    UnqualifiedHead(t, pre + " ", desc, prog, o, g);
    NotQualifiedAt(t, tail, g);
    UnqualifiedLayoutAt(t, tail, o, g);
  }

  /** The unqualified form found at known positions, with a trimmed description and name there. */
  lemma UnqualifiedReferenceAt(t: string, o: nat, g: nat, a: nat, b: nat, desc: string, prog: string,
                               kw: string, steps: string, n: nat, fb: Option<string>)
    requires g + 1 == a && b + 1 < |t| && StepTailOf(t) == Some(StepTail(a, b, b + 1, |t| - 1))
    requires QualifiedLayout(t, StepTail(a, b, b + 1, |t| - 1)).None?
    requires UnqualifiedLayout(t, StepTail(a, b, b + 1, |t| - 1)) == Some(o)
    requires desc != [] && IsTrimmed(desc) && t[..o] == desc + " " && prog != [] && IsTrimmed(prog) && t[o + 1..g] == prog
    requires t[a..b] == kw && t[b + 1..|t| - 1] == steps
    ensures NormalizeReference(t, n, fb)
         == Some(Reference(desc, prog, FbOrUnknown(fb), kw, ParseStepList(steps), FbOrUnknown(fb) + "." + kw + " " + steps, n, t))
  {
    var tail := StepTail(a, b, b + 1, |t| - 1);
    TailFound(t, tail);
    QualifiedRejected(t, tail);
    UnqualifiedCaptured(t, tail, o, g);
    var x := CapturesAt(t, o, g, None, tail);
    UnqualifiedFound(t, x, n, fb);
    TrimmedReference(x, desc, prog, kw, steps, FbOrUnknown(fb), n, t);
  }

  /**
   * `desc (prog KW steps)`, the program not ending in a digit, reads back as
   * a reference to those steps of that program, attributed to the current
   * FB, or to `UNKNOWN` when there is none.
   */
  lemma UnqualifiedReferenceReadsBack(desc: string, prog: string, k: nat, steps: string, n: nat, fb: Option<string>)
    requires desc != [] && IsTrimmed(desc) && prog != [] && IsTrimmed(prog) && AllNameChars(prog)
    requires !IsDigit(prog[|prog| - 1]) && k < |SchrittAlternatives|
    requires steps != [] && forall j :: 0 <= j < |steps| ==> IsStepListChar(steps[j])
    ensures var kw := SchrittAlternatives[k];
      var t := desc + " (" + prog + " " + kw + " " + steps + ")";
      NormalizeReference(t, n, fb)
        == Some(Reference(desc, prog, FbOrUnknown(fb), kw, ParseStepList(steps),
                          FbOrUnknown(fb) + "." + kw + " " + steps, n, t))
  {
    var kw := SchrittAlternatives[k];
    var pre := desc + " (" + prog;
    var t := pre + " " + kw + " " + steps + ")";
    var o := |desc| + 1;
    var g := o + 1 + |prog|;
    var a := g + 1;
    var b := a + |kw|;
    UnqualifiedLocated(t, pre, desc, prog, k, steps, o, g, a, b);
    UnqualifiedReferenceAt(t, o, g, a, b, desc, prog, kw, steps, n, fb);
  }
}
