/**
 * The part of JavaScript regular expressions that the condition categories of
 * src/core/IntelligentConditionParser.js use: character classes, runs,
 * sequences, alternatives and the end anchor, matched with backtracking.
 */
module ConditionRegex {
  import opened Text

  // ---------------------------------------------------------------------
  // Regular expressions, as far as the category tables use them
  // ---------------------------------------------------------------------

  /** A character class. */
  datatype CharSet =
    | Is(ch: char)
    | Between(lo: char, hi: char)
    | AnySpace
    | AnyDigit
    | AnyWord
    | Either(a: CharSet, b: CharSet)
    | Except(excluded: CharSet)

  predicate InSet(cs: CharSet, c: char) {
    match cs
    case Is(x) => c == x
    case Between(lo, hi) => lo <= c <= hi
    case AnySpace => IsSpace(c)
    case AnyDigit => IsDigit(c)
    case AnyWord => IsWordChar(c)
    case Either(a, b) => InSet(a, c) || InSet(b, c)
    case Except(x) => !InSet(x, c)
  }

  /** Some case variant of `c` is in `cs`: membership under the `i` flag. */
  predicate Folds(cs: CharSet, c: char) {
    InSet(cs, c) || InSet(cs, UpperChar(c)) || InSet(cs, LowerChar(c))
  }

  /** `c` matches the class; under `ci` a negated class excludes every case variant of its members. */
  predicate CharMatches(cs: CharSet, c: char, ci: bool) {
    if !ci then InSet(cs, c)
    else if cs.Except? then !Folds(cs.excluded, c)
    else Folds(cs, c)
  }

  /**
   * The regular expressions of the category tables. Every quantifier of those
   * tables applies to a single character class, so `Many` (a class repeated
   * zero or more times) and the class itself are the only repeating forms.
   */
  datatype Regex =
    | Eps
    | EndOfInput
    | Char(cs: CharSet)
    | Many(each: CharSet)
    | Then(first: Regex, next: Regex)
    | Or(left: Regex, right: Regex)

  /** The end of the longest run of characters from `cs` that starts at `i`. */
  function RunEnd(s: string, i: nat, cs: CharSet, ci: bool): (r: nat)
    requires i <= |s|
    ensures i <= r <= |s|
    ensures forall k :: i <= k < r ==> CharMatches(cs, s[k], ci)
    ensures r == |s| || !CharMatches(cs, s[r], ci)
    decreases |s| - i
  {
    if i == |s| || !CharMatches(cs, s[i], ci) then i else RunEnd(s, i + 1, cs, ci)
  }

  /**
   * Every position at which a match of `r` that starts at `i` can end. The
   * set covers all the ways backtracking can try, so a match exists exactly
   * when the set is not empty.
   */
  function Ends(r: Regex, s: string, i: nat, ci: bool): (e: set<nat>)
    requires i <= |s|
    ensures forall k :: k in e ==> i <= k <= |s|
    decreases r
  {
    match r
    case Eps => {i}
    case EndOfInput => if i == |s| then {i} else {}
    case Char(cs) => if i < |s| && CharMatches(cs, s[i], ci) then {i + 1} else {}
    case Many(cs) => Upto(i, RunEnd(s, i, cs, ci))
    case Then(a, b) => set m, k | m in Ends(a, s, i, ci) && k in Ends(b, s, m, ci) :: k
    case Or(a, b) => Ends(a, s, i, ci) + Ends(b, s, i, ci)
  }

  /** The positions from `i` to `j`. */
  function Upto(i: nat, j: nat): (r: set<nat>)
    ensures forall k :: k in r <==> i <= k <= j
    decreases j
  {
    if j < i then {} else if j == i then {i} else Upto(i, j - 1) + {j}
  }

  /** A literal word. */
  function Lit(w: string): Regex
    decreases |w|
  {
    if w == [] then Eps else Then(Char(Is(w[0])), Lit(w[1..]))
  }

  /** A literal matches, case-sensitively, exactly where the text holds it. */
  lemma {:induction false} LiteralEnds(w: string, s: string, i: nat)
    requires i <= |s|
    ensures Ends(Lit(w), s, i, false) == if At(s, i, w) then {i + |w|} else {}
    decreases |w|
  {
    if w != [] {
      if i < |s| && s[i] == w[0] {
        LiteralEnds(w[1..], s, i + 1);
        if At(s, i, w) {
          assert s[i + 1..i + 1 + |w[1..]|] == s[i..i + |w|][1..];
        }
      }
    }
  }

  /** A sequence of expressions, one after the other. */
  function Cat(rs: seq<Regex>): Regex
  {
    if rs == [] then Eps else if |rs| == 1 then rs[0] else Then(rs[0], Cat(rs[1..]))
  }

  /** `(w1|w2|...)`, tried in order. */
  function Words(ws: seq<string>): Regex
    requires |ws| >= 1
  {
    if |ws| == 1 then Lit(ws[0]) else Or(Lit(ws[0]), Words(ws[1..]))
  }

  /** `[cs]+` */
  function Plus(cs: CharSet): Regex { Then(Char(cs), Many(cs)) }

  /** `[cs]{2,}` */
  function AtLeastTwo(cs: CharSet): Regex { Then(Char(cs), Plus(cs)) }

  /** `[cs]?` */
  function Maybe(cs: CharSet): Regex { Or(Char(cs), Eps) }

  /** One entry of a category table: the expression, whether it starts with `^`, and its `i` flag. */
  datatype Pattern = Pattern(re: Regex, anchored: bool, ci: bool)

  /** `regex.test(s)`, with the `lastIndex` of a `g` flag left at 0. */
  predicate Test(p: Pattern, s: string) {
    if p.anchored then Ends(p.re, s, 0, p.ci) != {}
    else exists i | 0 <= i <= |s| :: Ends(p.re, s, i, p.ci) != {}
  }

  // ---------------------------------------------------------------------
  // Global replacement of class runs
  // ---------------------------------------------------------------------

  /**
   * A global `replace` of a class run: every longest run of at least `min`
   * characters from `cs`, taken left to right, becomes `rep`.
   */
  function ReplaceRuns(s: string, cs: CharSet, min: nat, rep: string): string
    requires min >= 1
    decreases |s|
  {
    if s == [] then []
    else
      var n := RunEnd(s, 0, cs, false);
      if n >= min then rep + ReplaceRuns(s[n..], cs, min, rep)
      else [s[0]] + ReplaceRuns(s[1..], cs, min, rep)
  }

  /** Every character of the result comes from `rep` or from `s`; with `min == 1` none from `s` is in `cs`. */
  lemma {:induction false} ReplaceRunsChars(s: string, cs: CharSet, min: nat, rep: string)
    requires min >= 1
    ensures forall c :: c in ReplaceRuns(s, cs, min, rep) ==>
      c in rep || (c in s && (min == 1 ==> !InSet(cs, c)))
    decreases |s|
  {
    if s != [] {
      var n := RunEnd(s, 0, cs, false);
      if n >= min {
        ReplaceRunsChars(s[n..], cs, min, rep);
        assert forall c :: c in s[n..] ==> c in s;
      } else {
        ReplaceRunsChars(s[1..], cs, min, rep);
        assert forall c :: c in s[1..] ==> c in s;
      }
    }
  }

  /** No two neighbours of the result are both in `cs` when every run became one character. */
  predicate NoTwoInARow(s: string, cs: CharSet) {
    forall k :: 0 <= k < |s| - 1 ==> !(InSet(cs, s[k]) && InSet(cs, s[k + 1]))
  }

  /** A text without two class members in a row has no run of two to replace, and is kept. */
  lemma {:induction false} ReplaceRunsKeeps(s: string, cs: CharSet, rep: string)
    requires NoTwoInARow(s, cs)
    ensures ReplaceRuns(s, cs, 2, rep) == s
    decreases |s|
  {
    if s != [] {
      if |s| >= 2 {
        assert !(CharMatches(cs, s[0], false) && CharMatches(cs, s[1], false));
      }
      assert NoTwoInARow(s[1..], cs) by {
        assert forall k :: 0 <= k < |s| - 1 ==> s[1..][k] == s[k + 1];
      }
      ReplaceRunsKeeps(s[1..], cs, rep);
      assert s == [s[0]] + s[1..];
    }
  }

  /** When runs of one or two characters and more become one character, no two class members are neighbours. */
  lemma {:induction false} ReplaceRunsSeparates(s: string, cs: CharSet, min: nat, rep: string)
    requires 1 <= min <= 2 && |rep| == 1
    ensures NoTwoInARow(ReplaceRuns(s, cs, min, rep), cs)
    decreases |s|
  {
    if s != [] {
      var n := RunEnd(s, 0, cs, false);
      var t := if n >= min then s[n..] else s[1..];
      ReplaceRunsSeparates(t, cs, min, rep);
      var r := ReplaceRuns(t, cs, min, rep);
      if n >= 1 && t != [] {
        assert t[0] == s[n];
        assert RunEnd(t, 0, cs, false) == 0;
        assert r[0] == t[0];
      }
    }
  }
}
