/**
 * The condition categoriser of src/core/IntelligentConditionParser.js:
 * the ten regular-expression categories, the bucketing of unknown lines and
 * the statistics over the buckets.
 */
module IntelligentConditions {
  import opened Wrappers
  import opened Text
  import opened ConditionRegex

  // ---------------------------------------------------------------------
  // The category tables (IntelligentConditionParser.js:11-100)
  // ---------------------------------------------------------------------

  datatype Category =
    | CrossReferences
    | Conditions
    | ZeitPatterns
    | TechnicalStatus
    | VariableAssignments
    | IndustrialPatterns
    | NumberingPatterns
    | ArrayPatterns
    | BooleanPatterns
    | NumericPatterns

  /** The categories in declaration order, the order they are tried in. */
  const Categories: seq<Category> := [
    CrossReferences, Conditions, ZeitPatterns, TechnicalStatus, VariableAssignments,
    IndustrialPatterns, NumberingPatterns, ArrayPatterns, BooleanPatterns, NumericPatterns
  ]

  function CategoryIndex(c: Category): (k: nat)
    ensures k < |Categories| && Categories[k] == c
  {
    match c
    case CrossReferences => 0
    case Conditions => 1
    case ZeitPatterns => 2
    case TechnicalStatus => 3
    case VariableAssignments => 4
    case IndustrialPatterns => 5
    case NumberingPatterns => 6
    case ArrayPatterns => 7
    case BooleanPatterns => 8
    case NumericPatterns => 9
  }

  const Spaces: Regex := Many(AnySpace)
  const SomeSpace: Regex := Plus(AnySpace)
  const Digits: Regex := Plus(AnyDigit)
  const UpperAZ: CharSet := Between('A', 'Z')
  const Letter: CharSet := Either(Between('A', 'Z'), Between('a', 'z'))
  const NotClose: CharSet := Except(Is(')'))
  const NotParen: CharSet := Except(Either(Is('('), Is(')')))
  const StepWord: Regex := Words(["SCHRITT", "STAP", "STEP"])
  const Sign: Regex := Or(Char(Is('+')), Char(Is('-')))

  /** A pattern without `^` and with the `i` flag. */
  function Search(rs: seq<Regex>): Pattern { Pattern(Cat(rs), false, true) }

  /** A `^`-anchored pattern. */
  function Start(rs: seq<Regex>, ci: bool): Pattern { Pattern(Cat(rs), true, ci) }

  /** A pattern without `^` and without the `i` flag. */
  function Exact(rs: seq<Regex>): Pattern { Pattern(Cat(rs), false, false) }

  /** `^<word>\s+[A-Z]` with the `i` flag, the shape of most industrial patterns. */
  function Command(word: string): Pattern { Start([Lit(word), SomeSpace, Char(UpperAZ)], true) }

  /** `\s+<word>\s+` with the `i` flag. */
  function Spaced(word: string): Pattern { Search([SomeSpace, Lit(word), SomeSpace]) }

  /** The table of one category, in source order. */
  function CategoryPatterns(c: Category): seq<Pattern>
  {
    match c
    case CrossReferences => [
      Search([Char(Is('(')), Plus(NotClose), SomeSpace, StepWord, SomeSpace,
              Plus(Either(AnyDigit, Either(Is('+'), Either(Is('&'), Is('-'))))), Char(Is(')'))]),
      Search([Char(Is('(')), Plus(NotClose), SomeSpace, Words(["RUHE", "RUST", "IDLE"]), Spaces,
              Char(Either(Is('&'), Is(')')))]),
      Search([Char(Is('(')), Lit("Status"), SomeSpace, Plus(NotClose), SomeSpace, StepWord, SomeSpace,
              Digits, Char(Is(')'))]),
      Search([Char(Is('(')), Plus(NotClose), SomeSpace, Words(["NICHT", "NOT", "NIET"]), SomeSpace,
              Plus(NotClose), SomeSpace, StepWord, SomeSpace, Digits, Char(Is(')'))])
    ]
    case Conditions => [
      Start([Or(Sign, Or(AtLeastTwo(AnySpace), Char(Is('\t')))), Spaces, Plus(NotParen), EndOfInput], false),
      Start([Sign, Spaces, Char(UpperAZ), Plus(NotParen), EndOfInput], false),
      Start([Sign, Spaces, Lit("NICHT"), SomeSpace], true),
      Start([Sign, Spaces, Lit("NOT"), SomeSpace], true),
      Start([Sign, Spaces, Lit("NIET"), SomeSpace], true)
    ]
    case ZeitPatterns => [
      Search([Lit("Zeit"), SomeSpace, Digits, Spaces, Lit("sek")]),
      Search([Lit("Time"), SomeSpace, Digits, Spaces, Lit("sec")]),
      Search([Lit("TIJD"), SomeSpace, Digits, Spaces, Lit("sec")]),
      Search([Digits, Spaces, Lit("sek"), Spaces, Lit("??")]),
      Search([Digits, Spaces, Lit("sec"), Spaces, Lit("??")])
    ]
    case TechnicalStatus => [
      Start([Char(UpperAZ), Digits, Maybe(Is('x')), Spaces, Char(Is(':')), Spaces], false),
      Start([AtLeastTwo(UpperAZ), SomeSpace, Char(UpperAZ), Digits], false),
      Start([Char(UpperAZ), Digits, Spaces, Char(Is('=')), Spaces, Char(Either(Is('0'), Is('1')))], false),
      Start([Lit("Position"), SomeSpace, Digits, Spaces, Char(Is('='))], true),
      Exact([Lit("FB"), Digits, Spaces, Maybe(Is('\t')), Many(AnyDigit), EndOfInput])
    ]
    case VariableAssignments => [
      Start([Char(Letter), Many(Except(Is('='))), Spaces, Char(Is('=')), Spaces,
             Plus(Except(Is('='))), EndOfInput], false),
      Start([Char(Letter), Many(AnyDigit), Spaces, Char(Is('=')), Spaces], false),
      Start([Plus(Letter), SomeSpace, Plus(Letter), Spaces, Char(Is('=')), Spaces], false)
    ]
    case IndustrialPatterns => [
      Command("Start"),
      Command("Stop"),
      Command("Freigabe"),
      Command("Blockierung"),
      Start([Lit("Störung"), Spaces, Char(Is(':'))], true),
      Command("Störung"),
      Command("Warten"),
      Command("Prüfung")
    ]
    case NumberingPatterns => [
      Start([Digits, Char(Is('.')), Digits, Char(Is('.')), Digits, Char(Is('\t'))], false),
      Start([Digits, Char(Is('.')), Digits, Char(Is('\t'))], false),
      Start([Digits, Char(Is('\t'))], false),
      Start([Digits, SomeSpace, Char(UpperAZ)], false)
    ]
    case ArrayPatterns => [
      Exact([Char(Is('[')), Plus(Except(Is(']'))), Char(Is(']'))]),
      Exact([Plus(AnyWord), Char(Is('[')), Digits, Char(Is(']'))]),
      Exact([Plus(AnyWord), Char(Is('[')), Char(UpperAZ), Many(AnyDigit), Char(Is(']'))]),
      Exact([Lit("Horde["), Digits, Lit("].Data["), Digits, Char(Is(']'))])
    ]
    case BooleanPatterns => [
      Exact([SomeSpace, Char(Is('&')), SomeSpace]),
      Exact([SomeSpace, Char(Is('|')), SomeSpace]),
      Spaced("UND"),
      Spaced("ODER"),
      Spaced("EN"),
      Spaced("OF")
    ]
    case NumericPatterns => [
      Exact([Plus(Comparison), Spaces, Digits]),
      Exact([Digits, Spaces, Plus(Comparison)]),
      Exact([Digits, Char(Is('.')), Digits]),
      Exact([Digits, Char(Is('%'))]),
      Exact([Digits, Lit("°C")]),
      Exact([Digits, Lit("bar")])
    ]
  }

  const Comparison: CharSet := Either(Is('<'), Either(Is('>'), Either(Is('='), Is('!'))))

  /**
   * The object's `this.patterns`, the value its constructor sets: one table
   * per category, in declaration order.
   */
  const PatternTables: seq<seq<Pattern>> := [
    CategoryPatterns(CrossReferences), CategoryPatterns(Conditions), CategoryPatterns(ZeitPatterns),
    CategoryPatterns(TechnicalStatus), CategoryPatterns(VariableAssignments),
    CategoryPatterns(IndustrialPatterns), CategoryPatterns(NumberingPatterns),
    CategoryPatterns(ArrayPatterns), CategoryPatterns(BooleanPatterns), CategoryPatterns(NumericPatterns)
  ]

  /** A set of tables in the shape of `this.patterns`: one per category. */
  predicate IsTables(patterns: seq<seq<Pattern>>) { |patterns| == |Categories| }

  /** `patterns.some(regex => regex.test(s))` */
  predicate AnyTest(ps: seq<Pattern>, s: string)
  {
    ps != [] && (Test(ps[0], s) || AnyTest(ps[1..], s))
  }

  // ---------------------------------------------------------------------
  // Bucketing (parseUnknownPatterns)
  // ---------------------------------------------------------------------

  /** One of the eleven lists of the result: a category, or `unrecognized`. */
  datatype Bucket = In(category: Category) | Unrecognized

  /** The lists of the result in the order the object literal declares them. */
  const Buckets: seq<Bucket> := [
    In(CrossReferences), In(Conditions), In(ZeitPatterns), In(TechnicalStatus),
    In(VariableAssignments), In(IndustrialPatterns), In(NumberingPatterns),
    In(ArrayPatterns), In(BooleanPatterns), In(NumericPatterns), Unrecognized
  ]

  function BucketIndex(b: Bucket): (k: nat)
    ensures k < |Buckets| && Buckets[k] == b
  {
    match b
    case In(c) => CategoryIndex(c)
    case Unrecognized => 10
  }

  lemma BucketIndexOf(k: nat)
    requires k < |Buckets|
    ensures BucketIndex(Buckets[k]) == k
  {
  }

  /** The first category from the `k`-th on one of whose expressions matches `s`. */
  function FirstFrom(patterns: seq<seq<Pattern>>, s: string, k: nat): Bucket
    requires IsTables(patterns) && k <= |Categories|
    decreases |Categories| - k
  {
    if k == |Categories| then Unrecognized
    else if AnyTest(patterns[k], s) then In(Categories[k])
    else FirstFrom(patterns, s, k + 1)
  }

  /** The bucket `parseUnknownPatterns` gives the line `s`. */
  function BucketOf(patterns: seq<seq<Pattern>>, s: string): Bucket
    requires IsTables(patterns)
  {
    FirstFrom(patterns, s, 0)
  }

  /** No table from the `k`-th on matches `s`. */
  predicate NoneMatchFrom(patterns: seq<seq<Pattern>>, s: string, k: nat, n: nat)
    requires IsTables(patterns) && n <= |Categories|
  {
    forall j :: k <= j < n ==> !AnyTest(patterns[j], s)
  }

  lemma {:induction false} FirstFromUnrecognized(patterns: seq<seq<Pattern>>, s: string, k: nat)
    requires IsTables(patterns) && k <= |Categories|
    ensures FirstFrom(patterns, s, k) == Unrecognized <==> NoneMatchFrom(patterns, s, k, |Categories|)
    decreases |Categories| - k
  {
    if k < |Categories| {
      FirstFromUnrecognized(patterns, s, k + 1);
    }
  }

  lemma {:induction false} FirstFromCategory(patterns: seq<seq<Pattern>>, s: string, k: nat, c: Category)
    requires IsTables(patterns) && k <= |Categories|
    ensures FirstFrom(patterns, s, k) == In(c) <==>
      k <= CategoryIndex(c) && AnyTest(patterns[CategoryIndex(c)], s) && NoneMatchFrom(patterns, s, k, CategoryIndex(c))
    decreases |Categories| - k
  {
    if k < |Categories| {
      FirstFromCategory(patterns, s, k + 1, c);
    }
  }

  /**
   * Every line lands in the first category, in declaration order, one of
   * whose expressions matches it, and in `unrecognized` when none does.
   */
  lemma BucketIsFirstMatch(patterns: seq<seq<Pattern>>, s: string, c: Category)
    requires IsTables(patterns)
    ensures BucketOf(patterns, s) == In(c) <==>
      AnyTest(patterns[CategoryIndex(c)], s) && NoneMatchFrom(patterns, s, 0, CategoryIndex(c))
    ensures BucketOf(patterns, s) == Unrecognized <==> NoneMatchFrom(patterns, s, 0, |Categories|)
  {
    FirstFromCategory(patterns, s, 0, c);
    FirstFromUnrecognized(patterns, s, 0);
  }

  /** The input of `parseUnknownPatterns`: a plain line or a record with `text` and `originalLine` ("" when absent). */
  datatype UnknownPattern = Line(line: string) | Record(text: string, originalLine: string)

  /** `pattern.text || pattern.originalLine || pattern`, as the string the expressions are matched against. */
  function TextOf(p: UnknownPattern): string
  {
    match p
    case Line(s) => s
    case Record(t, o) => if t != "" then t else if o != "" then o else "[object Object]"
  }

  /** One element of a result list; the confidence number is not modelled. */
  datatype Entry = Entry(text: string, originalPattern: UnknownPattern, matchedCategory: Bucket)

  function EntryOf(patterns: seq<seq<Pattern>>, p: UnknownPattern): Entry
    requires IsTables(patterns)
  {
    Entry(TextOf(p), p, BucketOf(patterns, TextOf(p)))
  }

  /** The result object: one list per bucket, indexed as `Buckets`. */
  type Categorized = seq<seq<Entry>>

  const NoneCategorized: Categorized := [[], [], [], [], [], [], [], [], [], [], []]

  /** The result after the first `|ps|` inputs, each pushed onto the list of its bucket. */
  function Categorize(patterns: seq<seq<Pattern>>, ps: seq<UnknownPattern>): (c: Categorized)
    requires IsTables(patterns)
    ensures |c| == |Buckets|
  {
    if ps == [] then NoneCategorized
    else
      var c := Categorize(patterns, ps[..|ps| - 1]);
      var e := EntryOf(patterns, ps[|ps| - 1]);
      c[BucketIndex(e.matchedCategory) := c[BucketIndex(e.matchedCategory)] + [e]]
  }

  /** The inputs whose bucket is `b`, in input order: an independent description of one list. */
  function Filtered(patterns: seq<seq<Pattern>>, ps: seq<UnknownPattern>, b: Bucket): seq<Entry>
    requires IsTables(patterns)
  {
    if ps == [] then []
    else Filtered(patterns, ps[..|ps| - 1], b) + (if BucketOf(patterns, TextOf(ps[|ps| - 1])) == b then [EntryOf(patterns, ps[|ps| - 1])] else [])
  }

  /** Each list of the result holds exactly the inputs of its bucket, in input order. */
  lemma {:induction false} CategorizeFilters(patterns: seq<seq<Pattern>>, ps: seq<UnknownPattern>, k: nat)
    requires IsTables(patterns) && k < |Buckets|
    ensures Categorize(patterns, ps)[k] == Filtered(patterns, ps, Buckets[k])
  {
    if ps != [] {
      CategorizeFilters(patterns, ps[..|ps| - 1], k);
      BucketIndexOf(k);
    }
  }

  function SizeSum(c: seq<seq<Entry>>): nat
  {
    if c == [] then 0 else SizeSum(c[..|c| - 1]) + |c[|c| - 1]|
  }

  lemma {:induction false} SizeSumOfEmpty(c: seq<seq<Entry>>)
    requires forall k :: 0 <= k < |c| ==> c[k] == []
    ensures SizeSum(c) == 0
  {
    if c != [] { SizeSumOfEmpty(c[..|c| - 1]); }
  }

  lemma {:induction false} SizeSumPush(c: seq<seq<Entry>>, k: nat, e: Entry)
    requires k < |c|
    ensures SizeSum(c[k := c[k] + [e]]) == SizeSum(c) + 1
  {
    var d := c[k := c[k] + [e]];
    if k < |c| - 1 {
      assert d[..|d| - 1] == c[..|c| - 1][k := c[k] + [e]];
      SizeSumPush(c[..|c| - 1], k, e);
    } else {
      assert d[..|d| - 1] == c[..|c| - 1];
    }
  }

  /** Every input is in exactly one list: the list lengths add up to the number of inputs. */
  lemma {:induction false} CategorizeTotal(patterns: seq<seq<Pattern>>, ps: seq<UnknownPattern>)
    requires IsTables(patterns)
    ensures SizeSum(Categorize(patterns, ps)) == |ps|
  {
    if ps == [] {
      SizeSumOfEmpty(NoneCategorized);
    } else {
      CategorizeTotal(patterns, ps[..|ps| - 1]);
      var e := EntryOf(patterns, ps[|ps| - 1]);
      SizeSumPush(Categorize(patterns, ps[..|ps| - 1]), BucketIndex(e.matchedCategory), e);
    }
  }

  /** The bucket of one line: the loop over the categories with its `break`. */
  method FirstCategory(patterns: seq<seq<Pattern>>, text: string) returns (b: Bucket)
    requires IsTables(patterns)
    ensures b == BucketOf(patterns, text)
  {
    var k := 0;
    while k < |Categories|
      invariant k <= |Categories|
      invariant FirstFrom(patterns, text, k) == BucketOf(patterns, text)
    {
      if AnyTest(patterns[k], text) {
        return In(Categories[k]);
      }
      k := k + 1;
    }
    return Unrecognized;
  }

  lemma CategorizeStep(patterns: seq<seq<Pattern>>, ps: seq<UnknownPattern>, i: nat)
    requires IsTables(patterns) && i < |ps|
    ensures Categorize(patterns, ps[..i + 1]) ==
      var c := Categorize(patterns, ps[..i]);
      var e := EntryOf(patterns, ps[i]);
      c[BucketIndex(e.matchedCategory) := c[BucketIndex(e.matchedCategory)] + [e]]
  {
    assert ps[..i + 1][..i] == ps[..i];
  }

  /** `parseUnknownPatterns`: every input pushed onto the list of its bucket. */
  method ParseUnknownPatterns(patterns: seq<seq<Pattern>>, unknownPatterns: seq<UnknownPattern>)
    returns (categorized: Categorized)
    requires IsTables(patterns)
    ensures categorized == Categorize(patterns, unknownPatterns)
  {
    categorized := NoneCategorized;
    var i := 0;
    while i < |unknownPatterns|
      invariant i <= |unknownPatterns|
      invariant categorized == Categorize(patterns, unknownPatterns[..i])
    {
      var pattern := unknownPatterns[i];
      var text := TextOf(pattern);
      var bucket := FirstCategory(patterns, text);
      var k := BucketIndex(bucket);
      categorized := categorized[k := categorized[k] + [Entry(text, pattern, bucket)]];
      CategorizeStep(patterns, unknownPatterns, i);
      i := i + 1;
    }
    assert unknownPatterns[..i] == unknownPatterns;
  }

  // ---------------------------------------------------------------------
  // Statistics (generateStatistics)
  // ---------------------------------------------------------------------

  /** The counters of `generateStatistics`; the reduction percentage is not modelled. */
  datatype Statistics = Statistics(
    totalPatterns: nat,
    categorizedPatterns: nat,
    unrecognizedPatterns: nat,
    categoryBreakdown: map<Bucket, nat>)

  /** The sum of the breakdown over the given buckets. */
  function BreakdownSum(m: map<Bucket, nat>, bs: seq<Bucket>): nat
    requires forall b :: b in bs ==> b in m
  {
    if bs == [] then 0 else BreakdownSum(m, bs[..|bs| - 1]) + m[bs[|bs| - 1]]
  }

  lemma {:induction false} BreakdownSumOfSizes(m: map<Bucket, nat>, c: Categorized, n: nat)
    requires |c| == |Buckets| && n <= |Buckets|
    requires forall j :: 0 <= j < n ==> Buckets[j] in m && m[Buckets[j]] == |c[j]|
    ensures BreakdownSum(m, Buckets[..n]) == SizeSum(c[..n])
  {
    if n > 0 {
      BreakdownSumOfSizes(m, c, n - 1);
      assert Buckets[..n][..n - 1] == Buckets[..n - 1];
      assert c[..n][..n - 1] == c[..n - 1];
    }
  }

  lemma SizeSumStep(c: Categorized, k: nat)
    requires k < |c|
    ensures SizeSum(c[..k + 1]) == SizeSum(c[..k]) + |c[k]|
  {
    assert c[..k + 1][..k] == c[..k];
  }

  /**
   * `generateStatistics`: the total is the sum of all list lengths, it splits
   * into the categorised and the unrecognised count, and the breakdown has
   * one entry per list that adds up to the total.
   */
  method GenerateStatistics(categorizedPatterns: Categorized) returns (stats: Statistics)
    requires |categorizedPatterns| == |Buckets|
    ensures stats.totalPatterns == stats.categorizedPatterns + stats.unrecognizedPatterns
    ensures stats.totalPatterns == SizeSum(categorizedPatterns)
    ensures stats.unrecognizedPatterns == |categorizedPatterns[BucketIndex(Unrecognized)]|
    ensures forall b :: b in stats.categoryBreakdown
    ensures forall b :: stats.categoryBreakdown[b] == |categorizedPatterns[BucketIndex(b)]|
    ensures BreakdownSum(stats.categoryBreakdown, Buckets) == stats.totalPatterns
  {
    var total, categorized, unrecognized := 0, 0, 0;
    var breakdown: map<Bucket, nat> := map[];
    var k := 0;
    while k < |Buckets|
      invariant k <= |Buckets|
      invariant total == SizeSum(categorizedPatterns[..k])
      invariant total == categorized + unrecognized
      invariant unrecognized == if k == |Buckets| then |categorizedPatterns[10]| else 0
      invariant forall b :: b in breakdown <==> BucketIndex(b) < k
      invariant forall b :: b in breakdown ==> breakdown[b] == |categorizedPatterns[BucketIndex(b)]|
    {
      var patterns := categorizedPatterns[k];
      SizeSumStep(categorizedPatterns, k);
      BucketIndexOf(k);
      total := total + |patterns|;
      breakdown := breakdown[Buckets[k] := |patterns|];
      if Buckets[k] == Unrecognized {
        unrecognized := |patterns|;
      } else {
        categorized := categorized + |patterns|;
      }
      k := k + 1;
    }
    assert categorizedPatterns[..k] == categorizedPatterns;
    stats := Statistics(total, categorized, unrecognized, breakdown);
    BreakdownSumComplete(breakdown, categorizedPatterns);
  }

  lemma BreakdownSumComplete(m: map<Bucket, nat>, c: Categorized)
    requires |c| == |Buckets|
    requires forall b :: b in m && m[b] == |c[BucketIndex(b)]|
    ensures BreakdownSum(m, Buckets) == SizeSum(c)
  {
    forall j | 0 <= j < |Buckets|
      ensures m[Buckets[j]] == |c[j]|
    {
      BucketIndexOf(j);
    }
    BreakdownSumOfSizes(m, c, |Buckets|);
    assert Buckets[..|Buckets|] == Buckets;
    assert c[..|Buckets|] == c;
  }

  /** Over the result of `parseUnknownPatterns` the total is the number of inputs. */
  lemma StatisticsCountInputs(patterns: seq<seq<Pattern>>, ps: seq<UnknownPattern>)
    requires IsTables(patterns)
    ensures SizeSum(Categorize(patterns, ps)) == |ps|
    ensures Categorize(patterns, ps)[BucketIndex(Unrecognized)] == Filtered(patterns, ps, Unrecognized)
  {
    CategorizeTotal(patterns, ps);
    CategorizeFilters(patterns, ps, 10);
  }
}
