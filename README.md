# Standaardwerk parsers, modelled in Dafny

This project models the text-to-program core of the *standaardwerk AI
trainer*. That core reads step-sequence listings of industrial control
programs, written in Dutch, German or English (`RUST:`, `SCHRITT 3: x`,
`+ cond`, `NICHT x`, `(Prog SCHRITT 5+6)`). It turns them into steps,
transition-condition groups, declarations and cross-references. The model
covers seven pieces of the core:

- **Keyword tables** (`SyntaxRules`, syntax_rules.dfy). These are the default
  step, idle and end spellings, the timer, marker and fault keywords, the
  condition prefixes, the mixed header patterns, the cross-reference pattern
  and its step list.
- **The line-by-line parser of `parser.jsx`** (`Standaardwerk`, parser.dfy;
  `StandaardwerkFacts`, parser_facts.dfy).
  - A specification fold `Run` over the per-line readings defines the parse.
  - `ParseStandaardwerk` is the `forEach` loop, proved equal to that fold.
  - Lemmas cover header recognition, the condition facets, AND/OR group
    placement, the condition counters and the complexity score.
- **The class-based `StandardWorkParser`** (`StandardWork`,
  standard_work_parser.dfy; `StandardWorkFacts`, standard_work_facts.dfy).
  - It is a `class` with the `currentStep` and `result` fields that `parse`,
    `parseSpecialElement` and `finalizeStep` update.
  - Lemmas cover the header and special-element patterns, the number of
    steps, their order, and which lines become conditions.
- **The Word front end** (`WordParser`, word_parser.dfy; `WordFacts`,
  word_facts.dfy).
  - `generateIdbName` and `convertToStandaardwerkFormat`.
  - The block walk of `parseWordDocument`, over an abstract list of heading
    and paragraph blocks.
- **The `AdvancedParser` line classifier** (`Advanced`, advanced_parser.dfy;
  `AdvancedFacts`, advanced_facts.dfy).
  - The pure detectors and their first-hit order.
  - The walk that records programs, assignments, comments, OR-blocks,
    references, entities and compound conditions, with `currentFB` as a
    field.
  - The program hierarchy.
- **The `IntelligentConditionParser`** (`ConditionRegex`, condition_regex.dfy;
  `IntelligentConditions`, condition_parser.dfy; `PatternGeneration`,
  pattern_generation.dfy).
  - A small regular-expression model, the category tables, the bucketing of
    unknown lines and the statistics.
  - Structure extraction, similarity grouping, common prefixes, regex
    generation and rule generation.
- **`normalizeStepFormatting`** (`Normalization`, normalization.dfy). This is
  the chain of global replacements. Each stage is a leftmost, non-overlapping
  match-and-replace over the whole text.

`Text` (text.dfy) holds the string helpers the modules share: JavaScript
`\s`, ASCII-and-umlaut case mapping, `trim`, `split` and `join`, digit runs
and their values. It also declares the `Wrappers` module (`Option`, `Result`).

Regular expressions are modelled as hand-written recognisers. Each one is
written against the pattern it stands for, with the backtracking choice made
explicit: lazy quantifiers take the first end that works, greedy ones the
longest run. An alternation over a keyword table takes the first keyword in
table order. For the default tables this equals the regex's choice, because
no spelling is a prefix of another (`SyntaxRules.DefaultStepKeywordsPrefixFree`).

## Model

| member | source | states |
|---|---|---|
| Text.Trim | src/core/parser.jsx:58 | The result neither starts nor ends with white space and is no longer than the input. |
| Text.TrimIsMiddle | src/core/parser.jsx:58 | The trimmed text is a slice of the input with only white space before and after it; with `Trim`'s own contract this is exactly the text from the first to the last non-space character. |
| Text.Split | src/core/AdvancedParser.js:82 | There is at least one piece, and no piece holds the separator. |
| Text.SplitLines | src/core/StandardWorkParser.js:74 | `split(/\r?\n/)`: as many lines as the text has line-feed pieces, none holding a line feed. |
| Text.JoinSplit | src/core/enhancedWordParser.js:260 | Joining the pieces of a split with the separator gives back the text. |
| Text.SplitJoin | src/core/enhancedWordParser.js:98 | Splitting a join gives back the pieces when none holds the separator. |
| Text.SplitCount | src/core/AdvancedParser.js:82 | A text has one line more than it has line feeds. |
| SyntaxRules.FirstKeywordAt | src/config/syntaxRules.js:18-19 | The keyword chosen matches at the position, ignoring case, and no earlier keyword of the table does; `None` means none matches. |
| SyntaxRules.DefaultStepKeywordsPrefixFree | src/config/syntaxRules.js:2-6 | The default step, idle and end tables, and the alternatives written into the header patterns, are each prefix-free: no spelling starts another. |
| SyntaxRules.DefaultVariableKeywordsPrefixFree | src/config/syntaxRules.js:21-25 | The default timer, marker and fault tables and the negation prefixes are each prefix-free. |
| SyntaxRules.DefaultHeaderKeywordsPrefixFree | src/config/syntaxRules.js:3-4 | The idle spellings followed by the step spellings, the alternatives of the header pattern, are prefix-free. |
| SyntaxRules.DefaultAllHeaderKeywordsPrefixFree | src/config/syntaxRules.js:2-6 | The idle, step and end spellings together are prefix-free. |
| SyntaxRules.OnlyKeywordAtStart | src/config/syntaxRules.js:18-19 | In a prefix-free table, a line that starts with one keyword, ignoring case, starts with no other. |
| SyntaxRules.NoOtherSpelling | src/core/parser.jsx:131-132 | A keyword of a prefix-free table equals no other keyword of it, ignoring case. |
| SyntaxRules.ParseStepHeaderMixed | src/config/syntaxRules.js:18 | `schrittMixed`: a match starts with its keyword and carries a step number of one or more digits. |
| SyntaxRules.ParseIdleHeaderMixed | src/config/syntaxRules.js:19 | `ruheMixed`: a match starts with its keyword and carries no number. |
| SyntaxRules.StepHeaderColonForm | src/config/syntaxRules.js:18 | `KW n: desc` is read as step `n` with description `desc`. |
| SyntaxRules.StepHeaderParenthesisForm | src/config/syntaxRules.js:18 | `KW n (desc)` is read as step `n` with description `desc`, the closing parenthesis dropped. |
| SyntaxRules.IdleHeaderColonForm | src/config/syntaxRules.js:19 | `KW: desc` is read as an idle header described `desc`. |
| SyntaxRules.IdleHeaderParenthesisForm | src/config/syntaxRules.js:19 | `KW (desc)` is read as an idle header described `desc`. |
| SyntaxRules.CrossReferenceInside | src/config/syntaxRules.js:116 | A reference found inside a parenthesis has a non-empty description and a non-empty step list made of `[0-9+]`. |
| SyntaxRules.LowerCaseKeywordIsNoCrossReference | src/config/syntaxRules.js:116 | The pattern has no `i` flag: `(desc schritt n)` with the keyword in lower case is no cross-reference. |
| SyntaxRules.CrossReferenceRoundTrip | src/config/syntaxRules.js:114-126 | `(desc KW n+m)` is found as a reference with that description, keyword and step list. |
| SyntaxRules.ParseStepList | src/core/AdvancedParser.js:355 | `split('+')` then `parseInt`: one entry per `+`-separated piece, one more than the `+` signs. |
| SyntaxRules.StepListRoundTrip | src/core/AdvancedParser.js:355 | A step list written from numbers reads back as those numbers, in order. |
| Standaardwerk.VariableKindPriority | src/core/parser.jsx:32-52 | An empty name is a plain variable. Otherwise a name is a fault exactly when it starts with a fault keyword, ignoring case. It is a timer exactly when it is no fault and contains a timer keyword, and a marker exactly when it is neither and contains a marker keyword. |
| Standaardwerk.MatchProgramHeader | src/core/parser.jsx:70 | A match's block is `FB` and digits at the end of the line, and its name is trimmed. |
| Standaardwerk.SymbolikValue | src/core/parser.jsx:81-86 | A value is read exactly from lines starting with `Symbool IDB:` or `Symbolik IDB:`, and it is trimmed. |
| Standaardwerk.VariableName | src/core/parser.jsx:90 | The declared name starts the line and is a letter followed by word characters. |
| Standaardwerk.StepLineShape | src/core/parser.jsx:118-119 | A step-header match has the keyword as written at the start, a number made of digits and a description running to the end of the line. |
| Standaardwerk.MatchStepLineMeans | src/core/parser.jsx:118-119 | The header pattern matches exactly when one of its alternatives does, and then it reads the line with the first alternative that matches. |
| Standaardwerk.StepOf | src/core/parser.jsx:131-140 | The step is `RUST` exactly when its keyword equals an idle spelling, ignoring case, and then its number is 0. A `STAP` step with digits has their value. The description is the captured one, and the step starts with no groups. |
| Standaardwerk.NegationFromMeans | src/core/parser.jsx:153-156 | Negation holds exactly when `NIET`, `NOT` or `NICHT`, ignoring case, starts the text and is followed by white space; the stripped text is what follows. |
| Standaardwerk.ExternalRefFromMeans | src/core/parser.jsx:158-161 | An external reference is found exactly when a `*`, a non-empty run without `*`, and a `*` occur. |
| Standaardwerk.TimeClauseFromMeans | src/core/parser.jsx:163-164 | A time condition is found exactly when `TIJD`, `ZEIT` or `TIME` occurs, followed by `~`, digits and a unit. |
| Standaardwerk.RemoveQuotes | src/core/parser.jsx:172 | No `"` or `'` remains, and a text without quotes is kept whole. |
| Standaardwerk.RemoveQuotesCounts | src/core/parser.jsx:172 | Every character other than a quote occurs in the result as often as in the input. |
| Standaardwerk.RemoveQuotesAppend | src/core/parser.jsx:172 | Removing quotes from two texts joined is removing them from each and joining, so the kept characters stay in order. |
| Standaardwerk.MatchComparison | src/core/parser.jsx:166-174 | The variable is a non-empty run of `[a-zA-Z0-9_.[\]]` that starts the text, and the operator is one of `==`, `!=`, `<>`, `>=`, `<=`, `>`, `<`. |
| Standaardwerk.ConditionFacets | src/core/parser.jsx:147-185 | A condition records its OR flag, negation, external reference, time and comparison facets as the patterns decide them, on the text after stripping. |
| Standaardwerk.PlaceCondition | src/core/parser.jsx:187-203 | The conditions, read group by group, are the old ones followed by the new one. An OR condition after existing groups opens an OR group, and the first condition opens an AND group. Any other joins the last group, which keeps its operator. |
| Standaardwerk.Declare | src/core/parser.jsx:103-111 | The declaration is appended to exactly the list of its kind; the other three lists are unchanged. |
| Standaardwerk.WithConditions | src/core/parser.jsx:92-94 | The open declaration, the last of its kind's list, receives the conditions. Every list keeps its length, and every other declaration is unchanged. |
| Standaardwerk.FlushPending | src/core/parser.jsx:60-65 | The open declaration and the steps are unchanged. With conditions collected and a declaration open, that declaration receives them and the buffer is emptied. |
| Standaardwerk.NamingOf | src/core/parser.jsx:69-78 | `name FBn` sets both name and block. A line without `:` sets only the name. Any other line sets nothing. |
| Standaardwerk.Rename | src/core/parser.jsx:69-78 | The naming is applied to the program name and block; steps, declarations and statistics are unchanged. |
| Standaardwerk.OpenDeclaration | src/core/parser.jsx:89-115 | The new declaration becomes the last of its kind's list and the open declaration, the buffer is emptied, and steps and statistics are unchanged. |
| Standaardwerk.OpenStep | src/core/parser.jsx:121-142 | The new step is appended and becomes the open step. Collected conditions replace the previous step's groups with one AND group, and earlier steps are unchanged. |
| Standaardwerk.Classify | src/core/parser.jsx:60-208 | The reading carries the line's number, and it is blank exactly when the trimmed line is empty. |
| Standaardwerk.Finish | src/core/parser.jsx:211-223 | At the end, `totalSteps` is the number of steps and `totalVariables` the sum of the four declaration lists. |
| Standaardwerk.ParseStandaardwerk | src/core/parser.jsx:56-225 | The result equals the fold of the per-line reading over all lines of the code, finished. |
| Standaardwerk.ReadLines | src/core/parser.jsx:56-209 | The loop leaves the state the fold gives after every line. |
| Standaardwerk.ReadNextLine | src/core/parser.jsx:56-58 | One turn of the loop advances the fold by exactly one line. |
| Standaardwerk.ReadLine | src/core/parser.jsx:60-208 | The loop body produces the state the per-line reading of that line gives. |
| Standaardwerk.ReadEntryLine | src/core/parser.jsx:89-208 | A declaration, step header or condition line updates the state as its reading says. |
| Standaardwerk.DeclareVariable | src/core/parser.jsx:91-114 | The declaration branch gives the state `OpenDeclaration` describes. |
| Standaardwerk.StartStep | src/core/parser.jsx:121-142 | The step branch gives the state `OpenStep` describes. |
| Standaardwerk.AttachCondition | src/core/parser.jsx:146-207 | A condition goes into the open step's groups and is counted; with no step open, it is collected for the open declaration. |
| Standaardwerk.CloseListing | src/core/parser.jsx:211-223 | After the last line the result is the one `Finish` describes. |
| Standaardwerk.ComplexityScoreIsRounded | src/core/parser.jsx:218-223 | For counts S, C, V, R the integer score `(20S + 15C + 12V + 30R + 5) div 10` is `Math.round(2S + 1.5C + 1.2V + 3R)`: it lies within one half of the weighted sum, and a tie rounds up. |
| Standaardwerk.WithConditionsSorted | src/core/parser.jsx:92-94 | Handing conditions to the open declaration keeps every declaration in the list of its own kind. |
| Standaardwerk.DeclareSorted | src/core/parser.jsx:103-111 | Pushing a declaration keeps every list holding only its own kind, in line order. |
| Standaardwerk.RunWellFormed | src/core/parser.jsx:56-142 | After any number of lines, the steps are in source-line order and every declaration is in its own kind's list. |
| Standaardwerk.StepsOnlyGrow | src/core/parser.jsx:141 | Once a step header is read, its step stays at its position and its header is never changed by later lines. |
| StandaardwerkFacts.ProgramHeaderRoundTrip | src/core/parser.jsx:70-73 | `name FBn`, with a trimmed name, is read back as program `name` in block `FBn`. |
| StandaardwerkFacts.StepLineNumbered | src/core/parser.jsx:118-119 | `KW n: desc` is read by the alternative `KW` as keyword, number `n` and description `desc`. |
| StandaardwerkFacts.StepLineUnnumbered | src/core/parser.jsx:118-119 | `KW: desc` is read by the alternative `KW`, with no number. |
| StandaardwerkFacts.MatchStepLineChooses | src/core/parser.jsx:118-119 | On a prefix-free table, the whole header pattern reads a line exactly as the alternative of the keyword it starts with does. |
| StandaardwerkFacts.DefaultStepHeaderRoundTrip | src/core/parser.jsx:118-140 | With the default tables, `STAP n: desc` (and `SCHRITT`, `STEP`) opens a `STAP` step numbered `n` with description `desc`. |
| StandaardwerkFacts.DefaultIdleHeaderRoundTrip | src/core/parser.jsx:118-140 | With the default tables, `RUST: desc` (and `RUHE`, `IDLE`) opens a `RUST` step numbered 0. |
| StandaardwerkFacts.AddConditionEffect | src/core/parser.jsx:187-207 | With a step open, a condition joins the last step's groups and is counted. Without one, it is collected and nothing is counted. |
| StandaardwerkFacts.AddConditionCounted | src/core/parser.jsx:187-204 | A placed condition adds exactly one to the conditions held by the steps, matching the `totalConditions++`. |
| StandaardwerkFacts.OpenStepCounted | src/core/parser.jsx:122-129 | A header that meets collected conditions after an earlier step replaces that step's groups. The count held by the steps changes by the size difference, while `totalConditions` does not change. |
| StandaardwerkFacts.ApplyCounted | src/core/parser.jsx:60-208 | Every line keeps `totalConditions` equal to the conditions held by the steps, except a header that replaces groups. |
| StandaardwerkFacts.RunCounted | src/core/parser.jsx:204 | While no header replaces groups, `totalConditions` equals the number of conditions in the steps' groups. |
| StandaardwerkFacts.RunPendingEarly | src/core/parser.jsx:205-207 | Conditions are collected only while no step is open. A replacement of groups can therefore only happen at the second step header. |
| StandardWork.VariableDefinitionAsWritten | src/core/StandardWorkParser.js:34 | The pattern with its class as written, `[A-ZaZ0-9_]`: a name is a letter or `_` followed by upper-case letters, `a`, `Z`, digits and `_`. |
| StandardWork.VariableDefinition | src/core/StandardWorkParser.js:34 | The intended pattern: an identifier, optional white space, `=`, optional white space and the value to the end. |
| StandardWork.VariableDefinitionTypo | src/core/StandardWorkParser.js:34 | `counter = 5` is no variable under the pattern as written, and is `counter` with value `5` under the intended one. |
| StandardWork.VariableDefinitionRoundTrip | src/core/StandardWorkParser.js:34 | Any identifier followed by ` = ` and a value is read back as that name and value. |
| StandardWork.VariableDefinitionAsWrittenRoundTrip | src/core/StandardWorkParser.js:34 | A letter or `_` followed by characters of the class as written, then ` = ` and a value, is read back as that name and value. |
| StandardWork.SpecialElementVariable | src/core/StandardWorkParser.js:116-126 | The variable pattern is tried first: such a `NAME = value` line is recorded as that variable whatever the timer, marker and fault tables hold. |
| StandardWork.CounterIsNoSpecialElement | src/core/StandardWorkParser.js:34-52 | Under the default tables `counter = 5` is no special element at all. |
| StandardWork.TimerWith | src/core/StandardWorkParser.js:37-40 | A match starts with the keyword, ignoring case, and its unit is `Sek` or one of the units the pattern lists. |
| StandardWork.NamedWith | src/core/StandardWorkParser.js:43-52 | A match starts with the keyword, ignoring case, and its name is an identifier. |
| StandardWork.RecordAddsOne | src/core/StandardWorkParser.js:118-155 | A special element adds exactly one entry, at the end of its own list, and leaves the other lists and the steps unchanged. |
| StandardWork.DropClosingParenthesis | src/core/StandardWorkParser.js:166 | One `)` at the end is removed, and nothing else changes. |
| StandardWork.OpenedHeaderWith | src/core/StandardWorkParser.js:30-31 | An idle or end match starts with the keyword, keeps it as written, and has number 0 and the given type. |
| StandardWork.NumberedHeaderWith | src/core/StandardWorkParser.js:29 | A step match starts with the keyword, keeps it as written, and is a `STAP` step. |
| StandardWork.NonBlank | src/core/StandardWorkParser.js:207 | Every kept line is non-blank and comes from the input, and an input without blank lines is kept whole. |
| StandardWork.NonBlankKeeps | src/core/StandardWorkParser.js:207 | A line is kept exactly when it is in the input and not blank. |
| StandardWork.NonBlankAppend | src/core/StandardWorkParser.js:207 | Filtering two blocks of lines joined is filtering each and joining, so the kept lines stay in order. |
| StandardWork.TimersInAppend | src/core/StandardWorkParser.js:210-217 | Each condition contributes its own timer, if any, after those of the conditions before it. |
| StandardWork.TimersInFrom | src/core/StandardWorkParser.js:210-217 | Every timer of a step comes from one of its conditions. |
| StandardWork.KindAt | src/core/StandardWorkParser.js:77-105 | The kind of line `i` is that line classified on its own. |
| StandardWork.StandardWorkParser.constructor | src/core/StandardWorkParser.js:2-17 | A new parser has no open step and an empty result, and keeps the given keyword tables. |
| StandardWork.Create | src/core/StandardWorkParser.js:3-5 | Construction fails exactly when the rules have no step keywords; otherwise it gives a fresh parser with no open step and an empty result. |
| StandardWork.StandardWorkParser.Parse | src/core/StandardWorkParser.js:61-114 | Empty code returns the current result and changes nothing. Otherwise the result starts empty and the fields become those of the line walk over the code, started from the step the previous call left open; special elements are read with the variable pattern as written. |
| StandardWork.StandardWorkParser.ReadLines | src/core/StandardWorkParser.js:77-106 | The loop leaves the fields and collected lines that the line walk over all the lines gives, from the fields at entry. |
| StandardWork.StandardWorkParser.ReadNextLine | src/core/StandardWorkParser.js:77-78 | One turn of the loop advances the line walk by exactly one line, classified on its own. |
| StandardWork.StandardWorkParser.ReadWorkLine | src/core/StandardWorkParser.js:78-105 | The loop body gives the state the walk step gives for the line's kind: skipped lines change nothing, special elements (variable pattern as written first) are recorded, headers finalise the open step and open their own, and indented lines are collected. |
| StandardWork.StandardWorkParser.ParseSpecialElement | src/core/StandardWorkParser.js:116-158 | `found` is whether the variable pattern as written, the timer, the marker or the fault pattern matched. The result gains the first match's entry at the end of its own list, or is unchanged, and the open step is untouched. |
| StandardWork.StandardWorkParser.FinalizeStep | src/core/StandardWorkParser.js:203-237 | The step is finalised from the non-blank collected lines, with each condition's timer, marker and fault, and appended to the steps. |
| StandardWork.CollectFacets | src/core/StandardWorkParser.js:210-234 | The timers, markers and faults of the conditions, in condition order. |
| StandardWorkFacts.NumberedHeaderRoundTrip | src/core/StandardWorkParser.js:29 | `KW n: desc` is read by the alternative `KW` as step `n` with description `desc`. |
| StandardWorkFacts.ParenthesisedHeaderRoundTrip | src/core/StandardWorkParser.js:30-31 | `KW (desc)` is read by an idle or end alternative as `desc`, the parenthesis dropped. |
| StandardWorkFacts.ColonHeaderRoundTrip | src/core/StandardWorkParser.js:30-31 | `KW: desc` is read by an idle or end alternative as `desc`, less one closing parenthesis. |
| StandardWorkFacts.NumberedHeaderChosen | src/core/StandardWorkParser.js:176-184 | A line starting with the `k`-th step spelling is read by that alternative. |
| StandardWorkFacts.RestHeaderChosen | src/core/StandardWorkParser.js:162-173 | A line starting with the `k`-th idle spelling is read by that alternative. |
| StandardWorkFacts.EndHeaderChosen | src/core/StandardWorkParser.js:187-198 | A line starting with the `k`-th end spelling is read by that alternative. |
| StandardWorkFacts.StepHeaderParsed | src/core/StandardWorkParser.js:160-184 | With prefix-free header keywords, `KW n: desc` for a step spelling is a `STAP` step numbered `n`. |
| StandardWorkFacts.IdleHeaderParsed | src/core/StandardWorkParser.js:160-173 | With prefix-free header keywords, `KW (desc)` for an idle spelling is a `RUST` step numbered 0 and described `desc`. |
| StandardWorkFacts.EndHeaderParsed | src/core/StandardWorkParser.js:186-198 | With prefix-free header keywords, `KW: desc` for an end spelling is the `END` step numbered 0, less a closing parenthesis. |
| StandardWorkFacts.TimerDefaultUnit | src/core/StandardWorkParser.js:131-132 | `KW n` gives a timer of `n` in the default unit `Sek`. |
| StandardWorkFacts.TimerWithUnit | src/core/StandardWorkParser.js:131-132 | `KW n UNIT` gives a timer of `n` in `UNIT` as written. |
| StandardWorkFacts.TimerParsed | src/core/StandardWorkParser.js:128-134 | With a prefix-free timer table, `KW n` is recorded as a timer of `n` `Sek`. |
| StandardWorkFacts.NamedRoundTrip | src/core/StandardWorkParser.js:43-52 | `KW NAME = value` is read by the marker pattern, and `KW NAME : value` by the fault pattern, as that name and value. |
| StandardWorkFacts.ApplySteps | src/core/StandardWorkParser.js:85-100 | A header line pushes the open step, if any, and opens its own; no other line touches the steps. |
| StandardWorkFacts.WorkRunSteps | src/core/StandardWorkParser.js:77-106 | Pushed steps plus the open step equal the step open at the start plus one per header line. |
| StandardWorkFacts.FinishSteps | src/core/StandardWorkParser.js:108-111 | At the end of input the open step, if any, is pushed once more. |
| StandardWorkFacts.ParsedSteps | src/core/StandardWorkParser.js:61-114 | `parse` gives one step per header line, plus one for a step a previous call left open, because `currentStep` is not reset. |
| StandardWorkFacts.FreshParseOrdered | src/core/StandardWorkParser.js:87-111 | From a fresh parser, the steps carry strictly increasing line numbers, each a line of the input. |
| StandardWorkFacts.CollectedIff | src/core/StandardWorkParser.js:79-105 | A line is collected exactly when it starts with a space or tab, a step is open, and it is neither blank, a comment, a special element (variable pattern as written) nor a header. |
| StandardWorkFacts.ConditionsAreCollected | src/core/StandardWorkParser.js:207 | The blank-line filter never removes anything, because the loop collects no blank line. |
| WordParser.StripNumbering | src/core/enhancedWordParser.js:25 | The result is a suffix of the input, and a text that does not start with a digit or a dot is kept. |
| WordFacts.StripNumberingRemoves | src/core/enhancedWordParser.js:25 | A text that starts with a digit or a dot loses the whole leading run of digits and dots and the whole run of white space after it, and nothing more. |
| WordParser.ReplaceColons | src/core/enhancedWordParser.js:27 | Every `:` becomes `_`, and every other character is kept in place. |
| WordParser.WordCharsOf | src/core/enhancedWordParser.js:31 | Only `[A-Za-z0-9_]` characters remain, and a text of such characters is kept whole. |
| WordParser.WordCharsOfCounts | src/core/enhancedWordParser.js:31 | Every word character occurs in the result as often as in the input. |
| WordParser.WordCharsOfAppend | src/core/enhancedWordParser.js:31 | Filtering two texts joined is filtering each and joining, so the word characters stay in order. |
| WordParser.GenerateIdbName | src/core/enhancedWordParser.js:22-32 | A name is non-empty and made of `[A-Za-z0-9_]` only; the only failure is the exception an empty word raises. |
| WordFacts.IdbNameOfTitle | src/core/enhancedWordParser.js:24-30 | `a b` gives `a` followed by `b` with its first letter upper-cased. |
| WordFacts.IdbNameOfNumberedTitle | src/core/enhancedWordParser.js:25 | A leading chapter number and the space after it are dropped: `3.1 a b` names like `a b`. |
| WordFacts.IdbNameOfDoubleSpace | src/core/enhancedWordParser.js:28-29 | Two spaces in a row make an empty word, on which `w[0].toUpperCase()` throws. |
| WordFacts.IdbNameFallback | src/core/enhancedWordParser.js:31 | A non-empty title none of whose characters is a word character, white space, `:` or `.` gives `Generated_IDB`. |
| WordParser.FirstRestKeyword | src/core/enhancedWordParser.js:61-64 | The idle keyword chosen is the first in table order that starts an idle header. |
| WordParser.FirstStepKeyword | src/core/enhancedWordParser.js:77-80 | The step keyword chosen is the first in table order that starts a step header. |
| WordParser.ConvertedLines | src/core/enhancedWordParser.js:43-96 | One converted line per input line. |
| WordParser.ConvertToStandaardwerkFormat | src/core/enhancedWordParser.js:37-104 | The result is the converted lines joined with line feeds. |
| WordParser.ConvertNextLine | src/core/enhancedWordParser.js:47-95 | The loop body gives the conversion of that line: idle keywords tried first, then step keywords. |
| WordParser.FindRestKeyword | src/core/enhancedWordParser.js:61-72 | The loop stops at the first idle keyword that starts an idle header. |
| WordParser.FindStepKeyword | src/core/enhancedWordParser.js:77-88 | The loop stops at the first step keyword that starts a step header. |
| WordFacts.IdleParenthesisConverted | src/core/enhancedWordParser.js:63-69 | `KW (desc)` becomes `KW: desc` with the keyword upper-cased and the closing parenthesis dropped. |
| WordFacts.IdleColonConverted | src/core/enhancedWordParser.js:63-69 | `KW: desc` becomes `KW: desc` with the keyword upper-cased. |
| WordFacts.StepColonConverted | src/core/enhancedWordParser.js:78-85 | `KW n: desc` becomes `KW n: desc` with the keyword upper-cased. |
| WordFacts.StepSpaceConverted | src/core/enhancedWordParser.js:78-85 | `KW n desc` becomes `KW n: desc`, the space after the number standing for the colon. |
| WordFacts.OtherLinesKept | src/core/enhancedWordParser.js:53-56 | A blank line becomes empty, and a line starting with no header keyword is kept as it was, indentation included. |
| WordFacts.ConvertedLinesRoundTrip | src/core/enhancedWordParser.js:43-98 | Splitting the converted text at line feeds gives back the converted lines, one per input line. |
| WordParser.Present | src/core/enhancedWordParser.js:279 | `filter(p => p)`: a name is kept exactly when it is a non-empty level of the path. |
| WordParser.PresentAppend | src/core/enhancedWordParser.js:279 | Filtering two paths joined is filtering each and joining, so the levels stay in order. |
| WordParser.AnalyseProgram | src/core/enhancedWordParser.js:125-207 | The program is saved with its IDB name and converted text, or, when making the IDB name throws, with the error and a warning. |
| WordParser.ClearFrom | src/core/enhancedWordParser.js:337-339 | Every path level from `from` on is emptied, and the others are kept. |
| WordParser.ParseWordDocument | src/core/enhancedWordParser.js:246-348 | The programs and warnings are those of the segmentation of the block list. |
| WordParser.WordDocumentParser.SaveCurrentProgram | src/core/enhancedWordParser.js:120-210 | The open program, if any, is appended to the programs and no program is open afterwards. |
| WordParser.WordDocumentParser.ReadBlock | src/core/enhancedWordParser.js:250-341 | The loop body gives the walk state the segmentation step gives for that block. |
| WordParser.WordDocumentParser.StartProgram | src/core/enhancedWordParser.js:257-294 | A title saves the open program if it has text, then opens the new one. |
| WordParser.WordDocumentParser.CollectParagraph | src/core/enhancedWordParser.js:296-330 | A paragraph of the open program sets the IDB name, is skipped, or is buffered line by line. |
| WordParser.WordDocumentParser.UpdateCurrentPath | src/core/enhancedWordParser.js:333-341 | A heading at a level sets that level of the path and empties the levels below it. |
| WordParser.WordDocumentParser.SaveLast | src/core/enhancedWordParser.js:345-348 | After the loop the last program is saved if it has text. |
| WordFacts.FlushRecords | src/core/enhancedWordParser.js:259-262 | An open program is saved only when its buffer holds lines, with its own title and number. No warning about duplicate numbers is added, and no program is open afterwards. |
| WordFacts.TitleWarnsOnRepeat | src/core/enhancedWordParser.js:264-294 | A title adds a duplicate warning exactly when its number was seen before. Its number is seen from then on, and the new program is open with an empty buffer. |
| WordFacts.IdbParagraphNotBuffered | src/core/enhancedWordParser.js:303-314 | `Symbolik IDB` paragraphs never reach the buffer; the one the pattern reads names the open program. |
| WordParser.TitleAt | src/core/enhancedWordParser.js:13 | `\s+(FB\|FC)(\d+)` after a name ending at `i`: the kind found is `FB` or `FC` in upper case, and the name is trimmed. |
| WordParser.TitleFrom | src/core/enhancedWordParser.js:13 | The lazy name search keeps the kind `FB` or `FC` and a trimmed name. |
| WordParser.MatchProgramTitle | src/core/enhancedWordParser.js:272-283 | A title yields the kind `FB` or `FC`, upper-cased, and a trimmed name. |
| WordFacts.ProgramTitleReadsBack | src/core/enhancedWordParser.js:272-283 | `name FBn` or `name FCn`, with a one-line trimmed name holding no block number, is the title of program `name` of that kind, numbered by the digits. |
| WordParser.LineEnd | src/core/enhancedWordParser.js:14 | `.*` stops at the first line terminator, or at the end of the text. |
| WordParser.IdbAt | src/core/enhancedWordParser.js:14 | `Symbolik\s+IDB\s*:\s*(.*)` matched at one position gives a trimmed IDB name. |
| WordParser.IdbFrom | src/core/enhancedWordParser.js:14 | The unanchored search for the IDB pattern gives a trimmed IDB name. |
| WordParser.MatchSymbolikIdb | src/core/enhancedWordParser.js:303-305 | An IDB name read from a line is trimmed. |
| WordFacts.SymbolikIdbReadsBack | src/core/enhancedWordParser.js:303-305 | `Symbolik IDB: v`, with `v` on one line, names the IDB `v`, trimmed. |
| WordFacts.IdbVariantReadsBack | src/core/enhancedWordParser.js:312 | A line starting `Symbool IDB` or `Symbolik IDB` is one of the IDB spellings the walk skips. |
| WordFacts.ParagraphBuffered | src/core/enhancedWordParser.js:318-329 | Any other paragraph of an open program is buffered line by line, whether or not it holds a line break. |
| WordFacts.HeadingUpdatesPath | src/core/enhancedWordParser.js:333-341 | A heading at level `l` names level `l` of the path, keeps the levels above it and empties the ones below. |
| WordFacts.SegmentationTracked | src/core/enhancedWordParser.js:246-348 | After the whole document the path has six levels, and every saved program's number is among those seen. |
| Advanced.InlineCommentFrom | src/core/AdvancedParser.js:34 | The lazy `(.+?)`: the shortest non-empty code part after which white space and `//` follow. |
| Advanced.StepTailOf | src/core/AdvancedParser.js:38-39 | The keyword, the step list and the closing parenthesis lie in that order inside the text. |
| Advanced.ComparisonSplit | src/core/AdvancedParser.js:52 | The subject ends at or after `e`, no later than the operator, which is non-empty and followed by more text. |
| Advanced.EvaluationSplit | src/core/AdvancedParser.js:53 | The subject ends at or after `e`, no later than the operator, which is non-empty and followed by more text. |
| Advanced.AdvancedParser.constructor | src/core/AdvancedParser.js:57-62 | A new parser has no current FB. |
| Advanced.AdvancedParser.EnhanceWithAdvancedParsing | src/core/AdvancedParser.js:81-172 | The collections are those of the line walk, with the last program flushed. The current FB is the one the walk leaves, and the hierarchy is built from the programs and references. |
| Advanced.AdvancedParser.ReadNextLine | src/core/AdvancedParser.js:98 | One turn of the `forEach` advances the line walk by exactly one line. |
| Advanced.AdvancedParser.ReadLine | src/core/AdvancedParser.js:98-160 | A blank line is skipped; any other is recorded by the first detector that matches it. |
| Advanced.AdvancedParser.Record | src/core/AdvancedParser.js:103-160 | A line is recorded by its first detection, in the order the loop tries the detectors. |
| Advanced.AdvancedParser.BuildProgramHierarchy | src/core/AdvancedParser.js:464-491 | Each program goes to the main or the sub list, and each reference gives one relationship from the current FB. |
| Advanced.DetectFBProgram | src/core/AdvancedParser.js:177-191 | A header keeps the line number, has no assignments, starts with its program type and ends with its FB number, which is `FB` and at least one digit. |
| Advanced.DetectVariableAssignment | src/core/AdvancedParser.js:198-246 | An assignment keeps the line number and text, and the array or variable it names is an identifier that starts the line. |
| Advanced.DetectComment | src/core/AdvancedParser.js:252-290 | A comment keeps the line number and text, its content is trimmed, it is single-line exactly when the line starts with `//`, and it carries code exactly when it is inline. |
| Advanced.DetectOrBlock | src/core/AdvancedParser.js:296-338 | A block is completed exactly when the trimmed line is `]` and a block is open. A `[` line always gives a block, and with none open only a `[` line does. |
| Advanced.NormalizeReference | src/core/AdvancedParser.js:344-379 | A reference keeps the line number and text, has at least one step, and its keyword is one of the 4- or 7-letter step keywords. |
| Advanced.DetectEntity | src/core/AdvancedParser.js:385-423 | An entity keeps the line number and text, and it has a name exactly when it is a Käsezähler. |
| Advanced.EnhanceCondition | src/core/AdvancedParser.js:429-458 | A condition keeps the line number and text, and its operator is non-empty. |
| AdvancedFacts.KindOfHeader | src/core/AdvancedParser.js:103-111 | A program header line is read as a header whatever else it matches, and no other line is. |
| AdvancedFacts.KindOfOrBlock | src/core/AdvancedParser.js:132-140 | An OR-block line is read as what the OR-block detector makes of it, with the block open before it. |
| AdvancedFacts.ProgramsCounted | src/core/AdvancedParser.js:104-107 | The result holds one program per header line of the text, the last one flushed at the end. |
| AdvancedFacts.StepFB | src/core/AdvancedParser.js:109 | Only a header line changes the current FB, to its own FB number. |
| AdvancedFacts.CurrentFBIsLastHeader | src/core/AdvancedParser.js:109 | After a call the current FB is that of the text's last header line; a text without one keeps the FB an earlier call set. |
| AdvancedFacts.HeaderHasNoAssignments | src/core/AdvancedParser.js:183-192 | A header opens a program with no assignments. |
| AdvancedFacts.OpenProgramAssignments | src/core/AdvancedParser.js:114-121 | Every assignment read while a program is open is recorded both in the assignment list and in that program, in the same order. |
| AdvancedFacts.DetectOrBlockShape | src/core/AdvancedParser.js:296-338 | `[` opens a fresh empty block. `]` closes the open one and sets its end line. An item extends the open one. |
| AdvancedFacts.OrItemReadsBack | src/core/AdvancedParser.js:323-333 | With a block open, the line `name` or `name +` appends one item to that block, whose condition is `name`, and the block stays open. |
| AdvancedFacts.OrBlocksClosed | src/core/AdvancedParser.js:133-139 | Every recorded block was closed by a `]` line after its `[` line and after each of its items, and its items are in line order. An unclosed block is never recorded. |
| AdvancedFacts.AssignmentFormsExclusive | src/core/AdvancedParser.js:198-244 | The complex, matrix and simple assignment forms never match the same line, so the order they are tried in does not change the result. |
| AdvancedFacts.EvaluationNeverEquals | src/core/AdvancedParser.js:431-456 | The comparison form is tried first, so an evaluation never has the operator `==`. |
| AdvancedFacts.ConditionOperator | src/core/AdvancedParser.js:52 | A comparison's operator is a non-empty run of `<`, `>`, `=` and `!`. |
| AdvancedFacts.ProgramHeaderReadsBack | src/core/AdvancedParser.js:177-191 | `TYPE name FBdigits`, for any program type and a trimmed name of name characters, is read as that program type, name and FB number, with no assignments. |
| AdvancedFacts.SimpleAssignmentReadsBack | src/core/AdvancedParser.js:232-244 | `name (desc) = value` is the simple assignment of `value` to `name`, described by `desc`. |
| AdvancedFacts.ComplexAssignmentReadsBack | src/core/AdvancedParser.js:199-215 | `arr[i1].p1[i2].p2 = value` is the complex assignment of `value` to `p2`, indexed through `arr` by `i1` and through `p1` by `i2`, the indices as written. |
| AdvancedFacts.MatrixAssignmentReadsBack | src/core/AdvancedParser.js:217-230 | `arr[idx].prop = value` is the matrix assignment of `value` to member `prop` of `arr`, with the index trimmed. |
| AdvancedFacts.SingleLineCommentReadsBack | src/core/AdvancedParser.js:253-263 | `//text` is a single-line comment holding the trimmed text and no code. |
| AdvancedFacts.MultiLineCommentReadsBack | src/core/AdvancedParser.js:266-275 | `/*text*/` is a multi-line comment holding the trimmed text and no code. |
| AdvancedFacts.InlineCommentReadsBack | src/core/AdvancedParser.js:278-288 | `code //text`, with trimmed code holding no `/`, is an inline comment with that code and the trimmed text. |
| AdvancedFacts.KaeseReadsBack | src/core/AdvancedParser.js:387-397 | `Käsezähler NAME desc` (or `Cheese Counter`) is the counter `NAME` with description `desc`, when `desc` does not start with a name character. |
| AdvancedFacts.StoerungReadsBack | src/core/AdvancedParser.js:399-409 | `Störung: desc` (or `Fault`, `Error`) is a fault with description `desc`. |
| AdvancedFacts.FreigabeReadsBack | src/core/AdvancedParser.js:411-421 | `Freigabe desc` (or `Release`, `Enable`) is a release with description `desc`. |
| AdvancedFacts.ComparisonReadsBack | src/core/AdvancedParser.js:431-442 | `left op right`, with no operator character in `left`, is the comparison `op` of `left` and `right`. |
| AdvancedFacts.EvaluationReadsBack | src/core/AdvancedParser.js:445-456 | `subject op value`, with `op` one of `ist` and `is` in any case, is the evaluation `op` of `subject` against `value`, when no operator character makes it a comparison and `is` occurs nowhere earlier in the subject. |
| AdvancedFacts.QualifiedReferenceReadsBack | src/core/AdvancedParser.js:346-360 | `desc (prog FBnn KW steps)` is a reference to those steps of `prog`, attributed to `FBnn` whatever FB is current, with the standardized format `FBnn.KW steps`. |
| AdvancedFacts.UnqualifiedReferenceReadsBack | src/core/AdvancedParser.js:363-377 | `desc (prog KW steps)`, `prog` not ending in a digit, is a reference to those steps attributed to the current FB, or `UNKNOWN` when there is none. |
| AdvancedFacts.HeaderMainIff | src/core/AdvancedParser.js:472 | A header's program is main exactly when its keyword is `Hauptprogramm`, in any case. |
| AdvancedFacts.MainsSubsPartition | src/core/AdvancedParser.js:471-477 | The main and sub lists together hold each program exactly once. |
| AdvancedFacts.MainsAreMain | src/core/AdvancedParser.js:472-473 | The main list holds only main programs. |
| AdvancedFacts.SubsAreNotMain | src/core/AdvancedParser.js:474-475 | The sub list holds only programs that are not main. |
| ConditionRegex.Ends | src/core/IntelligentConditionParser.js:14-99 | Every position where a match starting at `i` can end lies between `i` and the end of the text. |
| ConditionRegex.LiteralEnds | src/core/IntelligentConditionParser.js:31-33 | A literal matches exactly where the text holds it. |
| ConditionRegex.ReplaceRunsChars | src/core/IntelligentConditionParser.js:306-309 | Replacing runs of a class keeps only characters from the replacement or from outside the class. |
| ConditionRegex.ReplaceRunsSeparates | src/core/IntelligentConditionParser.js:309 | After runs of white space become one space, no two white-space characters are neighbours. |
| ConditionRegex.ReplaceRunsKeeps | test-normalization.js:43 | `replace(/\s{2,}/g, ' ')` leaves a text with no two white-space characters in a row unchanged. |
| IntelligentConditions.BucketIsFirstMatch | src/core/IntelligentConditionParser.js:127-150 | Every line lands in the first category, in declaration order, one of whose expressions matches it, and in `unrecognized` when none does. |
| IntelligentConditions.CategorizeFilters | src/core/IntelligentConditionParser.js:122-151 | Each list of the result holds exactly the inputs of its bucket, in input order. |
| IntelligentConditions.CategorizeTotal | src/core/IntelligentConditionParser.js:122-151 | Every input is in exactly one list: the list lengths add up to the number of inputs. |
| IntelligentConditions.FirstCategory | src/core/IntelligentConditionParser.js:127-141 | The loop with its `break` gives the first matching bucket of a line. |
| IntelligentConditions.ParseUnknownPatterns | src/core/IntelligentConditionParser.js:107-154 | Every input is pushed onto the list of its bucket, in input order. |
| IntelligentConditions.GenerateStatistics | src/core/IntelligentConditionParser.js:382-406 | The total is the sum of all list lengths and splits into the categorised and unrecognised counts. The breakdown has one entry per list, and its entries sum to the total. |
| IntelligentConditions.StatisticsCountInputs | src/core/IntelligentConditionParser.js:107-154 | Over the result of `parseUnknownPatterns`, the total is the number of inputs. |
| PatternGeneration.StructureShape | src/core/IntelligentConditionParser.js:304-311 | A structure has no digits, its only lower-case letter is `w`, and its only white space is single spaces. It has no leading, trailing or repeated space. |
| PatternGeneration.NumbersDoNotMatter | src/core/IntelligentConditionParser.js:306 | Lines that differ only in their numbers have the same structure and are similar. |
| PatternGeneration.SimilarIsSymmetric | src/core/IntelligentConditionParser.js:287-299 | Similarity is symmetric and reflexive. |
| PatternGeneration.FirstSimilarMeaning | src/core/IntelligentConditionParser.js:268-274 | The search stops at the first group whose first member is similar, or after the last group. |
| PatternGeneration.GroupSimilarPatterns | src/core/IntelligentConditionParser.js:262-282 | The loops compute the grouping of the patterns. |
| PatternGeneration.GroupedKeepsAll | src/core/IntelligentConditionParser.js:262-282 | Together the groups hold every pattern exactly once: their concatenation is a permutation of the input. |
| PatternGeneration.GroupedSimilarToFirst | src/core/IntelligentConditionParser.js:269 | Every member of a group is similar to the group's first member. |
| PatternGeneration.GroupedFirstsApart | src/core/IntelligentConditionParser.js:276-278 | A group's first member is similar to the first member of no earlier group. |
| PatternGeneration.GroupedKeepsOrder | src/core/IntelligentConditionParser.js:265-270 | Every group lists its members in input order. |
| PatternGeneration.CommonPrefix | src/core/IntelligentConditionParser.js:349-362 | The result is a prefix of both arguments that cannot be extended. |
| PatternGeneration.CommonPrefixLongest | src/core/IntelligentConditionParser.js:349-362 | Every common prefix is a prefix of the result, so it is the longest. |
| PatternGeneration.FindCommonSubstring | src/core/IntelligentConditionParser.js:349-362 | The loop returns the longest common prefix. |
| PatternGeneration.CommonPrefixOfAllShrinks | src/core/IntelligentConditionParser.js:338-341 | The running prefix over more structures is a prefix of the one over fewer. |
| PatternGeneration.FindCommonStructure | src/core/IntelligentConditionParser.js:333-344 | The loop gives up on an empty list, or as soon as the running prefix is shorter than 3. |
| PatternGeneration.CommonStructureMeaning | src/core/IntelligentConditionParser.js:333-344 | A common structure is a prefix of every structure, and no common prefix is longer. With two structures or more it has at least 3 characters. |
| PatternGeneration.AsWrittenEscapesItsOwnClasses | src/core/IntelligentConditionParser.js:370-376 | As written, `w` becomes `\[a-z\]+`, whose brackets are escaped. |
| PatternGeneration.AsWrittenReadsBackWrong | src/core/IntelligentConditionParser.js:367-377 | `RegexToStructure` reads the regex generated as written for `w` back as the structure `[a-z]+`, not `w`. |
| PatternGeneration.RegexRoundTrip | src/core/IntelligentConditionParser.js:367-377 | Reading the corrected regex back gives the structure. |
| PatternGeneration.GenerateRegexFromGroup | src/core/IntelligentConditionParser.js:316-328 | Returns nothing for fewer than 3 lines or no common structure, and otherwise the as-written translation of the common structure. |
| PatternGeneration.GroupRegexMeaning | src/core/IntelligentConditionParser.js:316-328 | A regex comes only from groups of at least 3. It is the as-written translation of a structure of at least 3 characters that starts every member's structure and that every common start is a prefix of. |
| PatternGeneration.CorrectedGroupRegexReadsBack | src/core/IntelligentConditionParser.js:316-377 | With the corrected translation, a group's regex comes from at least 3 lines and reads back as a structure of at least 3 characters that starts every member's structure. |
| PatternGeneration.GeneratePatternsForCategory | src/core/IntelligentConditionParser.js:236-257 | The lines are grouped, and each group of at least 3 with a regex gives one rule carrying that regex and its first three lines, in group order. |
| PatternGeneration.CategoryPatternsSupported | src/core/IntelligentConditionParser.js:242-253 | Every generated rule has three examples, and its regex is the as-written translation of a structure of at least 3 characters that starts each example's structure. |
| PatternGeneration.RuleCategoryUnique | src/core/IntelligentConditionParser.js:221-230 | Each rule list is fed by exactly one category. |
| PatternGeneration.GenerateImprovedRules | src/core/IntelligentConditionParser.js:195-216 | Every rule list exists and holds the rules generated, with the as-written regex, from the lines of its one source category. |
| Normalization.KeywordEndFound | test-normalization.js:30 | Any word of a prefix-free upper-case table written at a position in any case is found, and upper-cases to itself. |
| Normalization.MatchAt | test-normalization.js:22-41 | Each stage of the chain tried at one position: a match takes at least one character and ends inside the text. |
| Normalization.StepAfterTextFound | test-normalization.js:22-24 | Text that does not start with a line feed, followed on the same line by white space, a step keyword in any case, white space and a digit, is matched where it starts. |
| Normalization.IdleAfterTextFound | test-normalization.js:25-26 | Text that does not start with a line feed, followed on the same line by white space and an idle keyword in any case, is matched where it starts. |
| Normalization.OwnLineHit | test-normalization.js:22-26 | A match of the first two replacements becomes trimmed text, a line break, and a line that starts with the upper-case header. |
| Normalization.IdleHeaderHit | test-normalization.js:30 | A match starts a line and holds an idle keyword after the indentation; it becomes that keyword upper-cased followed by `: `. |
| Normalization.IdleHeaderFound | test-normalization.js:30 | An idle keyword at the start of a line, in any case, is rewritten to its upper-case form and `: `. |
| Normalization.StepHeaderHit | test-normalization.js:32-33 | A match starts a line and holds a step keyword after the indentation; it becomes `KEYWORD N: `. |
| Normalization.StepHeaderFound | test-normalization.js:32-33 | A step keyword at line start, with an optional `-` or `.` and a number, becomes the upper-case keyword, the number and `: `. |
| Normalization.StepWithoutNumberHit | test-normalization.js:35-36 | A match starts a line and becomes a step header numbered 1. |
| Normalization.StepWithoutNumberFound | test-normalization.js:35-36 | A step keyword at line start followed by `:` or `.` and no digit becomes the upper-case keyword numbered 1. |
| Normalization.DeclarationHit | test-normalization.js:38-39 | A match runs from a line start to a line end. It is replaced by the `VON SCHRITT` declaration upper-cased, without the indentation and the trailing white space. |
| Normalization.DeclarationFound | test-normalization.js:38-39 | A line holding, after its indentation, an optional `+`, `VON`, a step keyword and digits in any case, then only white space to the line end, is matched and replaced by the declaration upper-cased. |
| Normalization.ColonFound | test-normalization.js:41 | A word character followed by optional white space and a colon is matched there; it becomes the character, `:` and one space, and the white space after the colon goes with it. |
| Normalization.ColonHit | test-normalization.js:41 | A match is a word character followed by white space and exactly one colon; it becomes the character, the colon and one space. |
| Normalization.ReplaceCopiesUpTo | test-normalization.js:22-41 | A global `replace` copies the text unchanged up to the first position where its pattern matches. |
| Normalization.FirstMatchReplaced | test-normalization.js:22-41 | The first match is replaced: the text before it is copied, the replacement follows, and the scan resumes where the match ends. |
| Normalization.ReplaceUnchanged | test-normalization.js:17-44 | Where a replacement matches nowhere, it leaves the text as it is. |
| Normalization.NormalizedKeepsPlainText | test-normalization.js:17-44 | `normalizeStepFormatting` returns a text unchanged when no stage matches in it and it has no two white-space characters in a row. |
| Normalization.NormalizedSpacing | test-normalization.js:43 | The normalized text never holds two white-space characters in a row, line feeds included. |

## Left out

- I/O in `parseWordDocument` is not modelled: mammoth, `window`, the file buffer, the HTML tag regex, tag stripping, `buildFolderTree` and logging. The block walk takes the list of heading and paragraph blocks as its input.
- `saveCurrentProgram` is abstracted. A saved program keeps its header, trimmed text, IDB name and converted text. It does not hold the merged `StandardWorkParser` result; that parser is modelled on its own. For the same reason the document totals at enhancedWordParser.js lines 353-361 are not modelled.
- `enrichProgramForExport` calls `parseStandaardwerk` without importing it, so it is not modelled.
- `PersistentPatternStorage`, the React views, the XML generator and the scripts that drive parsers outside the core are not part of this model.
- `FlexibleParser` is not part of this model. `AdvancedParser` starts from none of its `baseResult`; its `parseText` and `exportEnhancedTrainingData` are left out with it.
- Floating-point outputs are not modelled: `calculateConfidence`, the `confidence` fields, `reductionPercentage`, and the average confidence of generated rules.
- `mapCategoryToKey` is the identity on the ten category names, so a category is its own bucket.
- `/g`-flagged expressions keep a `lastIndex` between `test` calls. In `parseUnknownPatterns` every such `test` still starts at `lastIndex` 0: a failed `test` resets it, and after a hit the `match` in `calculateConfidence` resets it. The model's fresh match from the start of the text is therefore exact there.
- In the `AdvancedParser` detectors and in the tail `(.+?)` of the mixed header patterns in `syntaxRules`, a regex `.` is taken to accept any character: lone carriage returns and the Unicode line separators are treated as ordinary characters there. The other modules exclude them where the source's `.` does (`Text.IsLineTerminator`); the condition expressions hold no `.`. Throughout, `$` ends only at the end of the text, because no `m` flag is used where it matters.
- Case folding covers ASCII letters and the German umlauts only; `ß` and other scripts keep their case.
- In `IntelligentConditionParser`, `this.patterns` and `patternsAreSimilar` are parameters (`patterns`, `like`); the default tables are `PatternTables` and `Similar`.
- Advanced.AdvancedParser.ReadLine: the source tries the detectors lazily, one after another. The model evaluates all seven, then takes the first hit. The detectors are pure, so the result is the same.
- Advanced.AdvancedParser.Record: `detectOrBlock` mutates the open block in place, and the block recorded in `orBlocks` is that same object. The model passes blocks by value, so aliasing is not modelled.
- WordFacts.IdleParenthesisConverted, WordFacts.IdleColonConverted, WordFacts.StepColonConverted and WordFacts.StepSpaceConverted cover the keyword written exactly as in the table, not other letter cases. `OtherLinesKept` covers lines that start with no keyword in any case.
- StandaardwerkFacts.RunCounted: holds only while no step header replaces the groups of an earlier step. At the second header, conditions collected earlier replace groups without a change to `totalConditions` (`OpenStepCounted` says by how much the two then differ).
- StandardWork.StandardWorkParser.Parse: `parse` resets `this.result` but not `this.currentStep` (StandardWorkParser.js lines 64-72). A step still open at the end of a call has already been pushed into that call's result (lines 111 and 236). The next call's `finalizeStep` then changes that step object in place (lines 206-233), so a result returned earlier changes too. The model passes steps and results by value, so that aliasing is not modelled; the re-finalised step is modelled.
- AdvancedFacts.InlineCommentReadsBack: covers code parts without `/`, where the lazy match is known to take the whole code part.
- AdvancedFacts.UnqualifiedReferenceReadsBack: covers program names that do not end in a digit; `prog FB12` would be read by the qualified form first.
- PatternGeneration.Similar, PatternGeneration.CommonPrefix, PatternGeneration.FindCommonSubstring, PatternGeneration.CommonStructure: JavaScript's `.length` and `str[i]` count UTF-16 code units, and the model counts Unicode characters. The ±20 length test of `patternsAreSimilar`, the `common.length < 3` test and the indexing of `findCommonSubstring` can therefore differ on text with characters outside the Basic Multilingual Plane, such as emoji.
- SyntaxRules.ParseStepList, Standaardwerk.StepOf, StandardWork.TimerWith, StandardWork.NumberedHeaderWith, WordParser.TitleAt: `parseInt` returns a floating-point number that loses precision above 2^53. These members read step numbers (syntaxRules.js, parser.jsx line 136, StandardWorkParser.js line 181), timer durations (StandardWorkParser.js lines 131 and 214) and title block numbers (enhancedWordParser.js line 274) exactly, through `Text.DigitsValue`. `Advanced.NormalizeReference` reads its step list through `SyntaxRules.ParseStepList`. `Advanced.DetectFBProgram` keeps the FB number as text, as the source does.
- Standaardwerk.MatchStepLine, StandardWork.RestHeader, StandardWork.NumberedHeader, StandardWork.EndHeader, StandardWork.MatchTimer, StandardWork.MatchNamed: an empty keyword table matches nothing in the model. The source joins each table with `|` (parser.jsx line 118; StandardWorkParser.js lines 29-31, 38, 44 and 50), so an empty table leaves an empty alternative, which matches an empty keyword. With no step keywords, StandardWorkParser.js reads `5: x` as a step whose keyword is empty; with no idle keywords, parser.jsx reads `: x` as a header. The constructor (StandardWorkParser.js lines 3-5) rejects a missing `stepKeywords` but not empty lists. The default tables are not empty.
- WordFacts.ProgramTitleReadsBack: states the title read back for a name that is already trimmed and on one line. The source trims the captured name (enhancedWordParser.js line 281), so an untrimmed name reads back trimmed. The lemma does not cover that case, and `WordParser.TitleAt` states only that the name it returns is trimmed.
- IntelligentConditions.TextOf: for a record with neither `text` nor `originalLine`, `pattern.text || pattern.originalLine || pattern` is the record object itself (IntelligentConditionParser.js line 123). `regex.test` reads it as the string `[object Object]`. The default array-notation expression matches that string, and `calculateConfidence` then throws a TypeError on `text.match` (line 181). Under tables where nothing matches, the object is stored as the entry's text (lines 144-149), and `extractStructure` throws a TypeError on `text.replace` (lines 304-305) if the entry reaches `generateImprovedRules`. The model stores the string `[object Object]` and carries on; neither exception is modelled.
- Keywords are matched as literal text. A keyword table supplied at run time whose words hold regex metacharacters would be read by the source as a pattern; that is not modelled.

## Findings

| source | as written | input that shows it | evidently intended | confidence | as-written member | corrected member |
|---|---|---|---|---|---|---|
| src/core/StandardWorkParser.js:34 | The variable pattern's class is `[A-ZaZ0-9_]`, so after the first letter a name may hold only upper-case letters, `a`, `Z`, digits and `_`. | `counter = 5` is not read as a variable. | `[A-Za-z0-9_]`: any identifier, so `counter = 5` is the variable `counter` with value `5`. | not executed | StandardWork.VariableDefinitionAsWritten, StandardWork.VariableDefinitionTypo, StandardWork.CounterIsNoSpecialElement | StandardWork.VariableDefinition, StandardWork.VariableDefinitionRoundTrip |
| src/core/IntelligentConditionParser.js:367-377 | `structureToRegex` first writes the classes `[A-Z]{2,}` and `[a-z]+`, then escapes every `[` and `]`, including the ones it has just written. | The structure `w` gives `\[a-z\]+`, which matches the text `[a-z` followed by one or more `]`, and not a lower-case word. | Escape the structure's own metacharacters before inserting the classes, so the regex reads back as the structure. | not executed | PatternGeneration.StructureToRegexAsWritten, PatternGeneration.AsWrittenReadsBackWrong, PatternGeneration.GroupRegexMeaning | PatternGeneration.StructureToRegex, PatternGeneration.RegexRoundTrip, PatternGeneration.CorrectedGroupRegexReadsBack |
