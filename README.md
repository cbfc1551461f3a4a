# MiniQuery compiler core in Dafny

MiniQuery is a small query language over integer lists:

```
data nums = [1, 2, 3, 10]
big = select > 5 from nums
total = sum from nums
print big
```

Its compiler has five stages, and each one is modelled here:

- The **parser** (`parser.dfy`, module `Parsing`) is a recursive-descent parser over a token list with a cursor. The class `Parsing.Parser` keeps the tokens and the cursor. Each of its methods is proved to compute a cursor-passing function (`StatementAt`, `QueryAt`, …). Those functions state what is consumed and what errors are raised.
- The **semantic analyzer** (`semantic.dfy`, module `Semantics`) keeps a symbol table. It:
  - rejects redeclarations, undeclared names and type-changing reassignments;
  - infers `list<int>` or `int` for each expression.

  The class `Semantics.SemanticAnalyzer` updates its table exactly as the function `CheckStatement` says.
- The **IR generator** (`ir_generator.dfy`, module `IRGen`) lowers statements to three-address instructions, using fresh temporaries `_t1`, `_t2`, …. The class `IRGen.IRGenerator` keeps the emitted instructions and the temporary counter.
- The **optimizer** (`optimizer.dfy`, module `Optimizer`) runs three passes:
  - constant folding of filters over known literal lists;
  - copy propagation of `ASSIGN _tK -> x`;
  - dead code elimination.

  Each pass is a loop proved equal to a specification function.
- The **interpreter** (`codegen.dfy`, module `CodeGen`) executes instructions over an environment. The class `CodeGen.CodeGenerator` keeps the environment and the printed output.

Support modules:

- `wrappers.dfy` holds `Option`, `Result` and `Outcome`.
- `decimal.dfy` holds `int()`/`str()` on digit strings.
- `lists.dfy` holds the order-preserving filter that models Python list comprehensions.

`pipeline.dfy` (module `Pipeline`) connects the stages:

- Accepted programs lower to well-shaped code.
- Folding computes what the interpreter computes.
- Dead code elimination keeps what a successful run prints.

It also holds three counterexamples where the optimizer or the analyzer, as written, changes or breaks a program's behaviour. Next to each is a corrected definition that is proved correct.

## Model

| member | source | states |
|---|---|---|
| Parsing.Parser.constructor | src/parser.py:61-63 | the parser starts at position 0 over the given tokens |
| Parsing.CurrentAt | src/parser.py:69-72 | there is a current token exactly when the position is inside the token list, and it is the token at that position |
| Parsing.EatAt | src/parser.py:74-87 | eating succeeds if and only if the current token has the expected type; it returns that token and advances by one; otherwise the error is end of input or an unexpected token, as the position says |
| Parsing.Parser.Eat | src/parser.py:74-87 | the method computes `EatAt` and leaves the position unchanged on failure |
| Parsing.NumberAt | src/parser.py:136 | a number is a `NUM` token; its value is the non-negative integer its digits spell |
| Parsing.NumberTailAtExtends | src/parser.py:138-140 | the comma loop only appends to the values read so far, and only non-negative values |
| Parsing.Parser.NumberTail | src/parser.py:138-140 | the `while` loop over `, NUM` computes `NumberTailAt` and never moves the cursor back |
| Parsing.DataDeclAt | src/parser.py:129-143 | a parsed `data` statement is a data declaration and consumes at least one token |
| Parsing.DataDeclAtWellFormed | src/parser.py:129-143 | a parsed declaration has at least one value, and every value is non-negative |
| Parsing.Parser.DataDecl | src/parser.py:129-143 | the method computes `DataDeclAt` and never moves the cursor back |
| Parsing.ConditionAt | src/parser.py:184-213 | a parsed condition consumes at least one token, within the input |
| Parsing.ConditionAtWellFormed | src/parser.py:184-213 | a parsed condition is `>`, `<` or `=` with one bound, or `between` with two bounds |
| Parsing.Parser.ParseCondition | src/parser.py:184-213 | the method computes `ConditionAt` |
| Parsing.QueryAt | src/parser.py:150-178 | a parsed query is a select or a filter query |
| Parsing.QueryAtWellFormed | src/parser.py:150-178 | over lexed tokens, a filter's mode is `even` or `odd`, and a select has a well-formed condition |
| Parsing.Parser.Query | src/parser.py:150-178 | the method computes `QueryAt` |
| Parsing.AggregationAt | src/parser.py:240-245 | a parsed aggregation consumes its keyword, and its function is the keyword's token type in lower case |
| Parsing.LowerAggregationKinds | src/parser.py:242 | the four aggregation keywords lower to `sum`, `max`, `min` and `count` |
| Parsing.AggregationAtWellFormed | src/parser.py:240-245 | an aggregation parsed at an aggregation keyword is well formed |
| Parsing.Parser.Aggregation | src/parser.py:240-245 | the method computes `AggregationAt` |
| Parsing.AssignmentAt | src/parser.py:219-234 | a parsed assignment is an assignment node and consumes at least one token |
| Parsing.RhsAt | src/parser.py:223-232 | a parsed right-hand side consumes at least one token |
| Parsing.RhsAtWellFormed | src/parser.py:223-232 | a right-hand side is a query or an aggregation, and it is well formed |
| Parsing.AssignmentAtWellFormed | src/parser.py:219-234 | a parsed assignment is well formed |
| Parsing.Parser.Assignment | src/parser.py:219-234 | the method computes `AssignmentAt` |
| Parsing.PrintAt | src/parser.py:251-254 | a parsed `print` consumes exactly two tokens |
| Parsing.Parser.PrintStmt | src/parser.py:251-254 | the method computes `PrintAt` |
| Parsing.StatementAt | src/parser.py:105-123 | a parsed statement consumes at least one token, so the statement loop makes progress |
| Parsing.StatementAtWellFormed | src/parser.py:105-123 | every statement parsed from lexed tokens is well formed |
| Parsing.Parser.Statement | src/parser.py:105-123 | the method computes `StatementAt` |
| Parsing.StatementsFromStep | src/parser.py:94-99 | the program loop parses one statement and then the rest, stopping at the first error |
| Parsing.StatementsFromWellFormed | src/parser.py:94-99 | every statement of a parsed program is well formed |
| Parsing.Parser.Parse | src/parser.py:94-99 | the method's result is `ParseFrom` of the tokens from the starting position; after a successful parse the cursor is at the end of the tokens |
| Parsing.NumberTailAtRendered | src/parser.py:138-140 | the tokens `, v1, v2 …` are read back as exactly those values |
| Parsing.ConditionAtRendered | src/parser.py:184-213 | the tokens of a well-formed condition are parsed back into that condition |
| Parsing.QueryAtRendered | src/parser.py:150-178 | the tokens of a well-formed query are parsed back into that query |
| Parsing.LowerAggregationKind | src/parser.py:242 | the keyword written for an aggregation function lowers back to that function |
| Parsing.AggregationAtRendered | src/parser.py:240-245 | the tokens of an aggregation are parsed back into it |
| Parsing.DataDeclAtRendered | src/parser.py:129-143 | the tokens of a well-formed declaration are parsed back into it |
| Parsing.RhsAtRendered | src/parser.py:223-232 | the tokens of a right-hand side are parsed back into it |
| Parsing.AssignmentAtRendered | src/parser.py:219-234 | the tokens of a well-formed assignment are parsed back into it |
| Parsing.StatementAtRendered | src/parser.py:105-123 | the tokens of any well-formed statement are parsed back into it |
| Parsing.StatementsFromRendered | src/parser.py:94-99 | the tokens of a list of well-formed statements are parsed back into that list |
| Parsing.ParseRendered | src/parser.py:94-99 | round trip: parsing the tokens of well-formed statements gives back the program |
| Parsing.NumberTailAtKinds | src/parser.py:138-140 | converse of the round trip: a successful comma loop consumed exactly the tokens of `, v1, v2 …` for the values it appended, and stopped where no comma follows |
| Parsing.ConditionAtKinds | src/parser.py:184-213 | converse of the round trip: a parsed condition is well formed and consumed exactly tokens of the kinds of its rendering |
| Parsing.SelectAtKinds | src/parser.py:169-175 | a parsed `select` query consumed exactly tokens of the kinds of its rendering |
| Parsing.FilterAtKinds | src/parser.py:153-167 | a parsed `filter` query consumed exactly tokens of the kinds of its rendering |
| Parsing.QueryAtKinds | src/parser.py:150-178 | converse of the round trip: a parsed query is well formed and consumed exactly tokens of the kinds of its rendering |
| Parsing.AggregationAtKinds | src/parser.py:240-245 | a parsed aggregation consumed exactly tokens of the kinds of its rendering |
| Parsing.RhsAtKinds | src/parser.py:223-232 | converse of the round trip: a parsed right-hand side is well formed and consumed exactly tokens of the kinds of its rendering |
| Parsing.AssignmentAtKinds | src/parser.py:219-234 | a parsed assignment consumed exactly tokens of the kinds of its rendering |
| Parsing.DataDeclAtKinds | src/parser.py:129-143 | a parsed declaration consumed exactly tokens of the kinds of its rendering |
| Parsing.StatementAtKinds | src/parser.py:105-123 | converse of the round trip: a parsed statement is well formed and consumed exactly tokens of the kinds of its rendering |
| Parsing.StatementsFromKinds | src/parser.py:94-99 | the statements parsed from a position are well formed and their renderings cover exactly the rest of the input, kind by kind |
| Parsing.ParsedKinds | src/parser.py:94-99 | converse of `ParseRendered`: every successfully parsed program is well formed, and its rendering has the same token kinds as the input, position by position |
| Decimal.ParseNat | src/parser.py:136 | `int()` of a token's text succeeds exactly on non-empty digit strings |
| Decimal.NatToStringRoundTrip | src/parser.py:136 | `int(str(n)) == n` for every natural number |
| Semantics.SemanticAnalyzer.constructor | src/semantic.py:31-33 | the analyzer starts with an empty symbol table |
| Semantics.RequireSymbol | src/semantic.py:214-217 | succeeds exactly when the name is declared, and returns its symbol |
| Semantics.RequireListSymbol | src/semantic.py:219-225 | succeeds exactly when the name is declared with type `list<int>` |
| Semantics.InferSelect | src/semantic.py:146-167 | a select is typed `list<int>` exactly when its source is a declared list and its operator has the bounds it reads |
| Semantics.InferFilter | src/semantic.py:174-183 | a filter is typed `list<int>` exactly when its source is a declared list and its mode is `even` or `odd` |
| Semantics.InferAggregation | src/semantic.py:190-200 | an aggregation is typed `int` exactly when its source is a declared list and its function is one of the four |
| Semantics.InferExpr | src/semantic.py:132-139 | only queries and aggregations over a declared list are typed; the type is `list<int>` exactly for queries |
| Semantics.CheckPrint | src/semantic.py:206-209 | `print` passes exactly when its name is declared |
| Semantics.CheckStatement | src/semantic.py:49-127 | an accepted statement uses only declared names and only adds the names it defines; a declaration is accepted exactly when its name is new and adds a `list<int>` symbol with element type `int` and size the number of values; an assignment to a new name is accepted exactly when its right-hand side has a type, and the name gets that type, with element type `int` when it is `list<int>`; a reassignment is accepted exactly when the type is the same and leaves the table unchanged; a print is accepted exactly when its name is declared; any other statement is accepted exactly when it has a type |
| Semantics.AnalyzeExtends | src/semantic.py:38-44 | analysis only adds symbols: every entry already in the table stays unchanged |
| Semantics.AcceptedDeclaresBeforeUse | src/semantic.py:38-63 | in an accepted program, every name a statement uses is declared by an earlier statement |
| Semantics.AnalyzedTable | src/semantic.py:38-44 | the table left after checking statements up to the first refusal only grows, and on an accepted program it is the table `AnalyzeFrom` returns |
| Semantics.SemanticAnalyzer.Analyze | src/semantic.py:38-44 | the method's verdict is `AnalyzeFrom` of the statements; in every case the table is `AnalyzedTable`, so after a refusal it keeps the updates of every statement before the refused one |
| Semantics.SemanticAnalyzer.CheckStatementMethod | src/semantic.py:49-63 | the method updates the table exactly as `CheckStatement` does, and leaves it unchanged on failure |
| Semantics.SemanticAnalyzer.CheckDataDecl | src/semantic.py:69-88 | same as above, for declarations |
| Semantics.SemanticAnalyzer.CheckAssignment | src/semantic.py:95-127 | same as above, for assignments |
| IRGen.IRGenerator.constructor | src/ir_generator.py:34-36 | generation starts with no instructions and counter 0 |
| IRGen.TempName | src/ir_generator.py:38-41 | every temporary is `_t` followed by digits |
| IRGen.TempNameInjective | src/ir_generator.py:38-41 | different counter values give different temporaries |
| IRGen.Temps | src/ir_generator.py:38-41 | the k-th temporary drawn is `_t(k+1)` |
| IRGen.TempsDistinct | src/ir_generator.py:38-41 | the temporaries drawn are pairwise distinct |
| IRGen.IRGenerator.NewTemp | src/ir_generator.py:38-41 | the counter goes up by one, and the result is the temporary for the new counter |
| IRGen.SelectInstr | src/ir_generator.py:136-181 | a select lowers exactly when its operator is known and has the bounds it reads; the instruction reads the source and writes the temporary |
| IRGen.ExprInstr | src/ir_generator.py:122-129 | an expression lowers exactly when it is translatable, into one query instruction from its source into the temporary |
| IRGen.IRGenerator.GenExpr | src/ir_generator.py:122-129 | the method appends `ExprInstr`'s instruction and returns its temporary; it also consumes a temporary on failure, as the source does |
| IRGen.IRGenerator.GenSelect | src/ir_generator.py:136-181 | the method draws one temporary and appends the select's instruction |
| IRGen.IRGenerator.GenFilter | src/ir_generator.py:188-205 | the method draws one temporary and appends the filter's instruction |
| IRGen.IRGenerator.GenAggregation | src/ir_generator.py:212-235 | the method draws one temporary and appends the aggregation's instruction |
| IRGen.IRGenerator.GenDataDecl | src/ir_generator.py:90-98 | the method appends one `LIST` instruction and draws no temporary |
| IRGen.IRGenerator.GenPrint | src/ir_generator.py:241-249 | the method appends one `PRINT` instruction with no result and draws no temporary |
| IRGen.IRGenerator.GenAssignment | src/ir_generator.py:105-117 | the method appends the expression's instruction and then `ASSIGN temp -> target`; when refused, it appends nothing and the counter has advanced exactly when the right-hand side is a query or an aggregation |
| IRGen.StatementCodeShape | src/ir_generator.py:61-117 | a statement lowers exactly when it is translatable, into two instructions for an assignment and one otherwise, all well shaped |
| IRGen.IRGenerator.GenStatement | src/ir_generator.py:61-83 | the method appends the statement's code and advances the counter as `StatementCode` says; when refused, it appends nothing and the counter counts the temporary a query drew before failing |
| IRGen.WellFormedIsTranslatable | src/ir_generator.py:122-235 | every statement the parser can produce can be lowered |
| IRGen.GenStatementsShape | src/ir_generator.py:46-56 | a program lowers exactly when all its statements are translatable; its code is well shaped and has one instruction per statement plus one per assignment |
| IRGen.IRGenerator.Generate | src/ir_generator.py:46-56 | the method returns the lowered code and leaves it, and the final counter, in its fields; when a statement is refused, the fields hold the earlier statements' code and the temporaries drawn so far (`Leftover`) |
| IRGen.StatementTemps | src/ir_generator.py:61-83 | each assignment draws exactly the next temporary; declarations and prints draw none |
| IRGen.GeneratedTemps | src/ir_generator.py:38-56 | the query results of a lowered program are `_t1, _t2, …` in order, one per query |
| IRGen.GeneratedAssignsFollowDefinitions | src/ir_generator.py:105-117 | every `ASSIGN` copies the temporary the instruction just before it defined |
| Optimizer.Folded | src/optimizer.py:33-90 | folding keeps the length, the shape and every instruction's result name |
| Optimizer.ConstantFolding | src/optimizer.py:33-90 | the loop with its known-list dictionary computes `Folded` |
| Optimizer.FoldedPrefix | src/optimizer.py:39-88 | folding works front to back: folding a prefix gives the prefix of the folded code |
| Optimizer.FoldedAt | src/optimizer.py:39-88 | a filter over a known list becomes `LIST` of the filtered values; every other instruction is unchanged |
| Optimizer.FoldedIsFoldInstr | src/optimizer.py:39-88 | each instruction is folded with the lists known from the code folded before it |
| Optimizer.ListBindingsAreLastListDefinitions | src/optimizer.py:41-44 | a name is known exactly when some `LIST` defined it, and its value is the one from the last such `LIST` |
| Optimizer.KnownNamesAreListOrFilterResults | src/optimizer.py:41-76 | only names defined by a `LIST` or a filter ever become known |
| Optimizer.FoldFilterSublist | src/optimizer.py:51-68 | a folded filter keeps, in order, exactly the values satisfying its predicate |
| Optimizer.CopyPropagation | src/optimizer.py:99-126 | the two loops compute `Propagated` |
| Optimizer.PropagationMapIsLastCopy | src/optimizer.py:102-105 | a name is in the map exactly when some `ASSIGN _tK -> name` exists, and it maps to the temporary of the last one |
| Optimizer.PropagatedChangesOnlyNames | src/optimizer.py:108-126 | propagation keeps the length, every operation and result, and replaces an operand only by a temporary copied into it somewhere |
| Optimizer.DeadCodeElimination | src/optimizer.py:132-150 | the two loops compute `DeadCodeEliminated` |
| Optimizer.UsedNamesAreOperands | src/optimizer.py:136-140 | the used names are exactly the names some instruction reads |
| Optimizer.DeadCodeEliminatedKeepsLive | src/optimizer.py:143-148 | the result is a subsequence with exactly the live instructions, each with its multiplicity |
| Optimizer.DeadCodeEliminationKeepsResultless | src/optimizer.py:145 | every instruction without a result (every `PRINT`) is kept, in order |
| Optimizer.DeadCodeEliminationNotFixpoint | src/optimizer.py:132-150 | one pass is not idempotent: removing an unread aggregation makes its source declaration dead |
| Optimizer.Optimize | src/optimizer.py:16-20 | the method computes folding, then propagation, then elimination |
| Optimizer.OptimizedKeepsResultless | src/optimizer.py:16-20 | optimizing keeps every resultless instruction and never lengthens the code |
| CodeGen.CodeGenerator.constructor | src/codegen.py:18-19 | the interpreter starts with an empty environment and no output |
| CodeGen.Lookup | src/codegen.py:67-70 | reading a name succeeds exactly when it is bound, and gives a bound value |
| CodeGen.Max | src/codegen.py:131-132 | the maximum is an element no smaller than any other |
| CodeGen.Min | src/codegen.py:133-134 | the minimum is an element no larger than any other |
| CodeGen.Step | src/codegen.py:27-47 | an unknown operation fails; `PRINT` appends exactly one value and keeps the environment; every other operation binds its result and changes nothing else |
| CodeGen.StepFailure | src/codegen.py:52-148 | `LIST` fails exactly when its operand is not a literal list; `ASSIGN`, a filter, an aggregation or `PRINT` of an unbound name fails with the unknown-variable error; a filter or aggregation of a non-list value fails; a well-shaped instruction fails exactly in these cases |
| CodeGen.FilterValuesSublist | src/codegen.py:87-107 | a filter's result is a subsequence of its source list |
| CodeGen.AggregateValueMeaning | src/codegen.py:129-140 | `count` is the length and `sum` is the sum; `max`/`min` are absent exactly on the empty list, and otherwise are the extreme element |
| CodeGen.ExecuteExtendsOutput | src/codegen.py:27-47 | execution only appends to the output, at most one value per instruction |
| CodeGen.ExecuteAppend | src/codegen.py:27-47 | running `a + b` runs `a` and then `b` from the state `a` leaves, unless `a` failed |
| CodeGen.CodeGenerator.Run | src/codegen.py:21-47 | the loop computes `ExecuteFrom` from an empty environment, and stops at the first error |
| CodeGen.CodeGenerator.ExecList | src/codegen.py:52-58 | the method applies `Step` to the fields |
| CodeGen.CodeGenerator.ExecAssign | src/codegen.py:63-70 | the method applies `Step` to the fields |
| CodeGen.CodeGenerator.ExecFilter | src/codegen.py:75-112 | the method applies `Step` to the fields |
| CodeGen.CodeGenerator.ExecAggregation | src/codegen.py:117-140 | the method applies `Step` to the fields |
| CodeGen.CodeGenerator.ExecPrint | src/codegen.py:145-151 | the method applies `Step` to the fields; the printed value is appended to the output |
| Pipeline.ListStep | src/codegen.py:52-58 | `LIST` binds its name to its values |
| Pipeline.AssignStep | src/codegen.py:63-70 | `ASSIGN` copies a bound source's value to its result |
| Pipeline.SelectStep | src/codegen.py:87-97 | a comparison filter over a bound list binds the filtered values |
| Pipeline.AggregateStep | src/codegen.py:117-140 | an aggregation over a bound list binds its aggregate |
| Pipeline.FilterStep | src/codegen.py:75-112 | every filter (comparison or parity) over a bound list binds its result to the filtered values and leaves the output unchanged |
| Pipeline.AggregateNotListStep | src/codegen.py:122-124 | an aggregation over a bound integer fails with "list expected" |
| Pipeline.PrintStep | src/codegen.py:145-151 | `PRINT` of a bound name appends its value |
| Pipeline.PrintUnboundStep | src/codegen.py:147-148 | `PRINT` of an unbound name fails |
| Pipeline.AcceptedProgramsLower | src/ir_generator.py:46-83 | every program the analyzer accepts lowers without error into well-shaped code |
| Pipeline.FoldFilterIsInterpreted | src/optimizer.py:51-68 | the folding predicates agree with the interpreter's filters on every list |
| Pipeline.FoldingUsesStaleList | src/optimizer.py:41-47 | as written: an accepted program that prints `[10]` prints `[1, 2]` once optimized |
| Pipeline.FoldInstrStep | src/optimizer.py:47-86 | a fold with known lists that hold in the environment steps exactly like the original instruction, and the known lists still hold afterwards |
| Pipeline.FoldFromKeepsRun | src/optimizer.py:39-88 | corrected folding from holding known lists runs exactly as the original code |
| Pipeline.FoldedSoundKeepsRun | src/optimizer.py:33-90 | corrected folding (a rebound name is forgotten) keeps the whole run: output, environment and error |
| Pipeline.PropagationReadsLaterCopy | src/optimizer.py:102-116 | as written: an accepted program that prints `[10]`, `[1]` fails before printing once optimized |
| Pipeline.RewriteInstrStep | src/optimizer.py:108-124 | rewriting with copies that hold steps exactly like the original instruction, and the copies still hold afterwards |
| Pipeline.PropagateFromKeepsRun | src/optimizer.py:108-126 | corrected propagation from holding copies runs exactly as the original code |
| Pipeline.PropagatedSoundKeepsRun | src/optimizer.py:99-126 | corrected propagation (copies made earlier and not since rebound) keeps the whole run |
| Pipeline.StepAgrees | src/optimizer.py:136-148 | an instruction whose operands are used runs alike in two environments that agree on the used names |
| Pipeline.StepUnread | src/optimizer.py:145-147 | a removed instruction changes neither the output nor any used name |
| Pipeline.DeadCodeFromKeepsOutput | src/optimizer.py:143-148 | dropping the dead instructions keeps a successful run successful, with the same output |
| Pipeline.DeadCodeEliminationKeepsOutput | src/optimizer.py:132-150 | dead code elimination as written keeps every successful run's output |
| Pipeline.OptimizedSoundKeepsOutput | src/optimizer.py:16-20 | the corrected optimizer keeps every successful run's output |
| Pipeline.AcceptedProgramCanFail | src/semantic.py:69-88 | as written: a program declaring `_t1` is accepted and lowered, and then fails at run time |
| Pipeline.CheckStatementReserving | src/semantic.py:49-127 | corrected check: accepts exactly what `CheckStatement` accepts, minus statements that declare or assign a `_t` name |
| Pipeline.AnalyzeReservingRefines | src/semantic.py:38-44 | the corrected analysis accepts exactly the accepted programs that define no `_t` name, with the same table |
| Pipeline.QueryStepTyped | src/codegen.py:75-140 | a query over a bound list succeeds, binds only its result, and gives a value of the inferred type |
| Pipeline.AssignmentRunsTyped | src/ir_generator.py:105-117 | an accepted assignment's two instructions run without error and keep the environment well typed |
| Pipeline.StatementRunsTyped | src/ir_generator.py:61-83 | every accepted statement's code runs without error and keeps the environment well typed |
| Pipeline.AcceptedProgramsRun | src/semantic.py:38-44 | every program the corrected analysis accepts lowers and runs without a run-time error, with values of the types the table records |
| Pipeline.AcceptedProgramsOptimize | src/optimizer.py:16-20 | the corrected optimizer keeps the output of every program the corrected analysis accepts |

## Left out

- The lexer (`src/lexer.py`) is not part of this model. The parser's input is the token list. The lexer's guarantee that `EVEN`/`ODD` tokens carry the texts `even`/`odd` is the predicate `Lexed`.
- `src/ast_pretty.py` and `src/main.py` are not part of this model: they are pretty-printing and the command-line driver.
- Printing writes Python's text of a value to standard output. The model appends the value itself to an output sequence, and text formatting is not modelled.
- Parsing.NumberAt: `int()` is modelled on digit strings only, which is all the lexer's `NUM` tokens contain. Python's signs, underscores and whitespace are not modelled.
- Where the source reads `.type` of the missing token at end of input (src/parser.py:223 and 241, and the dispatch on `tok.type`), Python raises an `AttributeError` on `None`. The model reports these cases as the parse error `EndOfInput`.
- Parsing.RhsAt and Parsing.NumberTailAt are factored out of `assignment` and `data_decl` as named parts. They are not separate functions in the source.
- The `setattr` annotations that the analyzer and the generator attach to AST nodes (inferred types) are not modelled. The inferred type is returned instead.
- Optimizer.Folded: folding requires the operand shapes the generator emits (`WellShaped`). On malformed IR, Python's `TypeError` paths (for example unpacking a non-pair `between` bound) are not modelled.
- Parsing.Parser.Parse: the cursor after a refused statement is not stated, only that it never moves back. The source's cursor at a `ParserError` depends on how far each sub-parser got before raising.
- Lists are values in the model. The aliasing that `ASSIGN` creates between two names bound to one Python list is not observable, because no instruction mutates a list.
- The class docstring of the optimizer lists a fourth pass, "redundant temp elimination". No such pass exists in the code, so none is modelled.
- Parity filters use Python's `%` (src/codegen.py:103-107, src/optimizer.py:64-68). For divisor 2, `x % 2 == 0` and `x % 2 != 0` agree under floor, truncating and Euclidean division, so the model uses Dafny's `%`.

## Findings

| source | as written | input that shows it | evidently intended | confidence | as-written member | corrected member |
|---|---|---|---|---|---|---|
| src/optimizer.py:41-47 | folding records every `LIST` and folded filter as a known list, but never forgets a name that an `ASSIGN` rebinds (the analyzer accepts a same-type reassignment) | `data nums = [1, 10]  data x = [1, 2]  x = select > 5 from nums  y = select > 0 from x  print y` prints `[10]`; its optimized code prints `[1, 2]` | a name rebound by any instruction other than `LIST` is no longer a known list | not executed | Pipeline.FoldingUsesStaleList | Pipeline.FoldedSoundKeepsRun |
| src/optimizer.py:102-116 | the copy map is built from the whole program before any rewriting, so reads before an `ASSIGN _tK -> x`, or after a later one, are redirected to the wrong temporary | `data nums = [1, 10]  x = select > 5 from nums  print x  x = select < 5 from nums  print x` prints `[10]`, `[1]`; its optimized code fails at the first `print` (`_t2` unbound) | a read is rewritten only with a copy made before it and not since invalidated | not executed | Pipeline.PropagationReadsLaterCopy | Pipeline.PropagatedSoundKeepsRun |
| src/semantic.py:69-88 | declarations (and, through lines 95-127, assignment targets) accept any identifier, including the `_tK` names the generator (src/ir_generator.py:38-41) uses for temporaries | `data _t1 = [1, 2]  x = sum from _t1  y = count from _t1` is accepted and lowered; at run time the sum overwrites `_t1`, and `count` fails on an integer | user names, declared or assigned, never collide with temporaries | not executed | Pipeline.AcceptedProgramCanFail | Pipeline.AcceptedProgramsRun |
