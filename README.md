# CodeVerse core in Dafny

CodeVerse is a browser-based coding classroom. Students put together programs from
visual blocks (`start`, `print`, `set_var`, `change_var`, `wait`, `move`,
`repeat`, `repeat_until`, `if`). They can step through those programs in a
block engine, turn them into Python text, and run small Python scripts in a
sandboxed line interpreter. A second editor builds a tree of business metrics
(KPIs) and a list of rules. The application shell does three things:

- it tells the tutor which task the student is on;
- it formats the recording clock;
- it keeps the list of assessment submissions and grades them.

This project models that core and proves what it does:

- **The block engine** (`services/logicRuntime.ts`). `LogicSpec` states the
  stepping semantics as pure functions on a machine, which is a run state plus a
  frame stack. The class `LogicEngines.LogicEngine` keeps the same fields as the
  source class and updates them in place. Each of its methods is proved equal to
  the matching function. `LogicRuns` proves what whole runs do:
  - straight-line code;
  - `repeat` passes;
  - `if` and `repeat_until` entry and retest;
  - a worked nine-step example.
- **The Python generator** (`generatePython`, module `CodeGen`). It collects the
  variable names a program refers to, deduplicated in first-seen order. It then
  emits one line per block in pre-order, indented four spaces per level.
- **The script interpreter** (`services/pythonInterpreter.ts`):
  - `Script` states a run as functions of the lines. This covers statement
    classification with the source's regular expressions, JavaScript loose
    comparison and `+`, the step budget, and the per-line `catch`.
  - The class `ScriptRuns.ScriptRun` holds the closure's mutable state (lines,
    variables, output, step counter). Its recursive `ExecuteBlock` and the loop
    method are proved against those functions.
  - `ScriptProps` proves the overall shape of every output.
  - `ScriptParse` proves how the statement forms the generator writes are
    classified.
  - `ScriptExamples` works two concrete scripts through.
- **The block editor** (`components/LogicBuilder.tsx`, module `LogicBuilder`). It
  covers building a block from its definition, and the recursive update, delete
  and drop-into-children edits over the block forest. The class `Workspace` holds
  the program and the variable list that the handlers replace.
- **The KPI tree and rule editor** (`components/BrainBuilder.tsx`, module
  `BrainBuilder`). It covers adding and deleting nodes recursively, adding and
  deleting rules, and updating the decision context.
- **The shell** (`App.tsx`, module `App`):
  - the view-to-task mapping and the context update;
  - `formatTime`;
  - prepending a submission, and the delayed mock grading.

The shared modules are `Wrappers` (`Option`, `Result`), `Text` (JavaScript
string built-ins: `trim`, `split`, `indexOf`, `repeat`, `search(/\S/)`),
`Numerals` (`String(n)` and reading digits back), `JsValues` (`Number(...)`,
`String(...)`, `NaN`), `Blocks` (the block instance, `BLOCK_DEFINITIONS`, the
run state) and `Sequences` (a subsequence relation for order-keeping deletes).

Behaviour of the code worth knowing:

- **The step budget inside a `for` loop.** The budget check inside a `for` loop
  (`services/pythonInterpreter.ts:98`) throws inside the header line's own `try`.
  That `catch` turns it into `Error on line N: Infinite loop detected` and the
  run then finishes normally. It does not become a `Runtime Error:` line.
  `ScriptExamples.LoopScriptOutput` proves this for `for i in range(100000):`
  over `x += 1`.
- **Blank and comment lines.** The counter is incremented before the blank and
  comment check, so such lines also use up budget.
- **The set of views.** `types.ts` declares only four views. The
  model uses the eight views that `App.tsx` refers to.

## Model

| member | source | states |
|---|---|---|
| Blocks.FindDefinitionFrom | components/LogicBuilder.tsx:251 | `BLOCK_DEFINITIONS.find`: a found definition is in the list and has the asked type; nothing is found exactly when no definition has that type |
| JsValues.StringToNumber | services/logicRuntime.ts:139 | `Number(s)` of blank text is 0 |
| JsValues.AddNum | services/logicRuntime.ts:143 | `+=` on numbers: the result is NaN exactly when an operand is, and otherwise it is the integer sum |
| JsValues.StringToNumberOfInt | services/logicRuntime.ts:139 | a printed integer reads back through `Number` as itself |
| Numerals.IntToStringRoundTrip | services/logicRuntime.ts:133 | reading `String(n)` back gives `n` |
| LogicEngines.LogicEngine.constructor | services/logicRuntime.ts:21-32 | empty state, one root frame over the program at index 0, engine invariant established |
| LogicEngines.LogicEngine.Reset | services/logicRuntime.ts:34-44 | state and stack equal to a fresh engine's for the same program; invariant holds |
| LogicEngines.LogicEngine.GetState | services/logicRuntime.ts:46-48 | returns the current run state |
| LogicEngines.LogicEngine.EvaluateCondition | services/logicRuntime.ts:50-58 | equals `LogicSpec.EvaluateCondition` on the current variables |
| LogicSpec.EvaluateCondition | services/logicRuntime.ts:50-58 | definition of `evaluateCondition` on the variables; its properties are in `LogicSpec.EvaluateConditionSpec` |
| LogicSpec.EvaluateConditionSpec | services/logicRuntime.ts:50-58 | an unset variable reads as 0, but an unset name inherited from `Object.prototype` satisfies only `!=`; a bound `NaN` reads as 0; an unknown operator is false; `!=` is the negation of `==`; on integers each operator is the integer comparison |
| LogicSpec.ExecuteBlockLogic | services/logicRuntime.ts:125-196 | definition of `executeBlockLogic` as an effect (new state and pushed frames, or a thrown message); its properties are in `LogicSpec.ExecuteBlockLogicConsole`, `ExecuteBlockLogicFlags`, `ExecuteBlockLogicFrames`, `ExecuteBlockLogicThrows` and `PrintSpec` |
| LogicEngines.LogicEngine.ExecuteBlockLogic | services/logicRuntime.ts:125-196 | new state and pushed frames are exactly `LogicSpec.ExecuteBlockLogic`; a throw changes nothing |
| LogicSpec.ExecuteBlockLogicConsole | services/logicRuntime.ts:125-196 | one block appends at most one console line and keeps the earlier ones |
| LogicSpec.ExecuteBlockLogicFlags | services/logicRuntime.ts:125-196 | one block changes neither the run flags nor the current block nor the error |
| LogicSpec.ExecuteBlockLogicFrames | services/logicRuntime.ts:151-194 | at most one frame is pushed, a well-formed one over the block's own children, and only by `repeat`, `repeat_until` or `if` with a non-empty body |
| LogicSpec.ExecuteBlockLogicThrows | services/logicRuntime.ts:130-137 | a block throws exactly when it is `print` and a variable named `hasOwnProperty` is bound |
| LogicSpec.PrintSpec | services/logicRuntime.ts:130-137 | `print` shows the value of a bound variable, otherwise the message text |
| LogicSpec.ProtoAssignIgnored | services/logicRuntime.ts:138-144 | `set_var` and `change_var` on `__proto__` leave the state unchanged and push nothing, because the prototype setter ignores the value |
| LogicSpec.ChangeVarFromZero | services/logicRuntime.ts:141-144 | `change_var` on an unset name sets it to 0 plus the amount, except that `__proto__` stays unset |
| LogicSpec.Unwind | services/logicRuntime.ts:68-98 | definition of the unwinding loop at the head of `step()`; its properties are in `LogicSpec.UnwindReady`, `UnwindPrefix` and `UnwindNoFrame` |
| LogicEngines.LogicEngine.UnwindFrames | services/logicRuntime.ts:68-98 | the `while` loop produces exactly `LogicSpec.Unwind` of the old stack and leaves the state alone |
| LogicSpec.UnwindReady | services/logicRuntime.ts:68-98 | what the unwinding hands on is a well-formed stack whose top frame has a block to run |
| LogicSpec.UnwindPrefix | services/logicRuntime.ts:68-98 | unwinding only pops frames and restarts the one it stops at; frames below are untouched |
| LogicSpec.UnwindNoFrame | services/logicRuntime.ts:101-105 | the "no frame" outcome happens exactly for an empty stack |
| LogicSpec.Step | services/logicRuntime.ts:60-123 | definition of `step()` on a machine; its properties are in `LogicSpec.StepValid`, the `LogicSpec.Step…` case lemmas and `LogicRuns` |
| LogicEngines.LogicEngine.Step | services/logicRuntime.ts:60-123 | new state and stack are exactly `LogicSpec.Step` of the old ones; returns the new state |
| LogicSpec.StepValid | services/logicRuntime.ts:60-123 | every step keeps the engine invariant: frame indices within their bodies, non-empty bodies above a plain root frame, and an empty stack exactly when the run has finished |
| LogicSpec.RunValid | services/logicRuntime.ts:60-123 | any number of steps keeps the engine invariant |
| LogicSpec.StepHalted | services/logicRuntime.ts:61 | a finished or failed engine does not change |
| LogicSpec.StepEmptied | services/logicRuntime.ts:90-96 | popping the last frame finishes the run, stops it and clears the current block |
| LogicSpec.StepNoFrame | services/logicRuntime.ts:101-105 | with no frame the run finishes and keeps the current block |
| LogicSpec.StepStuck | services/logicRuntime.ts:107 | a restarted frame without children stops the step where reading its block fails |
| LogicSpec.StepDone | services/logicRuntime.ts:107-115 | a block that runs: its effect, then the old top frame advanced, below any pushed frame |
| LogicSpec.StepThrew | services/logicRuntime.ts:117-120 | a throwing block records its message, stops running and leaves the stack as unwound |
| LogicSpec.StepObservable | services/logicRuntime.ts:60-123 | a non-finishing step sets the current block to the block at the active index and adds at most one console line; a finishing step adds none |
| LogicSpec.AdvanceValid | services/logicRuntime.ts:115 | advancing the active frame and pushing one well-formed frame keeps the stack well formed |
| LogicRuns.FlatProgram | services/logicRuntime.ts:60-123 | on a program of blocks that push nothing, after step k the first k blocks have run in order, block k is current, and the root frame is at index k |
| LogicRuns.FlatProgramFinishes | services/logicRuntime.ts:90-96 | step N+1 of such a program finishes it: finished, not running, no current block, empty stack |
| LogicRuns.RunStraight | services/logicRuntime.ts:107-115 | j steps from index i run `children[i..i+j]` in order and leave the frame at i+j |
| LogicRuns.RepeatPasses | services/logicRuntime.ts:153 | `Number(times) \|\| 1`: a number n gives max(n, 1) passes, NaN gives 1 |
| LogicRuns.RepeatRuns | services/logicRuntime.ts:151-161 | a non-empty `repeat` over blocks that push nothing runs its body P = max(times, 1) times in 1 + P·\|body\| steps; the frame is then exhausted, so unwinding goes on as if the `repeat` were the last block run in its parent |
| LogicRuns.StepRepeat | services/logicRuntime.ts:151-161 | the `repeat` step pushes a counted frame at index 0 over the body |
| LogicRuns.IfSkips | services/logicRuntime.ts:179-194 | an `if` with a false condition or no children pushes nothing |
| LogicRuns.IfEnters | services/logicRuntime.ts:179-194 | an `if` whose condition holds pushes a plain frame over its children |
| LogicRuns.UntilSkips | services/logicRuntime.ts:162-178 | a `repeat_until` whose condition already holds is skipped |
| LogicRuns.UntilEnters | services/logicRuntime.ts:162-178 | otherwise it pushes a frame carrying its condition |
| LogicRuns.UntilRetest | services/logicRuntime.ts:78-87 | after each pass the `repeat_until` frame restarts while the condition fails and is popped once it holds |
| LogicRuns.ScoreExample | services/logicRuntime.ts:60-196 | `score = 0; repeat 3 { score += 5; print score }` runs in nine steps, prints `> 5`, `> 10`, `> 15`, and ends finished with `score` 15 |
| LogicEngines.LogicEngine.GeneratePython | services/logicRuntime.ts:199-283 | equals `CodeGen.GeneratePython` of the engine's program |
| CodeGen.DefinedVariables | services/logicRuntime.ts:203-215 | definition of the `findVars` scan into a `Set`; its properties are in `CodeGen.DefinedVariablesSpec` and `DedupFirstSeenOrder` |
| CodeGen.DefinedVariablesSpec | services/logicRuntime.ts:203-215 | the declared names have no duplicates, are exactly the names referenced by `set_var`, `change_var`, `if` and `repeat_until` at any depth, and keep first-seen order |
| CodeGen.DedupFirstSeenOrder | services/logicRuntime.ts:203-215 | deduplication by insertion into a `Set` keeps first-seen order |
| CodeGen.GeneratePython | services/logicRuntime.ts:199-283 | definition of `generatePython()` as the source builds the string; its layout is proved in `CodeGen.GeneratedText` and `DeclaredBeforeBody` |
| CodeGen.LineText | services/logicRuntime.ts:229-265 | definition of the `switch` that writes one block's line, quoting a `print` message unless it is a known variable or a number; used by `CodeGen.PlacedLines` |
| CodeGen.ProcessBlock | services/logicRuntime.ts:225-276 | definition of `processBlock`: the indented line, then the children one level deeper; flattened in `CodeGen.GeneratedText` and `FlattenCount` |
| CodeGen.GeneratedText | services/logicRuntime.ts:199-283 | the text is, line by line, the preamble, the declarations, one blank line and one line per block in pre-order, indented four spaces per level |
| CodeGen.FlattenCount | services/logicRuntime.ts:269-273 | one body line per block of the program, at any depth |
| CodeGen.DeclaredBeforeBody | services/logicRuntime.ts:217-223 | every referenced name is declared `= 0` before the first body line; the declarations header appears exactly when something is declared |
| CodeGen.PlacedLines | services/logicRuntime.ts:225-267 | each body line is the indentation for its depth followed by the block's line text |
| CodeGen.DeclarationList | services/logicRuntime.ts:221 | one `name = 0` line per declared name, in order |
| Script.Evaluate | services/pythonInterpreter.ts:9-22 | definition of `evaluate`; its cases are proved in `ScriptParse.EvaluateInt`, `EvaluateQuoted`, `EvaluateName` and `EvaluateEmpty` |
| Script.Classify | services/pythonInterpreter.ts:48-109 | definition of the `if`/`else if` chain that picks a line's statement form; proved on the generator's forms in `ScriptParse.ClassifyAssign` … `ClassifyIf` |
| Script.Plus | services/pythonInterpreter.ts:60 | JavaScript `+`: two numbers add, anything else concatenates text |
| Script.EvaluateAllSpec | services/pythonInterpreter.ts:66-68 | comma-separated pieces are evaluated in order: all succeed, or the first piece's exception is the result |
| Script.BlockEnd | services/pythonInterpreter.ts:88-93 | the block end is the first later non-blank line indented at most the header's indent, or the end of the script |
| Script.Exec | services/pythonInterpreter.ts:26-146 | definition of `executeBlock` as a function of the lines, the start index, the indent and the state; its per-line behaviour is `Script.ExecVisit` and `ScriptRuns.ScriptRun.ExecuteBlock` is proved equal to it |
| Script.ExecStmt | services/pythonInterpreter.ts:46-144 | definition of one statement inside the per-line `try`; `ScriptProps.ExecStmtGrows` and `ScriptRuns.ScriptRun.ExecuteStatement` are about it |
| Script.Loop | services/pythonInterpreter.ts:96-100 | definition of the counted `for` loop with its budget check; `ScriptRuns.ScriptRun.RunLoop` is proved equal to it and `ScriptExamples.LoopStoppedByBudget` runs it to the budget |
| Script.RunScript | services/pythonInterpreter.ts:1-160 | definition of `runPythonCode`; its output shape is proved in `ScriptProps.RunScriptShape` and `RuntimeErrorOnlyLast` |
| Script.ExecVisit | services/pythonInterpreter.ts:26-146 | a visit, by case: the budget check throws past 2000 steps; blank and comment lines are skipped; a shallower line ends the block; a statement runs under the per-line `catch` |
| ScriptRuns.ScriptRun.constructor | services/pythonInterpreter.ts:3-7 | the lines are `code.split('\n')`; no variables, output or steps yet |
| ScriptRuns.ScriptRun.ScanBlockEnd | services/pythonInterpreter.ts:88-93 | the scan loop returns `Script.BlockEnd` |
| ScriptRuns.ScriptRun.ExecuteBlock | services/pythonInterpreter.ts:26-149 | the new state and the returned index (or the budget exception) are exactly `Script.Exec` |
| ScriptRuns.ScriptRun.ExecuteStatement | services/pythonInterpreter.ts:46-144 | the statement's effect is exactly `Script.ExecStmt`; the line to continue at is the block end after a header and the next line otherwise |
| ScriptRuns.ScriptRun.RunLoop | services/pythonInterpreter.ts:96-100 | the `for` loop with its budget check is exactly `Script.Loop` |
| ScriptRuns.RunPythonCode | services/pythonInterpreter.ts:2-160 | the output equals `Script.RunScript(code)` |
| ScriptProps.RunScriptShape | services/pythonInterpreter.ts:151-159 | every run's output starts with the start line, ends with the finish line or the single runtime-error line, has only `> ` or `Error on line` lines between, and has at most 2003 lines |
| ScriptProps.RuntimeErrorOnlyLast | services/pythonInterpreter.ts:155-157 | no output line but the last starts with `Runtime Error: ` |
| ScriptProps.ExecRaised | services/pythonInterpreter.ts:30 | only the budget check throws out of `executeBlock`, and only after more than 2001 steps |
| ScriptParse.ClassifyAssign | services/pythonInterpreter.ts:48-53 | `name = value` is an assignment of the trimmed value |
| ScriptParse.ClassifyAddAssign | services/pythonInterpreter.ts:55-61 | `name += value` is a compound assignment of the trimmed value |
| ScriptParse.ClassifyPrint | services/pythonInterpreter.ts:63-64 | `print(content)` prints `content` |
| ScriptParse.ClassifyFor | services/pythonInterpreter.ts:78-81 | `for i in range(count):`, as the generator writes it, is a loop over `count` |
| ScriptParse.MatchIfHeader | services/pythonInterpreter.ts:109 | the `if` pattern's three groups on a generated header are its operand, operator and right side |
| ScriptParse.ClassifyIf | services/pythonInterpreter.ts:107-110 | `if lhs op rhs:` is a comparison with those parts |
| ScriptParse.EvaluateInt | services/pythonInterpreter.ts:13 | a printed integer evaluates to itself whatever is bound |
| ScriptParse.EvaluateQuoted | services/pythonInterpreter.ts:15-16 | a quoted token evaluates to the text between the quotes |
| ScriptParse.EvaluateName | services/pythonInterpreter.ts:19-21 | a name evaluates to its value, to itself when unbound, and throws once `hasOwnProperty` is bound |
| ScriptParse.ProtoAssignIgnored | services/pythonInterpreter.ts:48-61 | `__proto__ = v` and `__proto__ += v` leave variables, output and steps unchanged, and the still-unbound name evaluates to its own text |
| ScriptParse.EvaluateEmpty | services/pythonInterpreter.ts:13 | the empty token evaluates to 0 |
| ScriptParse.ClassifyDoubleEquals | services/pythonInterpreter.ts:48-51 | `x == 5` matches the assignment pattern and assigns the empty text between the two `=` |
| ScriptExamples.LoopStoppedByBudget | services/pythonInterpreter.ts:96-100 | `for i in range(100000):` over `x += 1` runs the body 2000 times before the loop's own budget check throws |
| ScriptExamples.LoopScriptOutput | services/pythonInterpreter.ts:141-154 | that script outputs the start line, `Error on line 1: Infinite loop detected`, and the finish line |
| ScriptExamples.EqualsScriptOutput | services/pythonInterpreter.ts:48-72 | `x == 5` then `print(x)` outputs the start line, `> 0`, and the finish line |
| LogicBuilder.BlockFor | components/LogicBuilder.tsx:212-223 | definition of the new block built from a definition; its properties are in `LogicBuilder.BlockForSpec` and `DefaultsLast` |
| LogicBuilder.BlockForSpec | components/LogicBuilder.tsx:212-223 | a new block has the given id and type, a children list exactly when its definition has children, and every input's default as a parameter, with no other keys |
| LogicBuilder.DefaultsLast | components/LogicBuilder.tsx:221-223 | with repeated input names, the last input's default wins |
| LogicBuilder.NewBlock | components/LogicBuilder.tsx:212-223 | the `forEach` over the inputs builds exactly `BlockFor(def, id)` |
| LogicBuilder.UpdateRecursive | components/LogicBuilder.tsx:229-235 | the forest keeps its length; properties in `LogicBuilder.UpdateKeepsShape`, `FindAfterUpdate`, `UpdateAbsent` and `UpdateSetsParams` |
| LogicBuilder.UpdateKeepsShape | components/LogicBuilder.tsx:228-237 | the update keeps ids, types, nesting and child order |
| LogicBuilder.FindAfterUpdate | components/LogicBuilder.tsx:228-237 | the first block with the id has the new parameters |
| LogicBuilder.UpdateAbsent | components/LogicBuilder.tsx:228-237 | an unknown id leaves the program unchanged |
| LogicBuilder.UpdateSetsParams | components/LogicBuilder.tsx:228-237 | with the id on at most one block, the pre-order listing changes only in that block's parameters |
| LogicBuilder.DeleteRecursive | components/LogicBuilder.tsx:240-246 | definition of `deleteRecursive`; its properties are in `LogicBuilder.DeleteRemovesAll`, `DeleteAbsent`, `DeleteIdempotent` and `DeleteKeepsOrder` |
| LogicBuilder.DeleteRemovesAll | components/LogicBuilder.tsx:239-247 | no block with the id is left, at any depth |
| LogicBuilder.DeleteAbsent | components/LogicBuilder.tsx:239-247 | an unknown id deletes nothing |
| LogicBuilder.DeleteIdempotent | components/LogicBuilder.tsx:239-247 | deleting twice is deleting once |
| LogicBuilder.DeleteKeepsOrder | components/LogicBuilder.tsx:239-247 | the surviving blocks form a subsequence of the old pre-order listing |
| LogicBuilder.AddToChildren | components/LogicBuilder.tsx:262-270 | the forest keeps its length; properties in `LogicBuilder.AddToChildrenAbsent`, `FindAfterAddToChildren`, `DeleteUndoesAddToChildren` and `AddToChildrenBlocks` |
| LogicBuilder.AddToChildrenAbsent | components/LogicBuilder.tsx:262-270 | a missing target, or one without a children list, leaves the program unchanged |
| LogicBuilder.FindAfterAddToChildren | components/LogicBuilder.tsx:262-270 | the first block with the target id gains the new block as its last child |
| LogicBuilder.DeleteUndoesAddToChildren | components/LogicBuilder.tsx:249-270 | deleting a freshly dropped block gives back the program exactly |
| LogicBuilder.AddToChildrenBlocks | components/LogicBuilder.tsx:262-270 | with the target id on at most one block, the blocks after the drop are the old ones plus the new block, once, and only if the target has a children list |
| LogicBuilder.AddVariable | components/LogicBuilder.tsx:204-209 | an answer is appended only when it is non-empty and not yet listed; the list stays free of duplicates |
| LogicBuilder.Workspace.AddBlock | components/LogicBuilder.tsx:212-226 | the program gains `BlockFor(def, id)` at its end; the variables are unchanged |
| LogicBuilder.Workspace.UpdateBlock | components/LogicBuilder.tsx:228-237 | the program becomes its recursive update |
| LogicBuilder.Workspace.DeleteBlock | components/LogicBuilder.tsx:239-247 | the program becomes its recursive delete |
| LogicBuilder.Workspace.HandleDrop | components/LogicBuilder.tsx:249-273 | a new block of a known type goes after the target's children; a move or an unknown type changes nothing |
| LogicBuilder.Workspace.HandleMainDrop | components/LogicBuilder.tsx:275-285 | a new block of a known type goes to the end of the top level; anything else changes nothing |
| LogicBuilder.Workspace.CreateVariable | components/LogicBuilder.tsx:204-209 | the variable list becomes `AddVariable` of the prompt answer |
| BrainBuilder.AddRecursive | components/BrainBuilder.tsx:78-88 | the forest keeps its length; properties in `BrainBuilder.FindAfterAdd`, `AddAbsent` and `DeleteUndoesAdd` |
| BrainBuilder.AddKpiNode | components/BrainBuilder.tsx:70-91 | adding a metric changes only the tree: rules and context are kept |
| BrainBuilder.FindAfterAdd | components/BrainBuilder.tsx:70-91 | the first node with the parent id gains the new metric as its last child |
| BrainBuilder.AddAbsent | components/BrainBuilder.tsx:78-88 | an unknown parent leaves the tree unchanged |
| BrainBuilder.DeleteUndoesAdd | components/BrainBuilder.tsx:70-101 | deleting a freshly added node gives back the tree, with missing children lists made empty |
| BrainBuilder.DeleteRecursive | components/BrainBuilder.tsx:94-99 | definition of `deleteRecursive`; its properties are in `BrainBuilder.DeleteRemovesAll`, `DeleteAbsent`, `DeleteIdempotent` and `DeleteKeepsOrder` |
| BrainBuilder.DeleteKpiNode | components/BrainBuilder.tsx:93-101 | deleting a metric changes only the tree: rules and context are kept |
| BrainBuilder.DeleteRemovesAll | components/BrainBuilder.tsx:93-101 | no node with the id is left, and every remaining node has a children list |
| BrainBuilder.DeleteAbsent | components/BrainBuilder.tsx:93-101 | an unknown id only fills in missing children lists |
| BrainBuilder.DeleteIdempotent | components/BrainBuilder.tsx:93-101 | deleting twice is deleting once |
| BrainBuilder.DeleteKeepsOrder | components/BrainBuilder.tsx:93-101 | the surviving nodes form a subsequence of the old pre-order listing |
| BrainBuilder.AddRule | components/BrainBuilder.tsx:103-112 | one rule `If ... / Then ...`, Medium, active, is appended; the earlier rules, the tree and the context are kept |
| BrainBuilder.RulesWithout | components/BrainBuilder.tsx:227-229 | a rule survives exactly when it was there and has another id; the survivors keep their order |
| BrainBuilder.DeleteRule | components/BrainBuilder.tsx:227-229 | deleting a rule changes only the rules: tree and context are kept |
| BrainBuilder.DeleteUndoesAddRule | components/BrainBuilder.tsx:103-112 | deleting a rule just added under a fresh id gives back the model |
| BrainBuilder.UpdateContext | components/BrainBuilder.tsx:114-116 | the named field reads back the new value, every other field and the tree and rules are kept, and setting a field to its value changes nothing |
| App.TaskFor | App.tsx:104-108 | each of the four tasks belongs to exactly its view, and "Free Play" to every other view |
| App.UpdateContext | App.tsx:110-114 | the task for the view; the code as snippet in the code lab, else the JSON list of top-level block types; the error and idle flags kept |
| App.TopLevelTypes | App.tsx:113 | `program.map(b => b.type)`, position by position |
| App.JsRem | App.tsx:170 | JavaScript `%` by a positive divisor: below the divisor in absolute value, the usual remainder for a non-negative dividend, and of the dividend's sign otherwise |
| App.FormatTime | App.tsx:168-172 | definition of `formatTime`, with JavaScript's `%`; its properties are in `App.FormatTimeFields` and `FormatTimeInjective` |
| App.FormatTimeFields | App.tsx:168-172 | for a non-negative count: minutes, `:`, and a two-digit seconds field below 60, with minutes·60 + seconds giving the count back |
| App.FormatTimeInjective | App.tsx:168-172 | distinct non-negative counts format differently |
| App.NewSubmission | components/AssessmentMode.tsx:37-43 | a fresh submission is submitted, ungraded, with the given id, code and time |
| App.Submit | App.tsx:147 | the new submission comes first and the earlier ones follow in order |
| App.Grade | App.tsx:149-164 | every submission with the id is graded with rubric total 14 and the mock feedback; every other one stays as it was |
| App.GradeIdempotent | App.tsx:149-164 | grading twice at the same time is grading once |
| App.SubmitThenGrade | App.tsx:146-166 | a submission under a fresh id ends up graded at the head of the list; the rest are unchanged |

## Left out

- Rendering, styling, drag feedback, audio, the tutor chat (`services/geminiService.ts`) and the avatar screens are user interface or network code; they are not part of this model.
- `Math.random().toString(36)` ids and `Date.now()` are parameters (`id`, `now`): randomness and the clock are outside the model.
- Timers are not modelled: the 5-second `setTimeout` before grading (grading is the function applied when it fires), the 500 ms `setTimeout` before `runPythonCode` in `components/CodeLab.tsx`, the one-second recording interval in `App.tsx` (whose count `formatTime` prints) and the 30-second idle timer in `App.tsx`. The block engine has no timer of its own: each press of the Step button calls `step()` once.
- `window.prompt` becomes an `Option<string>` parameter (`None` for a cancelled prompt).
- `DragEvent`, `dataTransfer` and `JSON.parse` of the drag data are left out. The parsed payload is the `DragData` datatype (`new` with a definition type, or `move_existing` with an id).
- JavaScript numbers are integers or `NaN`. Fractions, exponents, hexadecimal, `Infinity` and `-0` are left out. `Number(s)` reads blank text, signed digit runs or `NaN` only.
- JsValues.StringToNumber, JsValues.AddNum, JsValues.NumToString, Script.Plus, Script.Show and Script.Evaluate compute with exact, unbounded integers. JavaScript numbers are doubles: rounding beyond 2^53 (`Number("9007199254740993")` is 9007199254740992, and large sums round) and the exponent form of `String(n)` from 10^21 up (`"1e+21"`) are not modelled. JsValues.StringToNumberOfInt and ScriptParse.EvaluateInt therefore also hold for digit strings that JavaScript would round.
- A bound `hasOwnProperty` is modelled: it makes the `print` lookup of the block engine and every variable lookup of the script interpreter throw. An unbound name inherited from `Object.prototype` (`LogicSpec.InheritedNames`) is modelled as a condition variable: `variables[name] || 0` is then the inherited function, which compares as `NaN`, so only `!=` holds (`LogicSpec.EvaluateConditionSpec`). An assignment to `__proto__` is modelled as changing nothing, since the prototype setter ignores a number or a string (`JsValues.SetProperty`, `LogicSpec.ProtoAssignIgnored`, `ScriptParse.ProtoAssignIgnored`).
- LogicSpec.ChangeVarFromZero: for an unbound inherited name other than `__proto__`, such as `hasOwnProperty` or `toString`, `variables[name] === undefined` is false in the source, and `+=` stores the function's source text with the number appended, a string. The model's variables hold numbers only, so `LogicSpec.ExecuteBlockLogic` and this lemma store `0 + n` for such a name as well.
- Script.ExecStmt: the same holds for `name += value` in the script interpreter (`services/pythonInterpreter.ts:59-60`): an unbound inherited name other than `__proto__` starts from 0 in the model, where the source concatenates onto the inherited function's text, whose wording the language leaves to the engine.
- Script string comparison is by UTF-16 code units as `char` sequences. Unicode beyond that is not modelled.
- LogicEngines.LogicEngine.Step: the source throws out of `step()` when a restarted frame has no block to read. The model returns the state as the unwinding left it (`LogicSpec.StepStuck`) and does not model the exception leaving `step()`.
- LogicEngines.LogicEngine.GetState: the spread copy is a value. Aliasing of the nested `variables` object and console array between the copy and the engine is not modelled.
- App.UpdateContext: `JSON.stringify` is modelled without escaping. Type names with quotes or backslashes are outside the model.
- App.Grade: the feedback's `avatarConfig` (a copy of the default avatar look) is not modelled.
- App.FormatTimeFields: stated for non-negative counts only. `FormatTime` itself computes the JavaScript result for negative counts too, with a floored minute and a remainder that has the sign of the count.
- BrainBuilder: the node field `label` is named `caption`, because `label` is a Dafny keyword.
- LogicBuilder.UpdateSetsParams: assumes the id occurs on at most one block. For repeated ids the first-occurrence statement `LogicBuilder.FindAfterUpdate` still holds.
- LogicBuilder.AddToChildrenBlocks: assumes the target id occurs on at most one block. `LogicBuilder.FindAfterAddToChildren` speaks of the first occurrence whatever the ids.
- `types.ts` declares no KPI, rule, context, submission or student-context types. Their fields are taken from their uses in `App.tsx`, `components/BrainBuilder.tsx` and `components/AssessmentMode.tsx`.
