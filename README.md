# Counting reward machines, modelled and verified

This project models the counting-reward-machine (CRM) core of `pycrm` in Dafny and proves
properties of it. A CRM is an automaton over machine states and a vector of natural-number
counters. Each state holds an ordered list of transition expressions such as
`"ABOVE_RED and VELOCITY_LOW / (NZ,-,-)"`. Every expression has a next state, a counter
update and a reward function.

The model covers the following parts:

- **The transition-expression compiler** (`Compiler`, `Text`). The source builds Python text
  with regular expressions and `exec`s it. Here that becomes a tokenizer and a
  recursive-descent parser, which produce a formula (`True | Prop | Not | And | Or`) and a
  counter pattern (`Z | NZ | Any`). A pure evaluator follows. Every `ValueError` path is an
  explicit error value, and so is the `AttributeError`/`IndexError` that the generated code raises
  for a member the enum lacks, for a counter index past the vector, or for a name that the
  rewrite to `EnvProps.<name> in props` splits in two (`BLOCK_1_GRASPED` becomes
  `EnvProps.BLOCK_1_EnvProps in props.GRASPED`). Event text outside the `and`/`or`/`not`
  grammar over proposition names is listed under "Left out".
- **Machine tables and first-match resolution** (`Automaton`, `Dicts`). A machine is an
  insertion-ordered dict from state to an ordered list of entries. `transition` tries the
  entries in order and the first guard that holds fires. Counter updates are added
  elementwise, with numpy broadcasting of a one-element side. The terminal sentinel `-1`
  becomes one past the largest state.
- **The warehouse machines.**
  - The context-sensitive machine of `warehouse_exp` (`ContextSensitive`, a class with the
    builders and `transition`).
  - The context-free machine (`ContextFree`).
  - The block modules they share (`Blocks`).
  - The stage factories (`StageHelpers`).
  - The machines assembled from stage factories (`StageMachines`, `WarehouseMachines`).
- **The example machines**: the puck-world CRM (`PuckWorldCrm`), the puck-world reward machine
  (`PuckWorldRm`) and the office-world reward machine (`OfficeWorldRm`). The last two are
  built on the generic legacy-syntax chain `ChainMachines`.
- **The cross products**, which fuse the ground observation with the machine configuration:
  - the context-sensitive MDP with counterfactual experience (`ContextSensitiveCrossProduct`);
  - the warehouse cross products (`CrossProducts`, `ScaledCrossProduct`);
  - the puck-world cross product and its logging wrapper (`PuckCrossProduct`);
  - the warehouse subtask-logging wrappers (`ContextSensitiveLogging`, `WarehouseLogging`).
- **Small helpers**:
  - the complexity-study automata (`ComplexityRm`, `ComplexityCrm`, `TransitionGraphs`);
  - `ls`-output parsing for checkpoint selection (`LatestCheckpoint`);
  - the manual-policy lookups (`ContextFreeManual`, `WarehouseManual`).

Some of these modules stand for more than one source file:

- `ContextSensitive` states the decision node, `c_0 = (3,3,3)` and the 27 + 15 counter samples
  of the `warehouse_exp` machine. Those three pieces are written identically in
  `experiments/warehouse/lib/machines/machine.py` (lines 31-57), so `ContextSensitive` models
  them for that file as well.
- `WarehouseMachines` reuses `ContextSensitive`'s decision table for the three-counter
  machines built from stage factories.

Reward functions are opaque identifiers. The labelling function, the ground environment and
the counter-vector sampler are parameters.

## Model

| member | source | states |
|---|---|---|
| Text.Strip | crm/automaton/compiler.py:56 | `str.strip()`: no longer than the input, with no whitespace at either end |
| Text.Split | crm/automaton/compiler.py:56 | `str.split(sep)`: at least one part; exactly `[s]` when the separator is absent and two or more parts when it occurs; no part holds the separator |
| Text.JoinSplit | crm/automaton/compiler.py:80-87 | `split` followed by `join` is the identity |
| Text.SplitJoin | crm/automaton/compiler.py:80-87 | `join` followed by `split` is the identity when no part holds the separator |
| Text.Remove | crm/automaton/compiler.py:126 | `replace(c, "")`: no occurrence of `c` is left, the result is no longer, and every character left comes from the input |
| Text.SplitLines | experiments/warehouse/core/auto/latest_checkpoint.py:31 | `str.splitlines()`: no line holds a line break, and there are no lines exactly for the empty text |
| Text.SplitLinesAt | experiments/warehouse/core/auto/latest_checkpoint.py:31 | a break-free first line followed by a break (not the '\r' of a "\r\n") is the first line, and the text after the break is split on its own |
| Text.SplitLinesCrlf | experiments/warehouse/core/auto/latest_checkpoint.py:31 | "\r\n" ends a line as one break, adding no empty line between '\r' and '\n' |
| Text.SplitLinesFinalBreak | experiments/warehouse/core/auto/latest_checkpoint.py:31 | a break at the end of a text adds no empty line |
| Text.JoinSplitLines | experiments/warehouse/core/auto/latest_checkpoint.py:31 | a text whose only breaks are '\n' and that does not end in a break is its lines joined with '\n' |
| Text.SplitLinesJoin | experiments/warehouse/core/auto/latest_checkpoint.py:31 | break-free lines, the last one non-empty, joined with '\n' split back into exactly those lines |
| Compiler.ExtractWff | crm/automaton/compiler.py:36-56 | the empty expression is rejected as empty; it fails exactly for the empty expression and for one without "/" that holds both parentheses; the event text holds no "/" |
| Compiler.ExtractCounterStates | crm/automaton/compiler.py:59-87 | the empty expression is rejected; without "/", "(Z)" unless the counter-pattern regex occurs in the expression, which is rejected; a returned counter text holds both parentheses and no "/" |
| Compiler.CounterEntriesIgnoreSpaces | crm/automaton/compiler.py:124-126 | spaces anywhere in a counter text do not change its entries |
| Compiler.PatternOf | crm/automaton/compiler.py:126-135 | each entry becomes `Z`, `NZ` or `Any`; the first other entry is the error, and the pattern is built exactly when every entry is valid (`PatternOfValid`) |
| Compiler.BuildCounterPattern | crm/automaton/compiler.py:121-138 | the loop that appends one condition per entry builds exactly `PatternOf` of the entries |
| Compiler.ParseDisjunction | crm/automaton/compiler.py:99-103 | `or` over conjunctions: a successful parse consumes at least one token; what the grammar means is stated by `ParseRender` |
| Compiler.ParseConjunction | crm/automaton/compiler.py:99-103 | `and` over negations: a successful parse consumes at least one token; what the grammar means is stated by `ParseRender` |
| Compiler.ParseNegation | crm/automaton/compiler.py:99-103 | `not`, a proposition or a parenthesised disjunction: a successful parse consumes at least one token; what the grammar means is stated by `ParseRender` |
| Compiler.Compile | crm/automaton/compiler.py:7-35 | `compile_transition_expression`: the empty expression and an expression without "/" holding both parentheses are rejected with their errors; the successful cases are `CompileExpression`, `CompileWord` and `RewardMachineExpression` |
| Compiler.Collapse | crm/automaton/compiler.py:145 | counters collapsed to 0 for zero and 1 otherwise, keeping the length |
| Compiler.EvalSound | crm/automaton/compiler.py:99-111 | whatever the generated Python returns is the classical truth value of the formula over the event set |
| Compiler.EvalTotal | crm/automaton/compiler.py:99-118 | with every proposition in the alphabet and none split by the rewrite, evaluation never raises |
| Compiler.SplitNameRaises | crm/automaton/compiler.py:99-101 | `BLOCK_1_GRASPED` parses as one proposition, yet the rewrite splits it, so its evaluation raises whatever the alphabet and the events |
| Compiler.CapitalsIntact | crm/automaton/compiler.py:99-101 | a name made only of capitals and underscores is one run of the rewrite's pattern and is never split |
| Compiler.EvalRaisesOnUnknown | crm/automaton/compiler.py:99-118 | evaluation raises only for a name the formula holds: one split by the rewrite, or an intact one outside the alphabet |
| Compiler.PatternSound | crm/automaton/compiler.py:141-153 | whatever the counter conditions return is whether the counters match the pattern: "Z" is zero, "NZ" non-zero, "-" anything |
| Compiler.PatternTotal | crm/automaton/compiler.py:141-153 | a pattern no longer than the counter vector never raises |
| Compiler.PatternOutOfRange | crm/automaton/compiler.py:124-137 | there is no arity check: a longer pattern raises exactly when evaluation gets past the entries that fit and reaches a "Z" or "NZ" beyond the vector |
| Compiler.PatternReadsClasses | crm/automaton/compiler.py:145-146 | a k-entry pattern reads only counters 0..k-1, and only whether each is zero |
| Compiler.GuardSound | crm/automaton/compiler.py:23-26 | a successful guard evaluation is the conjunction of the event formula and the counter pattern |
| Compiler.GuardTotal | crm/automaton/compiler.py:23-26 | a well-formed guard evaluates without raising, to that conjunction |
| Compiler.TokenizeRendered | crm/automaton/compiler.py:99-103 | tokenizing the text of a formula gives back its tokens |
| Compiler.RenderShape | crm/automaton/compiler.py:46-56 | the text of a formula is non-empty, has no surrounding whitespace and no "/" |
| Compiler.ParseRender | crm/automaton/compiler.py:90-104 | parsing the text of a formula gives the formula back (round trip) |
| Compiler.CounterPatternListing | crm/automaton/compiler.py:121-138 | reading back the counter text of a non-empty pattern gives the pattern (round trip) |
| Compiler.EmptyCounterText | crm/automaton/compiler.py:126-135 | "()" yields one empty entry, and the empty entry is rejected |
| Compiler.SeparatedExpression | crm/automaton/compiler.py:56-87 | with a "/", the event text is the stripped text before the first "/" and the counter text the stripped text after it |
| Compiler.LaterSegmentsIgnored | crm/automaton/compiler.py:80-87 | text after a second "/" does not change the compiled guard |
| Compiler.CompileExpression | crm/automaton/compiler.py:7-35 | compiling "text(F) / text(p)" gives back the formula F and the pattern p (round trip) |
| Compiler.RewardMachineExpression | crm/automaton/compiler.py:46-56 | an expression with no "/" and without both parentheses has the whole stripped expression as its event text, under "(Z)" |
| Compiler.CompileWord | crm/automaton/compiler.py:53-78 | a single proposition name compiles to that proposition under the implicit "(Z)" |
| Compiler.ZeroPattern | crm/automaton/compiler.py:76-78 | the implicit counter text tests one counter for zero |
| Compiler.MalformedCounterText | crm/automaton/compiler.py:80-87 | a "/" followed by a counter text that is empty or lacks a parenthesis is rejected |
| Compiler.CompileSpaced | crm/automaton/compiler.py:121-138 | "F / (..)" with freely spaced counter text compiles to formula and pattern |
| Dicts.Get | experiments/warehouse_exp/lib/machines/context_sensitive.py:36-41 | `d.get(k)`: present exactly when `k` is a key, with the value stored under it |
| Dicts.Put | experiments/warehouse_exp/lib/machines/context_sensitive.py:410-414 | `d[k] = v`: an existing key keeps its position and a new key goes last |
| Dicts.GetPut | experiments/warehouse_exp/lib/machines/context_sensitive.py:410-414 | after `d[k] = v`, `k` holds `v` and every other key holds what it did before |
| Dicts.GetUpdate | experiments/warehouse_exp/lib/machines/context_sensitive.py:71-97 | after updating `d` with `e`, a key of `e` holds its value in `e` and any other key is untouched |
| Dicts.KeysMerge | experiments/warehouse_exp/lib/machines/context_sensitive.py:71-97 | the keys of a merge are those of `d`, then the new keys of `m` in their order |
| Dicts.MergeFresh | experiments/warehouse_exp/lib/machines/context_sensitive.py:71-97 | merging a table whose states are all new appends it |
| Dicts.MergeRows | experiments/warehouse_exp/lib/machines/context_sensitive.py:71-97 | the merge loop (create a missing state empty, then update it with the new row) computes the functional merge |
| Automaton.ApplyDelta | experiments/warehouse_exp/lib/machines/context_sensitive.py:51 | defined exactly when the lengths agree or one side has one element; entry i is the sum of the broadcast entries i of both sides |
| Automaton.ZeroDeltaKeeps | experiments/warehouse_exp/lib/machines/context_sensitive.py:51 | a zero delta, or `(0,)`, leaves the counters unchanged |
| Automaton.ApplyDeltaUndo | experiments/warehouse_exp/lib/machines/context_sensitive.py:51 | adding a delta and then its negation gives the counters back |
| Automaton.NoUnderflow | experiments/warehouse_exp/lib/machines/context_sensitive.py:220-225 | a decrement of one under an "NZ" entry that the counters satisfy keeps the counters non-negative |
| Automaton.ResolveFirst | experiments/warehouse_exp/lib/machines/context_sensitive.py:47-53 | the first entry that fires supplies the next state, counter update and reward together |
| Automaton.ResolveSound | experiments/warehouse_exp/lib/machines/context_sensitive.py:43-58 | every successful transition comes from the first entry that fires |
| Automaton.ResolveNone | experiments/warehouse_exp/lib/machines/context_sensitive.py:55-58 | when every formula returns false the transition is undefined |
| Automaton.ResolveWellFormed | experiments/warehouse_exp/lib/machines/context_sensitive.py:43-58 | for well-formed guards the scan fires the first entry whose guard holds, and fails with `NoTransition` exactly when no guard holds |
| Automaton.CompileEntry | experiments/warehouse_exp/lib/machines/context_sensitive.py:381-411 | one expression: the formula, then its counter delta (a missing one is reported), then its scaled reward |
| Automaton.CompileEntriesOk | experiments/warehouse_exp/lib/machines/context_sensitive.py:380-414 | a state's entries are built exactly when every expression compiles, with entry `i` built from expression `i` |
| Automaton.BuildTableOk | experiments/warehouse_exp/lib/machines/context_sensitive.py:370-414 | the table is built exactly when every state compiles, with state `i` holding the entries of state `i` |
| Automaton.BuildAligned | experiments/warehouse_exp/lib/machines/context_sensitive.py:370-414 | aligned tables whose expressions compile are built, state by state, into entries with next state, delta and scaled reward |
| Automaton.BuildTablePrefix | experiments/warehouse_exp/lib/machines/context_sensitive.py:370-414 | once a prefix of the states fails, construction fails with that error |
| Automaton.InitTransitions | experiments/warehouse_exp/lib/machines/context_sensitive.py:370-414 | the nested loops of `_init_transition_functions` compute `BuildTable`: the table, or the first error |
| Automaton.MissingDeltaRejected | experiments/warehouse_exp/lib/machines/context_sensitive.py:385-390 | an expression with no counter delta stops construction with the re-raised `ValueError` |
| Automaton.MaxState | experiments/warehouse_exp/lib/machines/context_sensitive.py:23 | the largest state: a member of the list, at least every member |
| Automaton.ReplaceSentinelClosed | experiments/warehouse_exp/lib/machines/context_sensitive.py:21-23 | after the rewrite no sentinel is left, other next states are unchanged, and a table of states and sentinel leads only to states or the terminal |
| Automaton.ReplaceSentinelAbsent | experiments/warehouse_exp/lib/machines/context_sensitive.py:21 | a table without sentinels is left as it is |
| Automaton.TerminalState | experiments/warehouse_exp/lib/machines/context_sensitive.py:23 | the terminal state is one past the largest state, so it is not a state of the table |
| Automaton.InitialCounters | tests/automaton/machine/emulation/test_rm_emulation.py:7-45 | a reward machine may not declare `c_0` and gets `(0,)`; a counting reward machine must declare it |
| Automaton.RewardMachineDeltas | tests/automaton/machine/emulation/test_rm_emulation.py:16-23 | a reward machine's counter table: every expression of every state adds `(0,)` |
| Automaton.DummyCounterKept | tests/automaton/machine/emulation/test_rm_emulation.py:16-23 | the dummy counter never moves |
| Blocks.StageTexts | experiments/warehouse_exp/lib/machines/context_sensitive.py:158-215 | the event texts of a stage: three for the above stage, four for every other stage |
| Blocks.StageRender | experiments/warehouse_exp/lib/machines/context_sensitive.py:158-215 | every text of a stage is the rendering of its formula |
| Blocks.StageCompiles | experiments/warehouse_exp/lib/machines/context_sensitive.py:158-215 | every row of a stage compiles to its formula under the module's pattern |
| Blocks.StageTextsDistinct | experiments/warehouse_exp/lib/machines/context_sensitive.py:158-215 | the rows of a stage have distinct texts, as dict keys must |
| Blocks.StageCovers | experiments/warehouse_exp/lib/machines/context_sensitive.py:158-215 | whatever the events, some formula of every stage holds (the last two are complements) |
| Blocks.EventsIntact | experiments/warehouse_exp/lib/label/events.py:4-53 | no member name of the event enums is split by the compiler's rewrite, so the machines' guards evaluate without raising |
| Blocks.StageKnown | experiments/warehouse_exp/lib/machines/context_sensitive.py:158-215 | the formulas of a stage name only events of the warehouse alphabet |
| Blocks.ModuleShape | experiments/warehouse_exp/lib/machines/context_sensitive.py:158-215 | a module occupies `u_start .. u_start + 4`, and its three tables have the same states and expressions in the same order |
| Blocks.ModuleNext | experiments/warehouse_exp/lib/machines/context_sensitive.py:158-215 | every entry stays in its stage except the exit, which moves down one stage, and from the drop stage back to 0 |
| Blocks.ModuleDeltas | experiments/warehouse_exp/lib/machines/context_sensitive.py:217-275 | every counter update is the broadcast zero, except the exit of the drop stage |
| ContextSensitive.DropDelta | experiments/warehouse_exp/lib/machines/context_sensitive.py:220-264 | a known colour gives a delta over the three counters; an unknown colour is rejected (which counter it decrements is DropMatchesPattern) |
| ContextSensitive.DropMatchesPattern | experiments/warehouse_exp/lib/machines/context_sensitive.py:86-264 | a drop decrements exactly the counters its module's pattern requires to be non-zero |
| ContextSensitive.DecisionCompiles | experiments/warehouse_exp/lib/machines/context_sensitive.py:72-83 | every decision expression compiles to the constant-true formula and its pattern |
| ContextSensitive.DecisionPartition | experiments/warehouse_exp/lib/machines/context_sensitive.py:72-83 | for three counters exactly one decision pattern matches: the decision partitions the counter classes |
| ContextSensitive.MergeModules | experiments/warehouse_exp/lib/machines/context_sensitive.py:85-96 | merging the three modules into the decision state appends them |
| ContextSensitive.AllStatesAre | experiments/warehouse_exp/lib/machines/context_sensitive.py:20-22 | `U` lists the states 0 to 15, each once |
| ContextSensitive.TerminalIs16 | experiments/warehouse_exp/lib/machines/context_sensitive.py:23 | `F = [16]`, one past the largest state |
| ContextSensitive.TablesAligned | experiments/warehouse_exp/lib/machines/context_sensitive.py:71-145 | the three tables list the same states and, state by state, the same expressions |
| ContextSensitive.FlatBuilt | experiments/warehouse_exp/lib/machines/context_sensitive.py:370-414 | construction succeeds, and every state holds one entry per expression with guard, next state, delta and scaled reward |
| ContextSensitive.TableMissing | experiments/warehouse_exp/lib/machines/context_sensitive.py:36-41 | the compiled table has no entries for the terminal state 16 or any state beyond 15 |
| ContextSensitive.ResolveDecision | experiments/warehouse_exp/lib/machines/context_sensitive.py:47-83 | the decision scan reads the counters alone: the entry of their class fires, whatever the events, and changes no counter |
| ContextSensitive.StepDecision | experiments/warehouse_exp/lib/machines/context_sensitive.py:30-83 | state 0 moves to the module of the first colour with blocks left (15, 10, 5), or to 16 |
| ContextSensitive.ResolveStage | experiments/warehouse_exp/lib/machines/context_sensitive.py:47-58 | a stage's scan moves only while the module's pattern holds; the exit moves down a stage, the drop stage back to 0 |
| ContextSensitive.StepModule | experiments/warehouse_exp/lib/machines/context_sensitive.py:30-275 | a module state moves only while its pattern holds and is undefined otherwise; only the drop changes the counters |
| ContextSensitive.DropPacksOne | experiments/warehouse_exp/lib/machines/context_sensitive.py:220-264 | a drop under its module's pattern packs exactly one block and keeps every counter non-negative |
| ContextSensitive.DecisionConsistent | experiments/warehouse_exp/lib/machines/context_sensitive.py:72-83 | from state 0 with non-negative counters, the machine moves to a consistent configuration with the same counters |
| ContextSensitive.ModuleConsistent | experiments/warehouse_exp/lib/machines/context_sensitive.py:158-275 | from a consistent module state the machine moves to a consistent configuration |
| ContextSensitive.StepConsistent | experiments/warehouse_exp/lib/machines/context_sensitive.py:30-61 | outside the terminal state a consistent configuration always has a transition, whatever the events, and keeps consistency (no underflow, no stuck state) |
| ContextSensitive.StepTerminal | experiments/warehouse_exp/lib/machines/context_sensitive.py:36-41 | the terminal state has no transitions |
| ContextSensitive.Samples | experiments/warehouse_exp/lib/machines/context_sensitive.py:147-156 | 27 grid vectors in product order, then the 15 drawn rows with counter 0 cleared in rows 5-14 and counter 1 in rows 10-14 |
| ContextSensitive.SamplesGrid | experiments/warehouse_exp/lib/machines/context_sensitive.py:148 | the first 27 samples are exactly the vectors of {0,1,2}^3, each at its base-3 position |
| ContextSensitive.SamplesInRange | experiments/warehouse_exp/lib/machines/context_sensitive.py:150-152 | draws in `[0, 100000)` give samples in that range, each a consistent vector for state 0 |
| ContextSensitive.Machine.constructor | experiments/warehouse_exp/lib/machines/context_sensitive.py:13-28 | builds the raw tables, replaces the sentinel, records `U` and `F` and compiles the table |
| ContextSensitive.Machine.InitTransitionFunctions | experiments/warehouse_exp/lib/machines/context_sensitive.py:370-414 | compiles every expression of every state; a missing counter delta stops construction |
| ContextSensitive.Machine.AddBlockModuleDeltaU | experiments/warehouse_exp/lib/machines/context_sensitive.py:158-215 | merges the next states of a module into the state table |
| ContextSensitive.Machine.AddBlockModuleDeltaC | experiments/warehouse_exp/lib/machines/context_sensitive.py:217-275 | rejects an unknown colour, otherwise merges the module's counter updates, with the drop decrementing the colour's counter |
| ContextSensitive.Machine.AddBlockModuleDeltaR | experiments/warehouse_exp/lib/machines/context_sensitive.py:277-368 | rejects an unknown colour, otherwise merges the module's rewards |
| ContextSensitive.Machine.GetStateTransitionFunction | experiments/warehouse_exp/lib/machines/context_sensitive.py:71-97 | the decision state, then the blue, green and red modules |
| ContextSensitive.Machine.GetCounterTransitionFunction | experiments/warehouse_exp/lib/machines/context_sensitive.py:99-121 | the decision state's zero deltas, then the three modules' counter updates |
| ContextSensitive.Machine.GetRewardTransitionFunction | experiments/warehouse_exp/lib/machines/context_sensitive.py:123-145 | the decision state's rewards, then the three modules' rewards |
| ContextSensitive.Machine.ReplaceTerminalState | experiments/warehouse_exp/lib/machines/context_sensitive.py:21 | every sentinel next state becomes one past the largest state |
| ContextSensitive.Machine.Transition | experiments/warehouse_exp/lib/machines/context_sensitive.py:30-61 | a state without entries is an error; otherwise the scan loop returns the first firing entry's outcome, and fails when none fires |
| ContextFree.DropDelta | experiments/warehouse/lib/machines/contextfree.py:215-265 | red or green gives a delta over the two counters; another colour is rejected (which counter it decrements is DropMatchesPattern) |
| ContextFree.DropMatchesPattern | experiments/warehouse/lib/machines/contextfree.py:215-265 | the drop decrements exactly the counter its module's pattern asserts non-zero |
| ContextFree.DecisionPartition | experiments/warehouse/lib/machines/contextfree.py:51-57 | exactly one of "(Z,Z)", "(NZ,-)" and "(Z,NZ)" matches two counters |
| ContextFree.AllStatesAre | experiments/warehouse/lib/machines/contextfree.py:24-25 | `U` lists the states 0 to 10, each once |
| ContextFree.SentinelTarget | experiments/warehouse/lib/machines/contextfree.py:26 | `F = [11]`, one past the largest state |
| ContextFree.FlatAligned | experiments/warehouse/lib/machines/contextfree.py:50-141 | the three tables list the same states and expressions |
| ContextFree.FlatBuilt | experiments/warehouse/lib/machines/contextfree.py:363-408 | construction succeeds with one entry per expression |
| ContextFree.MissingCounterRejected | experiments/warehouse/lib/machines/contextfree.py:379-384 | a state's missing counter updates stop construction at its first expression |
| ContextFree.TableMissing | experiments/warehouse/lib/machines/contextfree.py:24-26 | the compiled table has no entries for 11 or any state beyond 10 |
| ContextFree.StepDecision | experiments/warehouse/lib/machines/contextfree.py:51-88 | state 0 moves to 10 (red left), 5 (only green left) or 11, whatever the events, and changes no counter |
| ContextFree.ResolveStage | experiments/warehouse/lib/machines/contextfree.py:158-209 | a stage's scan moves only while the module's pattern holds |
| ContextFree.StepModule | experiments/warehouse/lib/machines/contextfree.py:152-265 | a module state moves only while its pattern holds; the exit leads down a stage and the drop back to 0 |
| ContextFree.DropPacksOne | experiments/warehouse/lib/machines/contextfree.py:215-265 | a drop packs exactly one block and keeps both counters non-negative |
| ContextFree.StepConsistent | experiments/warehouse/lib/machines/contextfree.py:50-265 | outside the terminal state a consistent configuration always has a transition and keeps consistency |
| ContextFree.DecisionConsistent | experiments/warehouse/lib/machines/contextfree.py:51-57 | from state 0 with consistent counters, the step keeps the counters and consistency |
| ContextFree.DecisionTargetMatches | experiments/warehouse/lib/machines/contextfree.py:51-57 | a decision entry routes to a module only when that module's pattern holds |
| ContextFree.StepTerminal | experiments/warehouse/lib/machines/contextfree.py:24-26 | the terminal state has no transitions |
| ContextFree.Samples | experiments/warehouse/lib/machines/contextfree.py:143-150 | the 9 vectors of {0,1,2}^2 in product order, then the 10 drawn rows with counter 0 cleared in the last five |
| ContextFree.SamplesGrid | experiments/warehouse/lib/machines/contextfree.py:144 | the first 9 samples are exactly the vectors of {0,1,2}^2 |
| ContextFree.SamplesInRange | experiments/warehouse/lib/machines/contextfree.py:146-148 | the samples lie in `[0, 100000)`, each consistent for state 0 |
| ContextFree.Machine.constructor | experiments/warehouse/lib/machines/contextfree.py:15-31 | builds the tables, replaces the sentinel, records `U` and `F` and compiles the table; `c_0` is stored as given |
| ContextFree.Machine.InitTransitionFunctions | experiments/warehouse/lib/machines/contextfree.py:363-408 | compiles every expression; a missing counter delta stops construction |
| ContextFree.Machine.GetStateTransitionFunction | experiments/warehouse/lib/machines/contextfree.py:50-79 | the decision state, then the green and red modules merged in |
| ContextFree.Machine.GetCounterTransitionFunction | experiments/warehouse/lib/machines/contextfree.py:81-110 | the decision state's zero deltas, then the modules' counter updates |
| ContextFree.Machine.GetRewardTransitionFunction | experiments/warehouse/lib/machines/contextfree.py:112-141 | the decision state's rewards, then the modules' rewards |
| ContextFree.Machine.AddBlockModuleDeltaU | experiments/warehouse/lib/machines/contextfree.py:152-210 | the next states of the module entered at `u_start + 4` |
| ContextFree.Machine.AddBlockModuleDeltaC | experiments/warehouse/lib/machines/contextfree.py:212-267 | rejects an unknown colour; otherwise the drop decrements the colour's counter and every other entry adds `(0,)` |
| ContextFree.Machine.AddBlockModuleDeltaR | experiments/warehouse/lib/machines/contextfree.py:269-361 | rejects an unknown colour; otherwise the module's rewards |
| ContextFree.Machine.ReplaceTerminalState | experiments/warehouse/lib/machines/contextfree.py:24 | every sentinel next state becomes 11 |
| StageHelpers.Made | experiments/warehouse/lib/machine/stage/above.py:34-38 | a freshly made reward function has intercept 0 |
| StageHelpers.AboveStage | experiments/warehouse/lib/machine/stage/above.py:9-61 | without modifiers a `TypeError`; an unknown colour a `ValueError`; otherwise three transitions from `current_state`, only the second reaching `success_state`, it with the progress modifier and the others with the remain modifier, every intercept 0 |
| StageHelpers.GripStage | experiments/warehouse/lib/machine/stage/grip.py:10-76 | given modifiers a `TypeError`; an unknown colour a `ValueError`; otherwise four transitions with modifiers `(0,)`, only "TIGHT_REGION and GRIPPER_CLOSED" reaching `success_state` |
| StageHelpers.ReleaseStage | experiments/warehouse/lib/machine/stage/release.py:10-74 | given modifiers a `TypeError`; an unknown colour a `ValueError`; otherwise four transitions with modifiers `(0,)`, only "RELEASE and VELOCITY_LOW" reaching `success_state` |
| StageHelpers.ShapedCompiles | experiments/warehouse/lib/machine/stage/above.py:31-51 | every formula "wff / cs" of a stage compiles to the stage formula under the counter pattern |
| StageHelpers.ShapedCovers | experiments/warehouse/lib/machine/stage/grip.py:40-66 | a stage's guards are enabled exactly when the counters match its pattern, whatever the events |
| StageHelpers.ShapedExit | experiments/warehouse/lib/machine/stage/release.py:52-59 | the success transition is the only one that leaves the current state |
| StageMachines.ConcatOk | experiments/warehouse/lib/machine/machines.py:88-139 | the list is built exactly when every factory call returns |
| StageMachines.FirstFailure | experiments/warehouse/lib/machine/machines.py:88-139 | the exception that escapes is the one of the first call that raises |
| StageMachines.ConcatSources | experiments/warehouse/lib/machine/machines.py:88-139 | every built transition starts at the `current_state` of one of the calls |
| StageMachines.WellCalledOk | experiments/warehouse/lib/machine/machines.py:88-139 | with well-formed calls, the list is built exactly when the grasp and drop calls return |
| StageMachines.GroupedStates | experiments/warehouse/lib/machine/machines.py:46-51 | the grouped table has a row for exactly the states some transition starts from |
| StageMachines.GroupedAligned | experiments/warehouse/lib/machines/machine.py:59-112 | tables grouped from one list share their states and formulas in the same order |
| StageMachines.LaidOver | experiments/warehouse/lib/machine/machines.py:46-51 | the decision node updated with the grouped dict: a state with no transitions keeps its decision row, every other state gets its grouped row |
| StageMachines.ReinterceptedKeeps | experiments/warehouse/lib/machine/machines.py:71-86 | rewriting the intercepts changes nothing else, and doing it twice is doing it once |
| StageMachines.InterceptIsState | experiments/warehouse/lib/machine/machines.py:71-86 | after the reward getter every reward function has the negated state it hangs under as intercept |
| StageMachines.StageMachine.InitTransitions | experiments/warehouse/lib/machine/machines.py:88-139 | the list is rebuilt from the calls, or the first exception escapes |
| StageMachines.StageMachine.GetStateTransitionFunction | experiments/warehouse/lib/machine/machines.py:37-51 | the grouping loop laid over the decision node |
| StageMachines.StageMachine.GetCounterTransitionFunction | experiments/warehouse/lib/machine/machines.py:53-69 | the grouping loop of the modifiers laid over the decision node |
| StageMachines.StageMachine.GetRewardTransitionFunction | experiments/warehouse/lib/machine/machines.py:71-86 | rewrites each reward function's intercept in place, then groups |
| StageMachines.FailureExtends | experiments/warehouse/lib/machine/machines.py:88-139 | once a prefix of the calls fails, every longer prefix fails with the same error |
| WarehouseMachines.ModuleCalls | experiments/warehouse/lib/machine/machines.py:95-137 | five calls above, grasp, grip, release, drop of one colour, from `top` down one state per stage, the drop back to 0, each with its own counter text and modifiers |
| WarehouseMachines.TiledStates | experiments/warehouse/lib/machine/machines.py:222-311 | the calls start at the states 1 .. 5n, each exactly once |
| WarehouseMachines.DropSafe | experiments/warehouse/lib/machine/machines.py:131-138 | a drop under its NZ pattern never takes a non-negative counter below zero |
| WarehouseMachines.ContextSensitiveDrops | experiments/warehouse/lib/machine/machines.py:438-537 | each drop decrements exactly its colour's counter under a pattern asserting NZ on it |
| WarehouseMachines.BaseSuccessDrops | experiments/warehouse/lib/machines/machine.py:162-269 | each drop's success modifier decrements exactly its colour's counter under a pattern asserting NZ on it |
| WarehouseMachines.RedSpacing | experiments/warehouse/lib/machine/machines.py:402-445 | the red stages' "(NZ,-, -)" is the same pattern as the drop's "(NZ,-,-)" |
| WarehouseMachines.GreenReleaseText | experiments/warehouse/lib/machine/machines.py:475-482 | the green release stage's "(Z,NZ)" compiles, leaves counter 2 free, and matches exactly the vectors of the module's pattern |
| WarehouseMachines.WarehouseFails | experiments/warehouse/lib/machine/machine.py:88-128 | as written, the constructor raises a `TypeError` at its first call |
| WarehouseMachines.RegularFails | experiments/warehouse/lib/machine/machines.py:88-139 | as written, the constructor raises the grasp factory's exception or a `TypeError` at the grip call |
| WarehouseMachines.ContextFreeFails | experiments/warehouse/lib/machine/machines.py:217-312 | as written, the constructor fails at the grasp call or the grip call |
| WarehouseMachines.ContextSensitiveFails | experiments/warehouse/lib/machine/machines.py:397-538 | as written, the constructor fails at the grasp call or the grip call |
| WarehouseMachines.CorrectedBuilds | experiments/warehouse/lib/machine/machines.py:88-139 | corrected calls build exactly when the grasp and drop calls return, and honest factories leave state 0 to the decision node |
| WarehouseMachines.DecisionKept | experiments/warehouse/lib/machine/machine.py:45-51 | calls that all start above state 0 leave the decision node's row alone |
| WarehouseMachines.BaseSuccessBuilds | experiments/warehouse/lib/machines/machine.py:117-270 | the list is built exactly when each factory returns, and the decision node survives |
| WarehouseMachines.WarehouseCorrected | experiments/warehouse/lib/machine/machine.py:88-128 | with the above stage given `(0,)` and `(0,)`: built exactly when grasp and drop return, the decision node intact |
| WarehouseMachines.ContextSensitiveCorrected | experiments/warehouse/lib/machine/machines.py:397-538 | corrected likewise: built exactly when every module's grasp and drop calls return |
| WarehouseMachines.SingleDecision | experiments/warehouse/lib/machine/machine.py:39-44 | "/ (Z)" and "/ (NZ)" compile to constant-true guards, exactly one of which holds for each counter value |
| WarehouseMachines.PairDecision | experiments/warehouse/lib/machine/machines.py:165-188 | the two-counter decision patterns partition the counter vectors |
| WarehouseMachines.RowsAligned | experiments/warehouse/lib/machine/machines.py:39-86 | the tables of a decision node share its expressions |
| WarehouseMachines.WarehouseSamples | experiments/warehouse/lib/machine/machine.py:32-34 | the one sample is `c_0 = (1,)` |
| WarehouseMachines.RegularSamples | experiments/warehouse/lib/machine/machines.py:28-35 | `[(3,), (2,), (1,)]`, from `c_0` down |
| WarehouseMachines.RegularSamplesExactly | experiments/warehouse/lib/machine/machines.py:28-35 | the samples are exactly the one-counter vectors from 1 to `c_0` |
| WarehouseMachines.ProductExactly | experiments/warehouse/lib/machine/machines.py:159-161 | `product(range(n), repeat=k)` is exactly the vectors of length k over 0..n-1, each once, n^k of them |
| WarehouseMachines.ProductSamples | experiments/warehouse/lib/machine/machines.py:154-161 | the context-free and context-sensitive machines sample every vector between zero and `c_0`, each once |
| ChainMachines.ChainTerminal | examples/rm/continuous/core/machine.py:26-65 | a chain's states are 0 .. n-1, so its terminal state is n |
| ChainMachines.TargetsCompile | examples/rm/continuous/core/machine.py:26-65 | every expression compiles to its proposition under the implicit "(Z)" |
| ChainMachines.ChainBuilds | examples/rm/continuous/core/machine.py:26-106 | construction succeeds with the dummy counter table: state s gets its target entry, then its "DEFAULT" entry |
| ChainMachines.ChainIsRewardMachine | examples/rm/continuous/core/machine.py:9-24 | a chain writes no counter part, so it is a reward machine that runs from `(0,)` |
| ChainMachines.ChainStep | examples/rm/continuous/core/machine.py:26-106 | for targets the rewrite leaves whole, from state s the target moves on with the progress reward, "DEFAULT" stays with the idle reward, and otherwise the step fails |
| ChainMachines.ChainTerminalUndefined | examples/rm/continuous/core/machine.py:26-65 | the terminal state has no entries |
| OfficeWorldRm.IsChain | examples/rm/discrete-office/core/machine.py:22-54 | M, C and P move 0 to 1 to 2 to the sentinel, "DEFAULT" stays, and the reward table has the same expressions |
| OfficeWorldRm.Built | examples/rm/discrete-office/core/machine.py:5-54 | construction succeeds as a reward machine with no `c_0`, running from `(0,)` |
| OfficeWorldRm.Transition | examples/rm/discrete-office/core/machine.py:22-54 | the target pays 1 and moves on (state 2 to the terminal 3), "DEFAULT" pays 0 and stays, otherwise the step fails |
| OfficeWorldRm.Task | examples/rm/discrete-office/core/machine.py:22-54 | mail, coffee, office reach the terminal state with reward 1 at each step |
| PuckWorldRm.TargetsCycle | examples/rm/continuous/core/machine.py:29-63 | state i waits for `T_((i mod 3) + 1)` |
| PuckWorldRm.IsChain | examples/rm/continuous/core/machine.py:26-106 | states 0 to 8 form a chain over the targets, with state 8 leading to the sentinel |
| PuckWorldRm.Built | examples/rm/continuous/core/machine.py:9-106 | construction succeeds as a reward machine running from `(0,)` |
| PuckWorldRm.Transition | examples/rm/continuous/core/machine.py:26-106 | the target pays 10 and moves on (state 8 to 9), "DEFAULT" stays with the navigation reward, otherwise the step fails |
| PuckWorldRm.TerminalUndefined | examples/rm/continuous/core/machine.py:26-65 | the terminal state 9 has no entries |
| PuckWorldCrm.TextCompiles | examples/continuous/core/machine.py:35-62 | every expression is the text of its guard and compiles to it |
| PuckWorldCrm.TextsDistinct | examples/continuous/core/machine.py:35-62 | no two expressions of a state are the same text |
| PuckWorldCrm.StatesRead | examples/continuous/core/machine.py:35-120 | the states are 0, 1 and 2 in the three tables; the terminal state is 3 |
| PuckWorldCrm.SentinelOnly | examples/continuous/core/machine.py:57 | the only entry to the sentinel is "T_3 / (-,-,Z)" of state 2 |
| PuckWorldCrm.RowsAligned | examples/continuous/core/machine.py:35-120 | the state, counter and reward tables have the same expressions per state, in the same order |
| PuckWorldCrm.Built | examples/continuous/core/machine.py:9-120 | construction from the three tables succeeds and yields a well-formed compiled table |
| PuckWorldCrm.EntriesWellFormed | examples/continuous/core/machine.py:35-62 | every guard names known propositions and reads at most three counters |
| PuckWorldCrm.FireExpected | examples/continuous/core/machine.py:35-120 | the entry that fires, and its outcome, are those of the reference semantics `Expected` |
| PuckWorldCrm.Transition | examples/continuous/core/machine.py:35-120 | from a state of the table the first guard that holds fires with the outcome `Expected`, and the catch-all means the step never fails |
| PuckWorldCrm.TerminalUndefined | examples/continuous/core/machine.py:57 | the terminal state has no entries |
| PuckWorldCrm.LastTarget | examples/continuous/core/machine.py:57-115 | at the last target with its counter zero, the machine reaches the terminal state and pays 10000 |
| PuckWorldCrm.StepBounds | examples/continuous/core/machine.py:35-120 | one step stays or moves on by one state, counters never go up or below zero, and entering the terminal state pays 10000 |
| PuckWorldCrm.FromInitial | examples/continuous/core/machine.py:22-125 | from `c_0 = (0,0,0)` the counters never change |
| PuckWorldCrm.DecrementsGuarded | examples/continuous/core/machine.py:64-91 | every counter update is zero or a decrement of one counter under a pattern asserting NZ on it |
| PuckWorldCrm.CountingMachine | examples/continuous/core/machine.py:22-24 | the machine writes counter parts, so it is a counting reward machine and its `c_0` is accepted |
| TransitionGraphs.Edges | experiments/complexity/lib/automata/rm/rm.py:4-11 | the edge set: (source, target) for every key, with labels dropped |
| TransitionGraphs.EdgesUnion | experiments/complexity/lib/automata/crm/crm.py:4-10 | the edges of a union of dicts with disjoint keys are the edges of either |
| TransitionGraphs.TransitionGraph | experiments/complexity/lib/automata/rm/rm.py:4-11 | the `add_edge` loop computes `Edges` |
| ComplexityRm.ComputeRmTransitions | experiments/complexity/lib/automata/rm/rm.py:14-64 | the loops build the machine's transitions, with `(max_n + 1)^2` as terminal state |
| ComplexityRm.RewriteSentinel | experiments/complexity/lib/automata/rm/rm.py:61-63 | every sentinel value becomes the terminal state and nothing else changes |
| ComplexityRm.WriteBlock | experiments/complexity/lib/automata/rm/rm.py:27-57 | one pass of the block loop writes the head of block i, its "C" states and its "P" states |
| ComplexityRm.SixEntries | experiments/complexity/lib/automata/rm/rm.py:16-57 | every state below the terminal has exactly the six entries M, E, C, P, "*" and (), and the terminal has none |
| ComplexityRm.TargetsInRange | experiments/complexity/lib/automata/rm/rm.py:14-64 | every target lies between 0 and the terminal state |
| ComplexityRm.BlockShape | experiments/complexity/lib/automata/rm/rm.py:27-57 | block i starts at i^2, "M" jumps to (i+1)^2, "E" enters it, and "P" from its last state ends |
| ComplexityRm.BlockSteps | experiments/complexity/lib/automata/rm/rm.py:32-57 | within a block "C" and "P" advance one state at a time, and "*" leads to the terminal |
| ComplexityRm.RmEdges | experiments/complexity/lib/automata/rm/rm.py:4-11 | every state has an edge to the terminal, none leaves the terminal, and every edge ends in range |
| ComplexityRm.ComputeRmTransitionGraph | experiments/complexity/lib/automata/rm/rm.py:4-11 | the graph's edges are the edges of the transitions |
| ComplexityCrm.UnionOfStates | experiments/complexity/lib/automata/crm/crm.py:14-40 | the three dicts have disjoint keys, so the union keeps every entry |
| ComplexityCrm.CrmSize | experiments/complexity/lib/automata/crm/crm.py:14-40 | the union has 20 entries: 6 for state 0 and 7 each for states 1 and 2 |
| ComplexityCrm.CrmRange | experiments/complexity/lib/automata/crm/crm.py:14-39 | no entry leaves state 3, and every target is in {0,1,2,3} |
| ComplexityCrm.StarEnds | experiments/complexity/lib/automata/crm/crm.py:19-36 | "*" leads from every non-terminal state to 3 |
| ComplexityCrm.CounterMoves | experiments/complexity/lib/automata/crm/crm.py:28-38 | with no event, state 1 waits on its first counter and state 2 on its second, and each moves on once it is zero |
| ComplexityCrm.CrmEdgeSet | experiments/complexity/lib/automata/crm/crm.py:13-41 | the edge set of the dict is `CrmEdges` |
| ComplexityCrm.ComputeCrmTransitionGraph | experiments/complexity/lib/automata/crm/crm.py:4-10 | the `add_edge` loop yields `CrmEdges`, independent of any size |
| CrossProducts.Take | experiments/warehouse/lib/crossproducts/crossproduct.py:68 | `obs[:n]`: the first n entries, or the whole vector when shorter |
| CrossProducts.EncodedGround | experiments/warehouse/lib/crossproducts/crossproduct.py:37-70 | a 7-long ground observation comes back out of the encoded observation |
| CrossProducts.Clip | experiments/warehouse/lib/crossproducts/crossproduct.py:92 | `np.clip(x, -0.1, 0.1)`: within the bounds, and `x` when `x` is within them |
| CrossProducts.GripperCommand | experiments/warehouse/lib/crossproducts/crossproduct.py:95-100 | -1.0 for a non-positive request, 1.0 otherwise |
| CrossProducts.PreprocessedShape | experiments/warehouse/lib/crossproducts/crossproduct.py:90-101 | keeps the length, clips the displacement, keeps the middle entries and ends in a gripper command |
| CrossProducts.PreprocessedIdempotent | experiments/warehouse/lib/crossproducts/crossproduct.py:90-101 | preprocessing twice is preprocessing once |
| CrossProducts.PreprocessAction | experiments/warehouse/lib/crossproducts/crossproduct.py:90-101 | changes the array in place to `Preprocessed` of its old contents and returns the same array |
| CrossProducts.WarehouseCrossProduct.constructor | experiments/warehouse/lib/crossproducts/crossproduct.py:12-35 | stores the step budget and the memory scale it is given, with no current or previous action |
| CrossProducts.WarehouseCrossProduct.Step | experiments/warehouse/lib/crossproducts/crossproduct.py:72-88 | the action is preprocessed in place and kept, and the gripper is settled exactly when a previous action's gripper entry differs |
| CrossProducts.WarehouseCrossProduct.ReusedArrayNeverSettles | experiments/warehouse/lib/crossproducts/crossproduct.py:79-86 | a caller reusing one array never gets the gripper settled |
| CrossProducts.WarehouseCrossProduct.FlippedGripperSettles | experiments/warehouse/lib/crossproducts/crossproduct.py:79-86 | a fresh array with the other gripper sign does settle the gripper |
| ScaledCrossProduct.Scaled | experiments/warehouse/lib/crossproduct/crossproduct.py:42-45 | `c / memory_scale`, entry by entry: same length, and each entry times the scale is the counter |
| ScaledCrossProduct.ScaledLength | experiments/warehouse/lib/crossproduct/crossproduct.py:23-26 | the observation length is 7 + 1 + the number of counters in `c_0` |
| ScaledCrossProduct.ScaledGround | experiments/warehouse/lib/crossproduct/crossproduct.py:47-56 | `to_ground_obs` gives a 7-long ground observation back |
| ScaledCrossProduct.ScaledConfiguration | experiments/warehouse/lib/crossproduct/crossproduct.py:32-45 | the state and the counters can be read back from the observation |
| ScaledCrossProduct.DefaultScaleKeepsCounters | experiments/warehouse/lib/crossproduct/crossproduct.py:18-43 | with the default scale 1.0 the counter block is the counters |
| PuckCrossProduct.PuckGroundInverse | examples/discrete/core/crossproduct.py:38-63 | a 12-long ground observation comes back out of the product observation |
| PuckCrossProduct.PuckObsLength | examples/discrete/core/crossproduct.py:21-23 | the declared length 16 is 12 ground entries, the state and three counters |
| PuckCrossProduct.PuckObsInjective | examples/discrete/core/crossproduct.py:38-52 | different configurations give different observations |
| PuckCrossProduct.SuccessWithinBudget | examples/discrete/core/crossproduct.py:26-36 | on an ending step, success is reported exactly when the episode ends within the step budget |
| PuckCrossProduct.PuckUpdateExact | examples/discrete/core/crossproduct.py:128-135 | each flag is set exactly when it was already set or its configuration is the current one |
| PuckCrossProduct.PuckUpdateMonotone | examples/discrete/core/crossproduct.py:128-135 | flags only go from false to true |
| PuckCrossProduct.PuckInfo | examples/discrete/core/crossproduct.py:116-126 | the info reports each flag as 1 or 0 |
| PuckCrossProduct.PuckWorldLoggingWrapper.constructor | examples/discrete/core/crossproduct.py:72-77 | all three flags false |
| PuckCrossProduct.PuckWorldLoggingWrapper.Reset | examples/discrete/core/crossproduct.py:79-92 | copies the product's configuration and clears the flags |
| PuckCrossProduct.PuckWorldLoggingWrapper.Step | examples/discrete/core/crossproduct.py:94-114 | copies the configuration after the product's step, raises exactly the flags `PuckUpdate` gives, and reports them in the info |
| ContextSensitiveCrossProduct.PlacedRaised | experiments/warehouse/lib/crossproducts/context_sensitive.py:185-278 | a completion flag is raised exactly at state 0, for a count from 1 to 3 one above its colour's counter |
| ContextSensitiveCrossProduct.ReachedRaised | experiments/warehouse/lib/crossproducts/context_sensitive.py:185-278 | a stage flag is raised exactly in its module state, for a value from 1 to 3 equal to its colour's counter |
| ContextSensitiveCrossProduct.OneFlagPerColour | experiments/warehouse/lib/crossproducts/context_sensitive.py:185-278 | one update raises at most one flag per colour, and at most one outside state 0 |
| ContextSensitiveCrossProduct.Logs | experiments/warehouse/lib/crossproducts/context_sensitive.py:356-399 | the logs keep the raised flags and report success 1 exactly when the state is final |
| ContextSensitiveCrossProduct.ToGroundObs | experiments/warehouse/lib/crossproducts/context_sensitive.py:133-135 | raises a division by zero for every observation |
| ContextSensitiveCrossProduct.ExtraGroundSteps | experiments/warehouse/lib/crossproducts/context_sensitive.py:99-108 | ground steps follow exactly when a block goes back at state 0 with blocks left or the gripper command changed |
| ContextSensitiveCrossProduct.FirstStepMovesGripper | experiments/warehouse/lib/crossproducts/context_sensitive.py:46-108 | after `reset` the first step always settles the gripper |
| ContextSensitiveCrossProduct.ExperiencesBound | experiments/warehouse/lib/crossproducts/context_sensitive.py:146-161 | there are at most as many synthetic transitions as sampled counter vectors |
| ContextSensitiveCrossProduct.ExperiencesSound | experiments/warehouse/lib/crossproducts/context_sensitive.py:146-161 | every synthetic transition comes from a state and sample whose transition succeeds |
| ContextSensitiveCrossProduct.ExperiencesComplete | experiments/warehouse/lib/crossproducts/context_sensitive.py:146-161 | every state and sample whose transition succeeds gives a synthetic transition |
| ContextSensitiveCrossProduct.RealStepReplayed | experiments/warehouse/lib/crossproducts/context_sensitive.py:154-161 | the configuration of the real step, when sampled, is replayed with the real step's next configuration, reward and termination |
| ContextSensitiveCrossProduct.ContextSensitiveCrossProductMdp.constructor | experiments/warehouse/lib/crossproducts/context_sensitive.py:18-35 | stores the machine, the labelling function and the step budget it is given; no propositions yet |
| ContextSensitiveCrossProduct.ContextSensitiveCrossProductMdp.Reset | experiments/warehouse/lib/crossproducts/context_sensitive.py:37-51 | clears the flags and the step count, takes `(u_0, c_0)`, and sets both ground observations to the first one and the action to a fresh all-zero array |
| ContextSensitiveCrossProduct.ContextSensitiveCrossProductMdp.Step | experiments/warehouse/lib/crossproducts/context_sensitive.py:53-112 | counts the step before transitioning, keeps the caller's array as the action and the previous action array as the last one, commits the new configuration, reports terminated iff the state is final and truncated iff steps reach the budget, and compares the gripper entries of the two arrays as they are after preprocessing |
| ContextSensitiveCrossProduct.ContextSensitiveCrossProductMdp.Advance | experiments/warehouse/lib/crossproducts/context_sensitive.py:54-68 | the action preprocessed in place, the step counted, the action references and observations shifted (the previous array keeps its contents unless it is the caller's array), and the move labelled |
| ContextSensitiveCrossProduct.ContextSensitiveCrossProductMdp.Commit | experiments/warehouse/lib/crossproducts/context_sensitive.py:79-84 | the old configuration saved, the new one taken |
| ContextSensitiveCrossProduct.ContextSensitiveCrossProductMdp.Settle | experiments/warehouse/lib/crossproducts/context_sensitive.py:99-111 | the subtask flags are raised when the configuration changed, and the ground environment is settled when needed |
| ContextSensitiveCrossProduct.ReusedActionNeverSettles | experiments/warehouse/lib/crossproducts/context_sensitive.py:53-61 | a caller handing `step` the array of the step before never gets the gripper settled; ground steps occur only for a block going back |
| ContextSensitiveCrossProduct.FreshFlippedActionSettles | experiments/warehouse/lib/crossproducts/context_sensitive.py:53-109 | a fresh array whose gripper request flips the sign of the previous action settles the gripper |
| ContextSensitiveCrossProduct.ContextSensitiveCrossProductMdp.GenerateCounterfactualExperience | experiments/warehouse/lib/crossproducts/context_sensitive.py:138-170 | for every state and sampled vector, the transition under the last step's propositions; failures skipped; six buffers of equal length |
| ContextSensitiveCrossProduct.ContextSensitiveCrossProductMdp.AppendState | experiments/warehouse/lib/crossproducts/context_sensitive.py:148-161 | the inner loop appends the synthetic transitions of one state |
| ContextSensitiveLogging.StageMatchExact | experiments/warehouse/lib/crossproducts/logging.py:82-116 | a stage flag n needs its module state with counters (n, 3, 3); the drop flag n needs state 0 with (n - 1, 3, 3) |
| ContextSensitiveLogging.ColourMatchExact | experiments/warehouse/lib/crossproducts/logging.py:117-132 | at state 0, red n needs (n-1,3,3), green n needs (0,n-1,3) and blue n needs (0,0,n-1) |
| ContextSensitiveLogging.RaiseBounds | experiments/warehouse/lib/crossproducts/logging.py:78-132 | no flag is cleared, and at most one stage flag and one colour flag are raised |
| ContextSensitiveLogging.ThirdRedDrop | experiments/warehouse/lib/crossproducts/logging.py:107-116 | (0, (2,3,3)) completes the third drop and the third red block together |
| ContextSensitiveLogging.LastBlue | experiments/warehouse/lib/crossproducts/logging.py:131-132 | (0, (0,0,0)) completes the last blue block and nothing else |
| ContextSensitiveLogging.SubtaskInfo | experiments/warehouse/lib/crossproducts/logging.py:134-161 | every one of the 24 flags as 0 or 1 |
| ContextSensitiveLogging.ContextSensitiveLoggingWrapper.constructor | experiments/warehouse/lib/crossproducts/logging.py:10-43 | all 24 flags false |
| ContextSensitiveLogging.ContextSensitiveLoggingWrapper.Reset | experiments/warehouse/lib/crossproducts/logging.py:45-54 | copies the configuration after the product's reset; the flags stay |
| ContextSensitiveLogging.ContextSensitiveLoggingWrapper.Step | experiments/warehouse/lib/crossproducts/logging.py:56-76 | copies the configuration after the product's step and raises the flags it matches |
| WarehouseLogging.StageUpdateExact | experiments/warehouse/lib/crossproduct/logging.py:39-55 | states 4, 3, 2, 1 raise above, grasp, grip and release, counters exactly (0,) raise drop; no flag is cleared |
| WarehouseLogging.OtherStatesKeepFlags | experiments/warehouse/lib/crossproduct/logging.py:43-55 | a state outside 1..4 with counters other than (0,) changes nothing |
| WarehouseLogging.StageUpdateIdempotent | experiments/warehouse/lib/crossproduct/logging.py:39-55 | updating twice with one configuration is updating once |
| WarehouseLogging.StageInfo | experiments/warehouse/lib/crossproduct/logging.py:57-65 | each flag as 0 or 1 |
| WarehouseLogging.LoggingWrapper.constructor | experiments/warehouse/lib/crossproduct/logging.py:10-18 | every flag false |
| WarehouseLogging.LoggingWrapper.Reset | experiments/warehouse/lib/crossproduct/logging.py:20-25 | the flags stay as they are |
| WarehouseLogging.LoggingWrapper.Step | experiments/warehouse/lib/crossproduct/logging.py:27-37 | raises the flags the configuration after the step matches |
| LatestCheckpoint.MatchAtComplete | experiments/warehouse/core/auto/latest_checkpoint.py:13 | every match of the pattern at a position is the one `MatchAt` finds |
| LatestCheckpoint.Search | experiments/warehouse/core/auto/latest_checkpoint.py:13-17 | `re.search` with the lazy `.*?`: what it returns starts within the line and has its group positions in order |
| LatestCheckpoint.SearchSound | experiments/warehouse/core/auto/latest_checkpoint.py:13-17 | what the search finds is a match |
| LatestCheckpoint.SearchFindsFirst | experiments/warehouse/core/auto/latest_checkpoint.py:13-17 | every match starts at or after the one the search finds |
| LatestCheckpoint.SearchNone | experiments/warehouse/core/auto/latest_checkpoint.py:14-17 | the search finds nothing exactly when the pattern occurs nowhere |
| LatestCheckpoint.FilenameShape | experiments/warehouse/core/auto/latest_checkpoint.py:13 | the file name is `model_`, digits and `_steps.zip` |
| LatestCheckpoint.EarlierTotal | experiments/warehouse/core/auto/latest_checkpoint.py:49-50 | timestamps are strictly and totally ordered |
| LatestCheckpoint.MonthNumber | experiments/warehouse/core/auto/latest_checkpoint.py:21 | `strptime(name, "%b").month`: a month number from 1 to 12, given only for a three-letter name |
| LatestCheckpoint.MonthExamples | experiments/warehouse/core/auto/latest_checkpoint.py:21 | "Mar" is 3, "DEC" is 12, and "March" is rejected |
| LatestCheckpoint.ToCheckpoint | experiments/warehouse/core/auto/latest_checkpoint.py:19-24 | month, then `datetime(...)` checking day, hour and minute in that order |
| LatestCheckpoint.ParseLsLine | experiments/warehouse/core/auto/latest_checkpoint.py:11-24 | no checkpoint exactly when the pattern does not occur; otherwise the checkpoint `ToCheckpoint` makes of the first match's groups (its file name, and the month, day, hour and minute as a valid time of the given year), or that function's error |
| LatestCheckpoint.ListingLineParses | experiments/warehouse/core/auto/latest_checkpoint.py:11-24 | a listing line with a valid time parses to the checkpoint it names, at that time |
| LatestCheckpoint.LastWordNone | experiments/warehouse/core/auto/latest_checkpoint.py:32 | a line has a last word exactly when it is not blank |
| LatestCheckpoint.LastWordFound | experiments/warehouse/core/auto/latest_checkpoint.py:32 | the last word is a non-empty run of non-spaces followed only by spaces, as `split()[-1]` |
| LatestCheckpoint.GetRunNames | experiments/warehouse/core/auto/latest_checkpoint.py:27-34 | the last word of every line after the header, or an error at the first blank line |
| LatestCheckpoint.RunNamesOf | experiments/warehouse/core/auto/latest_checkpoint.py:27-34 | the loop computes `GetRunNames` |
| LatestCheckpoint.CollectOk | experiments/warehouse/core/auto/latest_checkpoint.py:41-45 | collecting succeeds exactly when every line parses, keeping each present checkpoint |
| LatestCheckpoint.CollectFirstError | experiments/warehouse/core/auto/latest_checkpoint.py:41-45 | otherwise it fails with the error of the first failing line |
| LatestCheckpoint.FirstLatest | experiments/warehouse/core/auto/latest_checkpoint.py:49 | the first checkpoint with the latest time, as `max` with a key |
| LatestCheckpoint.GetLatestCheckpoint | experiments/warehouse/core/auto/latest_checkpoint.py:37-50 | the loop returns the latest checkpoint's file name, the first listed on ties, or an error |
| LatestCheckpoint.LatestIsLatest | experiments/warehouse/core/auto/latest_checkpoint.py:37-50 | `NoCheckpoints` exactly when every line parses to no checkpoint; otherwise the result is the file name of a listed checkpoint that no other listed checkpoint is later than |
| ContextFreeManual.SameDomain | experiments/warehouse/core/contextfree/utils/manual.py:13-42 | both lookups are defined exactly on 0..10 and reject other states with an error |
| ContextFreeManual.GripperCommands | experiments/warehouse/core/contextfree/utils/manual.py:34-42 | the gripper closes in 0, 2, 3, 7, 8 and opens in 1, 4, 5, 6, 9, 10 |
| ContextFreeManual.SharedWaypoints | experiments/warehouse/core/contextfree/utils/manual.py:18-39 | two different states resolve to the same waypoint exactly when they form one of the pairs 9/8, 7/6, 4/3, 2/1 |
| ContextFreeManual.PairsSwitchGripper | experiments/warehouse/core/contextfree/utils/manual.py:18-39 | a pair sharing a waypoint switches the gripper command |
| ContextFreeManual.GreenLikeRed | experiments/warehouse/core/contextfree/utils/manual.py:18-39 | green states 1..5 are driven like red states 6..10 with the green waypoints |
| WarehouseManual.SameDomain | experiments/warehouse/core/utils/manual.py:25-48 | both lookups are defined exactly on 0..5 |
| WarehouseManual.WaypointTable | experiments/warehouse/core/utils/manual.py:27-35 | 0 lifts, 5 goes above red, 4 and 3 to grasp height, 2 and 1 over the release spot |
| WarehouseManual.GripperCommands | experiments/warehouse/core/utils/manual.py:40-48 | the gripper closes in 0, 2, 3 and opens in 1, 4, 5 |
| WarehouseManual.RedModuleAgrees | experiments/warehouse/core/utils/manual.py:25-48 | state u is driven as the context-free policy drives state u + 5 |

## Left out

- The base classes `crm/automaton/machine.py`, `crm/crossproduct` and the reward-machine
  adapter are not part of this model. First-match resolution, the sentinel replacement and
  the reward-machine `c_0` rule are modelled from their one visible override and from the
  tests. The `_replace_ccrm_rewards()` call that both warehouse constructors make between the
  sentinel rewrite and compilation (context_sensitive.py:26, contextfree.py:29) is a
  base-class method and is not modelled.
- Reward functions: the arithmetic (norms, clip, rescale, intercepts) is floating point. Rewards
  are opaque ids. Only the intercept rewrite of the reward getters is kept, as an integer.
- The labelling functions, the physics simulation and the ground environment are parameters.
  They are the event sets, the observations and `_update_block_positions` /
  `_handle_gripper_state_change`, whose effect is counted as ground steps.
- Randomness: `sample_counter_configurations` receives the drawn rows as an argument.
- `exec` and the regular-expression engine are replaced by the tokenizer, the parser and the
  evaluator. Every event text outside the `and`/`or`/`not` grammar over ASCII proposition
  names is rejected here with `SyntaxError` at compile time. Python's `exec` rejects some of
  these texts, and some raise a `NameError` at the first evaluation. Others it runs without any
  error: `1 / (Z)` holds because `1` is truthy, `props / (Z)` yields the `props` set itself,
  `A == B / (Z)` becomes a chained comparison of the rewritten names, and a name such as `Aé`
  is a valid identifier that the rewrite's Unicode `\w` keeps whole.
- Compiler.IsPropositionName accepts a split name whose last piece is `True`, `False` or
  `None` (`A1None` becomes `EnvProps.A1EnvProps in props.None`). Python's `exec` rejects that
  text with a `SyntaxError`; here the name compiles and its evaluation raises `GarbledName`,
  as for every other split name.
- `create_grasp_stage` and `create_drop_stage` are not part of this model. What they return
  is a parameter.
- Observation encodings with floating point (`_get_obs` of the context-sensitive product,
  with its one-hot and class encodings) are modelled as sequences of reals. numpy dtypes are
  not modelled.
- `download_latest_checkpoint` (SSH/SFTP), plotting, training scripts, `render` and `print`
  are I/O.
- `LatestCheckpoint.ToCheckpoint`: the year is a parameter (the current year in the source),
  and leap years follow the Gregorian rule on that parameter.
- `ContextSensitive.Machine.Transition`: the `(None,)` initial value of `u_next` is not
  modelled. The check for no transition is on the absence of a firing entry, which the source
  detects through `c_next`/`reward_fn`.
- compiler.py compares no lengths between the pattern and the counters; the model follows the
  code (`Compiler.PatternOutOfRange`).
- The complexity CRM's dict has 20 entries (state 2 has both `(-,NZ)` and `(-,Z)`)
  (`ComplexityCrm.CrmSize`).
- LatestCheckpoint.Search and LatestCheckpoint.MonthNumber: `\w` and `\d` are ASCII classes
  and the month table is the English C-locale one. Python's `re` uses Unicode classes on `str`
  patterns and `strptime("%b")` follows the locale. A line whose month is "Mär" matches in
  Python and then raises `ValueError` from `strptime`; here it does not match and is skipped.

## Findings

| source | as written | input that shows it | evidently intended | confidence | as-written member | corrected member |
|---|---|---|---|---|---|---|
| experiments/warehouse/lib/machine/machine.py:95-100 | `create_above_block_stage` is called without `remain_counter_modifier` and `progress_counter_modifier`, which it requires | `WarehouseCountingRewardMachine()` | the above stage given `(0,)` for both, as every other stage's modifier | not executed | WarehouseMachines.WarehouseFails | WarehouseMachines.WarehouseCorrected |
| experiments/warehouse/lib/machine/machines.py:109-126 | `create_grip_stage` and `create_release_position_stage` are passed counter modifiers they do not accept | `RegularCRM()`, `ContextFreeCRM()`, `ContextSensitiveCRM()` | the grip and release stages called without modifiers | not executed | WarehouseMachines.RegularFails | WarehouseMachines.ContextSensitiveCorrected |
