# obzenflow-fsm, verified

A Dafny 4.11 model of two layers of `obzenflow-fsm` and proofs about them.

**The toolchain.** The `fsm!` grammar (`Parser`, `Grammar`), the code generator (`Codegen`), the string-keyed
builder (`Builder`), the derived variant names (`Derive`, `Naming`) and the runtime engine (`Machine`): dispatch to the
exact row, then the wildcard row, then the unhandled hook, then an error; exit hook, state swap, entry hook,
re-arming of the cooperative timer (`Outcomes` says who is called and what the host gets for it). `Source` is an independent reading of a table: it scans the parsed blocks
and never builds a map. The main results are that the generated machine and that reading agree on every run
(`Compiler`, `Macro`), what the timer guarantees and exactly what breaks it (`Runs`), how hooks bracket the states
of a run (`Hooks`), that replay agrees with live mode (`Replay`), what a live host executes (`Effects`), and which tables are refused
(`Duplicates`).

**The protocols of the test suite**, each in every interleaving or on every run: a pipeline with N stages,
bounded queues, a barrier and a shutdown broadcast (`Pipeline*`); a ledger under at-least-once delivery with
saturating arithmetic (`Beast*`, `Saturating`); a shared journal with per-speaker clocks (`Babel*`);
fan-out under timeouts and broken channels (`Purgatory*`); a shared in-flight counter (`Race*`).
The ledger and the fan-out are tables run by the engine of `Machine`; the other three are transition systems
whose moves are the handler calls and the places where a handler can be suspended.

A handler is a function from state, event and context to a new context and an outcome. The context type is
arbitrary, so a handler may depend on anything, including a schedule; the outcome `Dropped` is a future that the
host abandons while the handler is suspended, and the engine treats it as the early return it is. Clock readings
are arguments: the instant at which the state is swapped and the later one at which the timer is armed.

## Where the strong claim fails

Each of these is stated with a concrete run that shows the failure and with the condition under which the
claim holds.

- A failed or dropped entry hook leaves the new state with the old deadline (src/machine.rs:181-194).
  `Runs.EarlyFiringExactly` says exactly which such calls let a timeout fire early, `Runs.StaleDeadlineFiresEarly`
  is one, and `Runs.TimerInvariantExactly` says when a deadline is armed iff the state has a timeout.
- The comment at src/builder.rs:55 says duplicates are always rejected. `TimeoutBuilder::on`
  (src/builder.rs:246-258) does not look for them, and the generated code sends every row of a block with a
  timeout through it. The code is followed: `Duplicates.AlwaysRejectedExactly` gives the tables of which the
  comment is true, `Duplicates.RepeatUnderTimeoutIsAccepted` one of which it is not.
- Names are last path segments (obzenflow-fsm-macros/src/codegen.rs:48-55). `Naming.TableNamesExactly` says
  exactly for which tables that is pattern matching, `Naming.StateNameExactly` and `Naming.EventNameExactly` for
  which paths; `Renaming.RenamedImportLosesARow` loses a row to a renaming import.
- Circle 2 relies on sleeps: the main task may send Start, data or BeginShutdown too early or too late, and a
  stage may take its shutdown branch while data is queued. By `PipelineTheorems.EveryMaximalRun` a run ends as
  intended if and only if it makes none of these four mistakes; `PipelineEarly` reaches each of them.
- Replay differs from live mode when executing actions shows. `Replay.ReplayAgreesExactly` and `Replay.ReplayAgreesStepwise` say when it does not,
  `Replay.ReplayDivergesWhenActionsAreVisible` is a table with which it does.
- MarkOfBeast reads the duplicate counter. `Beast.DuplicatesMatterExactly` says exactly when redelivery then shows;
  `BeastTrials.MarkReadsTheCounter` is a stream with which it does.

## Model

| member | source | states |
|---|---|---|
| `Machine.StateMachine.constructor` | src/machine.rs:68-94 | a new machine is in its initial state with the timer armed iff that state has a timeout |
| `Machine.StateMachine.Apply` | src/machine.rs:161-205 | in-place exit, swap, entry, re-arm, with its early returns, is the value-level step `ApplyTransition`: state, deadline, context, result and observable calls |
| `Machine.StateMachine.HandleEvent` | src/machine.rs:129-158 | the in-place handler call is the value-level step `Handle`; what that does, for every table, is stated by the rows of `Outcomes` |
| `Machine.StateMachine.Check` | src/machine.rs:108-119 | the in-place timeout check is the value-level step `CheckTimeout`; see `Outcomes.TimeoutRuns` and `Outcomes.RunAnswers` |
| `Machine.StateMachine.Execute` | src/machine.rs:211-217 | the loop over actions performs them in order and stops at the first failure |
| `Outcomes.ExactRowRuns` | src/machine.rs:129-138 | for every table: the row for state and event is the one called, whatever wildcard row there is; if it returns an error, the call returns that very error with the handler's context and the old configuration, and likewise if it is dropped |
| `Outcomes.WildcardRowRuns` | src/machine.rs:139-144 | without such a row the wildcard row is called, whatever the state, with the same consequences (tests/test_edge_cases.rs:581,720) |
| `Outcomes.UnhandledHookRuns` | src/machine.rs:145-149 | without either the unhandled hook decides between no actions, its own error and nothing; the configuration stays |
| `Outcomes.NobodyRuns` | src/machine.rs:150-155 | without a hook either, an error naming state and event, and nothing changes |
| `Outcomes.TimeoutRuns` | src/machine.rs:108-119 | past the deadline the state's timeout handler is called; its error, or being dropped, ends the check with the old configuration |
| `Outcomes.CheckTooSoon` | src/machine.rs:108-119 | before the deadline, or without one, a check is nothing at all |
| `Outcomes.ExitFails` | src/machine.rs:174-178 | a failing exit hook ends the call with its own error, its context, and state and deadline as before |
| `Outcomes.EntryFails` | src/machine.rs:181-194 | a failing entry hook ends the call with its own error, its context, the new state and the old deadline |
| `Outcomes.RunAnswers` | src/machine.rs:108-205 | over whole runs the trace splits into the notes of the calls, and each result the host gets is what the last handler or hook called in that call returned, all called before having succeeded: an error is in the results exactly where one of them returned that very error, or nobody was called for an event |
| `Outcomes.ExecutionIsAFold` | src/machine.rs:211-217 | executing actions threads the context through them one by one, in order, up to the first failure, and returns the last one's result |
| `Runs.CallEffects` | src/machine.rs:129-205 | a call ends in one of three ways: state and deadline untouched, both set together, or (failed entry hook only) new state with the old deadline; the timer invariant is lost exactly when the last of these crosses between a state with and one without a timeout |
| `Runs.DeadlineBelongsToLastArming` | src/machine.rs:161-194 | on every run, failures included, the deadline is the one the last completed arming set, and no timeout handler runs before it |
| `Runs.TimeoutNeverEarly` | src/machine.rs:87-119 | on every run, a timeout handler runs only when its state's whole duration has passed since that entry, provided the entry completed (armed the timer); earlier failed entry hooks do not matter |
| `Runs.CleanRunsAreNeverEarly` | src/machine.rs:181-194 | where no entry hook has failed or been dropped, every entry so far has armed the timer, so that the hypothesis of `TimeoutNeverEarly` holds |
| `Runs.EarlyFiringExactly` | src/machine.rs:181-194 | a call that swaps the state admits an early firing exactly if its entry hook fails, the new state has a timeout, and the old deadline is armed and comes before that timeout is due |
| `Runs.TimerInvariantExactly` | src/machine.rs:76-93 | after any run a deadline is armed iff the state has a timeout, exactly unless a failed entry hook separates two states that differ in having one |
| `Runs.FiringsUseDifferentArmings` | src/machine.rs:108-119 | from any world, after a timeout call that returned Ok every later timeout call is preceded by a later arming: an arming leads to at most one successful timeout transition |
| `Runs.StaleDeadlineFiresEarly` | src/machine.rs:181-194 | such a call and such a firing, 95 ticks early, on a concrete table |
| `Hooks.HooksBracketStates` | src/machine.rs:161-205 | over a whole run the hook calls are exactly those of the visited states, each exit given the state value last installed, none for entering the initial state, iff no exit hook failed |
| `Hooks.ActionsFollowHooks` | src/machine.rs:37-45 | every successful call returns exit actions, then entry actions, then the transition's own |
| `Replay.ReplayAgreesExactly` | src/lib.rs:76-78 | ignoring and executing actions give the same states, deadlines, results and handler calls on all runs from all worlds, if and only if after every single call the contexts before and after executing its actions lead to the same observations on every continuation |
| `Replay.ReplayAgreesStepwise` | src/lib.rs:76-78 | the same one call at a time: the modes agree iff some equivalence of contexts is kept by every call, which then shows the same, and relates the context after each call to the one after executing its actions |
| `Replay.ReplayAgreesWithLive` | src/lib.rs:76-78 | a checkable sufficient condition: handlers and hooks see only what execution never writes; the visible context then agrees too |
| `Replay.ConfinedHandlersNoticeNothing` | src/lib.rs:76-78 | under that condition the modes agree on all runs from all worlds |
| `Replay.ReplayDivergesWhenActionsAreVisible` | src/lib.rs:76-78 | a handler that reads what execution writes tells the modes apart after two events |
| `Replay.ExecutionCutsAtFirstFailure` | src/machine.rs:211-217 | execution performs exactly the actions before the first failing one and that one |
| `Effects.WholeRunEffects` | src/machine.rs:37-45 | over a whole live run, trace and results are those of its calls, and what the host executes is, call by call, the exit, entry and transition actions in that order, cut after the first that fails, and nothing of a failed call |
| `Effects.CutShortens` | src/machine.rs:211-217 | what was executed in all is all that was emitted iff no call was cut short of its last action |
| `Builder.FsmBuilder.WhenUnhandled` | src/builder.rs:93-102 | the last unhandled hook given is the one kept |
| `Builder.FsmBuilder.Strict` | src/builder.rs:68-71 | turns the structural check on and changes nothing else |
| `Builder.FsmBuilder.FromAny` | src/builder.rs:82-87 | a builder of rows for the wildcard name |
| `Builder.FsmBuilder.OnEntry` | src/builder.rs:105-112 | the last entry hook given for a name replaces earlier ones |
| `Builder.FsmBuilder.OnExit` | src/builder.rs:115-122 | the last exit hook given for a name replaces earlier ones |
| `Builder.FsmBuilder.TryBuild` | src/builder.rs:137-171 | refused first for the first recorded duplicate, then for an initial state without row and timeout, and otherwise a fresh machine on the collected tables |
| `Builder.WhenBuilder.On` | src/builder.rs:188-205 | inserts the row, last one wins, and records the key if it was there, stated of the maps themselves |
| `Builder.WhenBuilder.Timeout` | src/builder.rs:208-224 | sets the state's timeout and hands over to a builder for the same state |
| `Builder.TimeoutBuilder.On` | src/builder.rs:246-258 | inserts the row, last one wins, and records nothing |
| `Codegen.ExpandBlock` | obzenflow-fsm-macros/src/codegen.rs:45-117 | read by position: the check of the block's path, the checks of every row's path in order, then entry and exit, then one chain with the timeout and the rows in order, and nothing else |
| `Codegen.ExpandFsmSpec` | obzenflow-fsm-macros/src/codegen.rs:11-123 | the generated code is the lowering of the table, block by block, and demands a derived state type and a derived event type, each its own |
| `Acceptance.ChecksExactly` | obzenflow-fsm-macros/src/codegen.rs:56-79 | the paths an expansion checks as state patterns are exactly the blocks' paths in order, and as event patterns exactly the rows' paths in order |
| `Acceptance.AcceptedExactly` | obzenflow-fsm-macros/src/codegen.rs:23-79 | a compiler that resolves paths accepts the expansion iff the types derive their names and every block and every row of the table names a variant (tests/compile_fail/missing_event_variant.rs) |
| `Codegen.RunExpansion` | obzenflow-fsm-macros/src/codegen.rs:87-117 | running the generated calls on the mutable builder is refused or yields a machine on exactly the tables the lowering denotes |
| `Compiler.CompiledCollects` | obzenflow-fsm-macros/src/codegen.rs:39-117 | the tables collected for any specification are exactly what scanning its blocks by name finds: last row wins, last block wins for entry, exit and timeout |
| `Compiler.CompiledMeansSource` | obzenflow-fsm-macros/src/codegen.rs:39-117 | compiler correctness: with derived variant names and paths that end in the variants' own identifiers, for every sequence of calls the built machine and a direct reading of the source blocks, which matches patterns by variant and never by name, give the same states, deadlines, contexts, handler calls, actions and errors |
| `Naming.StateNameExactly` | obzenflow-fsm-macros/src/codegen.rs:48-55 | for a block, comparing names is matching its pattern, for all states, exactly when its path ends in the variant's own identifier |
| `Naming.EventNameExactly` | obzenflow-fsm-macros/src/codegen.rs:66-84 | the same for a row and all events |
| `Naming.TableNamesExactly` | obzenflow-fsm-macros/src/codegen.rs:39-117 | for a whole table with distinct handlers and non-repeating patterns that denote inhabited variants: looking handlers up by name is matching patterns, for every state and event, exactly when every row's paths end in the variants' own identifiers |
| `Renaming.RenamedImportLosesARow` | obzenflow-fsm-macros/src/codegen.rs:48-55 | with a renamed import the built machine rejects an event that the source table handles |
| `Duplicates.DuplicateDetectionExact` | src/builder.rs:188-205 | a table is refused for a duplicate iff a row of a block without a timeout repeats an earlier key of any block, and the first such row is the one reported |
| `Duplicates.AlwaysRejectedExactly` | src/builder.rs:52-56 | the documented "always rejected" is true of exactly the tables with no repeat under a timeout, or with some other repeat |
| `Duplicates.InitialCheckExact` | src/builder.rs:145-157 | the other refusal: exactly when no duplicate was reported and the initial state has neither row nor timeout |
| `Duplicates.RefusalIsTextual` | src/builder.rs:137-171 | the generated code is refused exactly as a reading of the parsed table says, with the same error: first repeat in a block without a timeout, else an initial state with neither row nor timeout |
| `Duplicates.RepeatUnderTimeoutIsAccepted` | src/builder.rs:246-258 | a repeated row under a timeout builds, and the later row is kept |
| `Derive.NamesIdentifyVariants` | obzenflow-fsm-macros/src/lib.rs:85-106 | the names the derived match returns for two values are equal exactly when the values are of the same variant; this is what compiler correctness rests on |
| `Parser.Parse` | obzenflow-fsm-macros/src/parse.rs:53-215 | the loops over the consuming stream compute the grammar function `ParseSpec`, with its first error |
| `Parser.ParseStream.Block` | obzenflow-fsm-macros/src/parse.rs:119-196 | the clause loop of one block, with its per-block duplicate errors |
| `Grammar.ParsePrinted` | obzenflow-fsm-macros/src/parse.rs:53-215 | a printed sentence parses to its meaning, or, iff a clause that may occur once occurs twice, to the duplicate error of the first clause that does, by its keyword |
| `Grammar.OffendingItem` | obzenflow-fsm-macros/src/parse.rs:118-202 | behind any well-formed items, a token that starts no item is what is reported, whatever follows |
| `Grammar.OffendingBlock` | obzenflow-fsm-macros/src/parse.rs:129-186 | the same for a token that starts no clause, in whichever block it is |
| `Grammar.OffendingHeader` | obzenflow-fsm-macros/src/parse.rs:55-110 | at any of the five fields another keyword is reported as the one that was due |
| `Grammar.BrokenClause` | obzenflow-fsm-macros/src/parse.rs:129-186 | tokens that begin a clause and are none are a missing token, unless the keyword itself is a repetition, which is reported first |
| `Grammar.BrokenItem` | obzenflow-fsm-macros/src/parse.rs:118-202 | the same for items |
| `Grammar.BrokenHeader` | obzenflow-fsm-macros/src/parse.rs:55-110 | the same for each field of the header |
| `Grammar.AcceptsExactlyTheGrammar` | obzenflow-fsm-macros/src/parse.rs:53-215 | whatever the parser accepts is the printed form of a well-formed sentence whose meaning is the result |
| `Grammar.ParsePrintRoundTrip` | obzenflow-fsm-macros/src/parse.rs:53-215 | parsing the printed form of any specification returns it |
| `Grammar.InterleavingIrrelevant` | obzenflow-fsm-macros/src/parse.rs:130-180 | clauses of different kinds may be interleaved in any way within a block |
| `Macro.Drive` | src/lib.rs:76-78 | a host loop on the mutable machine is a run of its table |
| `Macro.CompileAndDrive` | obzenflow-fsm-macros/src/lib.rs:193-206 | end to end, against a reference that reads only the parsed table: tokens that do not parse are a compile error, and so, exactly, is a table with a path that names no variant; tables are refused exactly where their text says so; and otherwise, with derived names and own-identifier paths, the machine object behaves, call for call, as the parsed table read directly |
| `PipelineInvariant.MoveKeeps` | tests/circle_2_async_coordination.rs:238-647 | one inductive invariant (main task's progress, stage states and queues, messages in flight, barrier, signals) that every orderly move keeps, for any number of stages |
| `PipelineProgress.RunsAreFinite` | tests/circle_2_async_coordination.rs:379-647 | a measure falls on every move of every run, orderly or not |
| `PipelineTheorems.NoDeadlock` | tests/circle_2_async_coordination.rs:379-647 | short of the intended end an orderly move is always enabled, with bounded queues of any capacity |
| `PipelineDoom.DisorderlyMoveDooms` | tests/circle_2_async_coordination.rs:593-647 | a report before Start is queued, data before StartProcessing, BeginShutdown before AllStagesReady, or a shutdown branch on a non-empty queue leaves a message that no handler will take |
| `PipelineDoom.DoomedRunsPanic` | tests/circle_2_async_coordination.rs:379-607 | however such a run goes on to its end, it ends in a panic |
| `PipelineTheorems.EveryMaximalRun` | tests/circle_2_async_coordination.rs:615-694 | every run ends; with the main task free to send as early as its program order allows, a maximal run ends with the pipeline in Shutdown and all stages Drained iff all its moves are orderly, and in an unhandled event iff one is not |
| `PipelineTheorems.RunToCompletion` | tests/circle_2_async_coordination.rs:379-647 | a scheduler taking any orderly moves reaches the intended end, by a maximal orderly run, for every capacity and data |
| `PipelineTrace.SelfSendsIntoEmptyQueue` | tests/circle_2_async_coordination.rs:256-306 | both signals the pipeline sends to itself go into an empty queue |
| `PipelineTrace.QueueBound` | tests/circle_2_async_coordination.rs:256-374 | the pipeline queue never holds more than N + 1 messages, BeginShutdown sent early included |
| `PipelineTrace.OrderlyRunFacts` | tests/circle_2_async_coordination.rs:657-694 | at every point of every orderly run: no unhandled event; the log is causally ordered (all ready before any start, shutdown before any drain, all drained last); each signal was sent at most once and exactly when all N stages had reported; the barrier opened at most once; Shutdown implies all Drained; no data is lost or reordered |
| `PipelineTrace.OrderlyRunsFinish` | tests/circle_2_async_coordination.rs:657-694 | at the end of a maximal one both signals were sent and the barrier opened exactly once, and every stage has processed exactly its data in order |
| `PipelineLog.LogExactly` | tests/circle_2_async_coordination.rs:238-694 | at every point of every orderly run each stage has written exactly the entries of what it has gone through, its data in order, and the pipeline exactly its own, one for each report; the main task has sent Initialize to all, then Start, then the data stage by stage, then BeginShutdown; no channel is over its capacity |
| `PipelineLog.FinalLog` | tests/circle_2_async_coordination.rs:657-694 | so at the end every stage has each of its five entries once, in order, with its data in between, and the pipeline has its own with every stage reported once before each signal: the causal claims are about entries that are there |
| `PipelineEarly.UnconsumedDataIsFatal` | tests/circle_2_async_coordination.rs:593-607 | a stage can be reached that may shut down on queued data, and then every way to the end panics |
| `PipelineEarly.EarlyDataIsFatal` | tests/circle_2_async_coordination.rs:624-640 | the same for data sent before the stage has been started |
| `PipelineEarly.EarlyStopIsFatal` | tests/circle_2_async_coordination.rs:642-647 | the same for BeginShutdown sent before all stages are ready |
| `PipelineEarly.LateStartIsFatal` | tests/circle_2_async_coordination.rs:613-622 | the same for Start sent after a stage can report, with any number of stages, any data and any capacity |
| `PipelineEarly.NoStagesPanic` | tests/circle_2_async_coordination.rs:256-282 | with no stages a run panics: nobody reports, and BeginShutdown comes too early |
| `Saturating.SubtractEachClamps` | tests/circle_4_mathematical_properties.rs:143-182 | saturating step by step is clamping the exact result once, for non-negative values |
| `Saturating.AddEachClamps` | tests/circle_4_mathematical_properties.rs:321-328 | the same for credits |
| `Saturating.ClampIsNearest` | tests/circle_4_mathematical_properties.rs:328-328 | saturation gives the 64-bit value nearest to the exact result |
| `Saturating.HalfTruncates` | tests/circle_4_mathematical_properties.rs:137-139 | halving drops at most one, toward zero |
| `Saturating.OrderIrrelevant` | tests/circle_4_mathematical_properties.rs:143-182 | any permutation of non-negative values leaves the same balance |
| `Saturating.RegroupingExactly` | tests/circle_4_mathematical_properties.rs:612-660 | batching keeps the balance iff every batch sum fits or the batches alone saturate it |
| `Saturating.PairRegroupsExactly` | tests/circle_4_mathematical_properties.rs:709-716 | for any two 64-bit values: exactly which saturations, of the first step or of the sum, break regrouping |
| `Saturating.CreditDebitCommute` | tests/circle_4_mathematical_properties.rs:709-716 | for any 64-bit amounts, a credit and a debit commute iff neither saturates first where the other pulls back |
| `Saturating.AverageOfAverage` | tests/circle_4_mathematical_properties.rs:137-139 | an average of an average in closed form, for all 64-bit values, rounding and saturation included |
| `Saturating.AveragesRegroupExactly` | tests/circle_4_mathematical_properties.rs:662-707 | for all 64-bit values, by which second sum saturates: above, the other must reach at least the value below the maximum; below, the other must saturate too; else the two sums must be equal, both next to zero, or an even one and the next away from zero |
| `Saturating.UnsaturatedAveragesRegroup` | tests/circle_4_mathematical_properties.rs:662-707 | where nothing saturates, only the distance of the ends and what rounding drops count: they never regroup when the ends are seven apart |
| `Saturating.SmallAveragesRegroupExactly` | tests/circle_4_mathematical_properties.rs:662-707 | for non-negative values whose sums fit, averages regroup iff the distance x - z, added to x + y + 2z modulo 4, stays within 0 to 3; so never when the ends are four apart |
| `Beast.FireIsHandler` | tests/circle_4_mathematical_properties.rs:275-488 | (a helper; what the handlers do is stated by `BeastLedger`) every call of the ledger ends as its handler ends, never in an unreachable branch, or, for a timeout check or an event without a row in that state, changes neither state nor context |
| `BeastLedger.LedgerExactly` | tests/circle_4_mathematical_properties.rs:281-449 | after any live stream without the mark, read off the events alone: the ledger has booked the first deliveries, in order, and nothing else. Per delivery the log has the handler's entry, then the action's; operations and emitted actions are the deliveries' own; the balance is moved by each, saturating; each call returns its own delivery's action, none, or the error of an event without a row; every repeated credit is counted; the known ids are those delivered |
| `Beast.DuplicatesMatterExactly` | tests/circle_4_mathematical_properties.rs:281-488 | for any stream, marks included: the live ledger that gets every delivery and the one that gets only first deliveries of each Credit agree on state, operation log and emitted actions at every point, iff they never meet a mark that only the duplicate counters decide |
| `Beast.DuplicatesDoNotMatter` | tests/circle_4_mathematical_properties.rs:281-488 | under that condition at-least-once is exactly-once at the end of the stream too |
| `Beast.UnmarkedStreamsNeverSplit` | tests/circle_4_mathematical_properties.rs:281-449 | streams of Credit, Debit, Append and Subtract always meet it |
| `Beast.MarkExactly` | tests/circle_4_mathematical_properties.rs:450-484 | (a helper, read off one handler) the mark enters Corrupted and emits one action iff balance, duplicate count or number of operations is 666, and otherwise changes neither state nor context and emits nothing |
| `BeastTrials.RedeliveriesAgree` | tests/circle_4_mathematical_properties.rs:492-540 | two streams with the same first deliveries, neither of which meets a mark that only its duplicate counter decides, leave a fresh ledger in the same state with the same effects |
| `BeastTrials.MarkReadsTheCounter` | tests/circle_4_mathematical_properties.rs:450-484 | with 665 duplicates counted, one redelivery decides between Corrupted and Counting |
| `BeastTrials.CorruptedForEver` | tests/circle_4_mathematical_properties.rs:450-484 | nothing changes or is emitted after Corrupted |
| `BeastTrials.RegroupedLedgersAgreeExactly` | tests/circle_4_mathematical_properties.rs:612-660 | two machines, one fed the debits and one a saturating sum per batch, agree under exactly that condition |
| `BeastTrials.ReorderedLedgersAgree` | tests/circle_4_mathematical_properties.rs:412-449 | machines fed permuted non-negative debits agree |
| `BeastTrials.ExchangedLedgersAgreeExactly` | tests/circle_4_mathematical_properties.rs:709-716 | a credit and a debit of any amounts in the two orders: the recorded operations always differ, the balances agree iff the amounts are exchangeable at that balance |
| `BeastTrials.AppendsAgreeExactly` | tests/circle_4_mathematical_properties.rs:542-610 | append streams agree only if they are the same texts in the same order |
| `BeastTrials.MarkAfterDebits` | tests/circle_4_mathematical_properties.rs:718-776 | when the mark is found after any stream of debits |
| `BeastTrials.RedeliverCredits` | tests/circle_4_mathematical_properties.rs:492-508 | the redelivery loops on the mutable machine: every credit counts once and every other delivery is counted as a duplicate |
| `Babel.Listen` | tests/circle_3_journal_subscription.rs:325-350 | the listener's loops count the entries and the clocks that fall behind the previous entry's |
| `BabelOrder.MoveKeeps` | tests/circle_3_journal_subscription.rs:184-310 | one inductive invariant over speakers, journal and every subscriber queue, kept by every move |
| `BabelTheorems.NothingOutOfOrder` | tests/circle_3_journal_subscription.rs:336-348 | entries whose clocks rise per speaker never raise the out-of-order count |
| `BabelTheorems.DisorderCounts` | tests/circle_3_journal_subscription.rs:336-348 | the listener's out-of-order count is the number of places where a clock goes back from one entry to the next |
| `BabelTheorems.SilencedJournal` | tests/circle_3_journal_subscription.rs:292-310 | when all speakers are silent the journal holds exactly 81 entries of each, clocks 1 to 81 |
| `BabelTheorems.SpeakersNeverWait` | tests/circle_3_journal_subscription.rs:221-231 | no full or closed subscriber ever blocks a speaker |
| `BabelTheorems.EveryRunIsOrdered` | tests/circle_3_journal_subscription.rs:184-395 | in every interleaving: no unhandled event, gapless clocks per speaker in the journal, strictly rising clocks per speaker at every subscriber despite drops, out-of-order count zero, 81 entries per speaker at the end |
| `BabelDrops.NothingUncounted` | tests/circle_3_journal_subscription.rs:221-231 | in every run what a subscriber has received and queued is a subsequence of what it was offered, as many as are left out were lost, and the dropped counter is exactly what was lost or mumbled away |
| `BabelRouting.OfferedExactly` | tests/circle_3_journal_subscription.rs:221-231 | whenever a subscriber registers, at every point after that it has been offered, of each speaker, exactly the clocks announced since whose message its filter selects, in order: the filter is the star, the speaker's language, or occurs in the message of that clock |
| `BabelRouting.RoutedExactly` | tests/circle_3_journal_subscription.rs:221-231 | once all speakers are silent, what a subscriber was offered are exactly the journal entries announced after it registered that its filter selects, no clock twice |
| `BabelRouting.LanguageSubscriber` | tests/circle_3_journal_subscription.rs:221-231 | who registers first under a speaker's language has then been offered every journal entry of that speaker |
| `BabelRouting.FirstSubscriberMissesNothing` | tests/circle_3_journal_subscription.rs:378-395 | if the subscriber to everything registers first, then once all speakers are silent it was offered every journal entry, has received or queued a subsequence of them, and the number left out is counted as dropped |
| `BabelCounters.CountersExactly` | tests/circle_3_journal_subscription.rs:221-285 | in every state of every run: what a subscriber has lost are exactly the sends of messages it hears that met a full or closed queue; what was mumbled is what confused speakers chose to lose; chaos has begun exactly if somebody has left Speaking; while a speaker is notifying, every registered subscriber that hears the message is still to be sent the entry or has been offered it; a listener that gave up has an empty queue |
| `BabelCounters.GoneForEver` | tests/circle_3_journal_subscription.rs:325-350 | what a listener that gave up has received is final |
| `BabelDrops.SpeakerMovesBounded` | tests/circle_3_journal_subscription.rs:292-310 | with finitely many subscribers speakers make finitely many moves, whatever the listeners do |
| `BabelDrops.EveryRunCanEnd` | tests/circle_3_journal_subscription.rs:292-310 | from wherever a run is, the speakers alone can go on until all are silent |
| `Purgatory.SendAll` | tests/circle_5_timeout_cancellation.rs:211-248 | the nested send loops over the channels, in place, with the early return at the first broken one and with every await as a point where the host may stop them for good |
| `Purgatory.FanOutExactly` | tests/circle_5_timeout_cancellation.rs:216-235 | the fan-out delivers the whole buffer to every channel, or stops, broken or dropped, with each channel holding a prefix, those before the one it was at exactly one message more; undropped it succeeds iff every channel takes the whole buffer |
| `PurgatoryActions.StartReturns` | tests/circle_5_timeout_cancellation.rs:185-208 | a start that completes buffers its messages, arms the 10 ms timer and returns one BufferData per message in order; a dropped one changes no state |
| `PurgatoryActions.BatchReturns` | tests/circle_5_timeout_cancellation.rs:209-249 | a batch ends in one of three ways: one ProcessData per message in order with the 50 ms timer, if every channel takes it; the poison, if one does not; or dropped, with nothing |
| `PurgatoryActions.ExpiryReturns` | tests/circle_5_timeout_cancellation.rs:155-183 | a timeout that meets undelivered messages goes to DrinkingKoolAid with their count and returns the poison; any other goes to Dead and returns nothing |
| `PurgatoryActions.ActionsExactly` | tests/circle_5_timeout_cancellation.rs:155-261 | on every run, whatever is dropped: the actions returned by all successful calls are one BufferData per accepted message in order, then one ProcessData per message of the last buffer, or the poison; exactly one call has returned the poison iff the machine is in DrinkingKoolAid; the timeout counter counts the timeouts taken in Materializing |
| `PurgatoryLosses.NoLossExactly` | tests/circle_5_timeout_cancellation.rs:155-261 | on every run of the engine whose host drops no future, each accepted message is buffered, has reached every channel in order, or the poison has been returned exactly once, iff no StartMaterialization overwrote a non-empty buffer or the kool-aid is drunk; the poison has been returned once iff the machine drinks it; without overwriting, the calls have returned exactly one BufferData per accepted message and then one ProcessData per message, or the poison |
| `PurgatoryLosses.NoLossWhenDropped` | tests/circle_5_timeout_cancellation.rs:155-261 | with the host free to drop any call at any await: if no completed start overwrites a non-empty buffer, every accepted message is buffered, or reaches every channel in order after repeated prefixes, or the poison has been returned exactly once; in Materializing and Processing iff; and the calls have returned the actions that say so |
| `PurgatoryLosses.OverwrittenYetDelivered` | tests/circle_5_timeout_cancellation.rs:155-248 | in Dead it is not exact: a run whose dropped batches have already delivered, piece by piece, the messages that a later start overwrites |
| `PurgatoryLosses.BatchSucceedsExactly` | tests/circle_5_timeout_cancellation.rs:466-499 | a batch that the host lets finish ends in Processing iff every channel takes it and in DrinkingKoolAid otherwise |
| `RaceTheorems.MoveKeeps` | tests/circle_1_race_condition.rs:154-276 | one inductive invariant over machines, counter, metrics and barrier, kept by every move |
| `RaceTheorems.Conservation` | tests/circle_1_race_condition.rs:167-217 | the shared counter is what was added less what was taken, and short of the machines' own counts by exactly the decrements taken at zero |
| `RaceTheorems.DecrementExactly` | tests/circle_1_race_condition.rs:189-217 | (a helper, read off one handler) a decrement never underflows: at zero it changes no count, otherwise it takes one |
| `RaceTheorems.NoWrap` | tests/circle_1_race_condition.rs:174-174 | the shared addition never wraps |
| `RaceTheorems.EveryRace` | tests/circle_1_race_condition.rs:244-301 | every interleaving of any number of machines conserves the count, keeps each metric equal to its machine's increments, handles every event, lets no machine be Done before all have reached the barrier, ends, and ends with all machines Done |
| `RaceTallies.RoundsExactly` | tests/circle_1_race_condition.rs:244-276 | against the moves of the run: a machine has added as often as it began an increment and taken at every decrement but those that found the counter at zero; at the end each has made 50 to 150 increments, decrements for the rest of its 250 rounds, and its metric is its increments |

## Assumptions

- Expressions, types, durations and handlers are opaque tokens to the parser and the generator; `Codegen.Meaning`
  says what they denote, and `Source.Scope` which variants the values have, the paths resolve to, and which types
  derive their names. Of the compiler's checks of the generated code only these are modelled.
- Variant identifiers are distinct and never `_`, as Rust demands.
- `Clocked`: within one call the clock does not run backwards.
- Pipeline: there is at least one stage and queues hold at least one message. A blocking send inside a handler is
  enabled only when there is room, so the handler and its send are one step. The main task sends in its program
  order and is otherwise unconstrained; `Pipeline.Orderly` is a hypothesis of the theorems, not of the moves.
- Journal: languages are distinct and every script has more than 80 rounds (the source has 100), so the overflow
  is reached; subscribers, filters and scripts are otherwise arbitrary.
- Race: the machines' additions, 150 each, fit an unsigned 64-bit word.

## Left out

- The Tokio runtime, boxed futures, locks and atomics as such: a lock-protected or atomic section is one step.
- Machine.StateMachine.constructor: does not model overflow of adding a duration to an instant, which panics in the source.
- Builder.WhenBuilder.On: the source moves the builder from call to call, here the objects refer to one mutable builder; the moves themselves (no use after move) are not captured.
- Pipeline.Do: the event loops of circle 2 are a transition system over values, not methods over shared objects, because every interleaving is quantified over; aliasing of the shared sets and log is not captured.
- Babel.Do: circle 3 likewise; the message counter, which nothing reads, is left out, and random choices belong to the scheduler.
- Race.Do: circle 1 likewise; the bookkeeping of additions, takings and borrowings is added to each machine's record. The test's bound of 100 on the residual rests on chance and is not proved.
- BabelRouting.FirstSubscriberMissesNothing: the test's 80% threshold counts all entries even if the subscriber registered late, which rests on scheduling; what a late one is offered is `BabelRouting.RoutedExactly`.
- Pipeline.Initial: circle 2's "all Initializing before any Materialized" rests on sleeps and is not proved.
- Beast.OnCredit: operations and log entries are kept as data where the source formats them into text, so two operations that format alike stay distinct; the NaiveAverage machine is represented by its arithmetic alone.
- BeastTrials.LoweringRun: the machine of the regrouping trial, which logs and emits nothing, is represented by the main ledger, whose balance it shares.
- Purgatory.OnProcessBatch: a channel breaks after a number of messages fixed beforehand, and the host drops a call after a number of awaits fixed beforehand, which covers every moment either may choose. Delays only move clock readings.
- PurgatoryLosses.NoLossWhenDropped: with dropped futures the converse is stated for Materializing and Processing only; in Dead it is false, as `PurgatoryLosses.OverwrittenYetDelivered` shows, and in DrinkingKoolAid nothing is promised but repeated prefixes.
- The machines of circle 5's second and third trials: the same handlers with fewer effects.
- `tests/circle_6_memory_corruption.rs`, the `test_*` API, compile-fail and smoke tests, the example, `src/transitions.rs`, the helper builders of `src/types.rs` and the display text of `src/error.rs`: no further behaviour.
