# Verified models of evidrun

Dafny models of the parts of evidrun whose correctness is not visible in any one function,
with proofs of what those parts are relied on for. `dafny verify dfyconfig.toml` checks everything.

| file | models |
|---|---|
| `Reachability.dfy`, `Tarjan.dfy`, `DependencyReport.dfy` | the dependency report: iterative Tarjan on explicit stacks, proved to list the mutual-reachability classes, and the edge states built on it |
| `Contracts.dfy`, `StudyCompiler.dfy`, `Sealing.dfy`, `Lineage.dfy` | compiling a Study into RunSpecs, sealing its revision closure, and the two lineage validators |
| `LabTurn.dfy` | the Lab Agent turn against an arbitrary provider, clock and tools |
| `Registry.dfy` | the in-memory contract registry over every run of its operations |
| `SchemaDiff.dfy`, `SchemaReport.dfy`, `SchemaChanges.dfy`, `SchemaMeaning.dfy`, `SchemaGaps.dfy`, `JsonPointer.dfy` | the JSON Schema compatibility diff: the comparison as a function, as the recursion that appends to one list, which changes it reports, what its verdict means for instances, where it means less, and its pointers |
| `ExecutorLifecycle.dfy`, `ExecutorStarts.dfy`, `ExecutorQuiet.dfy`, `ShutdownCoordinator.dfy` | the two desktop supervision protocols as state machines and as objects, what becomes of a start that waits for a stop, and the supervisor at rest |
| `Reexports.dfy`, `EventStream.dfy`, `PolicyRatchet.dfy`, `PolicyDemands.dfy` | re-export chasing, the event-stream reader, and the policy ratchet: over histories, and what one change owes |
| `Orders.dfy`, `Options.dfy` | sorting of sets, and optional values |

Files, SQL, the provider, clocks, randomness, child processes and the network are arbitrary
inputs of the models: a proof holds for every behaviour they could show.

## Results that differ from what the code says about itself

- `suspicious_edges` describes a cyclic edge as one with both ends in one cycle. The code tests
  membership in the union of all cycles, so an edge between two cycles is flagged as well. The
  model follows the code; `CycleTestAgreesWithDescription` says exactly when the two agree and
  `BridgeIsFlagged` is an edge on which they do not.
- The schema diff calls its rules conservative. Three kinds of change escape it: a value that
  Python compares equal across types (`1` and `True`), an optional property gained by an open
  object, and a changed definition that is reached by reference. `ConstKeepsExactlyWhen`,
  `GainKeepsExactlyWhenClosed` and `RefKeepsExactlyWhen` say when each is harmless; `ConstClash`,
  `GainClash`, `OpenRefClash` and `RefClash` are documents that lose an instance.
- `items: null` is reported as a change even when a document is compared with itself (`SelfCompare`, `NullItemsDiffer`).
- A re-export chase through a star entry can stop early although the chain is not circular
  (`StarStopsEarly`); `ResolvedExactlyWhen` is the exact condition.
- The executor can be reported ready with no child: when a valid line of an exited process is read
  while no ready child is owned (`LateLine`), and when a child that answered after its deadline exits
  (`LateAnswer`). `HonestRuns` says that a run stays honest exactly when it has no such step.
- `start` waits for a stop in flight so that it can spawn when the stop is over. A start that waits on
  the stop of a start whose handshake ran out of time is not served: it finds that start still pending
  and shares its rejection (`SharedStartIsLost`). `StartAfterStop` says that this is the only way to be
  lost, and `UsableAtRest` that the supervisor can start again afterwards.
- A chunk boundary inside a CR LF pair can change the event stream (`SplitPairLosesBlock`).
  `BlocksKeptExactlyWhen` is the exact condition: the blocks are those of the whole text exactly when
  every such boundary falls after the last blank line.
- The placeholder list of the policy ratchet has no effect next to the minimum length
  (`PlaceholdersTooShort`). One record can answer two demands of one change
  (`OneRecordPaysBoth`); `SharedExactlyWhen` says when. Dropping a record lets it be used again
  (`DroppedRecordPaysAgain`); `DemandsArePaid` counts what was dropped.

## Model

| member | source | states |
|---|---|---|
| `Tarjan.Cycles` | scripts/dependency_report/graph_metrics.py:94-144 | on every finite graph the search ends and returns exactly the mutual-reachability classes of two or more nodes, each once, each sorted, in sorted order |
| `Tarjan.CyclesUnique` | scripts/dependency_report/graph_metrics.py:94-144 | two results with that property are equal, so the report does not depend on iteration order |
| `Tarjan.VisitKeeps` | scripts/dependency_report/graph_metrics.py:111-126 | indexing a node keeps the search invariant |
| `Tarjan.ReadKeeps` | scripts/dependency_report/graph_metrics.py:117-129 | reading the next successor keeps it |
| `Tarjan.LowerKeeps` | scripts/dependency_report/graph_metrics.py:127-133 | lowering a low link to the index of a reachable stacked node keeps it |
| `Tarjan.PopKeeps` | scripts/dependency_report/graph_metrics.py:130-133 | leaving a node whose component stays open keeps it |
| `Tarjan.CloseKeeps` | scripts/dependency_report/graph_metrics.py:134-143 | closing a component keeps it |
| `Tarjan.ClosedIsClass` | scripts/dependency_report/graph_metrics.py:134-143 | the nodes cut off the stack when low link equals index are one whole mutual-reachability class |
| `Tarjan.ReadSuccessor` | scripts/dependency_report/graph_metrics.py:117-129 | one round of the inner loop keeps the invariant and makes progress in the lexicographic measure |
| `Tarjan.PopComponent` | scripts/dependency_report/graph_metrics.py:135-141 | the pop loop removes exactly the part of the stack from the node on |
| `Tarjan.LeaveNode` | scripts/dependency_report/graph_metrics.py:130-143 | the end of a frame hands the low link up and reports a component exactly when it closes one of two or more nodes |
| `DependencyReport.Adjacency` | scripts/dependency_report/graph_metrics.py:67-77 | the successor sets hold an edge exactly if it is in the input and not a self-loop |
| `DependencyReport.InCycleMeans` | scripts/dependency_report/report.py:83-111 | a node is in the union of the reported cycles exactly if a closed walk through another node passes it |
| `DependencyReport.BuildReport` | scripts/dependency_report/report.py:134-174 | the report carries the cycles of its internal edges, the crossings of its slices, and the cycles of the graph that joins two slices exactly if an import crosses between them |
| `DependencyReport.SliceCyclesMean` | scripts/dependency_report/report.py:144-148 | a slice is in a reported slice cycle exactly if imports lead from it into another slice and back |
| `DependencyReport.SuspiciousMeans` | scripts/dependency_report/report.py:83-111 | an internal edge is suspicious exactly if it is not forbidden and leads to a slice later in the documented flow or joins two nodes that lie on cycles |
| `DependencyReport.CrossesExactly` | scripts/dependency_report/slices.py:47-112 | an edge runs against the direction exactly if its two slices stand in the flow shared, contracts, evidence, runs, entrypoints and the imported one stands later |
| `DependencyReport.CyclicEdgeNeverAllowed` | scripts/dependency_report/report.py:65-117 | an edge between distinct modules that lies on a directed cycle is forbidden or suspicious, never allowed |
| `DependencyReport.StatesPartition` | scripts/dependency_report/report.py:119-130 | the three counts sum to the number of internal edges |
| `DependencyReport.StateSets` | scripts/dependency_report/report.py:65-117 | allowed, forbidden and suspicious edges are disjoint and together the internal edges |
| `DependencyReport.CycleTestAgreesWithDescription` | scripts/dependency_report/report.py:83-107 | the code's cycle test says what the description says exactly when the edge does not run between two different cycles |
| `DependencyReport.BridgeIsFlagged` | scripts/dependency_report/report.py:83-107 | an edge between two cycles that is flagged although no cycle holds both ends |
| `StudyCompiler.CompileStudy` | src/evidrun/contracts/compiler.py:123-280 | the triple loop returns the specs of the scenario × variant × repetition matrix in order, each with the fields its cell demands, or the first refusal |
| `StudyCompiler.RunMatrix` | src/evidrun/contracts/compiler.py:123-135 | the loop over scenarios is the map over the whole matrix |
| `StudyCompiler.CellAt` | src/evidrun/contracts/compiler.py:123-135 | the position of a cell in the compiled sequence |
| `StudyCompiler.ChangedEverywhere` | src/evidrun/contracts/compiler.py:85-111 | two variants differ in the same slots at every scenario and repetition, provided neither or both override the scenario |
| `StudyCompiler.ComparisonHolds` | src/evidrun/contracts/compiler.py:251-280 | a comparison accepted on the first scenario has the declared changed slots there |
| `StudyCompiler.ComparisonLifts` | src/evidrun/contracts/compiler.py:148-280 | for a Study that compiles, the specs of the two variants of a comparison agree, at every scenario and repetition, on every field the evidence mode does not allow to differ, and under controlled evidence differ in the declared one |
| `StudyCompiler.SpecsDiffer` | src/evidrun/contracts/compiler.py:148-240 | the specs a valid matrix compiles to are pairwise distinct |
| `StudyCompiler.CompiledCell` | src/evidrun/contracts/compiler.py:123-249 | each compiled spec is the one its cell compiles to, field by field |
| `StudyCompiler.CellCompilesExactly` | src/evidrun/contracts/compiler.py:137-249 | a cell compiles to a spec exactly if every contract slot holds what the resolver answers for the override or the default, every plain field, the seed and the limitations are those of the override or the Study, and triggers, extensions and the spec itself are admissible |
| `StudyCompiler.CellCompilesExactlyWhen` | src/evidrun/contracts/compiler.py:137-249 | a cell compiles at all exactly if its references resolve to their types and the spec they describe is admissible |
| `StudyCompiler.CompilesExactly` | src/evidrun/contracts/compiler.py:123-280 | a Study compiles to a sequence of specs exactly if it resolves to a Study, every declared comparison is met, and the specs are those of its cells in order |
| `StudyCompiler.JudgedByFields` | src/evidrun/contracts/compiler.py:85-111 | the verdict on a comparison depends on the fields of the two specs as the evidence mode demands; a comparison named after an extension is judged on the extensions |
| `Sealing.CollectAll` | src/evidrun/contracts/execution_trust.py:256-319 | the collection loop keeps one reference per identity and refuses exactly when two references with one identity differ |
| `Sealing.SealStudy` | src/evidrun/contracts/execution_trust.py:230-254 | the sealer's loops compute the sealed form or its first refusal |
| `Sealing.ClosureCoversCell` | src/evidrun/contracts/execution_trust.py:256-319 | every reference that materializing any cell can choose is in the collected closure |
| `Sealing.SameCompile` | src/evidrun/contracts/compiler.py:123-280 | resolvers that agree on the closure compile to the same specs or the same refusal |
| `Sealing.SealedCompilesSame` | src/evidrun/contracts/execution_trust.py:192-254 | compiling through the sealed resolver equals compiling through the original one, refusals included |
| `Sealing.ResealIsFixedPoint` | src/evidrun/contracts/execution_trust.py:230-254 | sealing through the sealed resolver gives the same sealed form |
| `Sealing.SealsExactlyWhen` | src/evidrun/contracts/execution_trust.py:230-319 | a Study seals exactly when the resolver gives it back, each field that holds a reference holds one of its type, references with one identity are equal, and every reference of a field resolves to itself in the same Project |
| `Sealing.SealedContents` | src/evidrun/contracts/execution_trust.py:230-319 | the sealed set holds exactly the references of the Study and its fields, in canonical order, and beside each the revision the resolver gives for it |
| `Lineage.SealedSetCompiles` | src/evidrun/contracts/execution_trust.py:322-340 | the compiled revision set of a sealed Study is the compiled Study |
| `Lineage.TrustRecordPasses` | src/evidrun/contracts/execution_trust.py:343-362 | every trust record assembled from a sealed compile passes its lineage validator |
| `Lineage.ReviewTargetPasses` | src/evidrun/runs/preparation.py:103-154 | the review target assembled for a full matrix exists and passes its lineage validator |
| `Lineage.TrustPassesExactlyWhen` | src/evidrun/contracts/execution_trust.py:343-362 | the trust validator accepts exactly the records whose set is valid and compiles to a matrix that holds the spec, under the spec digest the record states |
| `Lineage.SetCompilesExactlyWhen` | src/evidrun/contracts/execution_trust.py:322-340 | a revision set compiles to these specs exactly when the revisions are those of its references, its Study is among them and of its Project, seals to this very set and compiles to them |
| `Lineage.ReviewPassesExactlyWhen` | src/evidrun/contracts/execution_trust.py:365-407 | a review target passes exactly when all its records bind one valid revision set, the one whose digest the target states, and the target, the stored specs and the records each cover exactly the specs that set compiles to |
| `LabTurn.RunTurn` | src/evidrun/lab/loop.py:60-148 | with positive limits and any environment the turn ends; the calls served are those the provider sent; every call on record was executed exactly if no gate objected, and its trace entry and answer are the result of the tool or the first objection; a final text is the last reply of the provider, an error that is reported is the one the last call ended with; at every request the transcript is the history and call/output pairs; the limits on requests, calls and executions hold; refusals are distinct unless the turn ends as a repetition |
| `LabTurn.RoundTrip` | src/evidrun/lab/loop.py:86-148 | one round trip keeps the invariant or ends the turn with a terminal that the log explains |
| `LabTurn.Boundary` | src/evidrun/lab/loop.py:196-215 | the checks before a request leave the log alone and end the turn exactly if it is cancelled, out of time or out of round trips, and in that order say why |
| `LabTurn.Invoke` | src/evidrun/lab/loop.py:86-105 | a request is logged whether or not it fails; only a response counts as a round trip |
| `LabTurn.LabTurnState.Serve` | src/evidrun/lab/serving.py:83-182 | the calls of a reply are served in order until the turn ends |
| `LabTurn.LabTurnState.ServeCall` | src/evidrun/lab/serving.py:99-182 | one call passes the gates in order: it is counted exactly if its tool is offered, executed exactly if no gate objects, and what is recorded, announced and answered is the result of the tool or the first objection; the turn ends exactly if the call exceeds a budget, crashes its tool, is followed by a cancellation or is refused once too often, and the terminal names that reason |
| `LabTurn.AccountedMore` | src/evidrun/lab/serving.py:99-182 | serving one more call keeps every call on record accounted for by the gates and the tool |
| `LabTurn.LabTurnState.PassBudget` | src/evidrun/lab/serving.py:330-371 | every call that reaches it is counted, and it is denied, ending the turn, exactly when the calls or the wall time are exceeded, a call too many being named first |
| `LabTurn.LabTurnState.ExecuteTool` | src/evidrun/lab/serving.py:184-298 | an executed call is completed, refused or crashes, and the log says which |
| `LabTurn.LabTurnState.RefuseAndMaybeTerminate` | src/evidrun/lab/serving.py:300-328 | a refusal ends the turn exactly when it repeats an earlier one or exhausts the refusals, and the terminal carries its error |
| `LabTurn.LabTurnState.Refuse` | src/evidrun/lab/serving.py:373-419 | a refusal answers the call, records its key and says whether the key is new |
| `LabTurn.RefusalKeeps` | src/evidrun/lab/serving.py:373-419 | a new refusal keeps the invariant |
| `LabTurn.CompletionKeeps` | src/evidrun/lab/serving.py:216-298 | a completed call keeps the invariant |
| `LabTurn.DenialEnds` | src/evidrun/lab/serving.py:330-371 | a denied call ends the turn with the exhausted budget as its reason |
| `Registry.InMemoryContractRegistry.Add` | src/evidrun/contracts/registry.py:61-76 | the new store, and the refusal of a revision that changes digest or semantic document, or is not the next one |
| `Registry.InMemoryContractRegistry.Decide` | src/evidrun/contracts/registry.py:78-91 | the new store, and the refusal of an unauthorised, unknown or conflicting decision |
| `Registry.InMemoryContractRegistry.AddAccepted` | src/evidrun/contracts/registry.py:93-97 | adding and then deciding |
| `Registry.RunKeeps` | src/evidrun/contracts/registry.py:61-156 | every run keeps revisions gapless and decisions governed |
| `Registry.NumberedFromOne` | src/evidrun/contracts/registry.py:132-145 | in every run the revisions of each type and logical id are exactly 1..n |
| `Registry.AddsTheNext` | src/evidrun/contracts/registry.py:61-145 | in every run a new identity is stored, and nothing else changes, exactly if it is numbered one more than there are revisions of its contract |
| `Registry.DecidesExactlyWhen` | src/evidrun/contracts/registry.py:78-156 | in every run a decision is recorded, and nothing else changes, exactly if it is permitted, names a stored revision by its exact reference, and is the first, the same again, or supersedes an accepted one |
| `Registry.SupersededWasAccepted` | src/evidrun/contracts/registry.py:78-91 | in every run a superseded revision was accepted at an earlier moment |
| `Registry.EveryDecisionIsHuman` | src/evidrun/contracts/registry.py:119-130 | with fixtures disallowed, every stored decision passed the human verifier |
| `Registry.RunExtends` | src/evidrun/contracts/registry.py:61-97 | a longer run keeps every stored revision unchanged, and a verdict only moves from accepted to superseded |
| `Registry.AddedAgain` | src/evidrun/contracts/registry.py:64-74 | in every run, adding a stored identity again changes nothing, and is accepted exactly if it has the content that was stored first |
| `Registry.ResolvesInOneStretch` | src/evidrun/contracts/registry.py:99-111 | the moments at which a reference resolves are one contiguous stretch with one result |
| `Registry.ResolvesExactly` | src/evidrun/contracts/registry.py:99-111 | in every run a reference resolves exactly if an accepted decision names that very reference, and then to the revision it names |
| `SchemaDiff.SchemaQuiet` | scripts/change_contract/schema_diff.py:104-433 | for any two comparable documents the report is empty exactly if they agree recursively on every compared keyword, required names included, and has no breaking change exactly if the candidate only adds |
| `SchemaChanges.ReportExactly` | scripts/change_contract/schema_diff.py:89-433 | a change of a kind and compatibility is reported at a place exactly if the two documents differ there in that way, and nothing is reported outside the compared place |
| `SchemaChanges.KeywordChangeBreaks` | scripts/change_contract/schema_diff.py:337-407 | a change of any of the twelve limits or of any keyword compared whole is reported as breaking at that keyword |
| `SchemaChanges.ComparesExactlyWhen` | scripts/change_contract/schema_diff.py:104-489 | the comparison fails exactly if a keyword it reads, here or where both documents are compared further, does not have the form it needs |
| `SchemaDiff.PropertiesQuiet` | scripts/change_contract/schema_diff.py:185-256 | the separate reports about lost, gained, required and common properties add up to that statement for one object |
| `SchemaDiff.DefinitionsQuiet` | scripts/change_contract/schema_diff.py:259-296 | the same for named definitions |
| `SchemaDiff.AdditionalQuiet` | scripts/change_contract/schema_diff.py:299-334 | the same for `additionalProperties` |
| `SchemaDiff.ItemsQuiet` | scripts/change_contract/schema_diff.py:410-433 | the same for `items` |
| `SchemaDiff.ConstraintsTell` | scripts/change_contract/schema_diff.py:337-386 | every change of an ordered constraint is breaking, and there is none exactly if all are equal |
| `SchemaDiff.ExactTells` | scripts/change_contract/schema_diff.py:389-407 | the same for the exact keywords |
| `SchemaDiff.TypeTells` | scripts/change_contract/schema_diff.py:121-139 | the same for `type` |
| `SchemaDiff.EnumTells` | scripts/change_contract/schema_diff.py:142-182 | the same for `enum` |
| `SchemaDiff.SelfCompare` | scripts/change_contract/schema_diff.py:104-118 | a document compared with itself gives an empty report exactly if it is well formed |
| `SchemaReport.CompareInto` | scripts/change_contract/schema_diff.py:104-118 | the recursion that appends to a shared list appends exactly the report, and fails exactly when the comparison does |
| `SchemaReport.CompareFragment` | scripts/change_contract/schema_diff.py:89-101 | the entry point returns that report for two objects and an error otherwise |
| `SchemaReport.CompareConstraintsInto` | scripts/change_contract/schema_diff.py:337-386 | the loop over the ordered constraints, with its error |
| `SchemaReport.CompareExactInto` | scripts/change_contract/schema_diff.py:389-407 | the loop over the exact keywords |
| `SchemaReport.CompareCommonInto` | scripts/change_contract/schema_diff.py:218-238 | the loop over the common properties |
| `SchemaReport.CompareNamedInto` | scripts/change_contract/schema_diff.py:295-296 | the loop over the common definitions |
| `SchemaMeaning.NonBreakingIsSound` | scripts/change_contract/schema_diff.py:60-66 | with the stated guards, nothing said by reference among them, a report that is not breaking keeps every instance the baseline accepts: types, enums, limits, required names, properties, items and additional properties are read as JSON Schema reads them, and the other keywords by any meaning that differs between the documents at most in what references mean |
| `SchemaMeaning.VocabularyCompared` | scripts/change_contract/schema_diff.py:337-407 | the ordered constraints are the twelve numeric limits of the validation vocabulary, and the exact keywords are the other keywords that can reject an instance and that no comparator of their own handles, `$dynamicRef` excepted |
| `SchemaMeaning.EmptyReportKeepsMeaning` | scripts/change_contract/schema_diff.py:60-66 | with the guards, an empty report means both documents accept the same instances, under the same meanings |
| `SchemaMeaning.PyEqMeans` | scripts/change_contract/schema_diff.py:389-398 | values Python calls equal are one JSON value exactly when no boolean faces a number |
| `SchemaGaps.ConstVerdict` | scripts/change_contract/schema_diff.py:389-407 | a change of `const` is breaking exactly when Python calls the values different |
| `SchemaGaps.ConstKeepsExactlyWhen` | scripts/change_contract/schema_diff.py:389-407 | an unreported change of `const` keeps the instances exactly when no boolean took the place of a number |
| `SchemaGaps.ConstClash` | scripts/change_contract/schema_diff.py:389-407 | `const` from 1 to `true` is not reported and loses the instance 1 |
| `SchemaGaps.GainVerdict` | scripts/change_contract/schema_diff.py:204-217 | gaining optional properties is never breaking |
| `SchemaGaps.GainKeepsExactlyWhenClosed` | scripts/change_contract/schema_diff.py:204-217 | gaining an optional typed property keeps the instances exactly when the baseline was closed |
| `SchemaGaps.GainClash` | scripts/change_contract/schema_diff.py:204-217 | an open object that gains a string property `p` is not reported as broken and loses an instance |
| `SchemaGaps.NullItemsDiffer` | scripts/change_contract/schema_diff.py:117-118 | `items: null` is reported against itself |
| `SchemaGaps.RefVerdict` | scripts/change_contract/schema_diff.py:259-296 | a document that refers to one definition, plainly or under `not`, is reported as broken exactly when the definition is |
| `SchemaGaps.RefKeepsExactlyWhen` | scripts/change_contract/schema_diff.py:259-296 | such a document keeps its instances exactly when the definition keeps its own, or under `not` when the definition gains none |
| `SchemaGaps.NegatedGainLoses` | scripts/change_contract/schema_diff.py:204-217 | a closed definition that gains a property, harmless by itself, loses an instance of every document that refers to it under `not` |
| `SchemaGaps.OpenRefClash` | scripts/change_contract/schema_diff.py:389-407 | a reference to an open definition that gains a property is not reported as broken and loses an instance |
| `SchemaGaps.RefClash` | scripts/change_contract/schema_diff.py:389-407 | the same for `not` of a closed definition |
| `JsonPointer.ParseRender` | scripts/change_contract/schema_diff.py:487-489 | splitting and unescaping a rendered pointer gives the key path back (sections 3 and 4 of RFC 6901) |
| `JsonPointer.RenderInjective` | scripts/change_contract/schema_diff.py:487-489 | distinct key paths have distinct pointers |
| `JsonPointer.JoinExtends` | scripts/change_contract/schema_diff.py:487-489 | joining tokens onto a path's pointer gives the pointer of the longer path |
| `JsonPointer.UnescapeEscape` | scripts/change_contract/schema_diff.py:487-489 | escaping a token is undone by unescaping it |
| `ExecutorLifecycle.OneExecutor` | apps/desktop/src/main/executor-lifecycle.ts:53-241 | in every interleaving of calls, child events, timers and continuations at most one spawned process is running |
| `ExecutorLifecycle.NoSpawnBeside` | apps/desktop/src/main/executor-lifecycle.ts:53-65 | as long as a process has not exited, no continuation of the run spawns another |
| `ExecutorLifecycle.FailedStopKeepsChild` | apps/desktop/src/main/executor-lifecycle.ts:128-141 | a stop that fails with a live child leaves it owned, and a start then spawns nothing |
| `ExecutorLifecycle.QuietMeansOwned` | apps/desktop/src/main/executor-lifecycle.ts:90-142 | with no continuation pending, a running process is the owned child |
| `ExecutorLifecycle.StepKeeps` | apps/desktop/src/main/executor-lifecycle.ts:53-241 | every step keeps the ownership invariant |
| `ExecutorLifecycle.StartCallKeeps` | apps/desktop/src/main/executor-lifecycle.ts:53-65 | `start`, waiting for a pending stop first, keeps it |
| `ExecutorLifecycle.StopCallKeeps` | apps/desktop/src/main/executor-lifecycle.ts:80-126 | `stop` and the synchronous part of `terminate` keep it, also when `kill` emits an error |
| `ExecutorLifecycle.RunTaskKeeps` | apps/desktop/src/main/executor-lifecycle.ts:53-142 | every continuation keeps it |
| `ExecutorLifecycle.ExitKeeps` | apps/desktop/src/main/executor-lifecycle.ts:232-240 | an exit keeps it |
| `ExecutorLifecycle.SpawnErrorKeeps` | apps/desktop/src/main/executor-lifecycle.ts:219-231 | a spawn failure keeps it |
| `ExecutorLifecycle.LineKeeps` | apps/desktop/src/main/executor-lifecycle.ts:188-209 | a handshake line, valid or not, keeps it |
| `ExecutorLifecycle.TimeoutKeeps` | apps/desktop/src/main/executor-lifecycle.ts:172-185 | a handshake timeout keeps it |
| `ExecutorLifecycle.SigkillKeeps` | apps/desktop/src/main/executor-lifecycle.ts:113-122 | the SIGKILL timer keeps it |
| `ExecutorLifecycle.StrayErrorOrphans` | apps/desktop/src/main/executor-lifecycle.ts:219-231 | an error event on a live child outside a stop would let the next start spawn beside it |
| `ExecutorLifecycle.HonestExactlyWhen` | apps/desktop/src/main/executor-lifecycle.ts:188-240 | a step makes the reported `ready` belong to no owned ready child exactly if it reads a valid line of an exited process while the owned child, if any, is not ready, or is the exit of a timed-out process while `ready` is reported |
| `ExecutorLifecycle.HonestRuns` | apps/desktop/src/main/executor-lifecycle.ts:188-240 | the reported status is honest all along a run exactly when no step of it misreports |
| `ExecutorLifecycle.LateLine` | apps/desktop/src/main/executor-lifecycle.ts:188-240 | a run that ends ready with no child: the line is read after the exit |
| `ExecutorLifecycle.LateAnswer` | apps/desktop/src/main/executor-lifecycle.ts:181-240 | a run that ends ready with no child: the answer comes after the deadline |
| `ExecutorLifecycle.Supervisor.Take` | apps/desktop/src/main/executor-lifecycle.ts:41-248 | the object takes every step as the machine does and keeps at most one process running |
| `ExecutorLifecycle.Supervisor.Start` | apps/desktop/src/main/executor-lifecycle.ts:53-65 | a start keeps the invariant and at most one process, and spawns one process, which it owns, exactly if no stop, child or start is in the way |
| `ExecutorLifecycle.Supervisor.StopChild` | apps/desktop/src/main/executor-lifecycle.ts:80-126 | after a stop one is pending, a live child is the one waited for, and the invariant is kept |
| `ExecutorLifecycle.Supervisor.OnExit` | apps/desktop/src/main/executor-lifecycle.ts:232-240 | after an exit nothing runs and nothing is owned; unless it timed out, its start is settled and the status is stopped exactly if a ready child was being stopped, failed otherwise |
| `ExecutorLifecycle.Supervisor.OnSpawnError` | apps/desktop/src/main/executor-lifecycle.ts:219-231 | after a spawn failure nothing runs and nothing is owned, its start is rejected and the status is failed |
| `ExecutorLifecycle.Supervisor.OnLine` | apps/desktop/src/main/executor-lifecycle.ts:188-209 | a valid line settles the start as ready; an invalid one leaves a stop pending that the start waits for |
| `ExecutorLifecycle.Supervisor.OnHandshakeTimeout` | apps/desktop/src/main/executor-lifecycle.ts:172-185 | a timeout leaves a stop pending that the start waits for, and keeps the invariant |
| `ExecutorLifecycle.Supervisor.OnSigkillTimer` | apps/desktop/src/main/executor-lifecycle.ts:113-122 | the stop goes on waiting if the signal was delivered and fails otherwise, at most one process running |
| `ExecutorLifecycle.Supervisor.RunNext` | apps/desktop/src/main/executor-lifecycle.ts:53-142 | a continuation keeps the invariant and spawns exactly if it is a start released by a stop that ended well and finds neither child nor start |
| `ExecutorStarts.DrainIsRun` | apps/desktop/src/main/executor-lifecycle.ts:53-142 | the continuations of any state run out |
| `ExecutorStarts.StartAfterStop` | apps/desktop/src/main/executor-lifecycle.ts:53-142 | when the child a stop waits for exits and the continuations have run, a process was spawned, runs and is owned exactly if a start was waiting that did not share a start out of time; otherwise nothing runs; and what is reported last is failed, starting or stopped accordingly |
| `ExecutorStarts.NoStartAfterFailedStop` | apps/desktop/src/main/executor-lifecycle.ts:113-142 | after a stop that fails, no waiting start has spawned, its live child is owned again and failed is reported |
| `ExecutorStarts.StartSpawnsExactlyWhen` | apps/desktop/src/main/executor-lifecycle.ts:53-65 | a start spawns exactly if no stop, child or start is in the way, and joins those who wait if a stop is |
| `ExecutorStarts.SharedStartIsLost` | apps/desktop/src/main/executor-lifecycle.ts:53-65 | a start that waits on the stop of a start out of time, after which nothing was spawned |
| `ExecutorQuiet.UsableAtRest` | apps/desktop/src/main/executor-lifecycle.ts:165-241 | in every run, with no continuation left, no stop pending and no child owned, nothing runs and a start spawns |
| `ExecutorQuiet.StartingAtRest` | apps/desktop/src/main/executor-lifecycle.ts:144-241 | in every run, with no continuation left, starting is reported only while the owned child runs and its start is pending |
| `ExecutorQuiet.StepPromised` | apps/desktop/src/main/executor-lifecycle.ts:53-241 | every step keeps that a pending start belongs to a running process or follows a stop that will reject it |
| `ShutdownCoordinator.RunsInOrder` | apps/desktop/src/main/shutdown-coordinator.ts:26-84 | in every run the backend is stopped only after the executor stop of the same attempt, a new attempt begins only after the last one failed, and quit is issued at most once, last, after both stops |
| `ShutdownCoordinator.QuitsExactlyWhen` | apps/desktop/src/main/shutdown-coordinator.ts:65-84 | whatever is asked meanwhile, an attempt that is over has authorised the quit exactly if both its stops succeeded |
| `ShutdownCoordinator.StepKeeps` | apps/desktop/src/main/shutdown-coordinator.ts:26-84 | every step keeps the log a sequence of whole failed attempts and at most one open or successful attempt |
| `ShutdownCoordinator.RetriesCoalesce` | apps/desktop/src/main/shutdown-coordinator.ts:43-63 | any number of retry requests during a failing attempt starts exactly one new attempt; none starts none |
| `ShutdownCoordinator.OpenAttempt` | apps/desktop/src/main/shutdown-coordinator.ts:43-52 | while an attempt is open no other begins and requests are only remembered |
| `ShutdownCoordinator.RetryAfterFailure` | apps/desktop/src/main/shutdown-coordinator.ts:43-52 | after a failed attempt a launch request starts the next; before any attempt it does nothing |
| `ShutdownCoordinator.Coordinator.OnBeforeQuit` | apps/desktop/src/main/shutdown-coordinator.ts:26-31 | a quit request is let through exactly when quit was authorised, and otherwise starts a shutdown if none is in flight |
| `ShutdownCoordinator.Coordinator.OnSecondInstance` | apps/desktop/src/main/shutdown-coordinator.ts:33-52 | a second launch takes the machine's step and keeps the shape of the log |
| `ShutdownCoordinator.Coordinator.OnExecutorSettled` | apps/desktop/src/main/shutdown-coordinator.ts:65-75 | the settled executor stop takes the machine's step and keeps the shape of the log |
| `ShutdownCoordinator.Coordinator.OnBackendSettled` | apps/desktop/src/main/shutdown-coordinator.ts:74-84 | the settled backend stop takes the machine's step and keeps the shape of the log |
| `ShutdownCoordinator.Coordinator.OnAttemptOver` | apps/desktop/src/main/shutdown-coordinator.ts:54-63 | the `finally` continuation takes the machine's step and keeps the shape of the log |
| `Reexports.ResolveReexports` | scripts/import_graph.py:179-209 | the result extends the chain by genuine table hops, uses each entry at most once and so at most as many hops as the table has entries, and no entry applies to it unless it was used |
| `Reexports.StopsOnce` | scripts/import_graph.py:187-202 | that description has one result |
| `Reexports.WithinTable` | scripts/import_graph.py:187-202 | hops through distinct entries are at most the size of the table |
| `Reexports.ResolvedExactlyWhen` | scripts/import_graph.py:187-202 | the chase ends where no entry applies exactly when following the table without memory ends and needs no entry twice |
| `Reexports.WithoutStars` | scripts/import_graph.py:187-202 | without star entries the chase resolves exactly the names whose re-exports are not circular |
| `Reexports.StarsDoNotShadow` | scripts/import_graph.py:187-202 | star entries added to a table do not change a chase that had exact entries |
| `Reexports.StarsKeepTheName` | scripts/import_graph.py:187-202 | through star entries alone a name moves between modules and stays the same |
| `Reexports.StarStopsEarly` | scripts/import_graph.py:187-202 | a table with a star entry on which the chase stops two hops early |
| `EventStream.Subscription.Consume` | apps/web/src/api/client.ts:311-344 | a connection delivers the events of the blocks of its normalized text, up to the first that cannot be parsed |
| `EventStream.Subscription.Drain` | apps/web/src/api/client.ts:332-344 | the buffer loop takes exactly the blocks of the text, whatever text is still to come |
| `EventStream.Subscription.Deliver` | apps/web/src/api/client.ts:354-360 | the state after one more event, known or new |
| `EventStream.Subscribe` | apps/web/src/api/client.ts:347-391 | across reconnects the first occurrences are delivered, and no connection is opened after a terminal event |
| `EventStream.SplitUnique` | apps/web/src/api/client.ts:335-342 | any leftmost split of a text at blank lines, tail dropped, has the blocks the reader takes |
| `EventStream.SplitExists` | apps/web/src/api/client.ts:335-342 | the blocks the reader takes are such a split |
| `EventStream.EventReceived` | apps/web/src/api/client.ts:335-344 | an event is received exactly if some block holds it and no block before that one fails to parse |
| `EventStream.EventsJoin` | apps/web/src/api/client.ts:335-344 | the events of more blocks follow those of the earlier ones, unless one of these failed to parse |
| `EventStream.NormalizesExactlyWhen` | apps/web/src/api/client.ts:334-334 | normalizing chunk by chunk gives the normalized whole text exactly when no cut splits a CR LF pair |
| `EventStream.BlocksKeptExactlyWhen` | apps/web/src/api/client.ts:332-344 | however a text is cut, its blocks are those of the whole text exactly when every cut inside a CR LF pair falls after the last blank line |
| `EventStream.PaddedBlocks` | apps/web/src/api/client.ts:335-342 | carriage returns put before line feeds leave the blocks alone exactly when none is put into the part the blocks cover |
| `EventStream.ChunkingIrrelevant` | apps/web/src/api/client.ts:332-344 | the blocks do not depend on how the text was cut, if no cut splits such a pair |
| `EventStream.LineFeedStream` | apps/web/src/api/client.ts:205-217 | a stream of line feeds only gives the leftmost split of its text (section 9.2.6 of the HTML Living Standard), however it is cut |
| `EventStream.SplitPairLosesBlock` | apps/web/src/api/client.ts:332-344 | a text that yields a block whole and none when cut inside a pair |
| `EventStream.EachOnce` | apps/web/src/api/client.ts:354-360 | every received key is delivered once, and nothing else |
| `EventStream.EarliestDelivered` | apps/web/src/api/client.ts:354-360 | of the events with one key the earliest is delivered |
| `EventStream.DeliveriesGrow` | apps/web/src/api/client.ts:354-360 | later events only add deliveries at the end |
| `EventStream.KeyInjective` | apps/web/src/api/client.ts:355-355 | a key names one sequence number and one event id |
| `PolicyRatchet.RaisesArePaid` | scripts/resource_budget/baseline.py:30-51 | over a history of accepted changes with records only appended, a maximum was raised from one value to another at most as often as there are matching reviewable records at the end |
| `PolicyRatchet.DemandsArePaid` | scripts/resource_budget/baseline.py:30-51 | over every accepted history a demand is made at most as often as matching records were added, dropped ones included |
| `PolicyRatchet.NoDemandTwice` | scripts/resource_budget/baseline.py:30-51 | with records only appended, no record answers the same demand twice |
| `PolicyRatchet.SharedExactlyWhen` | scripts/resource_budget/baseline.py:245-271 | two different demands of one change can be answered by one record exactly when they are the maximum and the minimum of one metric relaxed alike |
| `PolicyRatchet.OneRecordPaysBoth` | scripts/resource_budget/baseline.py:245-271 | an accepted change that drops a maximum and a minimum with one record, which names the minimum |
| `PolicyRatchet.RaiseIsDemanded` | scripts/resource_budget/baseline.py:199-271 | every relaxation of an enforced maximum demands a record |
| `PolicyRatchet.LoweringIsDemanded` | scripts/resource_budget/baseline.py:199-271 | every relaxation of an enforced minimum demands a record that names the bound |
| `PolicyRatchet.SilentExactlyWhenKept` | scripts/resource_budget/baseline.py:54-227 | a change demands nothing exactly when every scenario, metric, policy field, baseline and bound of the base is kept or only tightened |
| `PolicyRatchet.AcceptedWithoutRecords` | scripts/resource_budget/baseline.py:30-112 | a change that adds no record is accepted exactly when it keeps the policy |
| `PolicyRatchet.DemandIsPaid` | scripts/resource_budget/baseline.py:245-271 | an authorised demand has added a matching record, those dropped in the same change counted |
| `PolicyRatchet.ValidateBaselineChanges` | scripts/resource_budget/baseline.py:54-112 | the nested walk accepts exactly when every relaxation is answered by a new record |
| `PolicyDemands.DemandedExactlyWhenDue` | scripts/resource_budget/baseline.py:54-271 | a record is demanded exactly if it is due: for each field of the methodology, the caches, the scenarios and the metrics that changed, for a removed scenario or metric, for a new baseline or ratio, for a relaxed blocking bound, each with the fields that name the change |
| `PolicyDemands.AcceptedExactlyWhen` | scripts/resource_budget/baseline.py:30-279 | a change is accepted exactly if for every record that is due more records answer it than before, a record answering if it agrees with every expected field and its justification is long enough |
| `PolicyDemands.StripSpans` | scripts/resource_budget/baseline.py:274-279 | what is left of a justification is the text from its first to its last visible character |
| `PolicyRatchet.PlaceholdersTooShort` | scripts/resource_budget/baseline.py:274-279 | a justification is reviewable exactly when it is long enough |
| `PolicyRatchet.DroppedRecordPaysAgain` | scripts/resource_budget/baseline.py:30-51 | an accepted history that drops its record and raises twice with one record at the end |

## Left out

- The durable lease and event ledger, admission, cryptography, SQL, HTTP, migrations, exports and the user interface: foreign code or input and output.
- `partition_edges`, fan metrics, re-export hubs and findings of the dependency report: they would only add easy members.
- BuildReport: does not produce fan metrics, external usage, drift or findings, and says which slices cross but not how often, because they would only add easy members.
- How a digest is computed: a revision carries its digest, and the digests of RunSpecs and revision sets are arbitrary functions, the former injective where a theorem says so.
- The verified decision bindings, ids and timestamps of trust records: the lineage validators do not read them.
- Token usage, message texts, status events and the inside of argument schema validation in a Lab turn: arguments are judged by an arbitrary function.
- The messages of schema changes; a change carries its key path, and its pointer is the rendering of that path.
- EnumTells: compares enum values as JSON values where the code compares their `repr`, so it does not tell 1 from 1.0 or one key order from another.
- SchemaQuiet: says the same of enum values, because it builds on that comparison.
- ReportExactly: says the same of enum values, for the same reason.
- Resolution of `$ref` beyond the family of documents with one definition, and the inside of `not`, `oneOf`, `if` and the other exact keywords: a reading of each document says what they mean.
- NonBreakingIsSound: assumes the guards, because without them the verdict is not sound; the three exact conditions above show that for one family each. A guard asks for no reference anywhere in what is compared, which is more than needed where the definitions did not change.
- EmptyReportKeepsMeaning: assumes the same guards, for the same reason.
- A synchronous exception of `spawn`, the error codes for which `kill` throws, listeners of `state` that call back, and a restart as one step: a restart is a stop whose continuation calls start, which the machine allows at any moment.
- The order in which continuations of joined stops run after the stop's own: they are queued together when it clears the promise.
- A `report` callback that throws during shutdown, and the restore and focus of a live window.
- Decoding of bytes to text and the parsing of blocks: chunks are text, and parsing is an arbitrary function that may fail.
- The reconnect delay and the state callbacks of a subscription; an abort is the end of the list of connections.
- Equality of booleans with numbers in policy records, and limits that are not numbers.
- AcceptedExactlyWhen: counts only justifications that are text, because the text Python makes of other values is not modelled.
- ValidateBaselineChanges: does not say which unanswered change is reported first, because tables are visited in name order instead of document order.
- Reading the merge base with git: both documents are inputs.
