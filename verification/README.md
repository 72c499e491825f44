# A verified model of gepago's pipelines

gepago runs language-model pipelines: steps that read and write typed state keys, transitions that skip
steps, rewind to earlier ones or take the run on after a failure, budgets that bound what runs spend,
redaction of what they report, and an optimiser that searches for better prompts. This project models the
parts of it whose correctness spans many operations, and proves what their documentation promises of every
input, run and interleaving.

`dafny verify dfyconfig.toml` checks everything.

## What is modelled

**The transition engine.** `PipelineSpec.Build` decides in one pass over the transitions and one over the
steps, with difference arrays and running minima, which pipelines are safe to run. `Pipelines` and `Specs`
say what each of its checks means, one rule or one step at a time and with no regard to cost.
`TransitionFacts`, `Declarations`, `Builder` and `BuildSpec` are the two passes as the source has them, in
place, and are proved to accept exactly the specs that meet those definitions. `Flow` and `Runs` are one
iteration of a run, and a run, as functions of everything steps and hooks choose: how a step ends, what it
caches and stages, what `When`, `Accept`, `Amend`, `RestoreOnError` and merge functions return or that they
panic. A statement about every `Choices` value is one about every step and hook. `FlowRuns` is `flowRun`
itself, a class whose methods change the state in place, proved against those functions. `Invariant`,
`Soundness` and `Iterations` prove the invariant the two halves share, and `RunTheorems`, `Leftovers`, `Rejection`,
`Termination` and `FailureRules` what follows for every run of everything Build accepts. `Reachability` reads off the
tables where a run may go; `Steering`, `Realizations`, `HazardRuns` and `Arrivals` make each such move, `Traces` shows
a run makes no other, and `ExactHazards` draws the conclusion for merges. `Effects`, `Resets`, `Ranges` and `Stages`
say, key by key, what an iteration does to values, defaults, tools and the step cache, in terms of what steps and hooks
returned and of earlier moments of the run; `Hooks` and `Failures` which hooks it asks, of what, and where the answers
lead; `Compiled` that a built pipeline's rules are its spec's transitions. `Scopes` is what one step sees and sets.
`Flows` is `Branch` and `Fallback`, as the steps and transitions they are.

**Budgets.** `UsageFrames`, `Budgets` and `Retries` are the chained usage frames, the admissions and the
pending tokens of retried calls. One lock guards them in the source, so each method of class `Meters` is one
step of the protocol, and its invariant (conservation of pending tokens, calls equal to admissions, no run over
its calls) holds however concurrent calls interleave. `Settlements` is about records that settle each
other's calls.

**Redaction.** `ByteSets`, `Tries` and `RedactedTexts` are the radix trie with linked nodes that are split in
place; `Scrubbing` says what scrubbing means without a trie; `JsonTexts` is the streaming JSON rewrite.

**The optimiser.** `Frontiers` is the Pareto frontier and its sampling, `Optimizations` the loop.

**Supporting cores.** `Copies` is the cycle-preserving deep copy; `Maps` and `Parallels` are the concurrent
steps, as state machines whose steps are taken in any order.

## What was found

*Merge soundness has a gap.* Build lets two steps write a key without a `MergeRule` when no run commits both
(pipeline_build.go:676-679). That holds of every run in which no visit fails after its rewind's `Accept` rejected
it or failed (`RunTheorems.MergeSoundnessRegular`). It does not hold of every run: when `Accept` fails, or a
`When` fails the step on a rejected visit, the snapshot in which the step had committed is restored, and an
OnError transition may then go on to another step that writes the key (pipeline_transition_run.go:303-304). Build's
reach does not count OnError transitions (pipeline_transition.go:482-487). `HazardExample.HazardReached` is a spec
Build accepts, the pipeline it compiles to and such a run.

`ExactHazards.GuardedExactly` says which pipelines have such a run, whatever their inputs: those with a reachable
hazard. That is a condition on the rules and MaxVisits, computed before any run (`Reachability.ReachableHazard`): a
step that writes the key can be reached from the first step; one of its rewinds under an Accept is closed off by no
earlier rule without When, and leads from its target back to the step; an OnError rule of the step that goes forward
is closed off by none but rewinds; and from where it goes another writer of the key can be reached. `Leftovers` says
the same of one run: an iteration breaks the source's key invariant if and only if its visit fails undone, the run
goes forward from there and a step it may still reach writes a key the failed step's write of which was restored
(`Leftovers.KeepsExactly`), and a visit fails the guard for a key if and only if it comes to that key and such an
iteration has left it behind (`Leftovers.GuardOnRun`).

*A Map may start one element after it has been cancelled.* takeSlot checks the elements' context before the loop
starts the element (pipeline_map.go:452-457, 522-533). When another element fails between the two, the element still
starts, under a context that has ended. `Maps.LateStart` is such an interleaving; `Maps.StartsLate` says that a map
starts an element after the cancel exactly when the loop was past that check at the time, and then only that one.

## Model

| member | source | states |
|---|---|---|
| BuildSpec.Build | pipeline.go:500-600 | Build returns a pipeline exactly for the specs whose names, keys, types, defaults, merge rules, transitions, rewind ranges, reads and writes meet the declarative SpecAccepted. It is Accepted, which is all the run theorems ask for, and BuiltFrom the spec: each rule has the hooks, the Fallback mark, the steps and the direction of its transition, each step's rules are listed in order, and visits, MergeRules and defaults are those declared. What its two passes count is linear in the MaxVisits entries, transitions, steps and declared writes, whatever the ranges and skips |
| BuildSpec.CheckFlow | pipeline.go:546-570 | the pass over transitions and the pass over steps together find a fault exactly when one of the per-rule and per-step conditions fails, and otherwise leave the plan with each range's keys |
| BuildSpec.CheckSteps | pipeline.go:550-561 | the loop over steps passes exactly when each step, taken alone, meets its conditions and at most one rewind range holds it |
| BuildSpec.CheckNext | pipeline_transition.go:536-542 | one turn of that loop; it reports an overlap exactly when two different ranges hold the step |
| BuildSpec.OverlapMeans | pipeline_transition.go:509-532 | no two rewinds with different ranges share a step, exactly when no step is held by two ranges, which is what the linear pass counts |
| BuildSpec.AcceptedPlan | pipeline_transition.go:265-351 | the plan of an accepted spec meets everything runs rely on: tables that describe the rules, disjoint ranges, readable reads, writers that never both commit |
| Declarations.CheckKeys | pipeline.go:649-663 | a key list is accepted exactly when its names are not empty and differ |
| Declarations.CheckMergeRules | pipeline_build.go:772-799 | merge rules are accepted exactly when their keys differ and are no inputs |
| Declarations.BuildDefaults | pipeline_build.go:802-824 | defaults are accepted exactly when they have keys that differ, are no inputs and have values of their types; the map built holds each of them |
| Declarations.IndexSteps | pipeline.go:524-535 | a list of steps is refused exactly when a set name repeats, and the index of an accepted one maps each name to its step |
| Declarations.BuildMaxVisits | pipeline_transition.go:572-595 | MaxVisits is accepted exactly when every entry names a step of its own with at least two visits, and the table holds each step's limit |
| Declarations.CompileTransition | pipeline_transition.go:633-716 | a transition is accepted exactly when its names resolve and its hooks apply to it; the rule has exactly the OnError, When, Amend, Accept, RestoreOnError and Fallback marks of the transition, is from the step named and to the step named, End or Fail, and rewinds exactly when that is its own or an earlier step |
| Compiled.PlanBuilt | pipeline_transition.go:556-716 | a plan is its spec entry by entry: rules, their lists by step, the visits of each step, MergeRules and defaults |
| Compiled.RulesListed | pipeline_transition.go:556-611 | a step's list has exactly its rules on success, or on failure, each once and in the order declared |
| Declarations.CheckTransitions | pipeline_transition.go:556-629 | the pass accepts exactly the transitions whose rules are allowed and that use every MaxVisits entry; its tables are each step's rules in order, and its arrays mean what those rules say |
| Declarations.CheckUsed | pipeline_transition.go:612-625 | an unused MaxVisits entry is one for a step no rewind lands on |
| TransitionFacts.Facts.Mark | pipeline_transition.go:374-397 | recording a forward rule keeps the meaning of every array: the skip counts, the first OnError rule, the least continuation and whether the step is closed |
| TransitionFacts.SumRange | pipeline_transition.go:399-407 | raising the difference array at a skip's start and lowering it at its end raises exactly the sums of the steps between by one |
| TransitionFacts.Facts.Cover | pipeline_transition.go:411-429 | recording a rewind adds its range once, however many rewinds have it, and keeps the meaning of every array |
| TransitionFacts.Facts.Enter | pipeline_transition.go:434-448 | at step i skipping is the number of rules that skip i, covered the number of distinct ranges that hold i, rewinds the number of targets up to i, and current the unique range that holds i; it refuses exactly the steps two ranges hold |
| TransitionFacts.Facts.EnterSums | pipeline_transition.go:434-448 | the running sums equal the naive counts |
| TransitionFacts.CurrentMoves | pipeline_transition.go:437-446 | dropping a range that has ended and taking one that starts finds the unique range that holds the step |
| TransitionFacts.Facts.ReachMeans | pipeline_transition.go:482-487 | reach is at most a bound exactly when a run may go on at or before it after the step succeeds, by some rule an earlier one does not close off or by none |
| TransitionFacts.Facts.MayNotWriteMeans | pipeline_transition.go:491-493 | a step counts as one that may not write exactly when some rule skips it or takes it forward on error |
| Builder.PipelineBuilder.CheckReads | pipeline_build.go:538-581 | reads pass exactly when each has an earlier source of its type and is an input, a Default, or written by earlier steps each of which always writes |
| Builder.PipelineBuilder.BothCommit | pipeline_build.go:676-679 | the two integer comparisons say exactly whether some earlier writer of the key and this step may both commit in one run |
| Builder.BothCommitMeans | pipeline_build.go:671-679 | the minimum reach and the count of targets decide that for all earlier writers at once |
| Builder.PipelineBuilder.CheckWrites | pipeline_build.go:583-628 | writes pass exactly when each is no input, has its source's type, meets the Branch label rule and needs no MergeRule or has one |
| Builder.PipelineBuilder.CheckLabel | pipeline_build.go:634-669 | the label rule: a key with a Branch's name is written by its routing step only |
| Builder.PipelineBuilder.CheckStep | pipeline_build.go:304-350 | a step passes exactly when its name, keys, amendable keys, types, reads and writes are allowed |
| Builder.PipelineBuilder.Register | pipeline_build.go:682-698 | registering a step keeps what sources, unwritten keys, writer facts and range keys mean, now up to the next step |
| Builder.PipelineBuilder.Leave | pipeline_transition.go:545-549 | each range's keys stay exactly the union of the writes its steps up to here declare |
| Builder.PipelineBuilder.CheckMerges | pipeline_build.go:711-734 | every MergeRule is for a key of its type that at least two steps write |
| Builder.PipelineBuilder.CheckDefaults | pipeline_build.go:702-709 | every Default is for a key some step reads or writes |
| Iterations.IterateKeepsInv | pipeline_transition_run.go:116-146 | every iteration, whatever steps and hooks choose, keeps the invariant: guaranteed keys are present and typed, a key without a MergeRule that holds a write has its last writer behind the run, snapshots of skipped and visited targets are there, visits are in bounds, and what a rejection would restore is a state in which From had succeeded |
| RunTheorems.ReadSoundness | pipeline_build.go:538-581 | whenever a step starts, on any visit of any run of an accepted pipeline, its view holds every key it reads with its type, after skips, failures, rewinds, rejections, restores and amendments alike |
| RunTheorems.MergeSoundness | pipeline.go:904-909 | on every run a step fails with "already holds a write" only for a key of the shape Hazard describes: a step that writes it rewinds under an Accept and goes forward on error to or before another writer |
| RunTheorems.MergeSoundnessRegular | pipeline.go:904-909 | on every run in which no visit has failed after Accept rejected it or failed, no step fails with it at all |
| Leftovers.KeepsExactly | pipeline_transition_run.go:299-306 | the key invariant, that while a key without a MergeRule holds a write the run is past its last writer, is kept by exactly the iterations that leave no key behind: those whose visit does not fail after its rejection, or that go on from there past every other writer of what the step had committed |
| Leftovers.GuardTraced | pipeline.go:904-909 | on every run the guard fails only for a key some earlier iteration left behind |
| Leftovers.LeftStays | pipeline_transition_run.go:299-306 | a key left behind still holds its write whenever the run comes to a writer of it: no rewind can go back over it |
| Leftovers.GuardOnRun | pipeline.go:904-909 | on every run of every accepted pipeline, a visit fails the guard for a key its step writes if and only if it comes to that key's merge (the execution sets it, its writes are allowed and the merges before it succeed) and an earlier iteration has left the key behind |
| Leftovers.VisitExactly | pipeline.go:887-921 | a visit fails the guard for a key exactly when it comes to its merge and the key holds a write and has no MergeRule; a merge function that fails or a preserved write before it decides otherwise |
| ExactHazards.GuardedExactly | pipeline.go:904-909 | whatever its inputs, an accepted pipeline has a run that fails with "already holds a write" if and only if its tables have a reachable hazard, which the rules and MaxVisits decide before any run |
| ExactHazards.GuardReachable | pipeline.go:904-909 | on every run a visit fails the guard only for a key that is a reachable hazard |
| ExactHazards.RunTraced | pipeline_transition_run.go:116-146 | every step a run comes to is one the tables call reachable, a rewind that runs is one they allow, and a run in the range of a target it has visited has come from that target |
| ExactHazards.ReachableIsHazard | pipeline_transition_run.go:303-304 | a reachable hazard has the shape MergeSoundness names |
| Traces.FinishGoes | pipeline_transition_run.go:201-422 | an iteration that goes on does so by a rule no earlier one closes off, by one only rewinds that have used their visits close off, by undoing the running rewind, or by a rewind the tables allow |
| Traces.DecisionTraced | pipeline_transition_run.go:299-374 | a rule taken on failure is one whose predecessors have a When or are rewinds whose target has used its visits, and a failure is restored only where the tables let RestoreOnError be asked |
| Arrivals.MoveMade | pipeline_transition_run.go:116-146 | conversely every move the tables allow from a step is made by some run that comes to it, in as many iterations as its rewinds take, unless a run fails the guard on the way |
| Arrivals.ReachableMade | pipeline_transition_run.go:116-146 | so every step the tables call reachable is one some run comes to, whatever the inputs, unless some run fails the guard |
| Arrivals.FirstArrival | pipeline_transition_run.go:116-146 | a step some run comes to is one some run comes to with a visit left for each of its rewinds |
| Arrivals.HazardMade | pipeline_transition_run.go:303-304 | and a reachable hazard makes some run fail the guard |
| Realizations.Spends | pipeline_transition_run.go:462-469 | a rewind that leads back to its From can be taken until its target has used its MaxVisits |
| HazardRuns.UndoneMove | pipeline_transition_run.go:299-306 | a rewind that has come back to its From may fail there under its Accept, go on by any OnError rule that is not closed off, and leave every write From had made |
| RunTheorems.HazardFree | pipeline_transition_run.go:303-304 | the invariant holds of every key that has no such shape |
| HazardExample.HazardReached | pipeline_transition_run.go:303-304 | a spec Build accepts, the pipeline it compiles to, and a run of it that reaches the merge guard at its third visit |
| HazardExample.HazardIsReachable | pipeline_transition_run.go:303-304 | its tables have a reachable hazard |
| Rejection.RejectionIsUndo | pipeline_transition_run.go:402-483 | whenever Accept rejects, or RestoreOnError restores, a rewind, an earlier iteration took it and it has run since, and the values, which keys hold only a default, the step cache and the run's tools are exactly what they were when it was taken, however long its range ran and whatever it stored, committed and staged |
| Rejection.StoreKeepsTakeBack | pipeline_exec.go:113-168 | the journal's first-replaced entries take back every store made under it |
| Resets.RewindResets | pipeline_transition_run.go:462-469 | the dual of that: whenever an iteration takes a rewind, the run has come to its target before, by a visit or by passing over it, and from the last such moment each key that a step of the range writes is taken again: its value, that it has none, and whether it only holds a default; every other key is as it was when the rewind was taken |
| Resets.StepSnapshots | pipeline_transition_run.go:138-142 | an iteration snapshots a target it visits as it found it, one it passes over as it leaves it, and no other |
| Effects.MergeMeans | pipeline.go:887-921 | the writes of a visit commit exactly when each key that holds a write has a MergeRule that returns a value of its type; then exactly the keys set are committed, with what c.merge made of the write held and the new one, or the new one where none was held |
| Effects.RunCommits | pipeline_transition_run.go:445-457 | on every run an iteration that takes no rewind leaves, of a visit that succeeds and is not rejected, each key it set as its merge made it and no longer a default, and every other key as it was; and of one that fails and is not undone every key |
| Ranges.AmendSeen | pipeline_transition_run.go:150-172 | a step sees the state; the first visit after a rewind, its target's, sees what the rewind's Amend set laid over it, and no later one does |
| Ranges.AmendedBy | pipeline_transition_run.go:201-244 | what an Amend set is what the transition taken had it return |
| Ranges.KeptSince | pipeline_transition_run.go:462-469 | while a rewind runs it has the rule it was taken by and the snapshot of what its range held then |
| Ranges.AcceptAsked | pipeline_transition_run.go:201-244 | Accept is asked to compare the keys of the range as they were when the rewind was taken with what they would be if the visit committed, and its answer decides whether the visit is accepted, rejected or fails |
| Stages.StagesOnRun | pipeline_transition_run.go:445-483 | what a successful visit stages goes to the tools or, inside a rewind, to its stage, which the tools get at its From or when the run leaves the range; an undone rewind gives them nothing; each step cache entry holds what was stored last |
| Stages.StagesAtEnd | pipeline_transition_run.go:116-146 | a run that ends gives the stage of a rewind that still runs to the tools; the visit that fails it stages nothing |
| Failures.StartsFrom | pipeline_transition_run.go:94-112 | a run starts at the first step with the declared inputs and every default, with exactly the defaults marked so |
| Termination.VisitsBounded | pipeline_transition_run.go:487-508 | no rewind target is visited more often than its MaxVisits |
| Termination.RewindStarts | pipeline_transition_run.go:462-469 | a rewind is taken only with none running, to a target with a visit left whose snapshot is there, even when a skip passed over it |
| Termination.RewindStaysInRange | pipeline_transition_run.go:119-128 | while a rewind runs the run is at or past its target, and it ends on the first iteration past its From |
| Termination.RunIsBounded | pipeline_transition_run.go:116-146 | a run that has not ended has made at most as many iterations as the lexicographic measure of its start: every run ends |
| FailureRules.FailureCalls | pipeline_transition_run.go:299-374 | a failure evaluates each OnError rule's When at most twice, however many rewinds have used their visits, and asks RestoreOnError at most once |
| FailureRules.FallbackGoesUnasked | pipeline_transition_run.go:299-374 | when the rule of a Fallback is taken for the visit's own error, that is when no rewind has run out of visits before and had the rules evaluated again, RestoreOnError has not been asked: falling back comes before restoring |
| Hooks.SuccessTakes | pipeline_transition_run.go:201-284 | a visit that succeeds takes the first of its step's transitions, in the order declared, whose When matches what the step saw and wrote, or what a rejection restored, without rewinds when it was rejected; it goes where that says, or on to the next step |
| Failures.VisitFails | pipeline_transition_run.go:166-244 | why a visit fails: with the step's own error; for writes that are not what it declares; for the first of its keys, in the order declared, that finds a write and no MergeRule, or a merge that fails; when Accept fails; or on the first transition on success that matches, when its target has used its visits or its Amend fails or sets what the target does not let be amended, or on one before it whose When fails |
| Hooks.FailureTakes | pipeline_transition_run.go:299-374 | a visit that fails takes the first of its OnError transitions whose When matches the error and what the step reads and whose target has visits left; it is the step's error, or that joined with ErrMaxVisits for a matching rewind that had none left; none is taken only when none matches, or a When or the Amend of the first that does fails |
| Hooks.RestoreAsked | pipeline_transition_run.go:299-396 | on a run of a built pipeline, a failure in a rewind's range of a step without OnError transitions, not undone or accepted and before the context has ended, asks RestoreOnError exactly when the rewind's transition in the spec sets one; yes leads past From, no or none set fails the run with the step's error |
| Failures.FailureLeads | pipeline_transition_run.go:299-422 | where a failure leads: once the context has ended to its own error; else by the transition taken to its step, to the end or to Fail with the error wrapped; with none taken to the error asked about; and restored, past From by the first transition that is no rewind and matches what was restored. The StepError has what of its reads the step saw |
| Failures.SuccessFails | pipeline_transition_run.go:248-284 | a run that a successful visit fails has gone to Fail, with its step and what it read |
| FlowRuns.FlowRun.constructor | pipeline_transition_run.go:94-112 | a run starts with the declared inputs and every default, marked as only a default |
| FlowRuns.FlowRun.Restore | pipeline_transition_run.go:570-591 | restoring key by key, in any order, sets exactly the keys of the range to what the snapshot holds, and drops those it does not hold |
| FlowRuns.FlowRun.StoreCached | pipeline_exec.go:113-128 | caching notes in a running journal the entry it replaces, the first time only |
| FlowRuns.FlowRun.EndCacheJournal | pipeline_exec.go:142-168 | ending a journal without keeping puts every noted entry back as it was |
| FlowRuns.FlowRun.Visit | pipeline_transition_run.go:150-196 | a visit counts, snapshots a target before it runs, gives amended values to the first visit after a rewind only, and ends as Execute says |
| FlowRuns.FlowRun.MergeWrites | pipeline.go:887-921 | the loop commits what the recursive form does, or stops with its error; what that is Effects.MergeMeans says |
| FlowRuns.FlowRun.Decide | pipeline_transition_run.go:201-244 | Accept is asked when the visit ends a rewind, and the first matching transition is chosen on the values that visit leaves, without rewinds when it was rejected |
| FlowRuns.FlowRun.Succeeded | pipeline_transition_run.go:248-284 | a success commits unless it was rejected or goes to Fail, ends the rewind it completes, and follows its rule |
| FlowRuns.FlowRun.StartRewind | pipeline_transition_run.go:462-469 | a rewind saves the values of its range, restores those of its target's snapshot and starts a journal and a stage; Resets.RewindResets says what that makes of a run |
| FlowRuns.FlowRun.EndRewind | pipeline_transition_run.go:473-483 | ending a rewind keeps or drops what its range cached and staged |
| FlowRuns.FlowRun.RejectRewind | pipeline_transition_run.go:431-443 | a rejection restores what the rewind saved, takes the cache back and drops the stage |
| FlowRuns.FlowRun.Evaluate | pipeline_transition_run.go:299-374 | the loop over a step's OnError rules, with its one restart after a rewind runs out of visits, comes to the decision of the recursive DecideFailure |
| FlowRuns.FlowRun.FailedStep | pipeline_transition_run.go:299-396 | a failure undoes a rejected visit, stops when the context has ended, and otherwise ends as its rules decide |
| FlowRuns.FlowRun.RestoreAfter | pipeline_transition_run.go:402-422 | a restored run goes on past From by the first of its success rules that is no rewind and matches |
| FlowRuns.FlowRun.Iteration | pipeline_transition_run.go:119-144 | one turn of the loop, skipped targets' snapshots included, is Iterate |
| FlowRuns.FlowRun.Run | pipeline_transition_run.go:116-146 | the loop makes a run of the machine with the choices given, ends, and returns the error of the iteration that failed it, or none with the rewind still running ended |
| FlowRuns.Execute | pipeline.go:803-863 | executing a pipeline refuses inputs that are missing, of another type or undeclared, and otherwise returns the values and error some run ends with; it reports the merge guard only for a reachable hazard |
| FlowRuns.GuardReported | pipeline.go:904-909 | an error a run returns names the merge guard only when its last visit failed on it, and then for a reachable hazard |
| Scopes.StepScope.Store | state.go:248-278 | a write is pending exactly when its key is declared and its type and value are; it is then what the step sees under the key, the last write of a key is the one pending, and a key that is written is no longer preserved; any other write fails the step |
| Scopes.StepScope.Preserve | state.go:281-305 | an output may be preserved exactly when the step sees a value of its type and declares the write; a write of it, before or after, wins |
| Scopes.StepScope.Finish | pipeline_exec.go:440-453 | an execution succeeds exactly when no use was refused and every declared write was set or preserved at some time, and then its result meets what a visit asks of it |
| Flows.Branch | pipeline_transition_flow.go:50-96 | the loops build the routing step, the arms in the order of their labels and the end step, a transition to each arm and one from each arm but the last to the end |
| Flows.Fallback | pipeline_transition_flow.go:178-211 | primary, secondary and the step where they meet, a transition past secondary on success and a marked OnError one to it |
| Flows.BranchBuilt | pipeline_transition_flow.go:50-96 | wherever a Branch's steps and transitions are placed in a spec Build accepts, the pipeline holds it: its rules are the compiled ones, and no other rule is from its steps |
| Flows.BranchGoes | pipeline_transition_flow.go:31-96 | a run that starts a Branch visits the routing step, the arm whose label it wrote, the end step and then the step after it, as long as these visits succeed; when one fails the run ends or is past the Branch. So until it has left the Branch it visits no other arm |
| Flows.BranchFails | pipeline_transition_flow.go:31-96 | a visit of a Branch's step that fails ends the run or, when RestoreOnError restores it, goes on past the Branch |
| Flows.ArmsNeedNoMerge | pipeline_transition_flow.go:44-47 | Build finds that two arms may both commit exactly when a rewind lands between them, so they need no MergeRule otherwise |
| Flows.FallbackBuilt | pipeline_transition_flow.go:178-211 | the same placement for a Fallback |
| Flows.FallbackGoes | pipeline_transition_flow.go:162-211 | from primary a run goes to secondary exactly when primary fails with an error that is not Permanent and the run's context has not ended, and to the meeting step when primary succeeds |
| Flows.PermanentMeans | model_errors.go:44-60 | an error is Permanent exactly when the first of its causes that has a kind is: one so classified, a rewind past MaxVisits or a run sent to Fail |
| Flows.FallbackOn | pipeline_transition_flow.go:190-200 | when primary returns an error, secondary runs exactly when its kind is not Permanent and the run has not ended; when primary does not set what it declares, exactly when the run has not ended |
| Flows.FallbackNeedsNoMerge | pipeline_transition_flow.go:174-177 | primary and secondary may both commit exactly when a rewind lands on secondary |
| Budgets.Meters.Add | pipeline_budget.go:249-274 | recording usage adds its tokens to every account around the frame, settles the first returned call of the frame with the same total, and keeps conservation; each account around that is then over its limit has failed, and one that has failed only now is around the frame, with an error that names its limit and what was spent |
| Budgets.Meters.Report | pipeline_budget.go:357-376 | a report adds what is new of it to the pending tokens of the outermost call around it once, however deep retries nest, and keeps conservation. It refuses exactly when, with that, some frame around is stopped, has spent more than its limit (recorded, reported by calls in progress, left by returned ones) or has no call left, with the error of the first that does |
| Budgets.Meters.Finish | pipeline_budget.go:386-395 | an outermost call that returns leaves what it reported to be settled under its total; a nested one leaves nothing |
| Budgets.Meters.Admit | pipeline_budget.go:399-414 | a call is admitted exactly when no frame around is stopped by an earlier error or MaxDuration, no account of theirs has spent more than its limit, counting what was recorded, what calls in progress have reported and what returned calls have left to settle, and no run of theirs has been admitted all its calls. Then each run around has exactly one call more; otherwise none has, and the first frame that refuses says why and fails with that |
| Budgets.Meters.AdmitAttempt | pipeline_budget.go:419-440 | another attempt of a tool call is refused for errors, duration and tokens, by the same accounts, but not for calls, and reserves nothing |
| Budgets.Meters.Refusal | pipeline_budget.go:445-467 | a refusal is returned exactly when some frame around is stopped, over its limit or out of calls, by what happened, and is the error of the first |
| Budgets.Meters.Fail | pipeline_budget.go:547-553 | a run's first budget error is the one it keeps |
| Budgets.Meters.StartRun | pipeline_budget.go:196-230 | a nested run starts with nothing spent, under the frame it runs in |
| Budgets.Meters.EnterStep | pipeline_budget.go:234-241 | a step's frame is in its run |
| Budgets.PendingSettles | pipeline_budget.go:243-274 | nothing is pending in any account exactly when no outermost call in progress has reported anything and no returned call is left to settle; and every account has spent what was recorded under it, what outermost calls in progress have reported and what returned calls have left |
| Budgets.NothingPending | pipeline_budget.go:243-274 | nothing is pending in any account exactly when no outermost call in progress has reported anything and, of every frame, from every moment on and for every token total, no more calls have returned than were recorded |
| Budgets.RecordedPendsNothing | pipeline_budget.go:353-395 | once every returned call of every frame has been recorded and no outermost call in progress has reported anything, nothing is pending anywhere, though records settle calls of equal totals in each other's place |
| Budgets.AllAdmitMeans | pipeline_budget.go:445-467 | the walk over parents admits exactly when each frame of the chain does |
| Budgets.CallsAreAdmissions | pipeline_budget.go:397-414 | a run's calls are the calls admitted under it, nested runs' included, each once, and no more than it allows |
| Settlements.NothingLeft | pipeline_budget.go:243-274 | of the returns and records of one frame, whose returned calls Meters keeps: when add settles the first call with an equal total, nothing is left to settle exactly when, from every moment on and for every token total, no more calls return than are recorded |
| Settlements.RecordedLeavesNothing | pipeline_budget.go:353-395 | once every returned call of a frame has been recorded nothing of it is left, though records settle calls of equal totals in each other's place |
| Retries.RetryCall | retry_lm.go:119-155 | attempts go on only after transient failures, at most MaxAttempts of them; usage is their sum; the most tokens that sum came to after an attempt that was to be retried are reported and pending once, under the call that returns or, when it is made in another retried call with its frame, as that one's and those around it; each attempt after the first was admitted |
| Retries.TryAttempts | retry_lm.go:133-154 | the loop: each call around has gained what the call has reported, which is what its failed attempts came to, no other call has changed, and each attempt after the first was admitted |
| Retries.Retry | retry_lm.go:146-153 | the next attempt is refused when the budgets refuse it with this one reported, not made when the context ends in the wait, and else made unless they refuse it then |
| Retries.SummedMeans | usage.go:125-134 | summed usage has each field summed; its tokens are the totals the attempts reported, if any did, and their prompt and completion tokens when none did |
| Retries.Backoff | retry_lm.go:158-176 | a wait is between half and all of the delay doubled after each failed attempt, capped |
| Retries.DoubleUpTo | retry_lm.go:158-176 | the loop's early exit at half the cap gives exactly the capped delay, and no value on the way is above the cap |
| Retries.CallAndRecord | retry_lm.go:119-155 | a retried call, in no other one with its frame, whose caller records its usage has spent that usage once in every account around, and leaves pending what was pending, unless an earlier call with the same total is settled in its place |
| Tries.LeafTree | pipeline_redact_text.go:70-97 | a leaf put at its place among a node's edges keeps a compressed trie, and updates the map it denotes at that form only |
| Tries.SplitTree | pipeline_redact_text.go:85-93 | splitting an edge keeps a compressed trie and the map it denotes |
| Tries.Descend | pipeline_redact_text.go:132-150 | from a node on the way to another one, one of its edges is on the way too |
| RedactedTexts.FormNode.Child | pipeline_redact_text.go:154-158 | the binary search finds the child whose edge starts with the byte, or where it would go |
| RedactedTexts.RedactedText.Split | pipeline_redact_text.go:85-93 | the split in place links a new node between two, and changes nothing the trie denotes |
| RedactedTexts.RedactedText.Add | pipeline_redact_text.go:72-97 | adding a form changes the map the linked nodes denote to exactly that map updated at the form, and keeps sorted, distinct, non-empty edges and the first-byte set |
| RedactedTexts.RedactedText.Remember | pipeline_redact_text.go:49-63 | the forms remembered are those that are not empty, not their own replacement and not kept |
| RedactedTexts.RedactedText.Match | pipeline_redact_text.go:132-150 | match returns the longest stored form the text starts with and its replacement, or that there is none |
| RedactedTexts.RedactedText.Scrub | pipeline_redact_text.go:101-128 | scrub is the leftmost-longest replacement over the stored forms: the byte set and the early return never change the answer |
| Scrubbing.ScrubbedIsReplaced | pipeline_redact_text.go:99-128 | that replacement is what a first-match replacer given the forms longest first does |
| ByteSets.WithMeans | pipeline_redact_text.go:70-97 | setting a bit of the 256-bit first-byte set adds that byte and no other |
| JsonTexts.WalksValue | pipeline_redact.go:601-639 | the tokens of any JSON value, duplicate names included, drive the machine to write the compact text of that value with strings and numbers replaced, names and order kept and separators as sections 4 and 5 of RFC 8259 ask |
| JsonTexts.RewritesLeaves | pipeline_redact.go:807-826 | the rewritten value has every string and number replaced, in place and in order, and is alike in every array, object, name, flag and null |
| JsonTexts.WalkJson | pipeline_redact.go:601-639 | the loop with its stack of open objects drives the scrubber through that machine |
| JsonTexts.JsonScrubber.Value | pipeline_redact.go:807-826 | a value is written after its separator; a number that is replaced becomes a string, one that is not stays as it was |
| JsonTexts.ScrubJsonText | pipeline_redact.go:748-767 | text that is not JSON is replaced as a whole; JSON is rewritten leaf by leaf, and returned as it was when nothing changed |
| Frontiers.FrontierWeights | optimizer_support.go:49-57 | deleting dominated winners while ranging over them, in any order, leaves exactly the winners no record dominates, each with the number of dimensions it wins; every scored dimension is still won by one that is left |
| Frontiers.InstanceWinners | optimizer_support.go:61-72 | the winners and how many dimensions each wins |
| Frontiers.CheckDominates | optimizer_support.go:85-108 | dominates says whether one record is nowhere worse and somewhere better |
| Frontiers.DominatorWins | optimizer_support.go:85-108 | a record that dominates a winner of a dimension wins it too |
| Frontiers.ComputeFrontier | optimizer_support.go:37-45 | the frontier is exactly the undominated winners, each once, and some of them attains the best score of every dimension |
| Frontiers.SampleWeighted | optimizer_support.go:204-226 | the id sampled is the one whose share of the weights the random number falls into |
| Frontiers.SampledOnce | optimizer_support.go:204-226 | so exactly as many random numbers lead to an id as it has weight |
| Optimizations.Validate | optimizer_state.go:28-43 | Validate accepts exactly the states that may be resumed |
| Optimizations.CandidateIndex | optimizer_state.go:71-86 | the index is built exactly when every record has an id of its own and a candidate, and holds their ids |
| Optimizations.ValidateFrontier | optimizer_state.go:98-113 | a frontier is accepted exactly when it names records, each once |
| Optimizations.SampleExact | optimizer.go:940-955 | as many of the examples as asked for, by the random permutation's first positions, or all of them in order |
| Optimizations.AverageMeans | optimizer.go:62-68 | the average score is the mean: of one item its score, and each part of a batch weighs as many as it has |
| Optimizations.SumAdds | optimizer.go:53-60 | sums of scores add up over parts of a batch |
| Optimizations.ScoreForMeans | optimizer_support.go:294-306 | the score for some examples is the sum of the items of those examples |
| Optimizations.RecordScored | optimizer_support.go:11-33 | a record's score times its items is their sum, and by example it has the score of the example's last item and its last objectives that are not empty |
| Optimizations.Optimizer.Initialize | optimizer.go:425-463 | a fresh run starts with the seed as its one candidate, the best, recorded with the mean score and the scores by example of what the evaluator returned for it on the whole validation set, with the frontier of it, the metric calls of one validation counted, and saves that |
| Optimizations.Optimizer.Start | optimizer.go:394-423 | a run resumes the state loaded exactly when Validate accepts it and it was saved with the same configuration, as it is; it fails when it may not or loading fails, and starts with the seed when nothing is loaded or the empty state is |
| Optimizations.Optimizer.Evaluate | optimizer.go:826-851 | an evaluation is what the evaluator returned for the candidate on the batch, and counts its metric calls when that has an item for each example, and only then |
| Optimizations.Optimizer.AddRecord | optimizer.go:769-824 | a candidate added to any state that may be resumed leaves one that may be: the best is the new candidate exactly when it scores above the best before, and the frontier is that of all candidates |
| Optimizations.Optimizer.ProposeForIteration | optimizer.go:496-549 | the parent is evaluated on a batch of the training set within the metric calls left, and what a proposer changed of it is laid over it; a failed proposal changes nothing but the metric calls |
| Optimizations.Optimizer.EvaluateProposal | optimizer.go:664-707 | the proposal is accepted exactly as the criterion says of what it and its parent came to on the same examples, as many as the metric calls allow; a rejected one leaves every candidate as it was and is saved |
| Optimizations.Optimizer.AcceptCandidate | optimizer.go:769-824 | an accepted proposal is recorded with the mean and the scores by example of what the evaluator returned for it on as much of the validation set as the metric calls allow; with none left nothing changes |
| Optimizations.Optimizer.TryMerge | optimizer.go:553-571 | what it records, if anything, is a merge of the first two frontier candidates, with the scores it has on the validation set, that does not score below both; one it tries and does not record scores below both; it does nothing when merging is off, there are not two or no metric calls are left |
| Optimizations.Optimizer.EvaluateMerge | optimizer.go:578-614 | what a proposer changed of the first is laid over it and evaluated on as much of the validation set as the metric calls left allow; the record has the mean and the scores by example of that, and there is one exactly when it does not score below both |
| Optimizations.Optimizer.RunIteration | optimizer.go:467-492 | from any state that may be resumed: candidates are only ever added, each with its scores on the validation set, no candidate added scores above the best, every state saved may be resumed; an iteration after which the run goes on has compared a change of a candidate with it on the same examples and recorded it exactly when the criterion accepts, and has spent metric calls; one after which it stops has spent them all, and none ever spends more |
| Optimizations.Optimizer.Run | optimizer.go:290-307 | started fresh or resumed from any state Validate accepts, the run ends; metric calls never go above MaxMetricCalls, or above those it resumed with when there were more, and one that does not fail has spent them; every candidate it records has the mean of what the evaluator returned for it on the validation set; every state saved may be resumed and keeps every candidate, and the last one is the state returned. When the state it starts with has its highest candidate as best and its frontier current, as a fresh one has, so has every state saved |
| Optimizations.Optimizer.Iterate | optimizer.go:296-307 | the loop alone, from any state that may be resumed |
| Optimizations.SoundKept | optimizer.go:769-824 | progress from a state whose best is the highest and whose frontier is current leads to one of which that holds |
| Copies.DeepCopy | state.go:1577-1590 | deepCopy ends on every value, cyclic ones too, and gives a graph isomorphic to the original in new cells, the old ones as they were |
| Copies.Copier.CopyValue | state.go:1592-1659 | the recursion with its map of cells met: each cell is copied once, before what it refers to |
| Copies.PathCopied | state.go:1575-1590 | every way through the original is one through the copy, so sharing and cycles are kept |
| Copies.PathOriginal | state.go:1575-1590 | every way through the copy is the copy of one through the original and meets none of its cells |
| Maps.StepKeepsInv | pipeline_map.go:441-485 | every step of the concurrent map, in any order, keeps its invariant |
| Maps.SomeAtATime | pipeline_map.go:441-475 | never more than max(min(MaxConcurrency, n), 1) elements hold a slot, and those started are a prefix |
| Maps.NoneClearedAfter | pipeline_map.go:522-533 | once an element has cancelled the others or the context has ended no check of takeSlot passes, and an element starts only if its check had passed before |
| Maps.StartsLate | pipeline_map.go:452-457 | a map that returns has started an element after that exactly when the loop was past the check then, and only that one |
| Maps.LateStart | pipeline_map.go:452-457 | an interleaving of two elements in which the second starts after the first has failed and cancelled it |
| Maps.SameAsOneByOne | pipeline_map.go:441-485 | a map whose context does not end returns what the sequential map does, in input order, or is stopped by an element that fails alone, in a MapCollect by a Budget error |
| Maps.Finish | pipeline_map.go:413-435 | a map that fails stores and stages nothing; one that succeeds stores the list of its elements' outcomes in input order and stages what its successful elements staged, in that order |
| Maps.Join | pipeline_map.go:212-240 | the list joined has an entry for each element, in input order |
| Maps.CommitsAlone | pipeline_map.go:383-435 | a map whose context does not end commits exactly when no element run alone fails, or in a MapCollect none with a Budget error; the list has the value of each element that succeeds alone, in their order, and what is staged is theirs |
| Maps.StagedMeans | pipeline_map.go:413-435 | what is staged is what each element that succeeded staged, in the order of the elements |
| Maps.Progress | pipeline_map.go:452-477 | every step brings the map nearer its end |
| Maps.NeverStuck | pipeline_map.go:452-477 | until it has ended some step can be taken |
| Parallels.CheckChildren | pipeline_flow.go:73-89 | children are accepted exactly when no key is declared twice |
| Parallels.StepKeepsInv | pipeline_flow.go:99-119 | every step of the concurrent children, in any order, keeps the invariant |
| Parallels.SameAsAlone | pipeline_flow.go:99-141 | a Parallel whose own context does not end commits exactly when every child succeeds alone, and then what they write alone; otherwise its first error is one a child fails with alone, never the cancellation's |
| Parallels.Finish | pipeline_flow.go:119-141 | it commits everything or nothing, tools in the order of the children, and returns the first error with those that are not what the cancellation led to |
| Parallels.AnyOrder | pipeline_flow.go:119-125 | committing children that checkChildren accepts in any order comes to the same values, since they never write a key twice |
| Parallels.Progress | pipeline_flow.go:99-119 | every step brings the Parallel nearer its end |
| Parallels.NeverStuck | pipeline_flow.go:99-119 | until every child is done some step can be taken |

## Left out

- RunTheorems.MergeSoundness: one direction only, by a shape that does not ask what a run can reach; the exact condition is that of ExactHazards.GuardedExactly.
- FailureRules.FallbackGoesUnasked: of a Fallback taken for the visit's own error; when a rewind has run out of visits before, the rules start again and RestoreOnError may have been asked.
- Retries.RetryCall: an attempt makes no retried calls of its own, and no concurrent call comes in between, while the call runs; those are Budgets.Meters.Report, BeginCall and Finish.
- Scopes.StepScope.Store: copying values in and out is Copies; that a Validate method or an enum tag refuses a value is a parameter.
- Maps.SameAsOneByOne: which of several failing elements stops a map depends on the interleaving; only that it is one that would stop it alone does not.
- Optimizations.Optimizer.Run: selectors are taken to return one of the records, NewID never to repeat nor to give an id of the state loaded, and a random permutation to be one.
- Composite steps inside the flow (WithPolicy, WithCache, Loop, Parallel, Map as a step, nested runs): a top-level step is one atomic success or failure with any writes, stores and staged results.
- Names are taken as trimmed; types are identities, and a value converts to a key's type when it has it. JSON conversion, schemas and enum tags are left out.
- Build's checks of tools, observers, candidate keys, budgets and nested steps, and the Validate methods of Branch and Fallback.
- Observers, spans, traces, run contexts, error wording, StepError details and recovered panics beyond "this hook failed".
- Contexts, deadlines and clocks are parameters: whether the context has ended, which runs have reached MaxDuration.
- MapCollectUntil, which runs its elements one after the other.
- Tool registries and sessions: staged writes are a map that is laid over the run's when it is committed.
- Collecting the text forms of values, JSON tokenising and quoting: the JSON walk starts from a value's tokens.
- Interior pointers, map keys that hold pointers and the kinds reflection tells apart beyond pointers, slices, maps, structs and interfaces in deepCopy.
- Rounding and NaN: scores are reals. The order in which a frontier is listed is not modelled.
- Reflection prompts, proposers, evaluators, files, HTTP and model providers are the optimiser's and the pipeline's environment.
