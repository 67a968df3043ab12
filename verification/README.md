# Verification of julep's compiler, analyses and stores

Julep compiles dataflow graphs, written step by step in a single-assignment style, into a tree of
`seq`/`par`/`alt`/`each` nodes that threads one environment record, and it checks, stores and freezes what it
compiles. This project models those parts and proves what they are for.

- **The graph compiler** (`Graph`, `Layering`, `Compiler`, `Passes`, `Scheduling`, `Builder`). `Reference` runs a
  graph's steps one at a time in declaration order over an environment and a mutable world; `Ir.Exec` interprets
  the compiled tree. `Theorems` proves that the two agree in result, in failure and in every effect on the world,
  nested branches and `each` bodies included, for the uniform env compiler and for `compile` with its linear-chain
  path, its quick start and its peephole. `Simulation`, `Leaves` and `Soundness` hold the argument. `Liveness` says what
  the env record holds at every layer, `Exactness` exactly when the compilers are right and what they do where they
  are not, `Nested` the same for arms and bodies, `Shortfalls` holds concrete graphs on which they go wrong, and
  `Compilable` says which graphs compile at all.
- **The inliner** (`Inlining`, `Substitution`, `FreshNames`): calling a sub-flow from a flow is substitution.
- **The approval-gate check and race admission** (`Manifests`, `Gates`, `Races`), against every interleaved run.
- **The content-addressed store** with its lease-backed mark-sweep (`Collector`), over every run of its operations.
- **Schema matching** (`Schemas`), **the settings expression parser** (`Settings`), **the JSON form of flows**
  (`Wire`) and **the version order** (`Versions`).

How to read the model:

- The world is the history of writes. A tool or reasoner answers as a function of its argument and of that history,
  so a read sees every earlier write and nothing else. `Honest` says that a tool declared read-only does not write;
  every theorem that reorders reads assumes it, as the compiler does.
- A graph is well formed (`WellFormedness`) when its outputs are distinct and none is the input or the branch field, an
  `each` lists its items alone, its body's item is not also a captured name, its constants differ from its body's
  outputs, a body compiled by `compile` meets that compiler's guard, and in every nested graph branch subjects survive
  to their branches. The frontend sees to these (`julep/define.py:512-544`, `1464-1547`), but for the guard and for
  what stands under "what the code does" below; `Liveness.ReadSubjectsSurvive` covers its branch subjects.
- The host's own conversions (iteration, `dict()`, `str()`), user pures and the hash are parameters about which
  nothing is assumed.
- Where the code changes state step by step (the sort, the layering loop, the layer loop of both compilers, the
  peephole, graph building, name search, the two analyses' walks, the store, the parser, version comparison) the
  model has methods with loops or classes with fields, each proved against the function that the theorems are about.
- Lists of field names are sets: only membership reaches a node, whose field arguments are dictionaries. Switch cases
  stand in key order, the order the code sorts them into.
- `GraphDefinitionError`, `DefineError`, `GCError` and the parser's `ValueError` are `Err`, or a refusal.

What the code does where its comments, tests or documentation say otherwise (the model follows the code):

- `compile` starts the record from the first step, run on the raw input, and drops the input
  (`julep/dag.py:334-355`). If the first step is a branch that reads the input, the program fails on what is not a
  record of it, and on a record it silently reads the record's field in place of the record
  (`Exactness.FirstBranchFails`, `FirstBranchReadsInside`, `FirstBranchExact`; `Shortfalls.LeadingBranchFails`).
- The same start loses the input for an `each` body that captures it, because captures are not counted as consuming
  it (`julep/dag.py:891-902`, `1039-1048`), and for a graph that returns its input, which `_validate_output_name`
  accepts (`julep/dag.py:450-452`). `Exactness.QuickStartExact` and `CompileExact` say exactly when the start is right;
  `Shortfalls.CapturedInputIsDropped` and `ReturnedInputIsDropped` are instances.
- A sole step that lists the input twice is handed the input itself instead of a merge (`julep/dag.py:322-339`),
  whatever leaf it is: `Shortfalls.SoleStepExact`, and `SelfMergeFails` for `x | x` (`julep/define.py:397-413`).
- A branch subject is not counted as a source of its branch (`julep/dag.py:833-839`), so liveness may prune it:
  `Exactness.CompileEnvExact` says exactly when, and `Liveness.FieldsAtForm` which fields survive;
  `Shortfalls.UnreadSubjectIsPruned` is an instance. `Nested.BranchExact` and `EachExact` say the same of an arm and of
  a body: the step that holds it fails on exactly the runs that enter it.
- An `each` whose item's name is also captured packs the captured value over every item (`julep/dag.py:751-755`,
  `866-879`): `Soundness.CapturedItemIsOuter` says what the program then computes, `Exactness.CapturedItemExact` on
  which lists that is right for a body that returns its item; `Shortfalls.BodyReturningItsItem` is an instance.
- An `each` with captures walks any iterable, while `julep/dsl.py:233-251` promises an error for what is not a list.
  The reference semantics follows the code; `Exactness.NonListExact` says exactly when the promise is kept, and
  `Shortfalls.TextIsWalked` is an instance of the contrary.
- The inliner does not check whether a nested graph that reads a renamed name binds the new one
  (`julep/define.py:1169-1206`): `Substitution.CapturedRenameGoesWrong`. Binding it where no such read is in scope does
  no harm, and neither does binding a name that was not renamed (`Inlining.StepSpared`).
- The gate check calls itself conservative, but counts on a race, hedge or quorum for a gate if any one branch has it,
  though another may win (`Gates.RacesDefeatTheCheck`). `Gates.SureGates` is the verdict put right;
  `Gates.MissedCallsAreExact` says exactly which calls the check misses, and `Gates.CheckIsExact` when it misses none.
  Race admission keeps gates out of races altogether: `Races.ChecksTogetherAreSafe`. Loop bodies are not entered
  at all; the corrected walk enters them, and `Gates.LoopsAreNotChecked` says what a loop hides.
- Writing, reading and writing a node again loses an empty cache hint and an empty channel list, and nothing else:
  `Wire.WireRoundTrip`.

## Model

| member | source | states |
|---|---|---|
| Theorems.CompileEnvPreserves | julep/dag.py:977-1012 | For every well-formed graph, on a record of exactly the initial fields, the env program ends in the same value or failure and the same world as running the steps one by one in declaration order |
| Theorems.CompilePreserves | julep/dag.py:306-376 | The same for `compile` on a raw input, through the linear chain, the quick start and the peephole, whenever its guard holds |
| Theorems.CompileRefinesCompileEnv | julep/dag.py:306-386 | `compile` on v and `compile_env` on the record {input: v} do the same wherever both succeed |
| Theorems.BoundFlowPreserves | julep/define.py:614-628 | A flow with all parameters but one bound runs its graph with those constants and the last parameter given |
| Exactness.CompileEnvExact | julep/dag.py:977-1053 | On a run the graph completes, `compile_env` is right if and only if every branch's subject is among the fields tracked at its layer |
| Exactness.CompileExact | julep/dag.py:306-376 | On a run the graph completes, with an item for each `each` that captures the input, a graph whose first step may run on the raw input compiles right if and only if the guard holds |
| Exactness.QuickStartExact | julep/dag.py:334-369 | For a quick start from a leaf the condition is that no later step, nor the result, wants the input |
| Exactness.NoCaptureWasDropped | julep/dag.py:1039-1048 | A program from which the input was dropped ends only if no step captured it, given that each captor got an item |
| Exactness.MissingCaptureFails | julep/dag.py:668-695 | Any `each` that captures a name the record lacks fails on its first item |
| Exactness.FirstBranchFails | julep/dag.py:334-355 | A quick start on a branch that reads fields fails on every input that is not a record of them |
| Exactness.FirstBranchReadsInside | julep/dag.py:334-355 | On a record with a field of the input's name, such a program is the graph on that field's value |
| Exactness.FirstBranchExact | julep/dag.py:334-355 | On every input and every run the graph completes, with an item for each `each` that captures the input, a quick start on a branch is right if and only if nothing after the branch wants the input, subjects survive, and the branch reads nothing, or the input is a record whose field of that name the graph treats like the record itself; where something wants the input, the run on that field is taken to complete too |
| Exactness.NonListIsWalked | julep/dsl.py:233-251 | Over a value that is no list a compiled `each` fails if it captures nothing or the host cannot walk the value, and otherwise runs its body on what the host walks |
| Exactness.NonListExact | julep/dsl.py:233-251 | Where those items would all go through, it refuses the value if and only if it captures nothing or the host cannot walk it |
| Nested.BranchExact | julep/dag.py:913-974 | On a run its arm completes, a compiled branch is right if and only if the subjects of the arm it takes are held |
| Nested.EachExact | julep/dag.py:698-742 | On a run it completes, a compiled `each` that captures is right if and only if the list is empty or its body's subjects are held |
| Exactness.CapturedItemExact | julep/dag.py:751-755 | An `each` whose body returns its item, under a captured name, is right exactly on lists of nothing but the outer value |
| Soundness.GraphSound | julep/dag.py:977-1012 | The env program agrees with the graph inside any enclosing environment that matches the record on what the graph reads |
| Soundness.EachSound | julep/dag.py:668-695 | Closure conversion: packing captures and constants per item, unpacking and running the compiled body does what the body does in the enclosing scope extended by the item, on every list, in order |
| Soundness.CapturedItemIsOuter | julep/dag.py:668-695 | When the item's name is also captured, the program runs the body once per item with the item bound to the outer value |
| Soundness.PackedItemSound | julep/dag.py:713-738 | One packed item: unpacking restores a scope on which the body runs as in the enclosing one |
| Soundness.RawItemsSound | julep/dag.py:741-742 | Without captures or constants the body compiled on the raw item does the same, item by item |
| Soundness.BranchSound | julep/dag.py:913-951 | Lowering through the reserved field evaluates the predicate once on the same reading, takes the same arm, and lets no arm see the reserved field |
| Soundness.ArmSound | julep/dag.py:962-974 | An arm compiled over its entry fields alone does what it does in the whole enclosing environment |
| Soundness.FastStartSound | julep/dag.py:334-369 | Starting the record from the first step's result, and dropping the input, loses nothing when nothing later reads the input |
| Soundness.ChainSound | julep/dag.py:313-316 | In a linear chain the flowing value is at every point the one field the next step reads |
| Soundness.CompileSound | julep/dag.py:306-376 | `compile` agrees with the graph in any environment that binds the input |
| Leaves.LeafStepSound | julep/dag.py:619-649 | Projection and leaf together do what the step does: input by default, one field, merge, or record |
| Leaves.LoweredBranch | julep/dag.py:934-951 | Decide, store the decision, prune, and run the alternatives, from any record with the branch's fields |
| Simulation.LayerSound | julep/dag.py:602-616 | The branches of a layer, all given the same record, produce the bindings its steps make one after another |
| Simulation.LayerStep | julep/dag.py:997-1008 | A layer fails where its steps fail and otherwise leaves the pruned record of exactly their bindings |
| Simulation.BoundaryAdvances | julep/dag.py:1015-1029 | Liveness: after every layer the record holds exactly the tracked fields and every bound field a later step, arm, capture or the result still needs |
| Liveness.FieldsAtForm | julep/dag.py:1015-1029 | Past the first layer the tracked fields are exactly what is bound so far and still read by a later step, or the result |
| Liveness.NothingAskedIsMissing | julep/dag.py:1015-1048 | At every layer of a sorted graph the tracked fields hold all sources of each of its steps, and every key its plucks, packs, merges and each_packs ask for |
| Liveness.ResultIsNeverDropped | julep/dag.py:1009-1011 | The result is tracked past the last layer |
| Liveness.EveryLayerIsReached | julep/dag.py:993-1012 | A program that ends passes every layer with a record of exactly the tracked fields, on which each node of the layer runs to its end |
| Liveness.HeldAtEveryLayer | julep/dag.py:954-959 | Branch subjects survive if and only if each is in the fields tracked at its branch's layer |
| Liveness.ReadSubjectsSurvive | julep/dag.py:833-839 | Subjects that are also read by an arm, or listed, always survive |
| Compilable.EnvCompiles | julep/dag.py:379-386 | `compile_env` accepts every well-formed graph whose sources are in order at every nesting and whose records list an input |
| Compilable.RawCompiles | julep/dag.py:306-376 | `compile` accepts every such graph, but for a lone `each` that captures the input |
| Simulation.PiecesSound | julep/dag.py:997-1012 | The nodes of all layers compute what running the layers' steps computes |
| ExecFacts.ExecCollapse | julep/dag.py:771-787 | Turning a one-field prune and its pluck into the pluck alone preserves every run |
| ExecFacts.ExecParOf | julep/dsl.py:165-183 | The left-leaning par of branches gives each the same input and collects the results in order |
| ExecFacts.ExecPrune | julep/dag.py:1051-1053 | A prune restricts the record to its fields, and fails only if one is missing |
| Layering.DeclaredFrom | julep/dag.py:484-521 | Acceptance by the sort means every source is bound at its step |
| Layering.LayersReorder | julep/dag.py:543-582 | Running the layers' order gives the result, failure and world of running declaration order |
| Layering.LayersPartition | julep/dag.py:543-582 | The layers hold exactly the given steps, each once |
| Layering.LayersAreReady | julep/dag.py:585-586 | No step reads what its own or a later layer produces |
| Scheduling.TopologicalSort.Visit | julep/dag.py:491-517 | The depth-first visit places a step after its producers and fails on any source not produced strictly earlier |
| Scheduling.DepthFirstSort | julep/dag.py:484-521 | The sort succeeds if and only if every in-graph source is produced by a strictly earlier step and every other is the input or external, and then returns the declaration order |
| Scheduling.NextGroup | julep/dag.py:558-577 | One round takes exactly the ready steps ahead of the fence and keeps the rest in order |
| Scheduling.EffectFencedLayers | julep/dag.py:543-582 | The layering loop terminates and equals the recursive layering |
| Scheduling.LayersSucceed | julep/dag.py:543-582 | Layering sorted steps whose sources are supplied never meets the cycle error |
| Scheduling.CycleErrorIsMissingInput | julep/dag.py:550-557 | On sorted steps the cycle error means exactly that some step reads an input field that was not supplied |
| Scheduling.FencesHold | julep/dag.py:543-582 | No step lands on the other side of a barrier from where it was declared |
| Scheduling.BarriersAreAlone | julep/dag.py:589-599 | Every barrier is a layer by itself |
| Passes.Binary | julep/dsl.py:165-173 | The combinator loop builds the left-leaning chain |
| Passes.CollapsePrunePluckPairs | julep/dag.py:771-787 | The peephole's scan equals the collapse that is proved to preserve runs |
| Passes.DetectLinearChain | julep/dag.py:524-540 | Counting consumers recognises exactly the chains in which each step reads the one before and nothing else does |
| Passes.CompileLayer | julep/dag.py:602-616 | The nodes of one layer in the order of its steps, and the fold that puts their results back |
| Passes.CompileLayers | julep/dag.py:993-1012 | The loop that grows the node list and the tracked fields equals the recursive form |
| Passes.CompileEnvGraph | julep/dag.py:977-1012 | `compile_env` as the code runs it equals the function the theorems are about |
| Passes.CompileLayered | julep/dag.py:322-371 | The sole-step, quick-start and plain paths pick the pieces the theorems are about |
| Passes.CompileGraph | julep/dag.py:306-376 | `compile` as the code runs it equals the function the theorems are about |
| Shortfalls.LeadingBranchFails | julep/dag.py:334-355 | A concrete well-formed graph that gives its input back and, compiled, fails on every input that is not a record of its subject |
| Shortfalls.SoleStepListingInputTwice | julep/dag.py:322-339 | A concrete graph on which `compile` succeeds where the graph fails |
| Shortfalls.SelfMergeFails | julep/define.py:397-413 | On every host, a flow that merges its input with itself gives a record back, and compiled it fails on every record |
| Shortfalls.SoleStepExact | julep/dag.py:322-339 | A graph of one leaf over its input, of any kind and with any pure, compiles right, for every host and input, if and only if it lists the input at most once |
| Shortfalls.BodyReturningItsItem | julep/dag.py:866-879 | A concrete body that returns its item under a captured name returns the outer value |
| Shortfalls.CapturedInputIsDropped | julep/dag.py:1039-1048 | A concrete graph whose `each` captures the input: `compile` fails where the graph succeeds |
| Shortfalls.ReturnedInputIsDropped | julep/dag.py:450-461 | A concrete graph that returns its input: accepted, and never right where the graph succeeds |
| Shortfalls.TextIsWalked | julep/dsl.py:233-251 | A concrete `each` that takes a text letter by letter |
| Shortfalls.UnreadSubjectIsPruned | julep/dag.py:833-839 | A concrete branch subject that nothing else reads is pruned away, and every run fails |
| Builder.GraphBuilder.Add | julep/dag.py:104-161 | A step joins last and becomes the result unless one was named; reserved or repeated outputs change nothing |
| Builder.GraphBuilder.AddStep | julep/dag.py:104-161 | A leaf step is admitted exactly if its output is neither reserved nor taken |
| Builder.GraphBuilder.AddCond | julep/dag.py:163-184 | The same for a cond with its arms and subject |
| Builder.GraphBuilder.AddSwitch | julep/dag.py:186-209 | A switch needs a case |
| Builder.GraphBuilder.AddEach | julep/dag.py:211-266 | An `each` may capture constants, the input and earlier outputs only |
| Builder.NoBuiltGraphBindsTheBranchField | julep/dag.py:464-470 | However a graph was built, the compiler's branch field is not among its outputs, and these are distinct |
| Reference.ReadsKeepTheWorld | julep/dag.py:589-599 | A step that is not a barrier leaves the world as it was, at any nesting |
| Inlining.CopiedGraphRuns | julep/define.py:1169-1206 | A copied nested graph runs as the original does when none of its renamed reads is captured |
| Inlining.CopiedStepRuns | julep/define.py:1209-1279 | A copied step under renamed externals runs as the original does, nested arms and bodies included |
| Inlining.CapturesSurvive | julep/define.py:1169-1206 | A copied `each` captures something exactly if the original does |
| Inlining.ArmSourcesImage | julep/define.py:1169-1206 | What a copied arm reads from outside is the renaming of what the original reads |
| Substitution.InlinedCallRuns | julep/define.py:1060-1076 | The steps of an inlined call end in the flow's own value, failure and world, and leave every earlier binding unchanged |
| Substitution.InliningIsSubstitution | julep/define.py:1060-1166 | In any caller, whatever follows, the enlarged graph computes what one opaque step calling the flow would |
| Substitution.InlinedStepRuns | julep/define.py:1351-1374 | Remapped inputs, the default input included, read what the copied step reads |
| Substitution.CapturedRenameGoesWrong | julep/define.py:1169-1206 | A concrete inlined call whose arm captures the renamed handle |
| Substitution.CapturingNamesAreFresh | julep/define.py:1079-1090 | The names of that call are ones the inliner would choose |
| FreshNames.BuildContext.InlineOutputName | julep/define.py:1079-1090 | The search ends, and finds the original name if free, else the first free candidate |
| FreshNames.NextCandidate | julep/define.py:1084-1088 | Candidates never repeat, so each taken one is a new bound name |
| FreshNames.BuildContext.PlanRenaming | julep/define.py:1068-1073 | Every output of the flow gets a name that is new and shared with no other |
| FreshNames.BuildContext.InlineFlow | julep/define.py:1060-1076 | The caller's graph grows by exactly the renamed steps, or stops at the first step it refuses |
| Gates.GateCheck.CheckAlwaysGates | julep/capabilities.py:459-484 | The cached recursion computes whether the node is sure to gate |
| Gates.GateCheck.Walk | julep/capabilities.py:517-545 | The walk appends exactly the calls not dominated by a gate |
| Gates.CheckApprovalGates | julep/capabilities.py:436-545 | The check reports the ungated approval calls of the whole flow |
| Gates.SureGatesHappen | julep/capabilities.py:459-484 | A node that is sure to gate, a race, hedge or quorum included, has a gate on every complete run |
| Gates.SureGatesIsExact | julep/capabilities.py:459-484 | On trees of prim, ident, arr, seq, joins and races of any kind, alt with cases, items, iterations and session loops: sure to gate if and only if every complete run contains a gate |
| Gates.NothingEscapesUngated | julep/capabilities.py:517-545 | With no call escaping the walk with the corrected verdict, every run, session loops included, whatever the interleaving, winner, choice, iteration count or cut, has a gate before every approval-required call |
| Gates.ApprovalSafety | julep/capabilities.py:436-545 | With no finding, the same holds if every node the check counts on for a gate is sure to have one, as a race is whose branches all gate, and no call escapes from a session loop |
| Gates.AlwaysGatesIsExact | julep/capabilities.py:459-484 | On such trees without races the check's own verdict is exact: always-gates if and only if every complete run contains a gate |
| Gates.EscapingIsExact | julep/capabilities.py:517-545 | On such trees, races and loops included, a call escapes the corrected walk if and only if some run reaches it with no earlier gate |
| Gates.MissedCallsAreExact | julep/capabilities.py:517-545 | What the check reports is always real, and the calls it misses are exactly those the corrected walk reports and it does not |
| Gates.CheckIsExact | julep/capabilities.py:517-545 | Where each node counted on is sure to gate and no call escapes from a loop, a call is reported if and only if some run reaches it with no earlier gate |
| Gates.RaceFreeNeedsNoCorrection | julep/capabilities.py:459-484 | Without races both verdicts agree, so the check's reports are exact |
| Gates.RacesDefeatTheCheck | julep/capabilities.py:459-484 | A race with a gate in one branch passes the check and can reach the call ungated |
| Gates.RacesOfGatesAreSound | julep/execution/interpreter.py:681-790 | A race each of whose branches gates is rightly counted on |
| Gates.LoopsAreNotChecked | julep/capabilities.py:517-545 | The check reports nothing in a session loop, and a run of the loop reaches ungated exactly the calls a run of its body does: those the corrected walk of the body reports |
| Gates.LoopHidesACall | julep/capabilities.py:517-545 | A loop around any one call that needs approval passes the check and reaches the call ungated |
| Races.FlattenRecoversGroup | julep/derived.py:73-111 | Flattening a group gives back its branches if and only if none is itself a group of that kind |
| Races.AssociationIsIrrelevant | julep/derived.py:90-111 | Flattening does not depend on how a same-kind group is associated |
| Races.BuildGroup | julep/derived.py:73-87 | The group loop builds the right-leaning chain, returns a single branch unwrapped and refuses an empty list |
| Races.CollectBranches | julep/derived.py:102-109 | The collecting recursion equals the flattening |
| Races.RaceScan.Scan | julep/derived.py:336-354 | The scan appends the diagnostics of each group once, at its root |
| Races.RaceAdmissionIsExact | julep/derived.py:251-357 | No error if and only if every call under a race, hedge or quorum, at any depth, is frozen, known, asserted and read-only or repeatable, and no sub-flow is under one |
| Races.AdmittedGatesAreSure | julep/derived.py:251-321 | Once gates are fixed as not repeatable, admitted races hold none, so each node counted on for a gate is sure to have one |
| Races.ChecksTogetherAreSafe | julep/derived.py:324-357 | A flow that passes both checks, and from whose session loops no call escapes, is safe on every run, races included |
| Races.FixedGateMayNotRace | julep/freeze.py:54-57 | The contract freezing gives the gate tool keeps it out of races |
| Collector.LocalStore.Put | julep/artifact_store.py:61-86 | A write files the bytes under their hash, or fails and changes nothing |
| Collector.LocalStore.Get | julep/artifact_store.py:88-98 | A read returns bytes only if they still have the digest asked for |
| Collector.LocalStore.Has | julep/artifact_store.py:100-101 | True exactly where a read can succeed on unchanged bytes and a write of those bytes would change nothing; an error for what is no digest |
| Collector.LocalStore.Delete | julep/gc.py:281-293 | Deleting removes that object and no other |
| Collector.WritesFailOnlyOnCollision | julep/artifact_store.py:61-101 | A write fails exactly on a hash collision, then reads back, and disturbs no other object |
| Collector.LeaseStore.Acquire | julep/gc.py:67-75 | A bundle has one lease, the last one acquired |
| Collector.LeaseStore.Release | julep/gc.py:77-82 | Releasing removes that bundle's lease and no other |
| Collector.ReachableClosure | julep/gc.py:110-156 | The closure walk computes every digest the manifest names, or fails on any malformed part |
| Collector.MarkAll | julep/gc.py:186-190 | The mark loop computes the union of the closures, and fails if any one is incomputable |
| Collector.Sweep | julep/gc.py:201-204 | The sweep loop removes exactly the collectable objects |
| Collector.Collect | julep/gc.py:162-211 | The collection reports and leaves what the specification says, deleting nothing unless every closure is known |
| Collector.RunsStaySane | julep/artifact_store.py:61-105 | Over every run of put, acquire, release and gc each object stays under its own hash |
| Collector.LeasedBytesSurvive | julep/gc.py:162-211 | Over every run, a complete closure stays complete and byte for byte the same while its lease is active |
| Collector.SweepIsExact | julep/gc.py:192-204 | A real sweep leaves an object exactly if some lease's closure holds it |
| Collector.SecondSweepFindsNothing | julep/gc.py:192-211 | A second sweep succeeds, marks the same digests and deletes nothing |
| Collector.FailClosed | julep/gc.py:178-191 | A collection goes through exactly if there is something to go by and every closure is computable; otherwise nothing changes |
| Schemas.MatchIsClosing | julep/freeze.py:357-363 | A served schema matches exactly if it is the expected one with `additionalProperties: false` inserted, one path at a time, at schema-bearing positions lacking it |
| Schemas.MatchIsPartialOrder | julep/freeze.py:357-363 | Matching is reflexive, antisymmetric and transitive |
| Schemas.NormalizeIdempotent | julep/freeze.py:277-350 | Normalizing twice is normalizing once |
| Schemas.NormalizedServedIsMatched | julep/freeze.py:277-350 | For any two documents the normalizer removes markers only: the served one is its result with schemas closed |
| Schemas.NormalizeDecides | julep/freeze.py:277-350 | The normalizer returns the expected document exactly when the served one adds nothing but markers |
| Settings.ParserIsExact | julep/dotctx_yglu.py:79-199 | The parser accepts exactly the written expressions of the grammar and gives each the value of its direct evaluation, in any environment |
| Settings.PrintedParses | julep/dotctx_yglu.py:90-96 | Printing with any white space and quoting, then parsing, gives the value back |
| Settings.ExprParses | julep/dotctx_yglu.py:98-139 | An expression before a delimiter is consumed to its last character and no further |
| Settings.NumeralScans | julep/dotctx_yglu.py:174-180 | The number scan takes all of a written numeral |
| Settings.BodyParses | julep/dotctx_yglu.py:141-172 | A quoted body with any escapes reads as what it stands for |
| Settings.EnvironmentDoesNotMatter | julep/dotctx_yglu.py:122-139 | Which texts parse does not depend on the environment |
| Settings.ExpressionParser.Run | julep/dotctx_yglu.py:90-96 | The parser object terminates on every input and computes the specified result |
| Settings.ExpressionParser.ParseExpression | julep/dotctx_yglu.py:98-107 | The dispatching method consumes exactly what the specification says, through nested defaults |
| Settings.ExpressionParser.ParseWordLiteral | julep/dotctx_yglu.py:109-120 | The word loop takes a literal only where it does not run on into a longer word |
| Settings.ExpressionParser.ParseQuoted | julep/dotctx_yglu.py:141-172 | The character loop reads the string and stops after its quote |
| Wire.NodeReadsBack | julep/ir.py:504-632 | Reading what any node wrote succeeds and gives the node with only its unwritten fields, empty annotations, hints and channel lists erased |
| Wire.WireIsLossless | julep/ir.py:504-632 | The erased node writes the same JSON if and only if the node holds no empty cache hint and no empty channel list of a loop |
| Wire.WireRoundTrip | julep/ir.py:504-632 | Writing, reading and writing again gives the same JSON for exactly those nodes |
| Wire.StepReadsBack | julep/ir.py:254-334 | Every step reads back as it was |
| Wire.AnnReadsBack | julep/ir.py:213-250 | Every annotation reads back, but for an empty cache hint |
| Wire.MergeReadsBack | julep/ir.py:377-408 | Every merge reads back as it was |
| Wire.BudgetReadsBack | julep/ir.py:337-370 | A budget reads back in its one normal form, which writes the same JSON |
| Versions.CompareVersions | julep/capabilities.py:400-411 | The comparison loop decides by the first difference of the zero-extended token lists, and ties exactly on equal trimmed tokens |
| Versions.VersionTokens | julep/capabilities.py:387-397 | The splitting and trimming loops compute the token list |
| Versions.VersionsAreTotallyOrdered | julep/capabilities.py:400-411 | Of two versions exactly one of before, after and same tokens holds |
| Versions.LessIsTransitive | julep/capabilities.py:400-411 | The order is transitive |
| Versions.DottedOrder | julep/capabilities.py:387-411 | Dotted numbers compare number by number, missing components as zero |
| Versions.VersionSatisfies | julep/capabilities.py:414-433 | A constraint is met exactly as its operator and the order say |
| Versions.OperatorsAgree | julep/capabilities.py:414-433 | The five operators are consistent with one another and with the order |
| Versions.ConstraintReadsBack | julep/capabilities.py:384-433 | A constraint written with any white space reads as its operator and version |

## Left out

- Theorems.CompilePreserves: the guard is shown necessary on completed runs by CompileExact and FirstBranchExact, and for a sole leaf, over all hosts and inputs, by SoleStepExact; a sole leaf that lists its input twice may be right on one run by failing on both sides.
- Exactness.CompileExact: an `each` over an empty list does not miss the input it captures, so lists with an item are asked for.
- Substitution.InliningIsSubstitution: assumes that no nested graph binds a new name around a read that is renamed to it, and that every branch names its subject, as the frontend's do. A captured read may still come to the same on one particular run; CapturedRenameGoesWrong shows that the first cannot be dropped.
- Soundness.EachSound: items run in index order; concurrent bodies with effects are not modelled.
- Simulation.LayerSound: a layer's branches run in order. At most one of them can have an effect, so the order shows in nothing but which failure comes first.
- Collector.LeasedBytesSurvive: operations happen one at a time; publishing while collecting is open in the source (`julep/gc.py:159-161`).
- Settings.ParserIsExact: characters are classified as in ASCII, and a fractional number stays its text, so rounding is not modelled.
- Versions.CompareVersions: version strings are ASCII.
- Gates.ApprovalSafety: plans compiled at run time and the tools an app uses inside are left out, and so are a hedge's delay and the order a join keeps when a branch reads the whole session; both only rule runs out, so safety holds.
- Gates.EscapingIsExact: exact for the runs as modelled, of which a hedge's delay and a degraded join allow fewer; plans are covered by safety but not by exactness.
- Ir.Exec: race-like merges, `iter_up_to`, `eval_plan`, `app`, `sub` and `loop` are marked unmodelled there; the graph compiler never emits them, and the theorems' equalities imply it.
- Node ids, annotations (retries, timeouts, cost), source spans, warnings and error texts are dropped from the compiled tree; only `Wire` keeps annotations.
- An authored `std.record` is interpreted by the host; with no inputs `compile_env` refuses it and the linear chain accepts it, in the model as in the code.
- Authored step arguments that are dictionaries are merged by `coerce`, so `dict.update` on a sequence of pairs is the host's affair.
- Empty output names, Python's recursion limit, and graphs built without the `add_*` methods.
- The passthrough that stands for a call of a flow without steps (`julep/define.py:1046-1054`): it would be an easy member.
- The inliner returns an unchanged nested graph itself, rather than an equal copy; sharing is not modelled.
- The advisory about rich race branches (`julep/derived.py:251-321`) and the identity-keyed `seen` set, which does nothing on trees.
- The compile-time rule that a switch's selector returns text beyond its conversion with `str()`.
- Reading malformed JSON nodes: the model fails where a key, kind or enumerated value is missing or unknown; Python's further attribute errors on wrong types are failures too, without their texts.
- Sharding, temporary files, fsync and the S3 store; `freeze` itself, signing, encryption, deployment, HTTP and the agent loop.
