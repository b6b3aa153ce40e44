# PRD-Agent: a verified model of the crash-recoverable agent

PRD-Agent runs an agent that may crash at any moment. A Python worker makes model and tool calls that must not be
repeated, and a Go control plane stores every step. This project models the parts that make this safe and proves what
they keep over every run, every interleaving and every crash.

`dafny verify dfyconfig.toml` checks the whole project.

## The parts

- **Execution ledger** (`Budget`, `Outcomes`, `LedgerProtocol`, `LedgerSafety`, `LedgerBudget`, `LedgerLimits`,
  `LedgerReplay`, `Ledger`, `Resume`). Every sink write is one step of a transition system, a process can crash after
  any step, and a new process rebuilds itself from the durable rows. `Ledger.RunExecutionLedger` is the object of the
  source; each of its sink writes is one label of the transition system, so the theorems about runs are theorems about
  the object.
- **Handshake and event stream** (`Handshake`, `HandshakeProgress`, `Stream`). The loop thread, the response generator,
  the ACK call and the control plane's stream loop interleave freely; `HandshakeProgress` is what gets delivered, and
  `Stream` the generator's numbering and closing of the stream.
- **Knowledge and investigation** (`Knowledge`, `KnowledgeBuild`, `KnowledgeFindings`, `KnowledgeLaws`,
  `Investigation`). `Knowledge` defines what a build computes, `KnowledgeBuild` is the build as loops over dictionaries,
  `KnowledgeFindings` says what a build finds in terms of the items and the results alone, `KnowledgeLaws` holds what
  builds keep, and `Investigation` is the bounded, resumable loop on top.
- **Advanced draft graph** (`Strings`, `Draft`, `Grounding`, `GroundingGate`, `AdvancedGraph`, `GraphNodes`,
  `GraphRuns`). Units and scoped revisions, the grounding and quality gates, and the graph of nodes with its checkpoints
  and resumptions: what each node does, and what whole runs keep.
- **Outline validation** (`Outline`). The depth-first cycle check and the forest and partition check.
- **Context compaction** (`Extraction`, `Reduction`, `Compaction`). The extractive relation on JSON trees, the
  deterministic reduction, and omission under a bound.
- **Failing cases** (`Instances`). Reachable inputs for the promises that fail, beside the conditions proved elsewhere.

## Where the code falls short of what it promises

Where a promise fails, a concrete failing case and the exact condition under which the code does meet it are proved. Two
checks, the quality repair of structured drafts and the identifiers of a compacted view, never decide anything. The
model follows the code.

- A model call's output-token reservation is cut to what remains, its own reservation included after a restart. It asks
  for the same amount again if and only if twice its maximum was left, or nothing
  (`LedgerBudget.ReservationSurvivesRestartIff`). With a limit and a maximum of ten it asks for none
  (`Instances.ReservationIsForgotten`). The identity check does not notice a different reservation.
  `LedgerBudget.RepresentedExactIff` says exactly when one breaks the accounting, and
  `Instances.SmallerReservationMisleads` is such a run.
- A replay returns the original value if and only if it asks for the schema the outcome was stored under and its
  validator accepts the value (`LedgerReplay.ReplayReturnsOriginalIff`). The identity check compares neither
  (`Instances.OtherSchemaIsRefused`).
- A transition is charged beside what is consumed only, and a call presented again may ask for more than it reserved.
  Either takes twice every limit in a run of a few steps (`LedgerLimits.TransitionExceeds`,
  `LedgerLimits.EnlargementExceeds`). Without overruns no run exceeds a limit if and only if calls and transitions share
  no dimension and calls presented again ask for no more, or reserve nothing (`LedgerLimits.LimitSafetyIff`).
  `LedgerBudget.LimitSafety` bounds every run.
- Commit before effect holds in every interleaving if and only if the ACK timeout is positive; the constructor's default
  is zero (`Handshake.CommitBeforeEffectIff`, `Handshake.NoTimeoutNoCommit`). Calls without a cancellation check can run
  uncommitted even then (`Handshake.UncheckedEffectWithoutCommit`).
- The stream has no terminal event if and only if all signals were accepted and the loop ended with an exception outside
  the Exception hierarchy (`Stream.ExecuteRun`, `Instances.StreamWithoutEnd`).
- The grounding gate asks the first claim with a finding's identifier for its weight, so an informational claim hides a
  blocking one (`Grounding.ShadowedClaimPasses`). The identifier is a digest of run, generation, unit, type and
  statement, not of weight. GROUNDED implies the gate, after every sequence of builds, if and only if every claim that
  needs support and is not informational either counts itself or shares its statement with a counting claim of the same
  type, or of type CURRENT_STATE where it is a CONSTRAINT (`GroundingGate.GroundedImpliesGateIff`). Otherwise
  `GroundingGate.UnvouchedPasses` names a build of one or two parser facts after which the claim lacks support and the
  outcome is GROUNDED. Drafts that state no claim twice are safe over every run (`GraphRuns.ClaimsStatedOnceAreGated`).
- Without facts, one search makes every lacking claim that cited nothing unknown SUPPORTED as soon as there is any
  evidence, related or not (`AdvancedGraph.SearchSupports`, `AdvancedGraph.UnrelatedEvidenceSupports`).
- A process that crashes after a checkpoint goes on where it was if and only if the node was no supplement, or one with
  a lacking claim and the means to supplement (`GraphNodes.ResumesInPlaceIff`); then the crash costs nothing. Otherwise
  the node goes back to grounding, which turns claims still lacking into unknowns, while a process that crashes there is
  resumed at quality, without them (`GraphNodes.CrashSkipsGrounding`).
- The quality gate's repair is never asked for by structured drafts: a built unit is never blank
  (`GraphRuns.StructuredDraftsNeedNoRepair`).
- The extractive check is documented to retain values byte for byte. Python's equality lets 1 come back as true
  (`Extraction.OneComesBackAsTrue`) and any zero as negative zero (`Extraction.NegativeZeroComesBack`).
  `Extraction.VerbatimIff` gives the exact condition on the original.
- The compaction design pins mandatory context. The deterministic reduction drops duplicates and the oldest items of a
  mandatory evidence list, and the texts of units that are not depended on from a mandatory unit scope. It keeps a
  mandatory value if and only if there is nothing of this kind to take out (`Reduction.MandatoryIsKeptIff`;
  `Instances.DuplicateEvidenceIsDropped`, `Instances.UnitTextIsBlanked`).
- A scoped revision keeps keys and order if and only if the base keys are normal and its orders do not fall
  (`Draft.RevisionKeepsKeysIff`), which every built draft satisfies. A base unit under the key `A` comes back under
  another key (`Instances.RevisionRenames`). A revision drops all claims of the draft, so the revised draft is always
  GROUNDED (`Grounding.DefaultClaimsAreGrounded`).
- The identifier check of semantic compaction never refuses a view that the extractive check would accept
  (`Compaction.ValidateSemanticView`).

## Assumptions

- SHA-256 and canonical JSON are injective, also where a digest is cut to a prefix. Digests are modelled as constructors
  that carry what was hashed; for excerpts the assumption is the explicit precondition `CollisionFree`.
- A sink call that returns is durable, and a sink failure ends the process. The store keeps one latest row per operation
  key and gives a new process the consumed budget summed over terminal rows.
- Bundles' tuples sorted by identifier are modelled as maps and sets.
- Floats are the finite double-precision values and negative zero. NaN and the infinities, which canonical JSON refuses,
  are not JSON values.
- `json.loads` reads some excerpt as a parser fact of scope CURRENT_STATE and some as one of scope TARGET_DECISION
  (`ReadsBoth`).
- Validators are idempotent: what a validator produced it accepts unchanged, or not at all. Replay and recovery pass the
  stored value through the validator once more, so they rely on this. It is the precondition `Stable` of `Replay`,
  `Recover`, `Continue` and `Execute`, and `Evidence.NormalizeRoundTrip` proves it of the capability normalizer.
- The splitting of a text into tokens, whether a fact mentions a claim, `json.loads`, `str()`, blankness of a query and
  the wording of the unknowns appendix are parameters. `str()` of a text is that text, and the appendix has a heading.
- The supplement investigation callback keeps the repair count and the draft bundle.

## Model

| member | source | states |
|---|---|---|
| Budget.Check | agent-python/agent/runtime/budget.py:77-83 | the limit check accepts exactly the requests that fit in all nine dimensions and otherwise reports the first dimension, in table order, that is negative or over |
| Budget.BudgetState.Reserve | agent-python/agent/runtime/budget.py:61-63 | a reservation is taken exactly if it fits beside what is consumed and reserved; a refusal changes nothing |
| Budget.BudgetState.Finish | agent-python/agent/runtime/budget.py:65-67 | finishing releases the reservation, floored at zero, and adds the consumption |
| Budget.BudgetState.Consume | agent-python/agent/runtime/budget.py:69-71 | a transition is charged exactly if it fits beside what is consumed, whatever is reserved |
| Budget.Remaining | agent-python/agent/runtime/budget.py:73-75 | what remains per dimension is the limit less consumed and reserved, never negative |
| Evidence.NormalizeRoundTrip | agent-python/agent/graph/runtime.py:1894-1941 | what the normalizer makes of a capability's items, typed or plain objects, reads back as these items, typed ones unchanged, and normalizing it again is accepted and changes nothing |
| LedgerSafety.InvokeKeeps | agent-python/agent/runtime/ledger.py:164-174 | entering an invocation keeps the ledger invariant: the key was never entered before |
| LedgerSafety.StepKeeps | agent-python/agent/runtime/ledger.py:110-201 | every sink write, crash and restart keeps the invariant of rows, artifacts and positions, and only advances rows |
| LedgerSafety.AtMostOneInvocation | agent-python/agent/runtime/ledger.py:133-186 | over any number of processes and any crashes, the invocation of an operation key is entered at most once |
| LedgerSafety.RowsOnlyAdvance | agent-python/agent/runtime/ledger.py:133-201 | along any run no key loses its identity, no terminal row changes and no status goes back |
| LedgerBudget.FinishAccounts | agent-python/agent/runtime/budget.py:35-36 | releasing a reservation never clips: the totals over rows move exactly as the budget does |
| LedgerBudget.RebuildEqualsLive | agent-python/agent/runtime/ledger.py:55-61 | over every run a live process holds the rows, artifacts and consumed budget that a new process would rebuild from the durable rows, and also the reserved budget when calls presented again carry their stored reservations |
| LedgerBudget.LimitSafety | agent-python/agent/runtime/budget.py:61-83 | over every run consumed plus reserved exceeds no limit by more than the summed overruns of finished calls, the enlargements of calls presented again with a larger reservation, and the transitions charged where something is reserved |
| LedgerBudget.CarefulLimitSafety | agent-python/agent/runtime/budget.py:61-83 | where calls and transitions use disjoint dimensions and no call asks again for more, the overruns alone can exceed a limit, and nothing does if no call overran; LimitSafetyIff is the converse |
| LedgerLimits.LimitSafetyIff | agent-python/agent/runtime/budget.py:61-83 | given the dimensions in which calls reserve and transitions charge, and whether calls presented again may ask for more, no run without overruns exceeds any limit if and only if the dimensions are disjoint and calls ask for no more or reserve nothing |
| LedgerLimits.TransitionExceeds | agent-python/agent/runtime/budget.py:69-71 | for all limits: beside a call that reserved them a transition charges them again, so twice each limit is taken although no call overran |
| LedgerLimits.EnlargementExceeds | agent-python/agent/runtime/ledger.py:145-166 | for all limits: a call that reserved them, presented again after a restart, is started with twice each limit reserved |
| LedgerBudget.NoAdmissionOverLimit | agent-python/agent/runtime/budget.py:77-83 | once a consumed total is over its limit, no new key is admitted as a call or as a transition for the rest of the run, through any crashes and restarts |
| LedgerBudget.ReservationSurvivesRestartIff | agent-python/agent/model_execution/module.py:112-127 | a reserved model call presented again after a restart asks for the same output tokens if and only if twice its maximum was left, or nothing |
| LedgerBudget.RepresentedExactIff | agent-python/agent/runtime/ledger.py:223-226 | after a reserved call is presented with another reservation and carried to success or failure, memory equals a rebuild if and only if in every dimension the reservation is the stored one, or larger while nothing else is reserved |
| LedgerReplay.SucceededHasArtifact | agent-python/agent/runtime/ledger.py:175-186 | every durable success has its artifact under its key, request hash and content hash, holding the value first produced |
| LedgerReplay.RowsTell | agent-python/agent/runtime/ledger.py:110-186 | over every run a durable row names an error exactly if the call failed, a failed row charges its whole reservation, a transition holds none, and neither cites an outcome or evidence |
| LedgerReplay.ProducedOnce | agent-python/agent/runtime/ledger.py:164-177 | the value produced for a key never changes along any run |
| LedgerReplay.ReplayReturnsOriginalIff | agent-python/agent/runtime/ledger.py:203-215 | presenting a succeeded call again writes and charges nothing and returns the original value if and only if it asks for the stored schema and its validator accepts the value |
| LedgerReplay.RecoveryFindsOriginal | agent-python/agent/runtime/ledger.py:149-158 | however a started call was left, presenting it again takes up the value first produced for its key if its outcome is stored under the schema asked for, and otherwise does nothing |
| LedgerReplay.RecoveryAgrees | agent-python/agent/runtime/ledger.py:188-201 | from every state in which a started call has a stored outcome, recovery leaves exactly a success that cites this outcome and charges the full reservation, writes the derived evidence, and enters and produces nothing; a failing derivation changes nothing |
| LedgerReplay.LeftCallIsRecovered | agent-python/agent/runtime/ledger.py:178-201 | a call left anywhere after its outcome was written, whatever calls, aborts, crashes and recoveries come in between, is recovered with the value it produced and leaves the row of the uninterrupted call, but for the charge, which is the full reservation and dominates any use within it |
| LedgerReplay.TransitionChargedOnce | agent-python/agent/runtime/ledger.py:110-121 | a transition whose key is durable changes nothing when repeated, whatever ran in between |
| Ledger.Index | agent-python/agent/runtime/reconcile.py:6-21 | a durable index keeps the first item of every key, and is refused exactly when a key has two identities |
| Ledger.SumReserved | agent-python/agent/runtime/ledger.py:57-60 | the loop over entries computes the total reserved by rows in flight |
| Ledger.CrashAndBoot | agent-python/agent/runtime/ledger.py:48-61 | a crash and a start leave the durable state and a process whose memory is rebuilt from it alone |
| Ledger.RunExecutionLedger.constructor | agent-python/agent/runtime/ledger.py:48-61 | a ledger built from any listing of the durable rows and artifacts is the live process of the system after a crash and a start |
| Ledger.RunExecutionLedger.Run | agent-python/agent/runtime/ledger.py:164-186 | a claimed call is started durably, invoked once and carried to a durable success or failure, as exactly one script of steps; it returns the invoked value exactly if the invocation, the derivation of evidence and the consumption all succeed, and raises otherwise |
| Ledger.RunExecutionLedger.Replay | agent-python/agent/runtime/ledger.py:203-215 | a finished call is answered from memory: a success is returned exactly if its outcome is legible under the schema asked for and its validator accepts it, with the value first produced and the recorded charge; anything else is refused; nothing changes |
| Ledger.RunExecutionLedger.Recover | agent-python/agent/runtime/ledger.py:188-201 | a started call with a readable outcome is completed with the value first produced and entered no second time, and what it answers is determined by the stored outcome; otherwise the outcome is unknown and nothing is written |
| Ledger.RunExecutionLedger.Continue | agent-python/agent/runtime/ledger.py:145-158 | a known key is replayed, refused, recovered or carried on, with exactly the answer its row and artifact determine; a returned value is the one first produced for the key, and only a returned or raised answer may have written anything |
| Ledger.RunExecutionLedger.Complete | agent-python/agent/runtime/ledger.py:178-201 | evidence and the final row follow a durable artifact, with the given charge |
| Ledger.RunExecutionLedger.Execute | agent-python/agent/runtime/ledger.py:133-186 | presenting a call performs exactly its script and gives exactly the answer that the old rows, artifacts and budget and the behaviour of the call determine; a returned value is the one first produced for the key, a fresh one was invoked now for a key never entered before, and a replayed one enters and produces nothing |
| Ledger.AnswersIff | agent-python/agent/runtime/ledger.py:133-215 | each answer the budget does not refuse is given if and only if its condition on the old state holds: a mismatch for another identity, a terminal failure for a failed row, an unknown outcome for a started call without a stored one, a decoding failure for a stored one that is not legible, a fresh value for a new or reserved call whose invocation, evidence and consumption succeed, and a replayed one, the value first produced, for a legible success or a legible started outcome whose evidence derives |
| Ledger.RunExecutionLedger.ConsumeTransition | agent-python/agent/runtime/ledger.py:110-121 | a new transition ends as a durable success exactly if it fits beside what is consumed and is else refused with the first dimension that does not; a known key is answered by its row: a mismatch for another identity, nothing to do for a success, else an unknown outcome; a repeated or refused one changes neither store nor budget |
| Resume.LedgerArtifactKeys | agent-python/agent/resume/validator.py:298-308 | the keys collected are exactly those some row owns by its output or, once started, by its operation |
| Resume.LedgerEvidenceRefs | agent-python/agent/resume/validator.py:310-340 | the references collected are exactly those recorded by rows or vouched for by capability artifacts whose bytes load as an envelope of the evidence schema, canonical or not and whatever the types of their fields |
| Resume.ValidateContract | agent-python/agent/resume/validator.py:215-221 | entries are accepted exactly when keys are non-empty and no key has two identities |
| Resume.IndexArtifacts | agent-python/agent/resume/artifacts.py:7-18 | artifacts are accepted exactly when their keys are distinct and not empty, and all are complete, of no negative generation, and hold the content they hash to |
| Resume.Hydrate | agent-python/agent/resume/validator.py:41-55 | hydration without a checkpoint accepts exactly the contexts whose contract and artifacts hold and in which no evidence is ahead, and no artifact but a valid information need plan |
| Resume.EveryCrashStateIsAccepted | agent-python/agent/resume/validator.py:223-235 | every durable state the ledger can leave at a crash before the first checkpoint satisfies what hydration accepts, in any listing order |
| Handshake.LoopKeeps | agent-python/agent/worker_server.py:546-550 | emit, the check after it and the effect behind the check keep that checked effects follow a commit |
| Handshake.GeneratorKeeps | agent-python/agent/worker_server.py:207-305 | the generator releases a signal only after its acknowledgement or after cancelling the run |
| Handshake.ControlKeeps | backend-go/internal/agentpool/pool.go:309-340 | the control plane acknowledges only what it has committed, and its steps keep the invariant of releases and acknowledgements |
| Handshake.RunKeeps | agent-python/agent/worker_server.py:517-550 | with a positive ACK timeout every interleaving keeps that releases, acknowledgements and passed checks follow a commit or a cancellation |
| Handshake.CommitBeforeEffectIff | agent-python/agent/worker_server.py:517-550 | in every interleaving emit returns only for a committed event or a cancelled run, and a checked effect follows a commit, if and only if the ACK timeout is positive |
| Handshake.NoTimeoutNoCommit | agent-python/agent/worker_server.py:517-535 | without a positive timeout a checked effect can run while nothing was ever committed |
| Handshake.UncheckedEffectWithoutCommit | agent-python/agent/information_need/planner.py:71-74 | an effect without a cancellation check can run uncommitted even with a positive timeout |
| HandshakeProgress.NextEventIsDelivered | agent-python/agent/worker_server.py:207-305 | after every run with a positive timeout that leaves the handshake quiet, a continuation commits exactly the next event, runs its checked effect and leaves the run uncancelled and quiet |
| HandshakeProgress.EveryEventCanBeDelivered | agent-python/agent/worker_server.py:517-550 | with a positive timeout some run commits any given number of events and runs their checked effects in order, without being cancelled |
| HandshakeProgress.AcknowledgedNeverTimesOut | agent-python/agent/worker_server.py:517-535 | once the ACK of a registered event has arrived, its wait never times out, whatever happens in between: it can only end with the release of the signal |
| HandshakeProgress.EmitEnds | agent-python/agent/worker_server.py:517-550 | from every reachable state the worker alone, without any step of the control plane, can end an emit under way: it returns or raises |
| HandshakeProgress.StoppedCommitsNothing | backend-go/internal/agentpool/pool.go:309-340 | once the control plane has stopped, on a failing handler or a rejected reply, nothing more is committed or acknowledged in any interleaving, and every checked effect is one of an event committed before |
| Stream.ForwardSignals | agent-python/agent/worker_server.py:207-305 | signals become consecutive events until one is refused, with strictly rising checkpoint sequences |
| Stream.CheckSignal | agent-python/agent/worker_server.py:213-287 | the checks accept exactly the signals that are complete, within their limits and, for a checkpoint, later than the latest one |
| Stream.ValidateResult | agent-python/agent/worker_server.py:609-659 | the checks accept exactly the results with complete attempts, sizes within the limits, a later checkpoint and a complete draft or a complete output but not both, or none for a terminal-only one |
| Stream.ForwardResult | agent-python/agent/worker_server.py:327-387 | a valid result adds its attempts, evidence, checkpoint, draft and output in this order, keeping the numbering |
| Stream.ResultEvents | agent-python/agent/worker_server.py:327-387 | the events of a result are its attempts in order and then the evidence, the checkpoint, the draft and the output, each exactly once and exactly if the result has it, in this order |
| Stream.CloseSuccessfully | agent-python/agent/worker_server.py:318-411 | a valid result is followed by its shadow artifact and RUN_COMPLETED, or by RUN_FAILED for an invalid artifact |
| Stream.Conclude | agent-python/agent/worker_server.py:306-425 | the end of a run is RUN_COMPLETED exactly on success, else RUN_FAILED, or nothing for an exception outside the hierarchy; for every ending the events added are exactly determined |
| Stream.ExecuteRun | agent-python/agent/worker_server.py:203-425 | for every loop behaviour the stream starts with RUN_STARTED, is numbered without gap or reuse, has rising checkpoints above the input's and at most one terminal event, the last; it is RUN_COMPLETED exactly on success, and the kinds of its events are determined for every ending |
| Outline.CycleCheck.Visit | agent-python/agent/unit/models.py:537-546 | a visit ends, fails only on a cycle, and otherwise leaves the key visited and the stack as it was |
| Outline.ValidateDependencyGraph | agent-python/agent/unit/models.py:532-549 | the depth-first check accepts if and only if the dependencies have no cycle |
| Outline.Climb | agent-python/agent/unit/models.py:506-518 | the climb accepts exactly the nodes that reach a root within three levels |
| Outline.Assign | agent-python/agent/unit/models.py:519-527 | a unit is accepted exactly when it is well formed and lists only its own nodes, none listed before |
| Outline.ValidateOutline | agent-python/agent/unit/models.py:490-529 | validation accepts exactly the well-formed outlines |
| Outline.ConfirmationNeverBlocks | agent-python/agent/unit/models.py:532-549 | without a cycle, short of all units confirmed, some unconfirmed unit has every dependency confirmed |
| Outline.AcceptedOutlineIsForest | agent-python/agent/unit/models.py:506-518 | in an accepted outline every node has a chain of at most three nodes up to a root |
| Outline.AcceptedOutlineIsPartition | agent-python/agent/unit/models.py:519-529 | in an accepted outline every node is listed at exactly one place, in the unit it names |
| Outline.AcceptedOutlineNeverBlocks | agent-python/agent/unit/models.py:490-549 | in an accepted outline some unconfirmed unit always has all its dependencies confirmed |
| Knowledge.Scan | agent-python/agent/knowledge/module.py:160-187 | the hash decides first, then the first authority that matches kind and binding; no match is an invalid source |
| KnowledgeBuild.Collect | agent-python/agent/knowledge/module.py:39-46 | the loop over items stores exactly the records of the valid ones and lists the reasons of the others |
| KnowledgeBuild.GroupFacts | agent-python/agent/knowledge/module.py:325-328 | grouping leaves each group of parser facts complete, and a group for every parser fact |
| KnowledgeBuild.ConflictIn | agent-python/agent/knowledge/module.py:331-353 | a group yields a conflict exactly when two of its facts have different values |
| KnowledgeBuild.DetectConflicts | agent-python/agent/knowledge/module.py:322-362 | detection marks exactly the facts in a clash and reports exactly the clashing groups, whatever order it visits them in |
| KnowledgeBuild.CoverTargets | agent-python/agent/knowledge/module.py:57-111 | the loop over targets computes coverage, unknowns and updates as defined |
| KnowledgeBuild.Build | agent-python/agent/knowledge/module.py:30-157 | the build computes its definition, on which the findings and all laws are proved |
| KnowledgeFindings.EvidenceIs | agent-python/agent/knowledge/module.py:39-46 | the evidence after a build is exactly that before it and that of the items whose hash is right and that are current under the first authority they name, each with its excerpt and the signature of the action |
| KnowledgeFindings.SearchFinds | agent-python/agent/knowledge/module.py:189-270 | after a search the facts are exactly those before it and one for each accepted excerpt that has every token of the query longer than one character, provided there is one; it quotes the excerpt, is for the targets, and is supported, of the type and scope of its source |
| KnowledgeFindings.ParserFinds | agent-python/agent/knowledge/module.py:189-270 | after a parser tool the facts are exactly those before it and one for each accepted excerpt that reads as an object of exactly the four fields with a known scope; it says what they say, and is supported or conflicting |
| KnowledgeFindings.RefusedIff | agent-python/agent/knowledge/module.py:160-187 | an item is refused for its hash, else for an unknown source, else for the version, access scope, revision or locator that the first authority it names finds |
| KnowledgeFindings.WhyOpenIs | agent-python/agent/knowledge/module.py:83-101 | the reason reported for open keys is that of the first refused item, else that there was no item, or that none helped |
| KnowledgeFindings.TargetsAre | agent-python/agent/knowledge/module.py:57-101 | a targeted key ends in conflict if an open conflict touches it, else covered if a supported fact is for it, else as it was; every other key is as it was |
| KnowledgeFindings.UnknownsAre | agent-python/agent/knowledge/module.py:83-101 | the unknowns are exactly those before and one for each targeted key left open, with the query |
| KnowledgeFindings.UpdatesAre | agent-python/agent/knowledge/module.py:57-111 | there is one update per target, in order, with its status before and after, the facts, unknowns and conflicts behind it and the reason |
| KnowledgeFindings.ConflictsAre | agent-python/agent/knowledge/module.py:322-362 | the conflicts after a build are exactly those about parser facts whose subject, predicate and scope another fact gives another value, with all facts and evidence about it |
| KnowledgeFindings.ProgressIs | agent-python/agent/knowledge/module.py:112-157 | a build has progressed exactly if it is the first or the supported facts, unknowns, conflicts or coverage differ from those the prior fingerprint stands for |
| KnowledgeLaws.CoveredAt | agent-python/agent/knowledge/module.py:57-101 | coverage changes at targets only: to conflicting if a conflict touches the key, else to covered if a fact supports it, else not at all |
| KnowledgeLaws.BuildKeeps | agent-python/agent/knowledge/module.py:30-55 | one build keeps the knowledge invariant and only adds |
| KnowledgeLaws.ChainGrows | agent-python/agent/knowledge/module.py:30-55 | over any sequence of builds evidence, fact and unknown ids only grow, a conflicting fact stays so and every conflict is part of a later one |
| KnowledgeLaws.ChainInvariant | agent-python/agent/knowledge/module.py:322-362 | after any sequence of builds facts cite stored evidence, conflicts cite stored facts and evidence, and a fact is CONFLICTING exactly when another parser fact has the same subject, predicate and scope but another value |
| KnowledgeLaws.FactsQuoteEvidence | agent-python/agent/knowledge/module.py:160-270 | after any sequence of builds every stored excerpt has its recorded hash, repository evidence lies in the authorized revision, and a direct fact quotes its stored evidence word for word and is code-verified exactly when the evidence is code |
| KnowledgeLaws.BuildIsFixedPoint | agent-python/agent/knowledge/module.py:30-157 | rebuilding a request on its own result leaves evidence, facts, unknowns, conflicts, coverage and both fingerprints unchanged and reports no progress |
| KnowledgeLaws.OrderIsIrrelevant | agent-python/agent/knowledge/module.py:39-55 | permuting evidence items changes nothing if the reason reported for open keys stays the same |
| KnowledgeLaws.PermutationKeepsBuild | agent-python/agent/knowledge/module.py:39-55 | permuting items that all validate changes nothing at all |
| KnowledgeLaws.DirectRound | agent-python/agent/knowledge/module.py:48-111 | a search build on knowledge without a clash raises no conflict, covers every target if it finds a new fact, and uncovers nothing |
| KnowledgeLaws.ConflictIsNeverCovered | agent-python/agent/knowledge/module.py:64-80 | a targeted key touched by an open conflict stays in conflict whatever later builds find |
| Investigation.NextGapIsFirst | agent-python/agent/investigation/policies.py:13-22 | the next gap is the first conflicting key if there is one, else the first missing, else the first partial one; none means all keys are covered or of another status |
| Investigation.Choose | agent-python/agent/investigation/policies.py:46-64 | the pending action, or else the one selected, is chosen if and only if it is a search of the current version with a query that is not blank and not too long, targets the gap, was not attempted and, if pending, has the signature it was recorded under; a repeated selection, and nothing else, ends as REPLAN_EXHAUSTED, and everything else raises |
| Investigation.RoundRecords | agent-python/agent/investigation/runner.py:147-188 | a round keeps all facts and records exactly the newly supported ones |
| Investigation.RoundCovers | agent-python/agent/investigation/runner.py:147-190 | without conflicts a round with a new fact closes the active gap and opens none, and no round uncovers a key |
| Investigation.Ready | agent-python/agent/investigation/runner.py:62-104 | the loop stops before an action exactly for complete coverage, no gap or a limit reached, in this order, with the limit it reports; otherwise neither limit is reached and the gap is the next one |
| Investigation.Round | agent-python/agent/investigation/runner.py:147-190 | a round extends the history by one signature and, without conflicts, strictly shrinks the set of gaps when it progresses |
| Investigation.Pass | agent-python/agent/investigation/runner.py:62-219 | a pass that does not stop adds one round and, without a prior clash, uses up a replan or strictly shrinks the set of gaps, whatever the limits |
| Investigation.Run | agent-python/agent/investigation/runner.py:44-219 | the loop ends even with unlimited iterations and tool calls if the prior knowledge has no clash; every round is explained by the state before it, the selection and what the tool returned, and the reason it stops for is exactly the one that its last state determines; it keeps signatures distinct, limits, replans and new-fact sets, and COVERED keys; a round is a replan exactly when the round before it found nothing new |
| Investigation.RaisedOnlyByCallbacks | agent-python/agent/investigation/runner.py:105-146 | a run ends by raising only where the selector or the tool raises, or the action offered may not be carried out, differs from the recorded one or is pending and was attempted before |
| Investigation.ObligingRunsNeverRaise | agent-python/agent/investigation/runner.py:105-146 | with a selector that always offers an admissible action, a tool that never raises and nothing pending, a run never ends by raising, nor for a repeated selection if the selector never repeats itself |
| Investigation.ResumeChain | agent-python/agent/investigation/runner.py:45-61 | any chain of INITIAL resumptions keeps signatures distinct, records within both limits, REPLAN records within the maximum, new-fact sets disjoint and, without a prior clash, COVERED keys COVERED |
| Strings.UnitKeyIsIdempotent | agent-python/agent/draft/models.py:336-338 | normalizing a unit key twice is normalizing it once, and exactly the normal keys are fixed |
| Draft.SortOrders | agent-python/agent/draft/models.py:242 | the sort orders units by their order |
| Draft.SortIsStable | agent-python/agent/draft/models.py:242 | units of the same order stay in the sequence they were given in |
| Draft.OrderedIsFixed | agent-python/agent/draft/models.py:242 | the sort leaves ordered units in place, ties included |
| Draft.ParseUnits | agent-python/agent/draft/models.py:220-242 | structured units are accepted exactly when all are objects with title and content and their normal keys differ, and are then sorted by order |
| Draft.UnorderedUnitsStay | agent-python/agent/draft/models.py:224-242 | units that name no order stay in the order they are given, at ten, twenty and so on |
| Draft.ParseClaims | agent-python/agent/draft/models.py:269-311 | structured claims are accepted exactly when each is an object of known type and criticality, names a unit by its normal key and states something, and keep their order |
| Draft.BuildIsWellBuilt | agent-python/agent/draft/models.py:216-243 | every structured build leaves normal keys, trimmed texts and ordered units |
| Draft.UnknownsKeepWellBuilt | agent-python/agent/draft/models.py:125-146 | so does adding the unit of unknowns |
| Draft.MergeUnits | agent-python/agent/graph/advanced.py:457-496 | the merge keeps every base unit and fails exactly on an inconsistent scope, an invalid base or a reopened unit that is absent |
| Draft.ApplyRevisionScope | agent-python/agent/graph/advanced.py:448-506 | without a scope the candidate stays; with one, success and the resulting bundle are exactly determined by base, scope and candidate |
| Draft.BuildDraft | agent-python/agent/graph/advanced.py:82-101 | the draft node succeeds exactly when its material builds and its revision scope fits, with the bundle these determine |
| Draft.RevisionKeepsKeysIff | agent-python/agent/graph/advanced.py:448-506 | a successful revision keeps the base keys in the base order if and only if the keys are normal and the orders do not fall |
| Draft.ScopedRevisionFrame | agent-python/agent/graph/advanced.py:448-506 | revising a built draft keeps every key, order and dependency in place and leaves each unit that was not reopened exactly as it was, whatever the candidate contains |
| Draft.RevisedUnitIs | agent-python/agent/graph/advanced.py:448-506 | a revised unit keeps order and dependencies of its base unit; reopened, it takes title and text of the candidate's unit of that key, if there is one, and the feedback; else it has those of the base |
| Draft.FeedbackIsKept | agent-python/agent/graph/advanced.py:480-482 | every reopened unit of a successful revision is in the result and contains the user's feedback |
| Grounding.FactsDecide | agent-python/agent/grounding/module.py:39-108 | by facts a claim is CONFLICTING exactly when a fact mentioning it is in an open conflict, else SUPPORTED exactly when a supported fact of fitting scope, verified by code or confirmed by the user, mentions it, and the finding cites exactly those facts |
| Grounding.AssessByFacts | agent-python/agent/grounding/module.py:23-129 | one finding per claim, and the outcome by whether a lacking claim counts and a supplement is possible |
| Grounding.AssessByReferences | agent-python/agent/grounding/policies.py:20-81 | the same by references, with the weight of the claim itself |
| Grounding.GroundedIff | agent-python/agent/grounding/module.py:110-129 | the outcome is GROUNDED exactly when every claim that counts and needs support has it |
| GroundingGate.GroundedImpliesGateIff | agent-python/agent/grounding/module.py:110-129 | after every sequence of builds and for all mentions GROUNDED implies that every non-informational claim needing support has it, if and only if each such claim counts or a counting claim of its statement asks for no less |
| GroundingGate.GroundedIsGateIff | agent-python/agent/grounding/module.py:110-129 | with identifiers made from type and statement, the same condition is exactly when GROUNDED and the gate are equivalent after every sequence of builds |
| Grounding.ReferencesGateExactly | agent-python/agent/grounding/policies.py:61-81 | by references GROUNDED is the gate |
| GroundingGate.UnvouchedPasses | agent-python/agent/grounding/module.py:110-122 | after a build of one or two parser facts a claim for which no counting claim vouches lacks support while the outcome is GROUNDED |
| Grounding.ShadowedClaimPasses | agent-python/agent/grounding/module.py:110-122 | an informational claim before another of the same identifier makes the outcome GROUNDED whatever the other lacks |
| Grounding.DefaultClaimsAreGrounded | agent-python/agent/draft/models.py:312-329 | claims made up from units need no support, so a scoped revision is never blocked |
| Grounding.MaterializeUnknowns | agent-python/agent/grounding/policies.py:84-109 | exactly the lacking claims become unknowns; claims and existing units stay |
| Grounding.UnitIssues | agent-python/agent/quality/advanced.py:59-79 | the units have no issue exactly when none is blank and no key repeats; only a repeated key is fatal |
| Grounding.CheckQuality | agent-python/agent/quality/advanced.py:42-90 | quality passes exactly the drafts that are not partially grounded, have no blank unit and no repeated key; a blank unit alone asks for repair while repairs are left |
| AdvancedGraph.StepDescends | agent-python/agent/graph/advanced.py:358-401 | every node lowers a measure of remaining repairs, remaining supplements and rank, also over the edges from supplement to ground that count nothing |
| AdvancedGraph.GraphTerminates | agent-python/agent/graph/advanced.py:55-401 | from every resume status and for every callback behaviour the graph ends within four steps per repair left, two per supplement left and six more, with its confirmation units built or with an exception |
| AdvancedGraph.CooperativeRunConfirms | agent-python/agent/graph/advanced.py:55-401 | if no callback raises and every draft can be built, the graph builds its confirmation units from every known status whose draft is there or still to be written |
| AdvancedGraph.SearchSupports | agent-python/agent/graph/advanced.py:230-255 | after a search the next grounding by references supports a lacking claim exactly when there is any evidence and the claim cited nothing unknown; other claims are left alone |
| AdvancedGraph.UnrelatedEvidenceSupports | agent-python/agent/graph/advanced.py:230-255 | any one reference found supports any claim that needs support and cited nothing |
| AdvancedGraph.StepKeeps | agent-python/agent/graph/advanced.py:82-354 | every node, crash and resumption keeps what each checkpoint status stands for |
| AdvancedGraph.ViewIsGiven | agent-python/agent/graph/advanced.py:116-150 | through all crashes and resumptions, what a grounding was held against is what the last ground node was given |
| AdvancedGraph.GroundDecides | agent-python/agent/graph/advanced.py:116-150 | one ground node: exactly claims on the current state and constraints need support; such a claim is CONFLICTING exactly where a fact of the given knowledge that mentions it is contested, else SUPPORTED exactly where a verified fact of it carries the claim; without knowledge exactly where it cites something and only stored references |
| AdvancedGraph.InformedIsByFacts | agent-python/agent/graph/advanced.py:116-150 | if every node is given knowledge, the grounding is held against the knowledge of the last ground node of the run |
| AdvancedGraph.EndToEndGate | agent-python/agent/graph/advanced.py:116-354 | over every run with crashes, a draft that reaches confirmation having passed quality has non-blank units under distinct keys and the findings of its claims against the knowledge, or else the references, that the last ground node was given; by references or if every claim is vouched for by a counting one, these show every non-informational claim needing support as supported |
| AdvancedGraph.ConfirmedClaimsAreCarried | agent-python/agent/graph/advanced.py:116-354 | a confirmed, non-informational claim that needs support and was held against knowledge is carried by a verified fact of the knowledge given to the last ground node, and no fact there that mentions it is in conflict |
| GraphNodes.GroundSaves | agent-python/agent/graph/advanced.py:116-192 | the ground node ends GROUNDED exactly if no lacking claim counts, else with a supplement exactly if one is possible, else PARTIAL; counts and references stay, and the draft too unless it is partial |
| GraphNodes.PartialAddsUnknowns | agent-python/agent/graph/advanced.py:116-192 | a partial outcome adds one unit with one unknown for each lacking claim, under the next generation, and nothing else |
| GraphNodes.SupplementSaves | agent-python/agent/graph/advanced.py:194-276 | a supplement that investigates or searches is counted once and followed by another grounding, with the references it found added; only lacking claims change |
| GraphNodes.QualitySaves | agent-python/agent/graph/advanced.py:278-312 | quality passes exactly if the draft is not partially grounded, has no blank unit and no repeated key, asks for a repair exactly if only blank units are wrong and a repair is left, and else for a human |
| GraphNodes.ResumesInPlaceIff | agent-python/agent/graph/advanced.py:58-80 | a process that crashes after a node saved is resumed where it was, with the same state, if and only if the node was no supplement, or one with a lacking claim and the means to search or investigate |
| GraphNodes.CrashCostsNothing | agent-python/agent/graph/advanced.py:58-401 | then the rest of the run is the same as without the crash, for every behaviour of the callbacks and all later crashes |
| GraphNodes.CrashSkipsGrounding | agent-python/agent/graph/advanced.py:194-276 | resumed without the means to supplement, every run that has to supplement goes back to grounding, but on to quality if it crashes before |
| GraphNodes.RunsStayWithinLimits | agent-python/agent/graph/advanced.py:55-401 | over every run with crashes and changing limits, the draft has the generation of its state and neither supplements nor repairs are counted beyond the largest limit configured |
| GraphRuns.StructuredDraftsNeedNoRepair | agent-python/agent/quality/advanced.py:59-90 | over every run with crashes in which no split of unstructured markdown gives a blank unit, no checkpoint asks for a quality repair and none is counted |
| GraphRuns.ClaimsStatedOnceAreGated | agent-python/agent/graph/advanced.py:116-354 | over every run with crashes whose drafts state no claim twice for the same unit and type, a draft confirmed after passing quality has every non-informational claim that needs support supported, by facts and by references |
| GraphRuns.RevisionRunKeepsBase | agent-python/agent/graph/advanced.py:82-114 | over every run of a scoped revision of a built draft, with any crashes and callbacks, the draft at every checkpoint has the base's keys in order and leaves each unit that was not reopened exactly as it was |
| Extraction.ExtractiveReflexive | agent-python/agent/context_pack/module.py:613-633 | every JSON value is extractive of itself |
| Extraction.ExtractiveTransitive | agent-python/agent/context_pack/module.py:613-633 | an extract of an extract is an extract |
| Extraction.CollectIds | agent-python/agent/context_pack/module.py:595-610 | the recursive collection gathers exactly the identifiers defined by key names |
| Extraction.NamesIdIff | agent-python/agent/context_pack/module.py:603-608 | a key names an identifier exactly if it has one of the three endings or is one of the two keys |
| Extraction.ExtractiveKeepsIds | agent-python/agent/context_pack/module.py:595-633 | an extractive view has no identifier of its own |
| Extraction.VerbatimIff | agent-python/agent/context_pack/module.py:613-633 | extraction retains values byte for byte if and only if no number outside lists has another form, and in every list writing one number of an item otherwise gives another item; the condition is computed from the original |
| Extraction.LooseIsExposed | agent-python/agent/context_pack/module.py:633 | a single number can come back as another one exactly when it is true, false, negative zero, a whole float or a whole number that some double equals |
| Extraction.OtherFormsAreAll | agent-python/agent/context_pack/module.py:633 | the listed other forms of a scalar, negative zero among them, are all other values that Python's equality takes for it |
| Extraction.ClosedReaches | agent-python/agent/context_pack/module.py:613-633 | whatever is kept by rewriting one number at a time holds of every value equal to the original, at any depth |
| Extraction.OneComesBackAsTrue | agent-python/agent/context_pack/module.py:613-633 | an object holding 1 is accepted as an object holding true |
| Extraction.NegativeZeroComesBack | agent-python/agent/context_pack/module.py:613-633 | a list that holds zero as a whole number, as a float and as false still accepts negative zero |
| Extraction.LargeNumberIsKept | agent-python/agent/context_pack/module.py:633 | the first whole number that no double equals is retained as it is |
| Reduction.ReduceUnitScope | agent-python/agent/context_pack/module.py:535-564 | the loop over confirmed units blanks exactly the texts of units that are not depended on |
| Reduction.ScopeChanges | agent-python/agent/context_pack/module.py:535-564 | a unit scope stays as it is exactly when its confirmed units are all objects and none has a text to blank |
| Reduction.ScopeIs | agent-python/agent/context_pack/module.py:535-564 | what is left of a unit scope are the confirmed units that are objects, in order, each as it was but for the emptied text of a unit that is neither depended on nor the current one of a revision |
| Reduction.UnreadableIff | agent-python/agent/context_pack/module.py:535-564 | a unit scope cannot be read exactly if it has confirmed units and dependencies that cannot be iterated over |
| Reduction.Dedupe | agent-python/agent/context_pack/module.py:567-576 | the loop keeps the first of equal items, in order |
| Reduction.RecentChanges | agent-python/agent/context_pack/module.py:382-398 | a list stays as it is exactly when it has no duplicates and is within its limit |
| Reduction.RecentIs | agent-python/agent/context_pack/module.py:382-398 | each item is kept once, where it is new, in order, up to the limit; an item is dropped only if the list is full and all that are kept come after it |
| Reduction.RecentIsExtractive | agent-python/agent/context_pack/module.py:382-398 | the kept part of a list is an extract of it |
| Reduction.DeterministicReduce | agent-python/agent/context_pack/module.py:370-405 | the three stages compute the reduction defined key by key, and fail exactly where a unit scope cannot be read |
| Reduction.MandatoryIsKeptIff | agent-python/agent/context_pack/module.py:370-405 | a mandatory value is kept if and only if it is no unit scope with texts to blank and no list with duplicates or over its limit |
| Compaction.ValidateSemanticView | agent-python/agent/context_pack/module.py:484-511 | accepted are exactly the extractive views that keep all mandatory values, and each refusal has exactly its reason; the identifier check refuses nothing that the content check would accept |
| Compaction.OfferedIs | agent-python/agent/context_pack/module.py:484-497 | a candidate offers the view under its key, or itself if it has no such key |
| Compaction.OmissionOrder | agent-python/agent/context_pack/module.py:410-414 | the optional keys, each once, in strictly descending order of priority number and name |
| Compaction.EmergencyReduce | agent-python/agent/context_pack/module.py:407-424 | omission drops the shortest prefix of the order that meets the target, or all optional keys |
| Compaction.OmissionIsDetermined | agent-python/agent/context_pack/module.py:407-424 | there is exactly one shortest omission that meets the target in the order |
| Compaction.OmissionFollowsGroups | agent-python/agent/context_pack/module.py:410-414 | prior actions go first and the message, the scope, the candidate, the issues and the budget last: no optional key of an earlier group is left when one of a later group is omitted |
| Compaction.OmissionIsSound | agent-python/agent/context_pack/module.py:407-424 | omitting optional keys keeps a view extractive and its mandatory values |
| Compaction.PrepareView | agent-python/agent/context_pack/module.py:168-223 | the view sent is the one offered by the candidate if it was asked for, else the base view, itself if it fits and else what the shortest omission leaves, or the failure exactly if that is over the hard limit; a candidate is refused exactly if it was asked for and is not sound; what is sent is extractive of the base view, keeps its mandatory values and is within the limits; the failure means that a sound view of the mandatory values alone is over the hard limit |
| Compaction.Prepare | agent-python/agent/context_pack/module.py:139-223 | the whole preparation decides as above on the deterministic reduction of the payload, sends every mandatory value, equal to the original where no compaction was required or the reduction has nothing to take out of it, and stays within the hard limit |
| Instances.ReservationIsForgotten | agent-python/agent/model_execution/module.py:112-127 | a call that reserved ten of ten tokens asks for none after a crash and a restart |
| Instances.SmallerReservationMisleads | agent-python/agent/runtime/ledger.py:223-226 | this call presented with a reservation of five and failing leaves a budget that no restart would rebuild |
| Instances.OtherSchemaIsRefused | agent-python/agent/runtime/ledger.py:203-215 | a succeeded call answers under its own schema and is refused under another with the same identity |
| Instances.RevisionRenames | agent-python/agent/graph/advanced.py:448-506 | revising a base whose key is not normal renames the unit |
| Instances.DuplicateEvidenceIsDropped | agent-python/agent/context_pack/module.py:382-398 | of a mandatory evidence list with a duplicate one item is left, whatever the limits |
| Instances.UnitTextIsBlanked | agent-python/agent/context_pack/module.py:535-564 | a mandatory unit scope loses the text of a confirmed unit that is not depended on |
| Instances.StreamWithoutEnd | agent-python/agent/worker_server.py:306-425 | a loop that ends with an exception outside the hierarchy leaves RUN_STARTED as the whole stream |

## Left out

- LedgerBudget.RebuildEqualsLive: states the reserved budget only where calls presented again carry their stored reservations; RepresentedExactIff gives the exact effect of one that does not.
- LedgerBudget.NoAdmissionOverLimit: assumes that reservations and uses are not negative, as those of every caller are.
- Resume.EveryCrashStateIsAccepted: assumes that evidence is derived only by capability calls under the capability-evidence.v1 schema, as the one caller does.
- Resume.Hydrate: takes the decision whether an artifact is a valid information need plan as a parameter, and does not model the version fields of the context.
- Compaction.Prepare: does not model the pack reference added in enforce mode, nor the records of what was omitted.
- Draft.ParseUnits: does not model the splitting of unstructured markdown into units.
- Draft.BuildDraft: takes the units split from unstructured markdown as given.
- GraphRuns.StructuredDraftsNeedNoRepair: says nothing of unstructured markdown that is split into a blank unit.
- Investigation.Run: does not model the observer callbacks; the state they are given is the state returned.
- Outcome keys and hash mismatches that the ledger's own rows exclude are one unknown outcome in the model of a replay.
- gRPC, HTTP, protobuf, files, clocks and the environment: plumbing around the modelled steps.
- Go storage, dispatch, run control and the pool's slots: only the commit-then-acknowledge order of the stream loop is used.
- Hydration of version 3 checkpoints after the first checkpoint.
- Shortening of optional strings, prompt wording, sensitive-word lists and other text heuristics.
- Web interface, command line, evaluation adapter, authentication.
