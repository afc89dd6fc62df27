# CadFlow verification model

A Dafny model of the parts of CadFlow that bound and check an untrusted design
agent, and of its deterministic CAD repair and checking code, with proofs of
what they guarantee for every input, every supplier and every run.

The files, by component:

- `Json.dfy`, `Strings.dfy`, `Reals.dfy`: JSON values, the ASCII part of
  Python's string operations, minimum and maximum.
- `Actions.dfy`: parsing of supplied responses, rejections, and the correction
  feedback a rejection may earn.
- `SemanticContext.dfy`: context items and the checks on a request for one.
- `Dictionaries.dfy`: what Python's `dict` makes of a JSON value.
- `Ledger.dfy`: events, numbered responses and their tallies, for both episodes.
- `Episode.dfy`, `EpisodeOrchestrator.dfy`, `EpisodeProperties.dfy`,
  `EpisodeEndings.dfy`: the design episode as a transition system, the class
  whose loop refines it, the invariants and results over all runs, and when a
  run ends in an untyped failure. A pass continues, finishes with a typed
  result, or raises; a failure that is no typed rejection is a fourth way out
  (`Crashed`).
- `ForbiddenFields.dfy`: the three searches for executable fields.
- `ToolBroker.dfy`, `ToolBrokerProperties.dfy`, `EvidenceFolder.dfy`: the Tool
  Broker's dispatch, sandbox path, archive check and evidence, its contract with
  the episode, and how the evidence gets onto disk.
- `SourcePolicy.dfy`, `SourcePolicyProperties.dfy`, `SandboxedSource.dfy`: the
  syntax-tree policy, what a clean verdict means position by position, and what
  that says of a program that reached the sandbox.
- `NameResolution.dfy`, `CalleeResolution.dfy`, `ModuleReach.dfy`: Python's
  scoping rules, what accepted names can stand for under them, and where the
  CadQuery module can flow.
- `SourcePolicyLimits.dfy`, `SourcePolicyWitnesses.dfy`: what the verdict never
  depends on, and accepted programs whose names mean something else.
- `CadIr.dfy`, `IrRepair.dfy`, `IrRepairProperties.dfy`, `IrRepairReport.dfy`,
  `IrRepairValidity.dfy`, `IrValidator.dfy`, `JsonDiff.dfy`: CAD IR repair, its
  report, validation and the structural diff.
- `Assembly.dfy`, `AssemblyProperties.dfy`: assembly bounding-box checks.
- `WorkDesignContract.dfy`, `WorkDesignProposal.dfy`, `WorkDesignValidator.dfy`,
  `WorkDesignProposalProperties.dfy`: the contract table, the validator, and
  their agreement.
- `WorkDesignEpisode.dfy`, `WorkDesignOrchestrator.dfy`,
  `WorkDesignEpisodeProperties.dfy`: the Work-level episode.

Specification functions describe a component; imperative methods and classes
follow the source's own loops and fields and are proved equal to them; the
`*Properties` modules prove what the source promises about them.

Both episode loops reach the action contract, the correction contract, the
executable-field search, the proposal validator and the Tool Broker through
function fields of their `Setup`. The predicates `Episode.Wired` and
`WorkDesignEpisode.Wired` say that these are the components modelled here, and
every result that needs to know it requires them; `StandardIsWired` shows that
the assembled product satisfies them. A run is a sequence of states,
each the outcome of one pass on the one before (`IsRun`, `IsCompleteRun`), and
the loop's own result is the result of such a run (`RunIsComplete`).

Parameters stand for what the model does not see: hashing, encoding, redaction
and JSON parsing (`ToolBroker.Platform`), the sandbox and its archive
(`ToolBroker.Config`, `ToolBroker.World`), the supplier and the clock
(`Episode.Turn`, any sequence of them), dictionary iteration order
(`ForbiddenFields.KeyOrder`), the names the builtins define
(`NameResolution.Lookup`), the attributes and builtins that hand out a namespace
or what it holds (`CalleeResolution.Exposing`; in CPython `__globals__`, but
also the public `gi_frame`, `f_globals`, `f_locals` and `f_builtins`, and the
builtins `globals`, `vars` and `getattr`), which file operation fails
(`EvidenceFolder.CandidateFolder`), rounding (any monotone function that fixes its
own results for the fixpoints, `IrRepair.Settling`, and moves at most half a
step for the geometry, `IrRepair.Rounding`), and name patterns of allowed
interferences.

Where the obvious claim is false the exact one is proved, with a witness:

- A run completed by contract validation reports result kind model_program
  exactly when a program had been submitted too (`ValidationExactly`, witness
  `ValidatedContractReportedAsProgram`).
- A side effect is reported exactly when the executor ran and the call answered.
  A worker observation whose `codes` is `true` or a nonzero number raises a type
  error out of the broker after the execution
  (src/ai_native_cad/agents/tool_broker.py:688); an integer volume or bound too
  large for a float raises an overflow, and an observation nested too deep to be
  parsed a recursion error, that the except clauses do not name (lines 647, 805
  and 840). `CallRaisesExactly` says when, `NumericCodesRaise` and
  `LargeVolumeRaises` exhibit the first two, and `RunCrashesExactly` and
  `NumericCodesCrash` say what it does to the episode, which ends without a
  typed result.
- A typed action is not validated, so one with a source that is no text, with
  parameters or questions that make no dictionary, or without a Work Design ends
  a run untyped; `NextCrashesExactly` and `RunCrashesExactly` of both episodes
  say exactly which, and `ParsedNeverCrashes` that a plain response does so at
  most through a raising tool.
- The broker reads `source_hash` from a policy result that names the field
  `source_sha256`, so it is null on a policy refusal and in the fallback records
  (src/ai_native_cad/agents/tool_broker.py:554, 615, 668;
  src/ai_native_cad/agents/model_program_policy.py:597), and exactly there
  (`SourceHashNullExactly`).
- The source policy judges a chain by the imports visited before it, and only
  where the root of the chain is an imported name. A later import
  (`LateImportReaches`), an attribute the module was stored in
  (`StoredModuleReaches`) or a class pattern (`MatchedModuleReaches`) makes a
  refused submodule reachable. `ReachableExactly` and, for accepted programs,
  `UnreachableExactly` give the condition over all flows of the module;
  `ImportsFirstExactly` says what is left of it when imports come first.
- The policy does not track what names are bound to (`BindingNeverRefused`): a
  shadowed builtin stays callable (`ShadowedBuiltinAccepted`) and an alias in
  one function whitelists the name in all (`AliasElsewhereAccepted`).
  `CalleeListedExactly` says when a callee is certainly a listed one.
- In the text of an accepted program no attribute access names a private
  attribute (`AttributesArePublic`) and no call has a refused builtin as its
  callee (`RefusedNeverCalled`). That does not keep namespaces away:
  `ExposedExactly` says that one is handed out exactly by a public attribute, by
  a class pattern, or by reading a builtin. A public attribute of any value that
  is no module chain is accepted (`AttributeAcceptedExactly`, witness
  `GeneratorHandsOutNamespace`: the frame of a generator), no rule looks at the
  attributes of class patterns (`PatternAttributesNeverRefused`, witness
  `PatternHandsOutNamespace`; they are not among the refused nodes of
  src/ai_native_cad/agents/model_program_policy.py:224-236), and a builtin may be
  read and called under a listed name (`RenamedBuiltinExposes`). These speak of
  the syntax: `"{0.__globals__}".format` reads a private attribute out of a text,
  and gives a text.

The results on names are about lexical scoping. Once a namespace is handed out,
any name may stand for anything and any submodule may be reached, which
`MayStandFor` and `Reachable` say; which attributes and builtins do so is the
parameter `exposing`. Writes through an object, such as `cq.Workplane = x`, and
what the libraries themselves return are not followed: an attribute of the
module other than a refused one is taken to be what the library put there.

Further exact conditions:

- The floating-part check is degree zero, not reachability: the two agree
  exactly when every touching part is supported
  (`FloatingIsReachabilityExactly`), and no island is ever reported
  (`IslandEscapes`).
- The clearance between two boxes depends on their order when extents are
  inverted (`InvertedGapDependsOnOrder`), and only then
  (`SeparationSymmetricExactly`).
- One repair is a fixpoint exactly when no original hole or relief entry meets a
  guard of the original measures followed by those of the repaired dimensions
  (`RepairIdempotentExactly`, witness `OneRepairIsNotEnough`), and repair can
  round a tiny bore to zero (`TinySpacerBecomesInvalid`, exactly when:
  `RepairKeepsValidExactly`).
- The list of changes misses no change (`NoSilentChange`) but may name one that
  was not made: a guard fires on an entry that rounding already put just outside
  its bound (`ReportedAgainExactly`, witness `ReportedWithoutChange`).
- An offset of zero is treated as absent and stays zero (`ZeroOffsetEscapes`).
- A diff encodes missing as null, so it replays exactly when no null meets a
  missing value (`ReplayRoundTrip`), and its printed paths are ambiguous for
  keys with dots, with brackets, or empty (`DottedKeysCollide`,
  `BracketedKeysCollide`, `EmptyKeyCollides`).

## Model

| member | source | states |
|---|---|---|
| EpisodeOrchestrator.Orchestrator.Run | src/ai_native_cad/agents/episode.py:864-1480 | the loop, driven by any supplier, clock and toolbox, ends exactly as the transition system says, after at most one pass per step of the budget |
| EpisodeOrchestrator.Orchestrator.Step | src/ai_native_cad/agents/episode.py:983-1051 | one pass: clock and step budget first, then the supplier, then the response is recorded, judged, and corrected or acted on |
| EpisodeOrchestrator.Orchestrator.constructor | src/ai_native_cad/agents/episode.py:865-882 | a run starts with every counter at zero and nothing drafted, proposed, observed or supplied |
| EpisodeOrchestrator.Orchestrator.HandleRejection | src/ai_native_cad/agents/episode.py:936-981 | a rejection raises, spends one correction turn, or ends the run as policy blocked when the turns are spent |
| EpisodeOrchestrator.Orchestrator.RequestContextItem | src/ai_native_cad/agents/episode.py:1053-1091 | count budget, missing key, resolution and byte budget are checked in this order before anything is supplied |
| EpisodeOrchestrator.Orchestrator.SubmitDraft | src/ai_native_cad/agents/episode.py:1093-1136 | submission and repair budgets, contract type and executable fields, then the draft is replaced |
| EpisodeOrchestrator.Orchestrator.SubmitProgram | src/ai_native_cad/agents/episode.py:1138-1221 | a new candidate gets the next number and discards the observation of the previous one |
| EpisodeOrchestrator.Orchestrator.Execute | src/ai_native_cad/agents/episode.py:1223-1321 | one broker call on the current candidate; its observation becomes the latest and is not yet inspected |
| EpisodeOrchestrator.Orchestrator.Inspect | src/ai_native_cad/agents/episode.py:1323-1368 | the latest observation is inspected at most once and then supplied |
| EpisodeOrchestrator.Orchestrator.Validate | src/ai_native_cad/agents/episode.py:1370-1412 | the broker validates the draft; a valid answer completes the run |
| EpisodeOrchestrator.Orchestrator.AskQuestions | src/ai_native_cad/agents/episode.py:1414-1420 | every question is copied as a dictionary in turn; the first that is none ends the run untyped, otherwise the user is asked |
| EpisodeOrchestrator.Orchestrator.StopEpisode | src/ai_native_cad/agents/episode.py:1422-1476 | completed needs a successful, inspected, re-imported execution; other reasons need the Skill |
| EpisodeOrchestrator.Orchestrator.Perform | src/ai_native_cad/agents/episode.py:1053-1483 | every authorised action kind leads to its own transition, unknown ones raise |
| Episode.RecordedEachStep | src/ai_native_cad/agents/episode.py:1031-1032 | a continued pass spends exactly one step and logs that response under its number |
| Episode.StandardIsWired | src/ai_native_cad/agents/episode.py:805-837 | the episode as the product assembles it uses the modelled action contract, correction contract, search and Tool Broker |
| EpisodeProperties.NextSound | src/ai_native_cad/agents/episode.py:983-1480 | every pass keeps all invariants: the submit-execute-inspect ladder, counters equal to event counts, all budgets, numbered responses, draft, context and observation soundness |
| EpisodeProperties.ReachableSound | src/ai_native_cad/agents/episode.py:864-1480 | in every state of every run inspections <= executions <= submissions <= inspections + 1, the strict inequality is the phase, repairs are contract patches plus resubmissions, and state k has spent k steps |
| EpisodeProperties.RunsAreShort | src/ai_native_cad/agents/episode.py:983-991 | no run, whatever the supplier does, has more states than the step budget plus one |
| EpisodeProperties.CorrectionsAlongRuns | src/ai_native_cad/agents/episode.py:936-981 | along every run the correction protocol holds between any two states |
| EpisodeProperties.RunIsComplete | src/ai_native_cad/agents/episode.py:983-1480 | the run the loop computes is a complete run, so what holds of every complete run holds of its result |
| EpisodeProperties.RunResultSound | src/ai_native_cad/agents/episode.py:884-934 | in particular the result of the loop itself claims only what happened |
| EpisodeProperties.StartSound | src/ai_native_cad/agents/episode.py:865-882 | the initial state satisfies every invariant |
| EpisodeProperties.ProgramKeptSound | src/ai_native_cad/agents/episode.py:1155-1221 | a new candidate keeps the ladder and the repair count: resubmission needs an inspected observation |
| EpisodeProperties.ObservationKeptSound | src/ai_native_cad/agents/episode.py:1262-1321 | an observation of the current candidate keeps every invariant and the sticky side-effect flag |
| EpisodeProperties.ItemSound | src/ai_native_cad/agents/episode.py:1069-1091 | supplying an item charges its own size and it passed the key, Skill and Work checks |
| EpisodeProperties.CorrectionProtocol | src/ai_native_cad/agents/episode.py:936-981 | the next state carries feedback exactly when a correction was owed; it then costs one step and one turn, changes nothing else, and never follows a side effect |
| EpisodeProperties.UncorrectedEnds | src/ai_native_cad/agents/episode.py:943-977 | an owed correction that ends the run was not repairable (raised) or met a spent turn budget (policy blocked with turns equal to the budget) |
| EpisodeProperties.EveryResultSound | src/ai_native_cad/agents/episode.py:884-934 | over every complete run: completed iff the stop reason is completed, and then either the final draft is the one just validated or the inspected observation of the final candidate passes the re-import check; output_validated is that re-import fact; the result kind is exact |
| EpisodeProperties.FinishSound | src/ai_native_cad/agents/episode.py:884-934 | a result built from a sound state claims no more than the state shows |
| EpisodeProperties.CompletionExactly | src/ai_native_cad/agents/episode.py:1422-1458 | stop(completed) is accepted exactly after a successful, inspected execution of the final candidate: the re-import check never refuses it |
| EpisodeProperties.ValidationExactly | src/ai_native_cad/agents/episode.py:1370-1411 | validation of a draft raises exactly when the Skill may not use the validator, never ends in an untyped failure, and a validated run reports kind model_program exactly when a program was also submitted |
| EpisodeProperties.DraftAnswer | src/ai_native_cad/agents/episode.py:1378-1397 | a held draft always gets the validator's own feedback, never a forbidden-field refusal |
| EpisodeProperties.CandidateNames | src/ai_native_cad/agents/episode.py:1192-1192 | candidate names are path-safe while they fit in 96 characters and never repeat |
| EpisodeProperties.ParsedProgramIsExecutable | src/ai_native_cad/agents/episode.py:3048-3105 | a program submission that parsed is never refused as a malformed execution request or unsupported API |
| EpisodeEndings.NextCrashesExactly | src/ai_native_cad/agents/episode.py:1138-1283 | a pass ends in an untyped failure exactly on an execution request, in order and within the budgets, whose admitted run brings back an archive that makes the broker raise; on a program submission in order whose typed action lacks a field, a text as source or parameters that make a dictionary; or on typed questions that make none |
| EpisodeEndings.RunCrashesExactly | src/ai_native_cad/agents/episode.py:983-1480 | a run ends in an untyped failure exactly when its last pass is one of these three |
| EpisodeEndings.ParsedNeverCrashes | src/ai_native_cad/agents/episode.py:1190-1216 | a pass on a plain response ends untyped at most by a raising tool: what parsing lets through, the loop can copy and hash |
| EpisodeEndings.ProgramOfExactly | src/ai_native_cad/agents/episode.py:1190-1216 | a program is retained exactly of a payload with an interface, a text as source, and parameters that make a dictionary |
| Dictionaries.DictOfExactly | src/ai_native_cad/agents/episode.py:1193-1198 | a value makes a sortable dictionary exactly when it is one, an empty text, or a list of pairs with hashable keys of one kind; the dictionary is a JSON document exactly when the keys are texts |
| Dictionaries.PairsRoundTrip | src/ai_native_cad/agents/episode.py:1196-1196 | the pairs of a dictionary, in any order and listed any number of times, make that dictionary |
| EpisodeEndings.NumericCodesCrash | src/ai_native_cad/agents/episode.py:1272-1283 | a concrete run: submit a clean program, execute it, let the worker report codes 5, and the run ends in an untyped failure |
| EpisodeEndings.ValidatedContractReportedAsProgram | src/ai_native_cad/agents/episode.py:1370-1411 | a concrete run: submit a program with a text as source, never execute it, submit and validate a contract, and the completed run reports kind model_program |
| SemanticContext.ResolvedExactly | src/ai_native_cad/agents/episode.py:467-530 | a key resolves exactly to its active item when registered, granted to the Skill and in the Work |
| SemanticContext.RegistryHoldsActive | src/ai_native_cad/agents/episode.py:467-468 | the broker keeps only active items, under their own keys |
| Actions.ParsedPayloadComplete | src/ai_native_cad/agents/episode.py:276-434 | a plain response that parses carries everything the loop reads from its action |
| Actions.KindOfExactly | src/ai_native_cad/agents/agent_action_contract.py:128-194 | an action name is registered exactly when it is the name of a kind, and then it is that kind |
| Actions.NormalizedIdempotent | src/ai_native_cad/agents/episode.py:2779-2793 | a normalised field spelling is its own normal form, so a forbidden field is judged by one spelling |
| ForbiddenFields.TraversalsAgree | src/ai_native_cad/agents/validation.py:145-155 | the three searches report the same first executable field, in preorder, or none |
| ForbiddenFields.AcceptedIffClear | src/ai_native_cad/agents/tool_broker.py:1004-1020 | the broker's search finds nothing exactly when no dictionary at any depth has an executable field, whatever the iteration order |
| ForbiddenFields.AcceptedDraftIsNeverForbidden | src/ai_native_cad/agents/episode.py:3005-3036 | a draft the Episode accepted is accepted by the broker's and the adapter's search too |
| ToolBroker.ReadMembers | src/ai_native_cad/agents/tool_broker.py:781-805 | the archive loop builds exactly the files of the specification, or refuses |
| ToolBroker.ValidateWorkerArchive | src/ai_native_cad/agents/tool_broker.py:781-852 | size, members, observation, STEP, re-import evidence and log limits are checked in this order, and the first refusal, overflow or recursion error ends the check |
| EvidenceFolder.CandidateFolder.PersistEvidence | src/ai_native_cad/agents/tool_broker.py:855-962 | the evidence folder of an execution appears with its complete contents or not at all: an attempt succeeds exactly when nothing was in the way and no operation it made failed, and a failed one changes at most the staging folder, which stays only when removing it failed |
| EvidenceFolder.CandidateFolder.Write | src/ai_native_cad/agents/tool_broker.py:976-978 | a file is written exactly when no file of that name is there and neither opening nor writing fails |
| EvidenceFolder.CandidateFolder.Execute | src/ai_native_cad/agents/tool_broker.py:573-706 | the sandbox path with its attempts and its fallback on disk answers as the execution specification says, and reports a manifest exactly when the execution has a folder, which holds that manifest |
| ToolBrokerProperties.ReadExactly | src/ai_native_cad/agents/tool_broker.py:787-805 | an archive is read exactly when its members are allowed, regular, sized and distinct |
| ToolBrokerProperties.ReadHolds | src/ai_native_cad/agents/tool_broker.py:788-805 | every member's bytes are kept under its name |
| ToolBrokerProperties.ArchiveAcceptedExactly | src/ai_native_cad/agents/tool_broker.py:781-821 | an archive is accepted exactly when it is readable, reports in the right shape, holds a non-empty STEP with complete re-import evidence iff it claims success, and its logs fit; it overflows exactly when a readable one meets an integer too large to convert first, and hits the recursion limit exactly when the observation of a readable one is nested too deep; what is accepted is what the members hold |
| ToolBrokerProperties.ReimportPassesExactly | src/ai_native_cad/agents/tool_broker.py:824-852 | the sequential re-import check passes exactly on two valid geometries with positive measures and equal solid counts, and overflows only when some integer does not fit |
| ToolBrokerProperties.SanitizedKeepsReimport | src/ai_native_cad/agents/tool_broker.py:965-967 | redacting text leaves changes none of the re-import facts |
| ToolBrokerProperties.EvidenceOutputs | src/ai_native_cad/agents/tool_broker.py:881-962 | the output list names the STEP with the digest and size of its unchanged bytes, and nothing else |
| ToolBrokerProperties.EvidenceDescribesFiles | src/ai_native_cad/agents/tool_broker.py:881-905 | every listed file lies in the evidence directory with the recorded digest and size |
| ToolBrokerProperties.EvidenceDirectoryExactly | src/ai_native_cad/agents/tool_broker.py:873-937 | the evidence directory holds the listed files and its own four, and nothing else |
| ToolBrokerProperties.EvidenceHashes | src/ai_native_cad/agents/tool_broker.py:870-947 | the recorded source and parameter hashes are those of source.py and of the parameters stored beside it |
| ToolBrokerProperties.ManifestTrust | src/ai_native_cad/agents/tool_broker.py:907-932 | no manifest is reviewable, accepted or deliverable |
| ToolBrokerProperties.SuccessfulEvidenceReimports | src/ai_native_cad/agents/episode.py:3138-3164 | the broker's record of an accepted success passes the Episode's completion check |
| ToolBrokerProperties.ExecutionShape | src/ai_native_cad/agents/tool_broker.py:573-706 | every way through the sandbox calls the executor once; it raises a type error exactly on non-iterable codes of an accepted archive, an overflow exactly on an overflowing one and a recursion error exactly on a too deeply nested one; otherwise failures carry no output, successes complete, nothing is publishable, and the source hash is null exactly when no evidence could be written |
| ToolBrokerProperties.AdmissionShape | src/ai_native_cad/agents/tool_broker.py:507-572 | a refused execution has no side effect and no output; an admitted one passed every gate |
| ToolBrokerProperties.InvocationSafe | src/ai_native_cad/agents/tool_broker.py:390-439 | for any tool: at most one executor call, a side effect is reported iff the executor ran and the call answered, a call that raises had run it, and nothing reaches the executor ungated; answers of the model-program tool are never reviewable, accepted or deliverable |
| ToolBrokerProperties.CallRaisesExactly | src/ai_native_cad/agents/tool_broker.py:635-690 | a call of any tool raises exactly when it is admitted to the executor and the archive overflows, is nested too deep to be parsed, or is accepted and stored with codes that are true or a nonzero number |
| ToolBrokerProperties.SourceHashNullExactly | src/ai_native_cad/agents/tool_broker.py:542-682 | the model-program tool answers with a null source hash exactly on a policy refusal or when no evidence could be written |
| ToolBrokerProperties.NumericCodesRaise | src/ai_native_cad/agents/tool_broker.py:688-688 | any admitted call can meet an archive with codes 5: the executor ran, the call raises, nothing is reported |
| ToolBrokerProperties.LargeVolumeRaises | src/ai_native_cad/agents/tool_broker.py:840-840 | any admitted call can meet a volume too large for a float: the executor ran, the call raises, no evidence is written |
| ToolBrokerProperties.SuccessfulObservationCompletes | src/ai_native_cad/agents/tool_broker.py:939-962 | every successful model-program observation satisfies the Episode's evidence check for the requested candidate |
| ToolBrokerProperties.EveryCallTrustworthy | src/ai_native_cad/agents/tool_broker.py:390-706 | in any log of calls each runs the executor at most once and reports so unless it raises, and its successes pass the Episode's evidence check |
| ToolBrokerProperties.SideEffectsAreExecutorRuns | src/ai_native_cad/agents/tool_broker.py:390-706 | over a whole log the executor runs are the reported side effects plus the calls that raised |
| ToolBrokerProperties.EveryRunReportedExactly | src/ai_native_cad/agents/tool_broker.py:390-706 | a log reports every executor run exactly when no call raised |
| ToolBrokerProperties.DraftValidation | src/ai_native_cad/agents/tool_broker.py:708-764 | on a clear contract the broker passes the validator's feedback on; the Skill alone decides whether Boolean feedback returns |
| SandboxedSource.ExecutedSourceIsSafe | src/ai_native_cad/agents/tool_broker.py:542-560 | no program reaches the sandbox unless every node of its syntax tree obeys the source policy at every position where it is visited, module attributes and called leaves included |
| SourcePolicy.SourceVisitor.Visit | src/ai_native_cad/agents/model_program_policy.py:346-530 | the stateful visit is the fold of the node rules over the preorder of the tree |
| SourcePolicy.SourceVisitor.EnterNode | src/ai_native_cad/agents/model_program_policy.py:431-530 | each node kind applies its own rule to violations and alias tables |
| SourcePolicy.SourceVisitor.Add | src/ai_native_cad/agents/model_program_policy.py:363-369 | a violation is recorded once per code and line |
| SourcePolicy.SourceVisitor.VisitImport | src/ai_native_cad/agents/model_program_policy.py:431-441 | imports bind module aliases |
| SourcePolicy.SourceVisitor.VisitImportFrom | src/ai_native_cad/agents/model_program_policy.py:443-464 | imported symbols extend the callable names |
| SourcePolicy.SourceVisitor.VisitCall | src/ai_native_cad/agents/model_program_policy.py:499-525 | the callee form and name are checked against the tables of the moment |
| SourcePolicy.SourceVisitor.ValidateTopLevel | src/ai_native_cad/agents/model_program_policy.py:371-401 | only the allowed statements may stand at module level |
| SourcePolicy.SourceVisitor.ValidateEntrypoint | src/ai_native_cad/agents/model_program_policy.py:403-429 | exactly one entry point with the required signature and a return |
| SourcePolicy.ValidateSource | src/ai_native_cad/agents/model_program_policy.py:358-361 | the three passes together |
| SourcePolicy.AttributeChain | src/ai_native_cad/agents/model_program_policy.py:533-540 | the loop yields the root name and the attributes outermost last |
| SourcePolicy.FunctionHasReturn | src/ai_native_cad/agents/model_program_policy.py:566-575 | the worklist search finds a return iff one is reachable without entering a nested scope, for any pop order, and terminates |
| SourcePolicyProperties.ViolationFreeExactly | src/ai_native_cad/agents/model_program_policy.py:358-530 | no violation exactly when every node, visited in order with the tables of that moment, is clean |
| SourcePolicyProperties.ViolationFreeIsSafe | src/ai_native_cad/agents/model_program_policy.py:466-530 | every node of a violation-free program, at any depth, is visited and obeys all rules at each of its positions |
| SourcePolicyProperties.ViolationFreeByPosition | src/ai_native_cad/agents/model_program_policy.py:358-530 | the verdict is clean exactly when top level and entry point are and every position of the visit is allowed, with the module of a chain given by the last import of its root before that position and callable names by the imports before it |
| SourcePolicyProperties.TablesAreImports | src/ai_native_cad/agents/model_program_policy.py:431-464 | at every moment an alias is the last import of the name so far, and a name is callable iff some import so far made it so |
| SourcePolicyProperties.NodeAllowedExactly | src/ai_native_cad/agents/model_program_policy.py:475-525 | the rule of one node raises nothing exactly when the node is allowed at its position |
| SourcePolicyProperties.WithinIsVisited | src/ai_native_cad/agents/model_program_policy.py:527-530 | every node at any depth is visited |
| SourcePolicyProperties.VerdictHasNoRepeats | src/ai_native_cad/agents/model_program_policy.py:363-369 | no violation is reported twice |
| CalleeResolution.CalleeListedExactly | src/ai_native_cad/agents/model_program_policy.py:499-513 | a called name always stands for a listed builtin, imported callable or top-level function exactly when the program reads nothing that hands out a namespace, and the scope that decides the name neither rebinds it otherwise nor leaves it to an unlisted builtin |
| CalleeResolution.UnboundCallIsBuiltin | src/ai_native_cad/agents/model_program_policy.py:499-513 | an accepted call of a name no node binds is of a listed builtin, and can reach nothing else exactly when the program reads nothing that hands out a namespace |
| CalleeResolution.RefusedNeverCalled | src/ai_native_cad/agents/model_program_policy.py:502-504 | no call of an accepted program, at any depth, has a refused builtin as its callee |
| CalleeResolution.AttributesArePublic | src/ai_native_cad/agents/model_program_policy.py:479-481 | no attribute access in the text of an accepted program, at any depth, names a private attribute |
| CalleeResolution.ExposedExactly | src/ai_native_cad/agents/model_program_policy.py:475-530 | whichever attributes and builtins hand out a namespace, an accepted program has one handed out exactly when an attribute access takes a public one of these attributes, a class pattern names one, or one of these builtins is read |
| ModuleReach.ReachableExactly | src/ai_native_cad/agents/model_program_policy.py:479-496 | the module can flow into a refused submodule, through any sequence of events the scopes allow, exactly when a namespace is handed out, a refused attribute is taken of a name imported as the module, or the module is read as a value and a refused attribute is taken of an untracked value or named by a class pattern |
| ModuleReach.RefusedAccessNotImported | src/ai_native_cad/agents/model_program_policy.py:483-488 | an accepted access of a refused attribute on a name has no earlier import of that name |
| ModuleReach.UnreachableExactly | src/ai_native_cad/agents/model_program_policy.py:479-496 | an accepted program reaches no refused submodule exactly when no namespace is handed out, each direct access comes after an import of its name, and no access on an untracked value or by a class pattern meets a module read as a value |
| ModuleReach.ImportsFirstExactly | src/ai_native_cad/agents/model_program_policy.py:431-496 | with all module imports at the top the condition on direct accesses always holds, and exactly the other two are left |
| ModuleReach.ImportsFirstIsSafe | src/ai_native_cad/agents/model_program_policy.py:431-496 | so with imports first, the module read for its attributes only and nothing exposing read, no refused submodule is reached |
| SourcePolicyLimits.InsertionKeepsVerdict | src/ai_native_cad/agents/model_program_policy.py:358-530 | inserting a statement that is clean everywhere into any function of an accepted program leaves it accepted |
| SourcePolicyLimits.BindingNeverRefused | src/ai_native_cad/agents/model_program_policy.py:475-477 | binding any public name to a clean value in any function is never refused: acceptance does not depend on bindings |
| SourcePolicyLimits.PatternAttributesNeverRefused | src/ai_native_cad/agents/model_program_policy.py:224-236 | a class pattern over clean values is accepted in any function whatever attributes it names: acceptance does not depend on them |
| SourcePolicyLimits.AttributeAcceptedExactly | src/ai_native_cad/agents/model_program_policy.py:479-497 | taking an attribute of a clean value that is no chain on a name the program imports as a module, in any function, is accepted exactly when the attribute is public |
| SourcePolicyWitnesses.ShadowedBuiltinAccepted | src/ai_native_cad/agents/model_program_policy.py:499-513 | a locally shadowed builtin is still accepted as a callee, and what is called may be what was assigned |
| SourcePolicyWitnesses.AliasElsewhereAccepted | src/ai_native_cad/agents/model_program_policy.py:456-464 | an import alias in one function makes the name callable in every other, where it still is an unlisted builtin |
| SourcePolicyWitnesses.LateImportReaches | src/ai_native_cad/agents/model_program_policy.py:431-441 | a program whose import is visited after the chain is accepted and reaches the exporters |
| SourcePolicyWitnesses.StoredModuleReaches | src/ai_native_cad/agents/model_program_policy.py:479-496 | a program that stores the module in an attribute and takes the exporters out of there is accepted and reaches them |
| SourcePolicyWitnesses.MatchedModuleReaches | src/ai_native_cad/agents/model_program_policy.py:479-530 | a program that matches the module against a class pattern naming a refused submodule is accepted and reaches it |
| SourcePolicyWitnesses.PatternHandsOutNamespace | src/ai_native_cad/agents/model_program_policy.py:479-530 | a program that names a namespace-exposing attribute in a class pattern is accepted, and a name no node binds can then stand for something else than the builtin |
| SourcePolicyWitnesses.GeneratorHandsOutNamespace | src/ai_native_cad/agents/model_program_policy.py:479-497 | so is a program that takes two public attributes off a generator expression, when the second hands out a namespace, without any class pattern |
| SourcePolicyWitnesses.RenamedBuiltinExposes | src/ai_native_cad/agents/model_program_policy.py:475-513 | a program that keeps any builtin under a listed name and calls that name is accepted, and is exposed when the builtin hands out namespaces |
| IrRepair.RepairIr | src/ai_native_cad/cad_ir/repair.py:11-46 | the in-place edits together are the repaired IR of the specification, and the reported changes its list of changes |
| IrRepairReport.ReportedExactly | src/ai_native_cad/cad_ir/repair.py:11-46 | a repair reports a change exactly when the outputs are wrong or a guard fires on a dimension, hole or relief entry |
| IrRepairReport.NoSilentChange | src/ai_native_cad/cad_ir/repair.py:35-36 | a repair that reports no change makes none |
| IrRepairReport.ReportedAgainExactly | src/ai_native_cad/cad_ir/repair.py:111-130 | a repaired hole, which the next repair leaves alone, is reported by it again exactly when rounding put the diameter or the moved offset on the wrong side of its bound |
| IrRepairReport.ReportedWithoutChange | src/ai_native_cad/cad_ir/repair.py:120-129 | a part whose one hole has its least offset rounded down is reported as adjusted and is not changed |
| IrRepair.Draft.RepairHoles | src/ai_native_cad/cad_ir/repair.py:105-130 | every hole of the three hole features is clamped to the short span |
| IrRepair.RepairHole | src/ai_native_cad/cad_ir/repair.py:112-129 | diameter shrunk to 0.3 of the span, offset clamped and rounded |
| IrRepair.RepairHoleList | src/ai_native_cad/cad_ir/repair.py:108-129 | each list entry is repaired in place, the others untouched |
| IrRepair.Draft.RepairEdgeRelief | src/ai_native_cad/cad_ir/repair.py:133-151 | chamfer and fillet are bounded by a fifth of the smallest dimension |
| IrRepair.Draft.RepairSpacer | src/ai_native_cad/cad_ir/repair.py:154-161 | a bore as wide as the spacer becomes 0.55 of it |
| IrRepair.Draft.RepairEnclosureBase | src/ai_native_cad/cad_ir/repair.py:164-171 | a wall that fills the box becomes a quarter of the half width |
| IrRepair.Draft.ShortestSpan | src/ai_native_cad/cad_ir/repair.py:174-179 | the span holes must fit, by part type |
| IrRepair.SmallestPositive | src/ai_native_cad/cad_ir/repair.py:133-140 | the smallest positive dimension, in any iteration order |
| IrRepairProperties.RepairChangesExactly | src/ai_native_cad/cad_ir/repair.py:11-46 | a repair changes something exactly when the outputs differ, a dimension is repaired, or a branch guard on a hole or relief entry moves it |
| IrRepairProperties.RepairIdempotentExactly | src/ai_native_cad/cad_ir/repair.py:11-46 | one repair is a fixpoint exactly when no original hole or relief entry meets a guard, stated on that entry, of the span and relief limit of the original dimensions followed by those of the repaired ones |
| IrRepairProperties.ReliefMovesExactly | src/ai_native_cad/cad_ir/repair.py:140-150 | a relief size changes exactly when the limit is not zero, the size is above it and not already its rounding |
| IrRepairProperties.HoleMovesExactly | src/ai_native_cad/cad_ir/repair.py:111-129 | a hole changes exactly when its diameter is too large and not at the repaired size, or its offset is out of range and not at the rounded bound |
| IrRepairProperties.RepairIdempotent | src/ai_native_cad/cad_ir/repair.py:11-46 | in particular whenever the dimension repair leaves the dimensions alone |
| IrRepairProperties.RepairIdempotentByPartType | src/ai_native_cad/cad_ir/repair.py:11-46 | so for every part type but spacer and enclosure_base |
| IrRepairProperties.RepairSettlesAfterTwo | src/ai_native_cad/cad_ir/repair.py:11-46 | for every part type the second repair is a fixpoint |
| IrRepairProperties.OneRepairIsNotEnough | src/ai_native_cad/cad_ir/repair.py:133-171 | thinning an enclosure wall lowers the relief limit, so a second repair can change a fillet |
| IrRepairProperties.HoleStable | src/ai_native_cad/cad_ir/repair.py:105-130 | a repaired hole is left alone by the next repair |
| IrRepairProperties.ClampRoundStable | src/ai_native_cad/cad_ir/repair.py:120-129 | clamping a rounded clamped offset and rounding again lands on the same grid point |
| IrRepairProperties.HoleFits | src/ai_native_cad/cad_ir/repair.py:112-129 | a repaired diameter is at most 0.3 of the span exactly when it was or a quarter of the span rounds to such a value, as it does from 0.01; a stored offset ends within the clamp up to half a rounding step |
| IrRepairProperties.ZeroOffsetEscapes | src/ai_native_cad/cad_ir/repair.py:125-127 | the stored offset ends in range exactly when it was neither missing nor zero, or 0.75 d is within half a rounding step |
| IrRepairProperties.RepairedCornerHoles | src/ai_native_cad/features.py:13-17 | the four corner holes of a repaired plate with a stored offset lie inside it exactly when the offset leaves room for the radius, as it does for a fitting diameter of at least 0.002, and are then at least 1.5 d apart up to a rounding step |
| IrRepairProperties.RepairedDimensionsFit | src/ai_native_cad/cad_ir/repair.py:154-171 | a repaired spacer has a real wall and a repaired enclosure a real cavity |
| IrRepairProperties.RepairDiffReplays | src/ai_native_cad/cad_ir/repair.py:49-64 | replaying the reported diff on the original gives the repaired IR, and reversed the original |
| IrRepairProperties.RoundHalfEvenIsRounding | src/ai_native_cad/cad_ir/repair.py:120-129 | rounding half to even on the 0.001 grid is monotone, fixes grid points and moves at most half a step, as the other results assume |
| IrRepairValidity.RepairKeepsValidExactly | src/ai_native_cad/cad_ir/repair.py:11-46 | a valid IR stays valid under repair exactly when no repaired dimension is rounded to zero |
| IrRepairValidity.RepairPreservesValidity | src/ai_native_cad/cad_ir/repair.py:11-46 | in particular when all dimensions are at least 0.01 |
| IrRepairValidity.RepairTouchesOnly | src/ai_native_cad/cad_ir/repair.py:11-46 | only outputs, hole and edge-relief features, inner_diameter and wall_thickness change |
| IrRepairValidity.TinySpacerBecomesInvalid | src/ai_native_cad/cad_ir/repair.py:154-161 | the exception is real: a tiny spacer's bore is rounded to zero |
| JsonDiff.ReplayRoundTrip | src/ai_native_cad/cad_ir/repair.py:67-94 | applying the diff to its source gives its target exactly when no null meets a missing value |
| JsonDiff.ReverseRoundTrip | src/ai_native_cad/cad_ir/repair.py:67-94 | the reversed diff undoes the change, under the mirrored condition |
| JsonDiff.NullFreeRoundTrip | src/ai_native_cad/cad_ir/repair.py:67-94 | null-free documents round-trip in both directions |
| JsonDiff.EmptyIffEqual | src/ai_native_cad/cad_ir/repair.py:67-94 | a diff is empty exactly when the documents are equal |
| JsonDiff.DiffMirror | src/ai_native_cad/cad_ir/repair.py:67-94 | the opposite diff is the same diff with its sides exchanged |
| JsonDiff.DiffPathsDiverge | src/ai_native_cad/cad_ir/repair.py:67-94 | no reported path equals or is a prefix of another |
| JsonDiff.PathIsPrefix | src/ai_native_cad/cad_ir/repair.py:67-94 | the path argument is only ever put in front of the reported paths |
| JsonDiff.RenderInjective | src/ai_native_cad/cad_ir/repair.py:76-90 | printed paths are injective when no key is empty or has a dot or bracket |
| JsonDiff.PrintedPathsDistinct | src/ai_native_cad/cad_ir/repair.py:76-90 | the printed paths of one diff are then pairwise distinct |
| JsonDiff.DottedKeysCollide | src/ai_native_cad/cad_ir/repair.py:76-90 | with a dotted key two different places are printed as the same path |
| JsonDiff.BracketedKeysCollide | src/ai_native_cad/cad_ir/repair.py:76-90 | so with a key that ends like an index |
| JsonDiff.EmptyKeyCollides | src/ai_native_cad/cad_ir/repair.py:76-90 | so with an empty key |
| IrValidator.ValidateIr | src/ai_native_cad/cad_ir/validator.py:65-100 | valid iff the IR means what the tables demand iff every recorded check passed; failed checks and errors correspond one to one in order |
| IrValidator.Report.Record | src/ai_native_cad/cad_ir/validator.py:129-130 | a check and the error that explains its failure are appended together |
| IrValidator.Report.ValidateDimensions | src/ai_native_cad/cad_ir/validator.py:79-86 | required dimensions must be present and positive |
| IrValidator.Report.ValidateOutputs | src/ai_native_cad/cad_ir/validator.py:88-92 | only supported outputs |
| IrValidator.Report.ValidateFeatures | src/ai_native_cad/cad_ir/validator.py:133-168 | each feature must be supported, in any iteration order; unverified ones warn |
| IrValidator.Report.ValidateFeature | src/ai_native_cad/cad_ir/validator.py:171-213 | supported hole features must also have supported semantics |
| IrValidator.Report.ValidateLinkLike | src/ai_native_cad/cad_ir/validator.py:103-126 | the geometric rules of a link-like part |
| IrValidator.PairedMeansValid | src/ai_native_cad/cad_ir/validator.py:96-100 | paired lists leave no failure unreported |
| Assembly.ValidatePlacement | src/ai_native_cad/assembly_validator.py:298-311 | findings of all pairs, the floating parts and the summary, on a fresh result |
| Assembly.Result.CheckBboxRelationships | src/ai_native_cad/assembly_validator.py:260-295 | the pair loop appends the finding of every pair of positions i < j, in order |
| Assembly.Result.CheckPair | src/ai_native_cad/assembly_validator.py:268-295 | contact wins over overlap, overlap over clearance |
| Assembly.Result.CheckFloatingParts | src/ai_native_cad/assembly_validator.py:377-395 | without explicit anchors the first part is the anchor |
| AssemblyProperties.OneFindingPerPair | src/ai_native_cad/assembly_validator.py:268-295 | a pair is recorded in at most one way |
| AssemblyProperties.ContactDepthBounded | src/ai_native_cad/assembly_validator.py:405-417 | boxes in contact interpenetrate by at most the tolerance along the contact axis |
| AssemblyProperties.ContactHidesLittle | src/ai_native_cad/assembly_validator.py:398-417 | the overlap a contact hides is at most tolerance times the projected area |
| AssemblyProperties.GapExcludesOverlap | src/ai_native_cad/assembly_validator.py:427-436 | a positive gap on an axis forces zero overlap volume |
| AssemblyProperties.SymmetricPair | src/ai_native_cad/assembly_validator.py:398-424 | contact, face gap and overlap do not depend on the order of the pair |
| AssemblyProperties.SeparationSymmetricExactly | src/ai_native_cad/assembly_validator.py:427-436 | the separation on an axis depends on the order exactly when the boxes cross by different lengths, which upright boxes never do |
| AssemblyProperties.SymmetricGap | src/ai_native_cad/assembly_validator.py:427-436 | the minimum gap of upright boxes does not depend on their order |
| AssemblyProperties.InvertedGapDependsOnOrder | src/ai_native_cad/assembly_validator.py:427-436 | with extents given in the wrong order, which nothing refuses, it does |
| AssemblyProperties.FindingsComeFromPairs | src/ai_native_cad/assembly_validator.py:266-295 | the findings are exactly those of the pairs i < j |
| AssemblyProperties.PermutationInvariant | src/ai_native_cad/assembly_validator.py:260-295 | contacts and interferences, with multiplicity and as unordered pairs, do not depend on the order of the parts, nor do clearance warnings when the boxes are upright |
| AssemblyProperties.ReportTranslationInvariant | src/ai_native_cad/assembly_validator.py:260-295 | moving all boxes by one vector changes nothing in the report |
| AssemblyProperties.ContactedIffTouching | src/ai_native_cad/assembly_validator.py:386-391 | a part is contacted exactly when it touches another |
| AssemblyProperties.FloatingIffIsolated | src/ai_native_cad/assembly_validator.py:386-395 | with distinct names the floating errors are exactly the non-anchor parts of degree zero |
| AssemblyProperties.FloatingIsUnsupported | src/ai_native_cad/assembly_validator.py:386-395 | no reported part is connected to an anchor |
| AssemblyProperties.FloatingIsReachabilityExactly | src/ai_native_cad/assembly_validator.py:377-395 | with distinct names, reported means unsupported for every part exactly when every part that touches another is supported by a chain from an anchor |
| AssemblyProperties.IslandEscapes | src/ai_native_cad/assembly_validator.py:386-395 | no part of an island, any set of parts without an anchor that touch only one another, is reported, although none is supported |
| AssemblyProperties.IslandExists | src/ai_native_cad/assembly_validator.py:386-395 | three cubes in a row show such an island |
| AssemblyProperties.PlacementSucceedsExactly | src/ai_native_cad/assembly_validator.py:298-311 | with distinct names the summary reports success exactly when every part but the anchors touches another, and every pair that does not touch neither overlaps nor comes too close unless allowed to |
| WorkDesignValidator.ValidateWorkDesign | src/ai_native_cad/agents/episode.py:2305-2467 | the imperative validator with its growing lists and key set is the specification |
| WorkDesignValidator.GeneratedParts | src/ai_native_cad/agents/episode.py:2344-2401 | entry loop with the set of used keys |
| WorkDesignValidator.References | src/ai_native_cad/agents/episode.py:2402-2436 | entry loop over reference components |
| WorkDesignValidator.Relations | src/ai_native_cad/agents/episode.py:2547-2581 | entry loop over relations |
| WorkDesignProposalProperties.AcceptedExactly | src/ai_native_cad/agents/work_design_contract.py:45-153 | the validator accepts exactly what the contract table describes after trimming, and answers with the trimmed value and its version |
| WorkDesignProposalProperties.ResultIsNormalForm | src/ai_native_cad/agents/episode.py:2444-2467 | the result without its version is accepted again, unchanged |
| WorkDesignProposalProperties.GeneratedPartsDistinct | src/ai_native_cad/agents/episode.py:2354-2371 | the generated parts of a result fit the table and no two share a trimmed key |
| WorkDesignProposalProperties.AuthorityScanRefusesOnlyMisfits | src/ai_native_cad/agents/episode.py:2321-2331 | a value that supplies a product identity never fits the table, so the scan changes no verdict, only the reason |
| WorkDesignProposalProperties.PartItemsExactly | src/ai_native_cad/agents/episode.py:2344-2401 | parts are accepted exactly when each fits and the trimmed keys are pairwise distinct |
| WorkDesignProposalProperties.TextListExactly | src/ai_native_cad/agents/episode.py:2584-2614 | a text list is accepted exactly when its size and every trimmed item fit |
| WorkDesignProposalProperties.ShapeProblemExactly | src/ai_native_cad/agents/episode.py:2470-2516 | the field check passes exactly on dictionaries with the table's field names |
| WorkDesignProposal.BoundedText | src/ai_native_cad/agents/episode.py:2617-2645 | a text is accepted exactly when its trimmed form fits, and is returned trimmed |
| WorkDesignContract.TrimmedFits | src/ai_native_cad/agents/work_design_contract.py:45-153 | trimming decides nothing: a value fits exactly when its normal form does |
| WorkDesignContract.FittingHoldsOnlyTableNames | src/ai_native_cad/agents/work_design_contract.py:90-153 | a fitting value contains no field name outside the table, at any depth |
| WorkDesignOrchestrator.Orchestrator.Run | src/ai_native_cad/agents/episode.py:2007-2302 | initial supply and loop end exactly as the transition system says, for any supplier and clock |
| WorkDesignOrchestrator.Orchestrator.SupplyInitial | src/ai_native_cad/agents/episode.py:2007-2038 | the earlier design and the answers are supplied and charged before the first turn |
| WorkDesignOrchestrator.Orchestrator.Step | src/ai_native_cad/agents/episode.py:2041-2120 | one pass, with the clock read again after the supplier |
| WorkDesignOrchestrator.Orchestrator.HandleRejection | src/ai_native_cad/agents/episode.py:1964-2005 | raise, spend one turn, or end as policy blocked |
| WorkDesignOrchestrator.Orchestrator.RequestContextItem | src/ai_native_cad/agents/episode.py:2121-2158 | budgets, missing key and resolution before supplying |
| WorkDesignOrchestrator.Orchestrator.Propose | src/ai_native_cad/agents/episode.py:2159-2187 | an accepted proposal replaces the draft; a refused one is handled as a rejection and leaves the draft |
| WorkDesignOrchestrator.Orchestrator.RequestCreation | src/ai_native_cad/agents/episode.py:2188-2220 | creation needs a draft without unresolved questions |
| WorkDesignOrchestrator.Orchestrator.AskQuestions | src/ai_native_cad/agents/episode.py:2221-2244 | every question is copied as a dictionary in turn; the first that is none ends the run untyped, otherwise the user is asked |
| WorkDesignOrchestrator.Orchestrator.StopEpisode | src/ai_native_cad/agents/episode.py:2245-2296 | completed and user-input stops are ordering mistakes |
| WorkDesignEpisode.RecordedEachStep | src/ai_native_cad/agents/episode.py:2086-2087 | a continued pass spends exactly one step and logs that response under its number |
| WorkDesignEpisode.StandardIsWired | src/ai_native_cad/agents/episode.py:1742-1885 | the Work Design episode as the product assembles it uses the modelled contracts and validator |
| WorkDesignEpisodeProperties.NextSound | src/ai_native_cad/agents/episode.py:2041-2302 | every pass keeps budgets, counts, numbering, context accounting and draft validity |
| WorkDesignEpisodeProperties.ReachableSound | src/ai_native_cad/agents/episode.py:2007-2302 | in every state of every run context bytes are the sum of the supplied sizes, requests are the supplied items minus the initial ones, and every item passed the key, Skill and Work checks |
| WorkDesignEpisodeProperties.RunsAreShort | src/ai_native_cad/agents/episode.py:2041-2074 | no run has more states than the step budget plus one |
| WorkDesignEpisodeProperties.CorrectionsAlongRuns | src/ai_native_cad/agents/episode.py:1964-2005 | along every run the correction protocol holds between any two states, ordering mistakes included |
| WorkDesignEpisodeProperties.RunIsComplete | src/ai_native_cad/agents/episode.py:2041-2302 | the run the loop computes is a complete run |
| WorkDesignEpisodeProperties.RunResultSound | src/ai_native_cad/agents/episode.py:1900-1962 | in particular for the result of the episode, including one that ends during the initial supply |
| WorkDesignEpisodeProperties.InitialSound | src/ai_native_cad/agents/episode.py:2007-2038 | the initial supply keeps the books and ends early only for want of bytes or a missing item |
| WorkDesignEpisodeProperties.CorrectionProtocol | src/ai_native_cad/agents/episode.py:1964-2005 | a correction is recorded exactly when owed, ordering mistakes included, and costs one step and one turn and nothing else |
| WorkDesignEpisodeProperties.UncorrectedEnds | src/ai_native_cad/agents/episode.py:1964-2005 | an owed correction that ends with a result met a spent turn budget |
| WorkDesignEpisodeProperties.EveryResultSound | src/ai_native_cad/agents/episode.py:1900-1962 | over every complete run: completed iff Part creation was requested, on a contract-valid draft without unresolved questions |
| WorkDesignEpisodeProperties.CreationExactly | src/ai_native_cad/agents/episode.py:2188-2220 | creation is granted exactly on a draft without open questions |
| WorkDesignEpisodeProperties.OnlyCreationCompletes | src/ai_native_cad/agents/episode.py:2121-2302 | of all actions only a create request on a draft without open questions completes the episode, a stop that claims completion included |
| WorkDesignEpisodeProperties.RunCompletesExactly | src/ai_native_cad/agents/episode.py:2041-2302 | a run completes exactly when its last pass, in time by both clock readings, grants Part creation, and then its draft is valid under the contract |
| WorkDesignEpisodeProperties.NextCrashesExactly | src/ai_native_cad/agents/episode.py:2159-2244 | a pass ends in an untyped failure exactly on an authorised action, in time by both clock readings and within the budgets, that proposes no Work Design or asks questions that make no dictionaries |
| WorkDesignEpisodeProperties.RunCrashesExactly | src/ai_native_cad/agents/episode.py:2041-2302 | a run ends in an untyped failure exactly when its last pass is such an action |
| WorkDesignEpisodeProperties.ParsedNeverCrashes | src/ai_native_cad/agents/episode.py:2075-2244 | a pass on a plain response never ends in an untyped failure, so only typed actions do |

## Left out

- Numbers: outside the broker's archive check and the repair, Python's `True == 1`, `1 == 1.0` and Booleans counted as integers; everywhere NaN, infinities and float rounding error. Integers are unbounded and floats are reals; which integers convert to a float is a parameter of the archive check (`Platform.fits`).
- Text: case mapping, blanks and letter classes are ASCII only.
- Coercions of `CADIR.from_dict` (`str`, `float`, numeric strings) and of `float()` in repair: the IR is taken in its normalised form.
- IrRepair.RepairIr: a change text is an enumeration value, and the reason and feature annotations of the reported diff entries are not modelled.
- IrRepairProperties.HoleFits: the offset bound is stated up to half a rounding step, because the code rounds after clamping.
- IrRepairProperties.RepairIdempotentExactly: a second repair that only turns an integer into the equal float counts as a change.
- Assembly.ValidatePlacement: required contacts, constraints, exports and the Markdown report are not modelled; pattern matching of allowed interferences and the rounding of reported figures are parameters.
- ModuleReach.UnreachableExactly: a flow is a sequence of places that may hold the module, in any order the scopes allow, not an execution; once the module was read as a value, any assigned, passed or computed value may be it.
- CalleeResolution.UnboundCallIsBuiltin: writes through objects and values the libraries return are not followed; once a namespace is handed out, every name may stand for anything.
- SourcePolicy.ValidateSource: source size, node count, parse errors and the final sorting of the report are not modelled; a text that does not parse is never clean.
- EvidenceFolder.CandidateFolder.PersistEvidence: other processes and links in the folder; a write that fails leaves an empty file, a removal that fails leaves the staging folder as it is.
- ToolBroker.ValidateWorkerArchive: tar parsing is an already decoded member list, absent when the bytes are no tar file; floats are finite because they are reals.
- ToolBrokerProperties.SanitizedKeepsReimport: redaction is a map over text leaves; the code redacts the encoded JSON text, which could also alter field names, and a text that no longer parses then counts as a failed attempt to persist.
- Interpreter limits: memory, and the recursion limit anywhere but in parsing a worker's observation; encoding a deeply nested document for the evidence files can hit it too.
- Encoding failures of the episode's own artifact writer: lone surrogates and non-finite floats make its hashes (src/ai_native_cad/agents/episode.py:1031, 2908-2986, 3171-3179) raise, which also ends a run untyped.
- Syntax: type parameter lists and the scopes they open (Python 3.12) are not in the tree.
- The broker's manifests, capability detection and the attestation's own construction; an attestation either verifies or is absent.
- The source-validation tool's full result fields beyond verdict and codes.
- Episode artifacts: files, context manifest, provider-safe projections of responses and events; the event log keeps the step and kind of each event.
- Diagnostics: messages, stages and expected fields of rejections; a rejection keeps its reason, action, field issue and safe field name.
- The text and field lists of correction feedback; only whether it is given, for which reason and action.
- Construction of context items, provider adapters, HTTP clients, the CLI, smoke and evaluation scripts, exporters, CAD backends, and the natural-language requirement heuristics.
- Workflow control, planning and registries: data tables and single-branch decisions that would only add easy members.
