/** The budgeted design episode: one transition per supplier response, and the loop that drives it. */
module Episode {
  import opened Json
  import opened Strings
  import opened Actions
  import opened Dictionaries
  import opened Ledger
  import opened SemanticContext
  import Broker = ToolBroker
  import Forbidden = ForbiddenFields

  datatype Budget = Budget(
    maxSteps: nat, maxContextRequests: nat, maxContextBytes: nat, maxSubmissions: nat, maxRepairs: nat,
    maxSources: nat, maxExecutions: nat, maxInspections: nat, timeout: real, maxTurns: nat)

  datatype Capabilities = Capabilities(
    skill: string, actions: set<Kind>, contextKeys: set<string>, contractTypes: set<string>,
    stopReasons: set<StopReason>)

  /** What one pass of the loop meets: the clock, the supplier (absent when it raises) and the tools. */
  datatype Turn = Turn(elapsed: real, response: Option<Response>, tools: Broker.Config, world: Broker.World)

  datatype Program = Program(api: Value, source: Value, parameters: Value)

  /**
   * Everything fixed for the whole episode. The loop reaches the action contract, the correction contract, the
   * executable-field search and the Tool Broker through the five function fields; `Wired` says which they are.
   */
  datatype Setup = Setup(
    budget: Budget, capabilities: Capabilities, items: map<string, ContextItem>, contentSize: Value -> nat,
    work: Option<string>, run: string, part: string, episode: string,
    judge: Response -> Result<(Kind, Action), Rejection>,
    repair: (Rejection, Response, bool) -> Option<Feedback>,
    search: Value -> Result<(), string>,
    execute: (Program, string, Turn) -> Broker.Invocation,
    validate: (Value, Turn) -> Broker.Invocation,
    platform: Broker.Platform, order: Forbidden.KeyOrder)

  // -------------------------------------------------------------------- state

  datatype Phase =
    | Created | GatheringContext | Proposing | Repairing | AwaitingValidation
    | ProgramProposed | RepairingProgram | ObservationAvailable | ObservationInspected
    | CorrectingActionContract

  datatype Limit =
    | Timeout | Steps | ContextRequests | ContextBytes | Submissions | Repairs | Sources | Executions | Inspections

  datatype EventKind =
    | ContextSupplied | ContractProposed | ContractPatched | ContractValidated
    | ProgramCreated | ProgramPatched | ExecutionStarted | ExecutionBlocked | Inspected
    | Corrected | CorrectionRefused | Exhausted(limit: Limit) | SupplierFailed | UserAsked | Stopped

  datatype Supplied = SuppliedItem(item: ContextItem) | SuppliedObservation(id: string, observation: Broker.Observation)

  datatype Diagnostic =
    | ToolRejected(observationType: string) | CorrectionExhausted(reason: Reason, turns: nat) | ReportedPolicyBlock

  datatype State = State(
    phase: Phase, steps: nat,
    contextRequests: nat, contextBytes: nat, submissions: nat, repairs: nat,
    sources: nat, executions: nat, inspections: nat,
    draft: Option<Value>, feedback: Option<Value>,
    program: Option<Program>, candidate: Option<string>,
    observation: Option<Broker.Observation>, observationId: Option<string>, inspected: bool,
    failure: Option<Diagnostic>,
    correction: Option<Feedback>, turns: nat, exhausted: bool, sideEffect: bool,
    supplied: seq<Supplied>, responses: seq<Logged>, events: seq<Event<EventKind>>)

  const START := State(
    Created, 0, 0, 0, 0, 0, 0, 0, 0, None, None, None, None, None, None, false, None, None, 0, false, false, [], [], [])

  // ------------------------------------------------------------------ results

  datatype ResultKind = StructuredContract | ModelProgram

  /** The final counters, drafts and identities are those of `final`. */
  datatype EpisodeResult = EpisodeResult(
    final: State, reason: StopReason, completed: bool, validated: bool, kind: ResultKind,
    executionSucceeded: bool, outputValidated: bool, failure: Option<Diagnostic>)

  /** How a run ends: a typed result, a raised rejection, or an untyped failure out of a tool. */
  datatype Ending = Finished(result: EpisodeResult) | Raised(rejection: Rejection) | Crashed

  datatype Outcome = Continue(state: State) | Ended(ending: Ending)

  predicate Succeeded(s: State) {
    s.observation.Some? && s.observation.value.success
  }

  /** The re-import fact about the latest observation. */
  predicate Evidence(s: State) {
    Succeeded(s) && Broker.ValidReimport(s.observation.value.output)
  }

  datatype Claim = Claim(validated: bool, kind: Option<ResultKind>, outputValidated: bool, failure: Option<Diagnostic>)

  const NO_CLAIM := Claim(false, None, false, None)

  function Finish(s: State, reason: StopReason, claim: Claim): EpisodeResult {
    EpisodeResult(
      s, reason,
      reason == Completed && (claim.validated || claim.outputValidated),
      claim.validated,
      if claim.kind.Some? then claim.kind.value else if s.program.Some? then ModelProgram else StructuredContract,
      Succeeded(s),
      claim.outputValidated || Evidence(s),
      if claim.failure.Some? then claim.failure else s.failure)
  }

  function Note(s: State, kind: EventKind): State {
    s.(events := s.events + [Event(s.steps, kind)])
  }

  /** The event is logged and the loop goes on in the phase. */
  function Noting(s: State, kind: EventKind, phase: Phase): State {
    Note(s, kind).(phase := phase)
  }

  function End(s: State, kind: EventKind, reason: StopReason, claim: Claim): Outcome {
    Ended(Finished(Finish(Note(s, kind), reason, claim)))
  }

  function OutOf(s: State, limit: Limit, kind: Option<ResultKind>): Outcome {
    End(s, Exhausted(limit), BudgetExhausted, NO_CLAIM.(kind := kind))
  }

  function Raise(reason: Reason, kind: Kind): Outcome {
    Ended(Raised(Reject(reason, ActionName(kind))))
  }

  // ------------------------------------------------- the correction protocol

  function Granting(s: State, feedback: Option<Feedback>): State {
    s.(turns := s.turns + 1, correction := feedback)
  }

  /** `handle_contract_rejection` */
  function Correct(c: Setup, s: State, rejection: Rejection, response: Response): Outcome {
    var feedback := c.repair(rejection, response, s.sideEffect);
    if feedback.None? then Ended(Raised(rejection))
    else if s.turns >= c.budget.maxTurns then
      End(s.(exhausted := true), CorrectionRefused, PolicyBlocked,
          NO_CLAIM.(failure := Some(CorrectionExhausted(rejection.reason, s.turns))))
    else
      Continue(Noting(Granting(s, feedback), Corrected, CorrectingActionContract))
  }

  // ------------------------------------------------------- one action at a time

  function Numbered(prefix: string, n: nat): string {
    prefix + (if n < 10 then "00" else if n < 100 then "0" else "") + Decimal(n)
  }

  function Candidate(n: nat): string {
    Numbered("candidate_", n)
  }

  function ObservationName(n: nat): string {
    Numbered("observation_", n)
  }

  function Supplying(s: State, item: ContextItem, size: nat): State {
    s.(contextRequests := s.contextRequests + 1, contextBytes := s.contextBytes + size,
       supplied := s.supplied + [SuppliedItem(item)])
  }

  function WithItem(s: State, item: ContextItem, size: nat): State {
    Noting(Supplying(s, item, size), ContextSupplied, GatheringContext)
  }

  function OnContext(c: Setup, s: State, a: Action, response: Response): Outcome {
    if s.contextRequests >= c.budget.maxContextRequests then OutOf(s, ContextRequests, None)
    else if a.contextKey.None? || a.contextKey.value == "" then
      Correct(c, s, Reject(MissingContextKey, a.action), response)
    else
      match Resolve(c.items, a.contextKey.value, c.capabilities.contextKeys, c.work)
      case Err(rejection) => Ended(Raised(rejection))
      case Ok(item) =>
        var size := c.contentSize(item.content);
        if s.contextBytes + size > c.budget.maxContextBytes then OutOf(s, ContextBytes, None)
        else
          Continue(WithItem(s, item, size))
  }

  function Drafting(s: State, isRepair: bool, contract: Option<Value>): State {
    s.(repairs := if isRepair then s.repairs + 1 else s.repairs, submissions := s.submissions + 1, draft := contract)
  }

  function WithDraft(s: State, isRepair: bool, contract: Option<Value>): State {
    Noting(Drafting(s, isRepair, contract),
           if isRepair then ContractPatched else ContractProposed,
           if isRepair then Repairing else Proposing)
  }

  function OnContract(c: Setup, s: State, kind: Kind, a: Action): Outcome
  {
    var isRepair := kind.PatchContract? || kind.RepairContract?;
    if s.submissions >= c.budget.maxSubmissions then OutOf(s, Submissions, None)
    else if isRepair && s.repairs >= c.budget.maxRepairs then OutOf(s, Repairs, None)
    else if a.contractType.None? || a.contractType.value !in c.capabilities.contractTypes
            || a.contract.None? || !a.contract.value.Obj? then Raise(ContractTypeNotAllowed, kind)
    else if c.search(a.contract.value).Err? then
      Raise(StructuredContractExecutionField, kind)
    else
      Continue(WithDraft(s, isRepair, a.contract))
  }

  /** The retained program, or none when a typed action's payload is incomplete or of the wrong types. */
  function ProgramOf(payload: Option<Value>, order: Forbidden.KeyOrder): Option<Program> {
    if payload.Some? && payload.value.Obj?
       && "api_id" in payload.value.fields && "source" in payload.value.fields && "parameters" in payload.value.fields
       && payload.value.fields["source"].Str?
    then
      var parameters := DictOf(payload.value.fields["parameters"], "parameters", order);
      if parameters.None? then None
      else Some(Program(payload.value.fields["api_id"], payload.value.fields["source"], parameters.value))
    else None
  }

  /** No observation of the candidate, or a fresh one. */
  function Showing(s: State, o: Option<Broker.Observation>, id: Option<string>): State {
    s.(observation := o, observationId := id, inspected := false)
  }

  function Replacing(s: State, isRepair: bool, program: Option<Program>): State {
    s.(repairs := if isRepair then s.repairs + 1 else s.repairs,
       sources := s.sources + 1, program := program, candidate := Some(Candidate(s.sources + 1)))
  }

  /** A new candidate supersedes the observation of the previous one. */
  function WithProgram(s: State, isRepair: bool, program: Option<Program>): State {
    Noting(Replacing(Showing(s, None, None), isRepair, program),
           if isRepair then ProgramPatched else ProgramCreated,
           if isRepair then RepairingProgram else ProgramProposed)
  }

  function OnProgram(c: Setup, s: State, kind: Kind, a: Action): Outcome {
    var isRepair := kind.PatchModelProgram?;
    var program := ProgramOf(a.modelProgram, c.order);
    if s.sources >= c.budget.maxSources then OutOf(s, Sources, Some(ModelProgram))
    else if !isRepair && s.program.Some? then Raise(CandidateAlreadyExists, kind)
    else if isRepair && s.program.None? then Raise(CandidateMissing, kind)
    else if isRepair && (s.observation.None? || !s.inspected) then Raise(InspectionRequired, kind)
    else if isRepair && s.repairs >= c.budget.maxRepairs then OutOf(s, Repairs, Some(ModelProgram))
    else if program.None? then Ended(Crashed)
    else
      Continue(WithProgram(s, isRepair, program))
  }

  /** The trusted lineage of an execution, when every identity is path-safe. */
  function Identity(work: Option<string>, run: string, part: string, episode: string): Option<Broker.Context> {
    var owner := if work.Some? then work.value else "";
    if Broker.SafeId(owner) && Broker.SafeId(run) && Broker.SafeId(part) && Broker.SafeId(episode)
    then Some(Broker.Context(owner, run, part, episode))
    else None
  }

  function Lineage(c: Setup): Option<Broker.Context> {
    Identity(c.work, c.run, c.part, c.episode)
  }

  function ExecutionPayload(program: Program, candidate: string): Value {
    Obj(map["api_id" := program.api, "candidate_id" := Str(candidate), "source" := program.source,
            "parameters" := program.parameters, "requested_outputs" := Arr([Str("step")])])
  }

  function Accounting(s: State, o: Broker.Observation): State {
    s.(sideEffect := s.sideEffect || o.sideEffect, executions := s.executions + 1,
       failure := if o.success then None else Some(ToolRejected(o.observationType)))
  }

  function WithObservation(s: State, o: Broker.Observation): State {
    Noting(Accounting(Showing(s, Some(o), Some(ObservationName(s.executions + 1))), o),
           if o.sideEffect then ExecutionStarted else ExecutionBlocked, ObservationAvailable)
  }

  function OnExecution(c: Setup, s: State, turn: Turn): Outcome
  {
    if s.program.None? || s.candidate.None? then Raise(CandidateMissing, RequestExecution)
    else if s.observation.Some? then Raise(CandidateAlreadyExecuted, RequestExecution)
    else if s.executions >= c.budget.maxExecutions then OutOf(s, Executions, Some(ModelProgram))
    else if Lineage(c).None? then Raise(InvalidExecutionLineage, RequestExecution)
    else
      match c.execute(s.program.value, s.candidate.value, turn).reply
      case Failure(_) => Ended(Crashed)
      case Observed(o) =>
        Continue(WithObservation(s, o))
  }

  function Inspecting(s: State, shown: Supplied): State {
    s.(inspections := s.inspections + 1, inspected := true, supplied := s.supplied + [shown])
  }

  function WithInspection(s: State, shown: Supplied): State {
    Noting(Inspecting(s, shown), EventKind.Inspected, ObservationInspected)
  }

  function OnInspection(c: Setup, s: State): Outcome {
    if s.observation.None? || s.observationId.None? then Raise(ExecutionObservationMissing, InspectObservation)
    else if s.inspected then Raise(ObservationAlreadyInspected, InspectObservation)
    else if s.inspections >= c.budget.maxInspections then OutOf(s, Inspections, Some(ModelProgram))
    else
      Continue(WithInspection(s, SuppliedObservation(s.observationId.value, s.observation.value)))
  }

  function WithFeedback(s: State, o: Broker.Observation): State {
    s.(sideEffect := s.sideEffect || o.sideEffect, feedback := Some(o.output))
  }

  function OnValidation(c: Setup, s: State, turn: Turn): Outcome
  {
    if s.draft.None? then Raise(StructuredContractMissing, RequestValidation)
    else
      match c.validate(s.draft.value, turn).reply
      case Failure(_) => Ended(Crashed)
      case Observed(o) =>
        if !Broker.FeedbackOk(o.output) then Raise(InvalidToolObservation, RequestValidation)
        else
          var checked := WithFeedback(s, o);
          if o.output.fields["valid"].b then End(checked, ContractValidated, Completed, NO_CLAIM.(validated := true))
          else Continue(Noting(checked, ContractValidated, AwaitingValidation))
  }

  function OnStop(c: Setup, s: State, a: Action): Outcome {
    var reason := if a.stopReason.Some? then a.stopReason.value else InsufficientContext;
    if reason == Completed then
      if s.program.Some? && Succeeded(s) && s.inspected && Evidence(s) then
        End(s, Stopped, Completed, Claim(false, Some(ModelProgram), true, None))
      else Raise(CompletionEvidenceIncomplete, Stop)
    else if reason !in c.capabilities.stopReasons then Raise(StopReasonNotAllowed, Stop)
    else
      End(s, Stopped, reason,
          NO_CLAIM.(failure := if reason == PolicyBlocked && s.failure.None? then Some(ReportedPolicyBlock) else None))
  }

  /** Every question is copied as a dictionary into the request to the user. */
  function OnQuestions(s: State, a: Action): Outcome {
    if !AllDictable(a.questions) then Ended(Crashed)
    else End(s, UserAsked, UserInputRequired, NO_CLAIM)
  }

  /** One authorised action. */
  function Act(c: Setup, s: State, kind: Kind, a: Action, response: Response, turn: Turn): Outcome
  {
    match kind
    case RequestContext => OnContext(c, s, a, response)
    case CreateContract | PatchContract | SubmitContract | RepairContract => OnContract(c, s, kind, a)
    case CreateModelProgram | PatchModelProgram => OnProgram(c, s, kind, a)
    case RequestExecution => OnExecution(c, s, turn)
    case InspectObservation => OnInspection(c, s)
    case RequestValidation => OnValidation(c, s, turn)
    case AskUser => OnQuestions(s, a)
    case Stop => OnStop(c, s, a)
    case ProposeWorkDesign | CreatePartJobs => Raise(ActionNotRegistered, kind)
  }

  /** The state once a response has been recorded. */
  function Recorded(s: State, response: Response): State {
    s.(steps := s.steps + 1, responses := s.responses + [Logged(s.steps + 1, response)])
  }

  /** A recorded response: corrected when it is not an authorised action, acted on otherwise. */
  function Answer(c: Setup, s: State, response: Response, turn: Turn): Outcome
  {
    match c.judge(response)
    case Err(rejection) => Correct(c, s, rejection, response)
    case Ok(authorised) => Act(c, s.(correction := None), authorised.0, authorised.1, response, turn)
  }

  /** One pass of the loop. */
  function Next(c: Setup, s: State, turn: Turn): Outcome
  {
    if turn.elapsed >= c.budget.timeout then OutOf(s, Timeout, None)
    else if s.steps >= c.budget.maxSteps then OutOf(s, Steps, None)
    else if turn.response.None? then End(s, SupplierFailed, ProviderFailure, NO_CLAIM)
    else Answer(c, Recorded(s, turn.response.value), turn.response.value, turn)
  }

  /** Nothing an action does touches the step count or the response log. */
  predicate KeepsRecord(s: State, outcome: Outcome) {
    outcome.Continue? ==> outcome.state.steps == s.steps && outcome.state.responses == s.responses
  }

  lemma CorrectKeepsRecord(c: Setup, s: State, rejection: Rejection, response: Response)
    ensures KeepsRecord(s, Correct(c, s, rejection, response))
  {
    hide Finish;
  }

  lemma ActKeepsRecord(c: Setup, s: State, kind: Kind, a: Action, response: Response, turn: Turn)
    ensures KeepsRecord(s, Act(c, s, kind, a, response, turn))
  {
    hide ActionName, Broker.FeedbackOk, Candidate, Correct, Evidence, Finish;
    hide Lineage, ObservationName, ProgramOf, Reject, Resolve, Succeeded;
    match kind
    case RequestContext => CorrectKeepsRecord(c, s, Reject(MissingContextKey, a.action), response);
    case CreateContract | PatchContract | SubmitContract | RepairContract =>
    case CreateModelProgram | PatchModelProgram =>
    case RequestExecution =>
    case InspectObservation =>
    case RequestValidation =>
    case _ =>
  }

  /** Every continued pass spends one step and logs that step's response under its number. */
  lemma RecordedEachStep(c: Setup, s: State, turn: Turn)
    ensures Next(c, s, turn).Continue? ==>
              && s.steps < c.budget.maxSteps && turn.response.Some?
              && Next(c, s, turn).state.steps == s.steps + 1
              && Next(c, s, turn).state.responses == s.responses + [Logged(s.steps + 1, turn.response.value)]
  {
    hide Act, Correct, Finish;
    if turn.elapsed < c.budget.timeout && s.steps < c.budget.maxSteps && turn.response.Some? {
      var response := turn.response.value;
      var t := Recorded(s, response);
      var judged := c.judge(response);
      if judged.Err? {
        CorrectKeepsRecord(c, t, judged.error, response);
      } else {
        ActKeepsRecord(c, t.(correction := None), judged.value.0, judged.value.1, response, turn);
      }
    }
  }

  /** The whole run from a state: `env(n)` is what the loop meets after `n` responses. */
  function RunFrom(c: Setup, s: State, env: nat -> Turn): Ending
    decreases c.budget.maxSteps - s.steps
  {
    RecordedEachStep(c, s, env(s.steps));
    match Next(c, s, env(s.steps))
    case Ended(ending) => ending
    case Continue(next) => RunFrom(c, next, env)
  }

  // ------------------------------------------------------------------- wiring

  function EncodedSize(c: Setup): Value -> nat {
    v => |c.platform.canonical(v)|
  }

  /** `AgentAction.from_value` and the Skill's allowlist. */
  ghost predicate JudgeWired(c: Setup, response: Response) {
    c.judge(response) == Authorize(response, c.capabilities.actions, EncodedSize(c))
  }

  /** `_contract_repair_feedback` */
  ghost predicate RepairWired(c: Setup, rejection: Rejection, response: Response, sideEffect: bool) {
    c.repair(rejection, response, sideEffect)
    == RepairFeedback(rejection, response, c.capabilities.actions, c.capabilities.skill, sideEffect)
  }

  /** `_reject_execution_fields` */
  ghost predicate SearchWired(c: Setup, draft: Value)
    requires Forbidden.Enumerates(c.order)
  {
    c.search(draft) == Forbidden.RejectExecutionFields(draft, "", c.order)
  }

  /** `CadFlowToolBroker.invoke` on the model-program tool, always under the model-program Skill. */
  ghost predicate ExecuteWired(c: Setup, program: Program, candidate: string, turn: Turn)
    requires Forbidden.Enumerates(c.platform.order)
  {
    c.execute(program, candidate, turn)
    == Broker.Invoke(turn.tools, c.platform, turn.world, Broker.MODEL_PROGRAM_TOOL, "model_program",
                     ExecutionPayload(program, candidate), Lineage(c))
  }

  function ValidationPayload(draft: Value): Value {
    Obj(map["contract_type" := Str("cad_ir_draft"), "contract" := draft])
  }

  /** `CadFlowToolBroker.invoke` on the structured validator, under the active Skill. */
  ghost predicate ValidateWired(c: Setup, draft: Value, turn: Turn)
    requires Forbidden.Enumerates(c.platform.order)
  {
    c.validate(draft, turn)
    == Broker.Invoke(turn.tools, c.platform, turn.world, Broker.STRUCTURED_CONTRACT_TOOL, c.capabilities.skill,
                     ValidationPayload(draft), None)
  }

  /** The function fields are the modelled action contract, correction contract, search and Tool Broker. */
  ghost predicate Wired(c: Setup) {
    && Forbidden.Enumerates(c.platform.order) && Forbidden.Enumerates(c.order)
    && (forall response :: JudgeWired(c, response))
    && (forall rejection, response, sideEffect :: RepairWired(c, rejection, response, sideEffect))
    && (forall draft :: SearchWired(c, draft))
    && (forall program, candidate, turn :: ExecuteWired(c, program, candidate, turn))
    && (forall draft, turn :: ValidateWired(c, draft, turn))
  }

  /** The episode as the product assembles it. */
  function Standard(
    budget: Budget, capabilities: Capabilities, items: seq<ContextItem>, contentSize: Value -> nat,
    work: Option<string>, run: string, part: string, episode: string,
    platform: Broker.Platform, order: Forbidden.KeyOrder): Setup
    requires Forbidden.Enumerates(platform.order) && Forbidden.Enumerates(order)
  {
    Setup(
      budget, capabilities, Registry(items), contentSize, work, run, part, episode,
      response => Authorize(response, capabilities.actions, v => |platform.canonical(v)|),
      (rejection, response, sideEffect) =>
        RepairFeedback(rejection, response, capabilities.actions, capabilities.skill, sideEffect),
      draft => Forbidden.RejectExecutionFields(draft, "", order),
      (program, candidate, turn: Turn) =>
        Broker.Invoke(turn.tools, platform, turn.world, Broker.MODEL_PROGRAM_TOOL, "model_program",
                      ExecutionPayload(program, candidate), Identity(work, run, part, episode)),
      (draft, turn: Turn) =>
        Broker.Invoke(turn.tools, platform, turn.world, Broker.STRUCTURED_CONTRACT_TOOL, capabilities.skill,
                      ValidationPayload(draft), None),
      platform, order)
  }

  /** The product's own episode is wired, so every result about wired episodes is about it. */
  lemma StandardIsWired(
    budget: Budget, capabilities: Capabilities, items: seq<ContextItem>, contentSize: Value -> nat,
    work: Option<string>, run: string, part: string, episode: string,
    platform: Broker.Platform, order: Forbidden.KeyOrder)
    requires Forbidden.Enumerates(platform.order) && Forbidden.Enumerates(order)
    ensures Wired(Standard(budget, capabilities, items, contentSize, work, run, part, episode, platform, order))
  {
    hide Authorize, RepairFeedback, Forbidden.RejectExecutionFields, Broker.Invoke, Registry, Identity;
  }
}
