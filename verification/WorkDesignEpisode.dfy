/** The Work-level design episode: one transition per supplier response, after an initial supply of context. */
module WorkDesignEpisode {
  import opened Json
  import opened Actions
  import opened Dictionaries
  import opened Ledger
  import opened SemanticContext
  import opened WorkDesignProposal

  datatype Budget = Budget(
    maxSteps: nat, maxContextRequests: nat, maxContextBytes: nat, maxProposals: nat, timeout: real, maxTurns: nat)

  /**
   * Everything fixed for the whole episode. The loop reaches the action contract, the correction contract and the
   * proposal validator through the last three function fields; `Wired` says which they are.
   */
  datatype Setup = Setup(
    budget: Budget, items: map<string, ContextItem>, contentSize: Value -> nat, work: string,
    hasEarlierDesign: bool, hasAnswers: bool, encodedSize: Value -> nat,
    judge: Response -> Result<(Kind, Action), Rejection>,
    repair: (Rejection, Response) -> Option<Feedback>,
    check: Value -> Checked<Value>)

  // ----------------------------------------------------- the Work Design Skill

  const SKILL := "work_design"

  const ACTIONS := {RequestContext, ProposeWorkDesign, CreatePartJobs, AskUser, Stop}

  const KEYS := {"work_request", "accepted_work_context", "previous_work_design", "work_clarification_answers"}

  const STOP_REASONS :=
    {UnsupportedCapability, InsufficientContext, BudgetExhausted, ProviderFailure, PolicyBlocked, Completed}

  function InitialKeys(c: Setup): seq<string> {
    (if c.hasEarlierDesign then ["previous_work_design"] else [])
    + (if c.hasAnswers then ["work_clarification_answers"] else [])
  }

  // -------------------------------------------------------------------- state

  datatype Phase = Created | GatheringContext | Proposed | CorrectingActionContract

  datatype EventKind =
    | ContextSupplied | ProposalAccepted | Corrected | CorrectionRefused | CreationRequested
    | OutOfBudget | SupplierFailed | UserAsked | Stopped

  datatype Supplied = Supplied(item: ContextItem, size: nat, initial: bool)

  datatype State = State(
    phase: Phase, steps: nat, contextRequests: nat, contextBytes: nat, proposals: nat, draft: Option<Value>,
    correction: Option<Feedback>, turns: nat, exhausted: bool,
    supplied: seq<Supplied>, responses: seq<Logged>, events: seq<Event<EventKind>>)

  const START := State(Created, 0, 0, 0, 0, None, None, 0, false, [], [], [])

  datatype Diagnostic = CorrectionExhausted(reason: Reason, turns: nat) | ReportedPolicyBlock

  datatype EpisodeResult = EpisodeResult(
    final: State, reason: StopReason, completed: bool, creationRequested: bool, failure: Option<Diagnostic>)

  /** How a run ends: a typed result, a raised rejection, or an untyped failure on a hand-built action. */
  datatype Ending = Finished(result: EpisodeResult) | Raised(rejection: Rejection) | Crashed

  datatype Outcome = Continue(state: State) | Ended(ending: Ending)

  /** The clock is read before the supplier and again after it. */
  datatype Turn = Turn(before: real, response: Option<Response>, after: real)

  function Finish(s: State, reason: StopReason, creation: bool, failure: Option<Diagnostic>): EpisodeResult {
    EpisodeResult(s, reason, reason == Completed && s.draft.Some? && creation, creation, failure)
  }

  function Note(s: State, kind: EventKind): State {
    s.(events := s.events + [Event(s.steps, kind)])
  }

  function Noting(s: State, kind: EventKind, phase: Phase): State {
    Note(s, kind).(phase := phase)
  }

  function End(s: State, kind: EventKind, reason: StopReason, creation: bool, failure: Option<Diagnostic>): Outcome {
    Ended(Finished(Finish(Note(s, kind), reason, creation, failure)))
  }

  function Spent(s: State): Outcome {
    End(s, OutOfBudget, BudgetExhausted, false, None)
  }

  /** Request and proposal limits inside the loop end the run without an event of their own. */
  function SpentQuietly(s: State): Outcome {
    Ended(Finished(Finish(s, BudgetExhausted, false, None)))
  }

  // ----------------------------------------------------------- initial supply

  function Supplying(s: State, item: ContextItem, size: nat, initial: bool): State {
    s.(contextBytes := s.contextBytes + size, supplied := s.supplied + [Supplied(item, size, initial)])
  }

  function Lookup(c: Setup, key: string): Result<ContextItem, Rejection> {
    Resolve(c.items, key, KEYS, Some(c.work))
  }

  function Initial(c: Setup, s: State, keys: seq<string>): Outcome
    decreases |keys|
  {
    if keys == [] then Continue(s)
    else
      match Lookup(c, keys[0])
      case Err(rejection) => Ended(Raised(rejection))
      case Ok(item) =>
        var size := c.contentSize(item.content);
        if s.contextBytes + size > c.budget.maxContextBytes then Spent(s)
        else Initial(c, Supplying(s, item, size, true), keys[1..])
  }

  // ------------------------------------------------- the correction protocol

  function Granting(s: State, feedback: Option<Feedback>): State {
    s.(turns := s.turns + 1, correction := feedback)
  }

  function Correct(c: Setup, s: State, rejection: Rejection, response: Response): Outcome {
    var feedback := c.repair(rejection, response);
    if feedback.None? then Ended(Raised(rejection))
    else if s.turns >= c.budget.maxTurns then
      End(s.(exhausted := true), CorrectionRefused, PolicyBlocked, false,
          Some(CorrectionExhausted(rejection.reason, s.turns)))
    else Continue(Noting(Granting(s, feedback), Corrected, CorrectingActionContract))
  }

  // ------------------------------------------------------ one action at a time

  function OnContext(c: Setup, s: State, a: Action, response: Response): Outcome {
    if s.contextRequests >= c.budget.maxContextRequests then SpentQuietly(s)
    else if a.contextKey.None? || a.contextKey.value == "" then
      Correct(c, s, Reject(MissingContextKey, a.action), response)
    else
      match Lookup(c, a.contextKey.value)
      case Err(rejection) => Ended(Raised(rejection))
      case Ok(item) =>
        var size := c.contentSize(item.content);
        if s.contextBytes + size > c.budget.maxContextBytes then SpentQuietly(s)
        else
          Continue(Noting(Supplying(s, item, size, false).(contextRequests := s.contextRequests + 1),
                          ContextSupplied, GatheringContext))
  }

  function Drafting(s: State, draft: Value): State {
    s.(draft := Some(draft), proposals := s.proposals + 1)
  }

  function OnProposal(c: Setup, s: State, a: Action, response: Response): Outcome {
    if s.proposals >= c.budget.maxProposals then SpentQuietly(s)
    else if OrNull(a.workDesign).Null? then Ended(Crashed)
    else
      match c.check(a.workDesign.value)
      case Err(rejection) => Correct(c, s, rejection, response)
      case Ok(draft) => Continue(Noting(Drafting(s, draft), ProposalAccepted, Proposed))
  }

  predicate HasQuestions(draft: Value) {
    draft.Obj? && "unresolved_questions" in draft.fields && draft.fields["unresolved_questions"] != Arr([])
  }

  function OnCreation(c: Setup, s: State, a: Action, response: Response): Outcome {
    if s.draft.None? then Correct(c, s, Reject(ProposalMissing, a.action), response)
    else if HasQuestions(s.draft.value) then Correct(c, s, Reject(QuestionsUnresolved, a.action), response)
    else End(s, CreationRequested, Completed, true, None)
  }

  function OnStop(c: Setup, s: State, a: Action, response: Response): Outcome {
    var reason := if a.stopReason.Some? then a.stopReason.value else InsufficientContext;
    if reason == Completed then Correct(c, s, Reject(CompletionActionRequired, a.action), response)
    else if reason == UserInputRequired then Correct(c, s, Reject(QuestionActionRequired, a.action), response)
    else if reason !in STOP_REASONS then Ended(Raised(Reject(StopReasonNotAllowed, a.action)))
    else End(s, Stopped, reason, false, if reason == PolicyBlocked then Some(ReportedPolicyBlock) else None)
  }

  /** Every question is copied as a dictionary into the request to the user. */
  function OnQuestions(s: State, a: Action): Outcome {
    if !AllDictable(a.questions) then Ended(Crashed) else End(s, UserAsked, UserInputRequired, false, None)
  }

  function Act(c: Setup, s: State, kind: Kind, a: Action, response: Response): Outcome {
    match kind
    case RequestContext => OnContext(c, s, a, response)
    case ProposeWorkDesign => OnProposal(c, s, a, response)
    case CreatePartJobs => OnCreation(c, s, a, response)
    case AskUser => OnQuestions(s, a)
    case Stop => OnStop(c, s, a, response)
    case _ => Ended(Raised(Reject(ActionNotRegistered, a.action)))
  }

  function Recorded(s: State, response: Response): State {
    s.(steps := s.steps + 1, responses := s.responses + [Logged(s.steps + 1, response)])
  }

  function Answer(c: Setup, s: State, response: Response): Outcome {
    match c.judge(response)
    case Err(rejection) => Correct(c, s, rejection, response)
    case Ok(authorised) => Act(c, s.(correction := None), authorised.0, authorised.1, response)
  }

  /** One pass of the loop. */
  function Next(c: Setup, s: State, turn: Turn): Outcome {
    if turn.before >= c.budget.timeout then Spent(s)
    else if s.steps >= c.budget.maxSteps then Spent(s)
    else if turn.response.None? then End(s, SupplierFailed, ProviderFailure, false, None)
    else if turn.after >= c.budget.timeout then Spent(Recorded(s, turn.response.value))
    else Answer(c, Recorded(s, turn.response.value), turn.response.value)
  }

  // ----------------------------------------------------------- whole runs

  predicate KeepsRecord(s: State, outcome: Outcome) {
    outcome.Continue? ==> outcome.state.steps == s.steps && outcome.state.responses == s.responses
  }

  lemma CorrectKeepsRecord(c: Setup, s: State, rejection: Rejection, response: Response)
    ensures KeepsRecord(s, Correct(c, s, rejection, response))
  {
    hide Finish;
  }

  lemma ActKeepsRecord(c: Setup, s: State, kind: Kind, a: Action, response: Response)
    ensures KeepsRecord(s, Act(c, s, kind, a, response))
  {
    forall rejection ensures KeepsRecord(s, Correct(c, s, rejection, response)) {
      CorrectKeepsRecord(c, s, rejection, response);
    }
  }

  /** Every continued pass spends one step and logs that step's response under its number. */
  lemma RecordedEachStep(c: Setup, s: State, turn: Turn)
    ensures Next(c, s, turn).Continue? ==>
              && s.steps < c.budget.maxSteps && turn.response.Some?
              && Next(c, s, turn).state.steps == s.steps + 1
              && Next(c, s, turn).state.responses == s.responses + [Logged(s.steps + 1, turn.response.value)]
  {
    hide Act, Correct, Finish;
    if turn.response.Some? {
      var response := turn.response.value;
      var t := Recorded(s, response);
      var judged := c.judge(response);
      if judged.Err? {
        CorrectKeepsRecord(c, t, judged.error, response);
      } else {
        ActKeepsRecord(c, t.(correction := None), judged.value.0, judged.value.1, response);
      }
    }
  }

  function RunFrom(c: Setup, s: State, env: nat -> Turn): Ending
    decreases c.budget.maxSteps - s.steps
  {
    RecordedEachStep(c, s, env(s.steps));
    match Next(c, s, env(s.steps))
    case Ended(ending) => ending
    case Continue(next) => RunFrom(c, next, env)
  }

  /** `run_work_design_episode`: the initial supply, then the loop. */
  function RunEpisode(c: Setup, env: nat -> Turn): Ending {
    match Initial(c, START, InitialKeys(c))
    case Ended(ending) => ending
    case Continue(s) => RunFrom(c, s, env)
  }

  // ------------------------------------------------------------------- wiring

  /** `AgentAction.from_value` and the Skill's allowlist. */
  ghost predicate JudgeWired(c: Setup, response: Response) {
    c.judge(response) == Authorize(response, ACTIONS, c.encodedSize)
  }

  /** `_contract_repair_feedback`; this loop starts no side effect. */
  ghost predicate RepairWired(c: Setup, rejection: Rejection, response: Response) {
    c.repair(rejection, response) == RepairFeedback(rejection, response, ACTIONS, SKILL, false)
  }

  /** `validate_work_design_proposal` */
  ghost predicate CheckWired(c: Setup, design: Value) {
    c.check(design) == ValidateProposal(design)
  }

  /** The function fields are the modelled action contract, correction contract and proposal validator. */
  ghost predicate Wired(c: Setup) {
    && (forall response :: JudgeWired(c, response))
    && (forall rejection, response :: RepairWired(c, rejection, response))
    && (forall design :: CheckWired(c, design))
  }

  /** The episode as the product assembles it. */
  function Standard(
    budget: Budget, items: seq<ContextItem>, contentSize: Value -> nat, work: string,
    hasEarlierDesign: bool, hasAnswers: bool, encodedSize: Value -> nat): Setup
  {
    Setup(
      budget, Registry(items), contentSize, work, hasEarlierDesign, hasAnswers, encodedSize,
      response => Authorize(response, ACTIONS, encodedSize),
      (rejection, response) => RepairFeedback(rejection, response, ACTIONS, SKILL, false),
      design => ValidateProposal(design))
  }

  /** The product's own episode is wired, so every result about wired episodes is about it. */
  lemma StandardIsWired(
    budget: Budget, items: seq<ContextItem>, contentSize: Value -> nat, work: string,
    hasEarlierDesign: bool, hasAnswers: bool, encodedSize: Value -> nat)
    ensures Wired(Standard(budget, items, contentSize, work, hasEarlierDesign, hasAnswers, encodedSize))
  {
    hide Authorize, RepairFeedback, ValidateProposal, Registry;
  }
}
