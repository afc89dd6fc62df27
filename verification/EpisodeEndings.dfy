/** When a design episode ends in an untyped failure, and two runs whose endings surprise. */
module EpisodeEndings {
  import opened Json
  import opened Strings
  import opened Actions
  import opened Dictionaries
  import opened SemanticContext
  import opened Ledger
  import opened Episode
  import opened EpisodeProperties
  import Broker = ToolBroker
  import BrokerFacts = ToolBrokerProperties
  import Forbidden = ForbiddenFields

  // ------------------------------------------------------ crashes, exactly

  /** The broker admits the execution, and the archive it brings back makes the call raise. */
  ghost predicate ToolRaises(c: Setup, program: Program, candidate: string, turn: Turn) {
    && turn.tools.available && turn.tools.executor.Some?
    && Broker.Admission(turn.tools, c.platform, turn.world, ExecutionPayload(program, candidate).fields, Lineage(c)).Ok?
    && (|| BrokerFacts.RaisesType(c.platform, turn.tools.executor.value.outcome, turn.world)
        || BrokerFacts.RaisesOverflow(c.platform, turn.tools.executor.value.outcome)
        || BrokerFacts.RaisesRecursion(c.platform, turn.tools.executor.value.outcome))
  }

  lemma ExecutionRaisesExactly(c: Setup, program: Program, candidate: string, turn: Turn)
    requires Wired(c)
    ensures c.execute(program, candidate, turn).reply.Failure? <==> ToolRaises(c, program, candidate, turn)
  {
    hide Wired, Broker.Invoke, Broker.Admission, BrokerFacts.RaisesType, BrokerFacts.RaisesOverflow;
    hide BrokerFacts.RaisesRecursion, Lineage, ExecutionPayload;
    PayloadCandidate(program, candidate);
    ExecuteAnswers(c, program, candidate, turn);
    BrokerFacts.CallRaisesExactly(turn.tools, c.platform, turn.world, Broker.MODEL_PROGRAM_TOOL, "model_program",
                                  ExecutionPayload(program, candidate), Lineage(c));
    var reply := c.execute(program, candidate, turn).reply;
    if reply.Failure? {
      match reply.error
      case TypeError => assert reply == Broker.Failure(Broker.TypeError);
      case OverflowError => assert reply == Broker.Failure(Broker.OverflowError);
      case RecursionError => assert reply == Broker.Failure(Broker.RecursionError);
    }
  }

  lemma ExecuteAnswers(c: Setup, program: Program, candidate: string, turn: Turn)
    requires Wired(c)
    ensures Forbidden.Enumerates(c.platform.order)
    ensures c.execute(program, candidate, turn)
         == Broker.Invoke(turn.tools, c.platform, turn.world, Broker.MODEL_PROGRAM_TOOL, "model_program",
                          ExecutionPayload(program, candidate), Lineage(c))
  {
    assert ExecuteWired(c, program, candidate, turn);
  }

  lemma ValidationNeverRaises(c: Setup, draft: Value, turn: Turn)
    requires Wired(c)
    ensures c.validate(draft, turn).reply.Observed?
  {
    assert ValidateWired(c, draft, turn);
    hide Wired, Broker.Invoke;
    assert Broker.STRUCTURED_CONTRACT_TOOL[0] != Broker.MODEL_PROGRAM_TOOL[0];
    BrokerFacts.OtherToolsAnswer(turn.tools, c.platform, turn.world, Broker.STRUCTURED_CONTRACT_TOOL,
                                 c.capabilities.skill, ValidationPayload(draft), None);
  }

  /** An execution request that meets no other obstacle, and a raising tool. */
  ghost predicate ExecutionCrashes(c: Setup, s: State, turn: Turn) {
    && s.program.Some? && s.candidate.Some? && s.observation.None?
    && s.executions < c.budget.maxExecutions && Lineage(c).Some?
    && ToolRaises(c, s.program.value, s.candidate.value, turn)
  }

  /** The payload names an interface, a text as source, and parameters that make a dictionary. */
  predicate CompletePayload(payload: Option<Value>) {
    && payload.Some? && payload.value.Obj? && {"api_id", "source", "parameters"} <= payload.value.fields.Keys
    && payload.value.fields["source"].Str? && Dictable(payload.value.fields["parameters"])
  }

  /** A program submission in order and within the budgets whose action carries no complete program. */
  ghost predicate SubmissionCrashes(c: Setup, s: State, kind: Kind, a: Action) {
    && s.sources < c.budget.maxSources && !CompletePayload(a.modelProgram)
    && if kind.CreateModelProgram? then s.program.None?
       else s.program.Some? && s.observation.Some? && s.inspected && s.repairs < c.budget.maxRepairs
  }

  /** In time and within the steps, an authorised action of one of these three kinds. */
  ghost predicate Crashes(c: Setup, s: State, turn: Turn) {
    && turn.elapsed < c.budget.timeout && s.steps < c.budget.maxSteps && turn.response.Some?
    && c.judge(turn.response.value).Ok?
    && var kind, a := c.judge(turn.response.value).value.0, c.judge(turn.response.value).value.1;
       || (kind.RequestExecution? && ExecutionCrashes(c, s, turn))
       || ((kind.CreateModelProgram? || kind.PatchModelProgram?) && SubmissionCrashes(c, s, kind, a))
       || (kind.AskUser? && !AllDictable(a.questions))
  }

  lemma ValidationNeverCrashes(c: Setup, s: State, turn: Turn)
    requires Wired(c)
    ensures OnValidation(c, s, turn) != Ended(Crashed)
  {
    hide Wired, Broker.FeedbackOk, Finish;
    if s.draft.Some? { ValidationNeverRaises(c, s.draft.value, turn); }
  }

  /** The payloads the loop can retain a program of. */
  lemma ProgramOfExactly(c: Setup, payload: Option<Value>)
    requires Wired(c)
    ensures ProgramOf(payload, c.order).Some? <==> CompletePayload(payload)
  {
    hide Wired, DictOf, Dictable;
    OrderWired(c);
    if payload.Some? && payload.value.Obj? && "parameters" in payload.value.fields {
      DictOfExactly(payload.value.fields["parameters"], "parameters", c.order);
    }
  }

  lemma OrderWired(c: Setup)
    requires Wired(c)
    ensures Forbidden.Enumerates(c.order)
  {
  }

  lemma SubmissionCrashesExactly(c: Setup, s: State, kind: Kind, a: Action)
    requires Wired(c) && (kind.CreateModelProgram? || kind.PatchModelProgram?)
    ensures OnProgram(c, s, kind, a) == Ended(Crashed) <==> SubmissionCrashes(c, s, kind, a)
  {
    hide Wired, Finish, ProgramOf, WithProgram, CompletePayload;
    ProgramOfExactly(c, a.modelProgram);
  }

  lemma OthersNeverCrash(c: Setup, s: State, kind: Kind, a: Action, response: Response)
    ensures OnContext(c, s, a, response) != Ended(Crashed)
    ensures OnContract(c, s, kind, a) != Ended(Crashed) && OnInspection(c, s) != Ended(Crashed)
    ensures OnStop(c, s, a) != Ended(Crashed)
  {
    hide Correct, Evidence, Finish, Resolve, Succeeded, WithItem, WithDraft, WithInspection;
    CorrectNeverCrashes(c, s, Reject(MissingContextKey, a.action), response);
  }

  lemma ActCrashesExactly(c: Setup, s: State, kind: Kind, a: Action, response: Response, turn: Turn)
    requires Wired(c)
    ensures Act(c, s, kind, a, response, turn) == Ended(Crashed) <==>
            || (kind.RequestExecution? && OnExecution(c, s, turn) == Ended(Crashed))
            || ((kind.CreateModelProgram? || kind.PatchModelProgram?) && SubmissionCrashes(c, s, kind, a))
            || (kind.AskUser? && !AllDictable(a.questions))
  {
    hide Wired, OnContext, OnContract, OnProgram, OnExecution, OnInspection, OnValidation, OnStop, SubmissionCrashes;
    hide Finish, AllDictable;
    ValidationNeverCrashes(c, s, turn);
    OthersNeverCrash(c, s, kind, a, response);
    if kind.CreateModelProgram? || kind.PatchModelProgram? { SubmissionCrashesExactly(c, s, kind, a); }
  }

  lemma CorrectNeverCrashes(c: Setup, s: State, rejection: Rejection, response: Response)
    ensures Correct(c, s, rejection, response) != Ended(Crashed)
  {
    hide Finish;
  }

  lemma ExecutionCrashesExactly(c: Setup, s: State, turn: Turn)
    requires Wired(c)
    ensures OnExecution(c, s, turn) == Ended(Crashed) <==> ExecutionCrashes(c, s, turn)
  {
    hide Wired, ToolRaises, Lineage, WithObservation, Finish;
    if s.program.Some? && s.candidate.Some? {
      ExecutionRaisesExactly(c, s.program.value, s.candidate.value, turn);
    }
  }

  /** A pass ends in an untyped failure exactly on such an action. */
  lemma NextCrashesExactly(c: Setup, s: State, turn: Turn)
    requires Wired(c)
    ensures Next(c, s, turn) == Ended(Crashed) <==> Crashes(c, s, turn)
  {
    hide Wired, ToolRaises, Act, OnExecution, Finish, Lineage, Correct, AllDictable, CompletePayload;
    if turn.response.Some? {
      var response := turn.response.value;
      var judged := c.judge(response);
      if judged.Err? {
        CorrectNeverCrashes(c, Recorded(s, response), judged.error, response);
      } else {
        var t := Recorded(s, response).(correction := None);
        ActCrashesExactly(c, t, judged.value.0, judged.value.1, response, turn);
        ExecutionCrashesExactly(c, t, turn);
      }
    }
  }

  /** A plain response that parsed carries what the loop copies, so of those only a raising tool ends a run untyped. */
  lemma ParsedNeverCrashes(c: Setup, s: State, v: Value, turn: Turn)
    requires Wired(c) && turn.response == Some(Raw(v))
    ensures Crashes(c, s, turn) ==>
              c.judge(Raw(v)).Ok? && c.judge(Raw(v)).value.0.RequestExecution? && ExecutionCrashes(c, s, turn)
  {
    hide Wired, ExecutionCrashes, CompletePayload, AllDictable;
    if c.judge(Raw(v)).Ok? {
      var kind := c.judge(Raw(v)).value.0;
      if kind.CreateModelProgram? || kind.PatchModelProgram? { ParsedSubmissionIsComplete(c, v); }
      if kind.AskUser? { ParsedQuestionsAreDictionaries(c, v); }
    }
  }

  lemma ParsedSubmissionIsComplete(c: Setup, v: Value)
    requires Wired(c) && c.judge(Raw(v)).Ok?
    requires var kind := c.judge(Raw(v)).value.0; kind.CreateModelProgram? || kind.PatchModelProgram?
    ensures CompletePayload(c.judge(Raw(v)).value.1.modelProgram)
  {
    assert |Candidate(1)| <= 96 by { assert Decimal(1) == "1"; }
    hide Wired, Candidate, ProgramOf, Broker.RequestOf, CompletePayload;
    ParsedProgramIsExecutable(c, v, 1);
    ProgramOfExactly(c, c.judge(Raw(v)).value.1.modelProgram);
  }

  lemma ParsedQuestionsAreDictionaries(c: Setup, v: Value)
    requires Wired(c) && c.judge(Raw(v)).Ok? && c.judge(Raw(v)).value.0.AskUser?
    ensures AllDictable(c.judge(Raw(v)).value.1.questions)
  {
    assert JudgeWired(c, Raw(v));
    hide Wired, ParseValue;
    ParsedPayloadComplete(v, EncodedSize(c));
  }

  /** A run ends in an untyped failure exactly when its last pass is such an action. */
  lemma RunCrashesExactly(c: Setup, env: nat -> Turn, states: seq<State>, ending: Ending)
    requires Wired(c) && IsCompleteRun(c, env, states, ending)
    ensures ending == Crashed <==> Crashes(c, states[|states| - 1], env(|states| - 1))
  {
    hide Wired, Next, Crashes;
    var last := |states| - 1;
    assert ClosedBy(c, env, states, last, ending);
    NextCrashesExactly(c, states[last], env(last));
  }

  // ------------------------------------------------------------ a crashing run

  function Bare(kind: Kind): Action {
    Action(ActionName(kind), None, None, None, None, None, [], None)
  }

  function Submission(program: Program): Action {
    Bare(CreateModelProgram).(modelProgram :=
      Some(Obj(map["api_id" := program.api, "source" := program.source, "parameters" := program.parameters])))
  }

  lemma TypedIsJudged(c: Setup, a: Action, kind: Kind)
    requires Wired(c) && a.action == ActionName(kind) && kind in c.capabilities.actions
    ensures c.judge(Typed(a)) == Ok((kind, a))
  {
    assert JudgeWired(c, Typed(a));
    hide Wired, ActionName;
    KindOfExactly(a.action, kind);
  }

  /** The first pass of any episode that lets its Agent submit this program. */
  lemma FirstSubmission(c: Setup, s: State, turn: Turn, program: Program)
    requires Wired(c) && Empty(s) && CreateModelProgram in c.capabilities.actions
    requires c.budget.maxSteps > 0 && c.budget.maxSources > 0 && turn.elapsed < c.budget.timeout
    requires turn.response == Some(Typed(Submission(program))) && program.source.Str? && program.parameters.Obj?
    ensures var t := Next(c, s, turn);
            && t.Continue? && t.state.steps == 1 && t.state.program == Some(program)
            && t.state.candidate == Some(Candidate(1)) && t.state.observation.None? && t.state.executions == 0
            && t.state.draft.None? && t.state.submissions == 0
  {
    hide Wired, ActionName, Correct;
    TypedIsJudged(c, Submission(program), CreateModelProgram);
    SubmittedProgram(program, c.order);
  }

  lemma SubmittedProgram(program: Program, order: Forbidden.KeyOrder)
    requires program.source.Str? && program.parameters.Obj?
    ensures ProgramOf(Submission(program).modelProgram, order) == Some(program)
  {
  }

  /** What the toolbox of a turn needs to admit the program and to bring back this result. */
  ghost predicate Admits(c: Setup, program: Program, turn: Turn, result: Broker.SandboxResult) {
    && program.api == Str(Broker.API_ID) && program.source.Str? && c.platform.policy(program.source.s) == Some([])
    && ParametersOk(program.parameters, v => |c.platform.canonical(v)|)
    && turn.tools.available && turn.tools.executor.Some? && !turn.world.evidenceExists && !turn.world.persistFails
    && turn.tools.executor.value.outcome == Broker.Ran(result)
    && turn.tools.executor.value.attestation.Some?
    && turn.tools.capabilityDigest == Some(turn.tools.executor.value.attestation.value.digest)
  }

  lemma CandidateOneIsSafe()
    ensures Broker.SafeId(Candidate(1))
  {
    assert |Candidate(1)| <= 96 by { assert Decimal(1) == "1"; }
    CandidateIsSafe(1);
  }

  lemma AdmittedRequest(c: Setup, program: Program, turn: Turn, result: Broker.SandboxResult)
    requires Admits(c, program, turn, result)
    ensures Broker.RequestOf(c.platform, ExecutionPayload(program, Candidate(1)).fields)
         == Some(Broker.Request(program.api, Candidate(1), program.source, program.parameters))
  {
    CandidateOneIsSafe();
    hide Broker.SafeId, Candidate, ParametersOk;
    var sent := ExecutionPayload(program, Candidate(1)).fields;
    assert sent.Keys == {"api_id", "candidate_id", "source", "parameters", "requested_outputs"};
    assert Broker.OnlyStep(sent["requested_outputs"]);
  }

  lemma AdmittedProgram(c: Setup, program: Program, turn: Turn, result: Broker.SandboxResult)
    requires Admits(c, program, turn, result) && Lineage(c).Some?
    ensures Broker.Admission(turn.tools, c.platform, turn.world, ExecutionPayload(program, Candidate(1)).fields,
                             Lineage(c)).Ok?
  {
    AdmittedRequest(c, program, turn, result);
    hide Candidate, ParametersOk, Lineage, ExecutionPayload, Broker.RequestOf;
    hide Broker.Blocked, Broker.SourceRefused;
  }

  /** Submit a clean program, execute it, and let the worker report `codes: 5`: the run ends in an untyped failure. */
  lemma NumericCodesCrash(c: Setup, env: nat -> Turn, program: Program, result: Broker.SandboxResult,
                          report: Broker.Bytes)
    requires Wired(c) && Lineage(c).Some? && {CreateModelProgram, RequestExecution} <= c.capabilities.actions
    requires c.budget.maxSteps > 1 && c.budget.maxSources > 0 && c.budget.maxExecutions > 0
    requires env(0).elapsed < c.budget.timeout && env(1).elapsed < c.budget.timeout
    requires env(0).response == Some(Typed(Submission(program)))
    requires env(1).response == Some(Typed(Bare(RequestExecution)))
    requires program.source.Str? && program.parameters.Obj? && Admits(c, program, env(1), result)
    requires result.archive == BrokerFacts.Packed(["observation.json"], [report])
    requires c.platform.parse(report) == Broker.Parsed(Obj(BrokerFacts.CODES_FIVE)) && |report| <= Broker.OUTPUT_BYTES
    ensures RunFrom(c, START, env) == Crashed
  {
    hide Next, Empty, Admits, Lineage, Candidate, Submission, Bare;
    StartEmpty();
    FirstSubmission(c, START, env(0), program);
    var t := Next(c, START, env(0)).state;
    CodesRaise(c, program, env(1), result, report);
    hide Wired, ToolRaises;
    BareIsJudged(c, RequestExecution);
    ExecutionPassCrashes(c, t, env(1));
    RunOfTwo(c, env, t, Crashed);
  }

  lemma ExecutionPassCrashes(c: Setup, s: State, turn: Turn)
    requires Wired(c) && turn.elapsed < c.budget.timeout && s.steps < c.budget.maxSteps
    requires turn.response == Some(Typed(Bare(RequestExecution)))
    requires c.judge(Typed(Bare(RequestExecution))) == Ok((RequestExecution, Bare(RequestExecution)))
    requires ExecutionCrashes(c, s, turn)
    ensures Next(c, s, turn) == Ended(Crashed)
  {
    hide Wired, ExecutionCrashes, SubmissionCrashes, Next, Bare;
    NextCrashesExactly(c, s, turn);
  }

  lemma BareIsJudged(c: Setup, kind: Kind)
    requires Wired(c) && kind in c.capabilities.actions
    ensures c.judge(Typed(Bare(kind))) == Ok((kind, Bare(kind)))
  {
    hide Wired, ActionName;
    TypedIsJudged(c, Bare(kind), kind);
  }

  lemma StartEmpty()
    ensures Empty(START) && START.steps == 0
  {
  }

  lemma CodesRaise(c: Setup, program: Program, turn: Turn, result: Broker.SandboxResult, report: Broker.Bytes)
    requires Admits(c, program, turn, result) && Lineage(c).Some?
    requires result.archive == BrokerFacts.Packed(["observation.json"], [report])
    requires c.platform.parse(report) == Broker.Parsed(Obj(BrokerFacts.CODES_FIVE)) && |report| <= Broker.OUTPUT_BYTES
    ensures ToolRaises(c, program, Candidate(1), turn)
  {
    hide Lineage, Candidate, Broker.Admission, Broker.CheckArchive;
    AdmittedProgram(c, program, turn, result);
    BrokerFacts.OneFileRead(c.platform, result.archive, report);
    assert BrokerFacts.RaisesType(c.platform, turn.tools.executor.value.outcome, turn.world);
  }

  lemma RunOfTwo(c: Setup, env: nat -> Turn, t: State, ending: Ending)
    requires START.steps == 0 && t.steps == 1
    requires Next(c, START, env(0)) == Continue(t) && Next(c, t, env(1)) == Ended(ending)
    ensures RunFrom(c, START, env) == ending
  {
    hide Next;
    assert RunFrom(c, t, env) == ending;
  }

  // ----------------------------------- a validated contract reported as a model program

  function Draft(contractType: string, contract: Value): Action {
    Bare(SubmitContract).(contractType := Some(contractType), contract := Some(contract))
  }

  lemma ClearDraftPasses(c: Setup, contract: Value)
    requires Wired(c) && Forbidden.Clear(contract)
    ensures c.search(contract).Ok?
  {
    assert SearchWired(c, contract);
    hide Wired;
    Forbidden.TraversalsAgree(contract, "", c.order);
    Forbidden.AcceptedIffClear(contract, "", c.order);
  }

  lemma DraftSubmission(c: Setup, s: State, turn: Turn, contractType: string, contract: Value)
    requires Wired(c) && s.steps == 1 && s.submissions == 0 && SubmitContract in c.capabilities.actions
    requires c.budget.maxSteps > 1 && c.budget.maxSubmissions > 0 && turn.elapsed < c.budget.timeout
    requires contractType in c.capabilities.contractTypes && contract.Obj? && Forbidden.Clear(contract)
    requires turn.response == Some(Typed(Draft(contractType, contract)))
    ensures var t := Next(c, s, turn);
            t.Continue? && t.state.steps == 2 && t.state.program == s.program && t.state.draft == Some(contract)
  {
    TypedIsJudged(c, Draft(contractType, contract), SubmitContract);
    ClearDraftPasses(c, contract);
    hide Wired, ActionName, Correct, Forbidden.Clear, OnContext, OnProgram, OnExecution, OnInspection, OnValidation;
    hide OnQuestions, OnStop, Finish;
  }

  lemma ValidDraftCompletes(c: Setup, s: State, turn: Turn, contract: Value)
    requires Wired(c) && s.steps == 2 && RequestValidation in c.capabilities.actions
    requires c.budget.maxSteps > 2 && turn.elapsed < c.budget.timeout
    requires s.program.Some? && s.observation.None? && s.draft == Some(contract)
    requires contract.Obj? && Forbidden.Clear(contract)
    requires c.capabilities.skill in Broker.AllowedSkills(Broker.STRUCTURED_CONTRACT_TOOL)
    requires c.platform.validator(contract) == Some(Obj(map["valid" := Bool(true)]))
    requires turn.response == Some(Typed(Bare(RequestValidation)))
    ensures var outcome := Next(c, s, turn);
            && outcome.Ended? && outcome.ending.Finished?
            && outcome.ending.result.completed && outcome.ending.result.validated
            && outcome.ending.result.kind == ModelProgram && !outcome.ending.result.executionSucceeded
  {
    hide Wired, ActionName, Correct, Forbidden.Clear, Broker.AllowedSkills, Broker.FeedbackOf;
    BareIsJudged(c, RequestValidation);
    DraftAnswer(c, contract, turn);
    ValidFeedback(c, contract);
  }

  lemma ValidFeedback(c: Setup, contract: Value)
    requires c.platform.validator(contract) == Some(Obj(map["valid" := Bool(true)]))
    ensures Broker.FeedbackOf(c.platform, contract) == Obj(map["valid" := Bool(true)])
  {
  }

  /**
   * A run that submits a program, never executes it, and completes by validating a structured contract reports a
   * model program as its result.
   */
  lemma ValidatedContractReportedAsProgram(
      c: Setup, env: nat -> Turn, program: Program, contractType: string, contract: Value)
    requires Wired(c) && {CreateModelProgram, SubmitContract, RequestValidation} <= c.capabilities.actions
    requires c.budget.maxSteps > 2 && c.budget.maxSources > 0 && c.budget.maxSubmissions > 0
    requires forall n | 0 <= n < 3 :: env(n).elapsed < c.budget.timeout
    requires env(0).response == Some(Typed(Submission(program))) && program.source.Str? && program.parameters.Obj?
    requires env(1).response == Some(Typed(Draft(contractType, contract)))
    requires env(2).response == Some(Typed(Bare(RequestValidation)))
    requires contractType in c.capabilities.contractTypes && contract.Obj? && Forbidden.Clear(contract)
    requires c.capabilities.skill in Broker.AllowedSkills(Broker.STRUCTURED_CONTRACT_TOOL)
    requires c.platform.validator(contract) == Some(Obj(map["valid" := Bool(true)]))
    ensures var ending := RunFrom(c, START, env);
            && ending.Finished? && ending.result.completed && ending.result.validated
            && ending.result.kind == ModelProgram && !ending.result.executionSucceeded
  {
    hide Next, Empty, Candidate, Submission, Draft, Bare, Forbidden.Clear, Broker.AllowedSkills;
    StartEmpty();
    FirstSubmission(c, START, env(0), program);
    var t := Next(c, START, env(0)).state;
    DraftSubmission(c, t, env(1), contractType, contract);
    var u := Next(c, t, env(1)).state;
    DraftKeepsObservation(c, t, env(1), contractType, contract);
    ValidDraftCompletes(c, u, env(2), contract);
    hide Wired;
    RunOfThree(c, env, t, u, Next(c, u, env(2)).ending);
  }

  lemma DraftKeepsObservation(c: Setup, s: State, turn: Turn, contractType: string, contract: Value)
    requires Wired(c) && SubmitContract in c.capabilities.actions && s.observation.None?
    requires turn.response == Some(Typed(Draft(contractType, contract))) && Next(c, s, turn).Continue?
    ensures Next(c, s, turn).state.observation.None?
  {
    TypedIsJudged(c, Draft(contractType, contract), SubmitContract);
    hide Wired, ActionName, Correct, OnContext, OnProgram, OnExecution, OnInspection, OnValidation, OnQuestions, OnStop;
  }

  lemma RunOfThree(c: Setup, env: nat -> Turn, t: State, u: State, ending: Ending)
    requires START.steps == 0 && t.steps == 1 && u.steps == 2
    requires Next(c, START, env(0)) == Continue(t) && Next(c, t, env(1)) == Continue(u)
    requires Next(c, u, env(2)) == Ended(ending)
    ensures RunFrom(c, START, env) == ending
  {
    hide Next;
    assert RunFrom(c, u, env) == ending;
    assert RunFrom(c, t, env) == RunFrom(c, u, env);
  }
}
