/** Agent actions: parsing a supplied response, rejecting it, and the feedback a rejection may earn. */
module Actions {
  import opened Json
  import opened Strings

  datatype StopReason =
    | Completed | UserInputRequired | UnsupportedCapability | InsufficientContext
    | ValidationExhausted | BudgetExhausted | ProviderFailure | PolicyBlocked

  function StopReasonOf(s: string): Option<StopReason> {
    if s == "completed" then Some(Completed)
    else if s == "user_input_required" then Some(UserInputRequired)
    else if s == "unsupported_capability" then Some(UnsupportedCapability)
    else if s == "insufficient_context" then Some(InsufficientContext)
    else if s == "validation_exhausted" then Some(ValidationExhausted)
    else if s == "budget_exhausted" then Some(BudgetExhausted)
    else if s == "provider_failure" then Some(ProviderFailure)
    else if s == "policy_blocked" then Some(PolicyBlocked)
    else None
  }

  datatype Kind =
    | RequestContext
    | CreateContract | PatchContract | SubmitContract | RepairContract
    | RequestValidation
    | CreateModelProgram | PatchModelProgram | RequestExecution | InspectObservation
    | ProposeWorkDesign | CreatePartJobs
    | AskUser | Stop

  function ActionName(kind: Kind): string {
    match kind
    case RequestContext => "request_context"
    case CreateContract => "create_contract"
    case PatchContract => "patch_contract"
    case SubmitContract => "submit_contract"
    case RepairContract => "repair_contract"
    case RequestValidation => "request_validation"
    case CreateModelProgram => "create_model_program"
    case PatchModelProgram => "patch_model_program"
    case RequestExecution => "request_execution"
    case InspectObservation => "inspect_observation"
    case ProposeWorkDesign => "propose_work_design"
    case CreatePartJobs => "create_part_jobs"
    case AskUser => "ask_user"
    case Stop => "stop"
  }

  /** The registered actions, in the order of the contract table. */
  const REGISTERED := [
    RequestContext, CreateContract, PatchContract, SubmitContract, RepairContract, RequestValidation,
    CreateModelProgram, PatchModelProgram, RequestExecution, InspectObservation,
    ProposeWorkDesign, CreatePartJobs, AskUser, Stop]

  function Named(kinds: seq<Kind>, action: string): Option<Kind> {
    if kinds == [] then None
    else if ActionName(kinds[0]) == action then Some(kinds[0])
    else Named(kinds[1..], action)
  }

  function KindOf(action: string): Option<Kind> {
    Named(REGISTERED, action)
  }

  lemma {:induction false} NamedIsNamed(kinds: seq<Kind>, action: string)
    ensures Named(kinds, action).Some? ==> ActionName(Named(kinds, action).value) == action
    ensures Named(kinds, action).None? ==> forall i | 0 <= i < |kinds| :: ActionName(kinds[i]) != action
  {
    if kinds != [] {
      NamedIsNamed(kinds[1..], action);
      assert forall i | 1 <= i < |kinds| :: kinds[i] == kinds[1..][i - 1];
    }
  }

  lemma Registered(kind: Kind)
    ensures exists i :: 0 <= i < |REGISTERED| && REGISTERED[i] == kind
  {
    assert REGISTERED[0] == RequestContext && REGISTERED[1] == CreateContract && REGISTERED[2] == PatchContract
        && REGISTERED[3] == SubmitContract && REGISTERED[4] == RepairContract && REGISTERED[5] == RequestValidation
        && REGISTERED[6] == CreateModelProgram && REGISTERED[7] == PatchModelProgram
        && REGISTERED[8] == RequestExecution && REGISTERED[9] == InspectObservation
        && REGISTERED[10] == ProposeWorkDesign && REGISTERED[11] == CreatePartJobs
        && REGISTERED[12] == AskUser && REGISTERED[13] == Stop;
  }

  lemma NamesDiffer(x: Kind, y: Kind)
    requires ActionName(x) == ActionName(y)
    ensures x == y
  {
  }

  /** An action name is registered exactly when it is the name of a kind, and then it is that kind. */
  lemma KindOfExactly(action: string, kind: Kind)
    ensures KindOf(action) == Some(kind) <==> action == ActionName(kind)
  {
    NamedIsNamed(REGISTERED, action);
    Registered(kind);
    hide Named, ActionName;
    if KindOf(action).Some? && action == ActionName(kind) { NamesDiffer(KindOf(action).value, kind); }
  }

  // ------------------------------------------------ the action contract table

  function RequiredFields(kind: Kind): set<string> {
    match kind
    case RequestContext => {"action", "context_key"}
    case CreateContract | PatchContract | SubmitContract | RepairContract => {"action", "contract_type", "contract"}
    case RequestValidation | RequestExecution | InspectObservation | CreatePartJobs => {"action"}
    case CreateModelProgram | PatchModelProgram => {"action", "model_program"}
    case ProposeWorkDesign => {"action", "work_design"}
    case AskUser => {"action", "questions"}
    case Stop => {"action", "stop_reason"}
  }

  function OptionalFields(kind: Kind): set<string> {
    match kind
    case RequestContext | RequestValidation | AskUser | Stop => {"reason"}
    case RequestExecution | InspectObservation | CreatePartJobs => {}
    case _ => {"assumptions", "summary"}
  }

  predicate OuterTypeOk(field: string, v: Value) {
    if field in {"contract", "model_program", "work_design"} then v.Obj?
    else if field in {"assumptions", "questions"} then v.Arr?
    else v.Str?
  }

  // -------------------------------------------------------- parsed responses

  datatype Action = Action(
    action: string,
    contextKey: Option<string>,
    contractType: Option<string>,
    contract: Option<Value>,
    modelProgram: Option<Value>,
    workDesign: Option<Value>,
    questions: seq<Value>,
    stopReason: Option<StopReason>)

  datatype Reason =
    | AgentActionNotObject | InvalidActionDiscriminator | ActionNotRegistered | ActionNotAllowedForSkill
    | ActionContractExtraFields | InvalidActionPayload | UnknownStopReason | InvalidQuestionContract
    | InvalidModelProgramContract | ModelProgramApiNotAllowed | InvalidModelProgramParameters
    | ModelProgramOutputNotAllowed
    | MissingContextKey | ContextKeyNotRegistered | ContextNotAllowedForSkill | ContextNotAvailable
    | ContextBelongsToOtherWork
    | ContractTypeNotAllowed | StructuredContractExecutionField
    | CandidateAlreadyExists | CandidateMissing | InspectionRequired | CandidateAlreadyExecuted
    | InvalidExecutionLineage | ExecutionObservationMissing | ObservationAlreadyInspected
    | StructuredContractMissing | InvalidToolObservation | CompletionEvidenceIncomplete
    | StopReasonNotAllowed
    | InvalidWorkDesignContract | WorkDesignAuthorityViolation
    | ProposalMissing | QuestionsUnresolved | CompletionActionRequired | QuestionActionRequired

  datatype FieldIssue = Missing | Extra | InvalidType | InvalidValue | InvalidShape

  /** `requested` is the safe field name of a Work Design rejection, when there is one to echo. */
  datatype Rejection = Rejection(
    reason: Reason, action: Option<string>, issue: Option<FieldIssue>, requested: Option<string>)

  function Reject(reason: Reason, action: string): Rejection {
    Rejection(reason, Some(action), None, None)
  }

  /** A supplier returns a plain JSON value or an already typed action. */
  datatype Response = Raw(value: Value) | Typed(typed: Action)

  // ------------------------------------------------------ model-program payload

  const MAX_PARAMETER_DEPTH := 8
  const MAX_PARAMETER_KEY := 64
  const MAX_PARAMETER_BYTES := 16384

  predicate ParameterNodeOk(v: Value, depth: nat) {
    depth <= MAX_PARAMETER_DEPTH
    && match v
       case Arr(items) => forall i | 0 <= i < |items| :: ParameterNodeOk(items[i], depth + 1)
       case Obj(fields) =>
         forall k | k in fields :: 0 < |k| <= MAX_PARAMETER_KEY && ParameterNodeOk(fields[k], depth + 1)
       case _ => true
  }

  predicate ParametersOk(v: Value, encodedSize: Value -> nat) {
    v.Obj? && encodedSize(v) <= MAX_PARAMETER_BYTES && ParameterNodeOk(v, 1)
  }

  function ModelProgramProblem(fields: map<string, Value>, encodedSize: Value -> nat): Option<Reason> {
    if fields.Keys != {"api_id", "source", "parameters", "requested_outputs"} then Some(InvalidModelProgramContract)
    else if fields["api_id"] != Str("cadquery_v1") then Some(ModelProgramApiNotAllowed)
    else if !fields["source"].Str? || fields["source"].s == "" then Some(InvalidModelProgramContract)
    else if !fields["parameters"].Obj? then Some(InvalidModelProgramContract)
    else if !ParametersOk(fields["parameters"], encodedSize) then Some(InvalidModelProgramParameters)
    else if fields["requested_outputs"] != Arr([Str("step")]) then Some(ModelProgramOutputNotAllowed)
    else None
  }

  // ------------------------------------------------------------------ parsing

  function Items(v: Option<Value>): seq<Value> {
    if v.Some? && v.value.Arr? then v.value.items else []
  }

  function Text(v: Option<Value>): Option<string> {
    if v.Some? && v.value.Str? then Some(v.value.s) else None
  }

  predicate QuestionOk(q: Value) {
    && q.Obj?
    && Text(Get(q.fields, "field")).Some? && Text(Get(q.fields, "field")).value != ""
    && Text(Get(q.fields, "question")).Some? && Text(Get(q.fields, "question")).value != ""
  }

  /** The payload checks after the field table has been satisfied, in the order they are made. */
  function PayloadProblem(kind: Kind, f: map<string, Value>, encodedSize: Value -> nat): Option<Reason> {
    var stop := Text(Get(f, "stop_reason"));
    var assumptions, questions := Items(Get(f, "assumptions")), Items(Get(f, "questions"));
    if stop.Some? && StopReasonOf(stop.value).None? then Some(UnknownStopReason)
    else if exists i | 0 <= i < |assumptions| :: !assumptions[i].Str? then Some(InvalidActionPayload)
    else if exists i | 0 <= i < |questions| :: !questions[i].Obj? then Some(InvalidActionPayload)
    else if kind.AskUser? && (questions == [] || exists i | 0 <= i < |questions| :: !QuestionOk(questions[i])) then
      Some(InvalidQuestionContract)
    else if (kind.CreateModelProgram? || kind.PatchModelProgram?)
            && "model_program" in f && f["model_program"].Obj? then
      ModelProgramProblem(f["model_program"].fields, encodedSize)
    else None
  }

  /** `AgentAction.from_value` on a plain value. */
  function ParseValue(v: Value, encodedSize: Value -> nat): Result<Action, Rejection> {
    if !v.Obj? then Err(Rejection(AgentActionNotObject, None, None, None))
    else if "action" in v.fields && !v.fields["action"].Str? then
      Err(Rejection(InvalidActionDiscriminator, None, Some(InvalidType), None))
    else if "action" !in v.fields then Err(Rejection(ActionNotRegistered, None, None, None))
    else
      var f, name := v.fields, v.fields["action"].s;
      var known := KindOf(name);
      if known.None? then Err(Reject(ActionNotRegistered, name))
      else
        var kind := known.value;
        if !(f.Keys <= RequiredFields(kind) + OptionalFields(kind)) then Err(Reject(ActionContractExtraFields, name))
        else if !(RequiredFields(kind) <= f.Keys) then Err(Reject(InvalidActionPayload, name))
        else if exists k | k in f :: !OuterTypeOk(k, f[k]) then Err(Reject(InvalidActionPayload, name))
        else
          var problem := PayloadProblem(kind, f, encodedSize);
          if problem.Some? then Err(Reject(problem.value, name))
          else
            var stop := Text(Get(f, "stop_reason"));
            Ok(Action(name, Text(Get(f, "context_key")), Text(Get(f, "contract_type")), Get(f, "contract"),
                      Get(f, "model_program"), Get(f, "work_design"), Items(Get(f, "questions")),
                      if stop.Some? then StopReasonOf(stop.value) else None))
  }

  /** `AgentAction.from_value`: a typed action is taken as it is. */
  function Parse(response: Response, encodedSize: Value -> nat): Result<Action, Rejection> {
    match response
    case Typed(action) => Ok(action)
    case Raw(v) => ParseValue(v, encodedSize)
  }

  /** Parsing and the active Skill's action allowlist. */
  function Authorize(response: Response, allowed: set<Kind>, encodedSize: Value -> nat)
    : Result<(Kind, Action), Rejection>
  {
    match Parse(response, encodedSize)
    case Err(rejection) => Err(rejection)
    case Ok(action) =>
      var kind := KindOf(action.action);
      if kind.None? || kind.value !in allowed then Err(Reject(ActionNotAllowedForSkill, action.action))
      else Ok((kind.value, action))
  }

  /** A plain response that parses carries everything the loop later reads from its action. */
  lemma ParsedPayloadComplete(v: Value, encodedSize: Value -> nat)
    requires ParseValue(v, encodedSize).Ok?
    ensures var a := ParseValue(v, encodedSize).value;
            && KindOf(a.action).Some?
            && match KindOf(a.action).value
               case RequestContext => a.contextKey.Some?
               case CreateContract | PatchContract | SubmitContract | RepairContract =>
                 a.contractType.Some? && a.contract.Some? && a.contract.value.Obj?
               case CreateModelProgram | PatchModelProgram =>
                 a.modelProgram.Some? && a.modelProgram.value.Obj?
                 && ModelProgramProblem(a.modelProgram.value.fields, encodedSize).None?
               case ProposeWorkDesign => a.workDesign.Some? && a.workDesign.value.Obj?
               case AskUser => a.questions != [] && forall i | 0 <= i < |a.questions| :: QuestionOk(a.questions[i])
               case Stop => a.stopReason.Some?
               case _ => true
  {
    hide ModelProgramProblem, StopReasonOf, KindOf, QuestionOk;
    var f := v.fields;
    var kind := KindOf(f["action"].s).value;
    assert forall k | k in RequiredFields(kind) :: k in f && OuterTypeOk(k, f[k]);
    match kind
    case RequestContext => assert "context_key" in RequiredFields(kind);
    case CreateContract | PatchContract | SubmitContract | RepairContract =>
      assert "contract" in RequiredFields(kind) && "contract_type" in RequiredFields(kind);
    case CreateModelProgram | PatchModelProgram => assert "model_program" in RequiredFields(kind);
    case ProposeWorkDesign => assert "work_design" in RequiredFields(kind);
    case AskUser => assert "questions" in RequiredFields(kind);
    case Stop => assert "stop_reason" in RequiredFields(kind);
    case _ =>
  }

  // --------------------------------------------------- forbidden field names

  function NormalizedFrom(s: string, i: nat): string
    requires i <= |s|
    decreases |s| - i
  {
    if i == |s| then ""
    else
      (if IsUpper(s[i]) && i > 0 && (IsLower(s[i - 1]) || IsDigit(s[i - 1])) then "_" else "")
      + [LowerChar(s[i])] + NormalizedFrom(s, i + 1)
  }

  function Underscored(s: string): string {
    seq(|s|, i requires 0 <= i < |s| => if s[i] == '-' then '_' else s[i])
  }

  /** One spelling per field name: trimmed, camel case and dashes turned into underscores. */
  function Normalized(field: string): string {
    NormalizedFrom(Underscored(Strip(field)), 0)
  }

  predicate NormalSpelling(s: string) {
    forall i | 0 <= i < |s| :: !IsUpper(s[i]) && s[i] != '-'
  }

  lemma {:induction false} NormalizedShape(s: string, i: nat)
    requires i < |s| && forall j | 0 <= j < |s| :: s[j] != '-'
    ensures var r := NormalizedFrom(s, i);
            && NormalSpelling(r) && r != [] && r[|r| - 1] == LowerChar(s[|s| - 1])
            && (i == 0 ==> r[0] == LowerChar(s[0]))
    decreases |s| - i
  {
    var rest := NormalizedFrom(s, i + 1);
    if i + 1 < |s| {
      NormalizedShape(s, i + 1);
    } else {
      assert rest == "";
    }
    var head := (if IsUpper(s[i]) && i > 0 && (IsLower(s[i - 1]) || IsDigit(s[i - 1])) then "_" else "")
                + [LowerChar(s[i])];
    assert NormalizedFrom(s, i) == head + rest;
    assert NormalSpelling(head);
    if rest == "" { assert head + rest == head; }
  }

  lemma {:induction false} PlainIsNormal(s: string, i: nat)
    requires i <= |s| && NormalSpelling(s)
    ensures NormalizedFrom(s, i) == s[i..]
    decreases |s| - i
  {
    if i < |s| {
      PlainIsNormal(s, i + 1);
      assert s[i..] == [s[i]] + s[i + 1..];
    }
  }

  /** A normalised spelling is its own normal form, so a field is judged by one spelling only. */
  lemma NormalizedIdempotent(field: string)
    ensures Normalized(Normalized(field)) == Normalized(field)
    ensures ForbiddenField(Normalized(field)) <==> ForbiddenField(field)
  {
    var trimmed := Strip(field);
    var name := Normalized(field);
    hide ForbiddenName, ForbiddenSuffix, ForbiddenSegment, Segments;
    if trimmed != [] {
      StripLeftShape(field);
      StripRightShape(StripLeft(field));
      NormalizedShape(Underscored(trimmed), 0);
      assert !IsBlank(name[0]) && !IsBlank(name[|name| - 1]);
      assert Strip(name) == name;
      assert Underscored(name) == name;
      PlainIsNormal(name, 0);
    } else {
      assert name == "";
    }
  }

  predicate ForbiddenName(name: string) {
    name in {
      "work_id", "run_id", "part_id", "part_job_id", "assembly_job_id",
      "workspace_id", "source_run_id", "target_work_id",
      "manifest", "path", "file_path", "directory", "working_directory",
      "evidence_root", "executable_path",
      "command", "shell", "script", "source", "source_code", "executable",
      "cad_code", "cadquery_code", "model_code", "python_code",
      "credential", "credentials", "api_key", "secret", "token", "password",
      "environment", "environment_variables", "env", "network", "network_access",
      "filesystem", "filesystem_access", "process", "subprocess", "function", "operation", "tools",
      "tool", "tool_id", "tool_name", "tool_authority", "allowed_tools",
      "authority", "authorization", "authentication", "permission",
      "permissions", "bypass", "identity", "capability", "access",
      "uid", "gid",
      "candidate_id", "observation_id", "execution_id"}
  }

  predicate ForbiddenSuffix(name: string) {
    || EndsWith(name, "_work_id") || EndsWith(name, "_run_id") || EndsWith(name, "_part_id")
    || EndsWith(name, "_part_job_id") || EndsWith(name, "_assembly_job_id") || EndsWith(name, "_workspace_id")
  }

  predicate ForbiddenSegment(part: string) {
    part in {
      "credential", "credentials", "password", "secret",
      "shell", "command", "executable", "environment",
      "network", "filesystem", "manifest", "path", "source",
      "subprocess", "process", "tool", "tools", "authority",
      "function", "operation",
      "authorization", "authentication", "permission",
      "permissions", "bypass", "identity", "capability", "access"}
  }

  predicate ForbiddenField(field: string) {
    var name := Normalized(field);
    || ForbiddenName(name)
    || ForbiddenSuffix(name)
    || exists i | 0 <= i < |Segments(name)| :: ForbiddenSegment(Segments(name)[i])
  }

  /** A forbidden field name occurs at some depth; values are never inspected. */
  predicate NamesForbidden(v: Value) {
    match v
    case Obj(fields) => exists k | k in fields :: ForbiddenField(k) || NamesForbidden(fields[k])
    case Arr(items) => exists i | 0 <= i < |items| :: NamesForbidden(items[i])
    case _ => false
  }

  function OrNull(v: Option<Value>): Value {
    if v.Some? then v.value else Null
  }

  predicate ResponseNamesForbidden(response: Response) {
    match response
    case Raw(v) => NamesForbidden(v)
    case Typed(a) =>
      || NamesForbidden(OrNull(a.contract)) || NamesForbidden(OrNull(a.modelProgram))
      || NamesForbidden(OrNull(a.workDesign)) || NamesForbidden(Arr(a.questions))
  }

  // ---------------------------------------------------------- repair feedback

  predicate RepairableReason(reason: Reason) {
    reason in {ActionContractExtraFields, InvalidActionPayload, InvalidWorkDesignContract,
               MissingContextKey, InvalidQuestionContract, InvalidActionDiscriminator}
  }

  predicate OrderingReason(reason: Reason) {
    reason in {ProposalMissing, QuestionsUnresolved, CompletionActionRequired, QuestionActionRequired}
  }

  datatype Feedback = Feedback(reason: Reason, action: Option<Kind>)

  predicate RawActionDiffers(response: Response, name: string) {
    response.Raw? && response.value.Obj? && Get(response.value.fields, "action") != Some(Str(name))
  }

  /** `_contract_repair_feedback`: the correction a rejection earns, or none. */
  function RepairFeedback(rejection: Rejection, response: Response, allowed: set<Kind>, skill: string, sideEffect: bool)
    : Option<Feedback>
  {
    if sideEffect || ResponseNamesForbidden(response) then None
    else if !RepairableReason(rejection.reason)
            && !(skill == "work_design" && OrderingReason(rejection.reason)) then None
    else if rejection.reason == InvalidWorkDesignContract && rejection.issue == Some(Extra)
            && rejection.requested.None? then None
    else if rejection.reason == InvalidActionDiscriminator then Some(Feedback(rejection.reason, None))
    else if rejection.action.None? then None
    else
      var kind := KindOf(rejection.action.value);
      if kind.None? || kind.value !in allowed then None
      else if RawActionDiffers(response, rejection.action.value) then None
      else Some(Feedback(rejection.reason, kind))
  }
}
