/** The imperative loop of the design episode, proved to be the transition system of `Episode`. */
module EpisodeOrchestrator {
  import opened Json
  import opened Actions
  import opened Dictionaries
  import opened Ledger
  import opened SemanticContext
  import opened Episode
  import Broker = ToolBroker
  import Forbidden = ForbiddenFields

  class Orchestrator {
    const setup: Setup
    var phase: Phase
    var steps: nat
    var contextRequests: nat
    var contextBytes: nat
    var submissions: nat
    var repairs: nat
    var sources: nat
    var executions: nat
    var inspections: nat
    var draft: Option<Value>
    var feedback: Option<Value>
    var program: Option<Program>
    var candidate: Option<string>
    var observation: Option<Broker.Observation>
    var observationId: Option<string>
    var inspected: bool
    var failure: Option<Diagnostic>
    var correction: Option<Feedback>
    var turns: nat
    var exhausted: bool
    var sideEffect: bool
    var supplied: seq<Supplied>
    var responses: seq<Logged>
    var events: seq<Event<EventKind>>

    constructor (setup: Setup)
      ensures this.setup == setup && Snapshot() == START
    {
      this.setup := setup;
      phase := Created;
      steps, contextRequests, contextBytes, submissions, repairs := 0, 0, 0, 0, 0;
      sources, executions, inspections := 0, 0, 0;
      draft, feedback, program, candidate := None, None, None, None;
      observation, observationId, inspected, failure := None, None, false, None;
      correction, turns, exhausted, sideEffect := None, 0, false, false;
      supplied, responses, events := [], [], [];
    }

    function Snapshot(): State
      reads this
    {
      State(phase, steps, contextRequests, contextBytes, submissions, repairs, sources, executions, inspections,
            draft, feedback, program, candidate, observation, observationId, inspected, failure,
            correction, turns, exhausted, sideEffect, supplied, responses, events)
    }

    /** The method either kept the loop going in the expected state or ended the run as expected. */
    ghost predicate Follows(expected: Outcome, ending: Option<Ending>)
      reads this
    {
      match expected
      case Continue(s) => ending.None? && Snapshot() == s
      case Ended(e) => ending == Some(e)
    }

    method Log(kind: EventKind)
      modifies this`events
      ensures Snapshot() == Note(old(Snapshot()), kind)
    {
      events := events + [Event(steps, kind)];
    }

    method LogAndContinue(kind: EventKind, next: Phase)
      modifies this`events, this`phase
      ensures Snapshot() == Noting(old(Snapshot()), kind, next)
    {
      Log(kind);
      phase := next;
    }

    method Close(kind: EventKind, reason: StopReason, claim: Claim) returns (ending: Option<Ending>)
      modifies this`events
      ensures Follows(End(old(Snapshot()), kind, reason, claim), ending)
    {
      Log(kind);
      ending := Some(Finished(Finish(Snapshot(), reason, claim)));
    }

    method CloseBudget(limit: Limit, kind: Option<ResultKind>) returns (ending: Option<Ending>)
      modifies this`events
      ensures Follows(OutOf(old(Snapshot()), limit, kind), ending)
    {
      ending := Close(Exhausted(limit), BudgetExhausted, NO_CLAIM.(kind := kind));
    }

    method Refuse(reason: Reason, kind: Kind) returns (ending: Option<Ending>)
      ensures Follows(Raise(reason, kind), ending)
    {
      ending := Some(Raised(Reject(reason, ActionName(kind))));
    }

    method Grant(next: Option<Feedback>)
      modifies this`turns, this`correction
      ensures Snapshot() == Granting(old(Snapshot()), next)
    {
      turns := turns + 1;
      correction := next;
    }

    method HandleRejection(rejection: Rejection, response: Response) returns (ending: Option<Ending>)
      modifies this
      ensures Follows(Correct(setup, old(Snapshot()), rejection, response), ending)
    {
      var next := setup.repair(rejection, response, sideEffect);
      if next.None? {
        return Some(Raised(rejection));
      }
      if turns >= setup.budget.maxTurns {
        exhausted := true;
        ending := Close(CorrectionRefused, PolicyBlocked,
                        NO_CLAIM.(failure := Some(CorrectionExhausted(rejection.reason, turns))));
        return;
      }
      Grant(next);
      LogAndContinue(Corrected, CorrectingActionContract);
      ending := None;
    }

    method Supply(item: ContextItem, size: nat)
      modifies this`contextRequests, this`contextBytes, this`supplied
      ensures Snapshot() == Supplying(old(Snapshot()), item, size)
    {
      contextRequests := contextRequests + 1;
      contextBytes := contextBytes + size;
      supplied := supplied + [SuppliedItem(item)];
    }

    method RequestContextItem(a: Action, response: Response) returns (ending: Option<Ending>)
      modifies this
      ensures Follows(OnContext(setup, old(Snapshot()), a, response), ending)
    {
      hide Correct, Noting, OutOf, Resolve, Supplying;
      if contextRequests >= setup.budget.maxContextRequests {
        ending := CloseBudget(ContextRequests, None);
        return;
      }
      if a.contextKey.None? || a.contextKey.value == "" {
        ending := HandleRejection(Reject(MissingContextKey, a.action), response);
        return;
      }
      var resolved := Resolve(setup.items, a.contextKey.value, setup.capabilities.contextKeys, setup.work);
      if resolved.Err? {
        return Some(Raised(resolved.error));
      }
      var item := resolved.value;
      var size := setup.contentSize(item.content);
      if contextBytes + size > setup.budget.maxContextBytes {
        ending := CloseBudget(ContextBytes, None);
        return;
      }
      Supply(item, size);
      LogAndContinue(ContextSupplied, GatheringContext);
      ending := None;
    }

    method SetDraft(isRepair: bool, contract: Option<Value>)
      modifies this`repairs, this`submissions, this`draft
      ensures Snapshot() == Drafting(old(Snapshot()), isRepair, contract)
    {
      if isRepair {
        repairs := repairs + 1;
      }
      submissions := submissions + 1;
      draft := contract;
    }

    method SubmitDraft(kind: Kind, a: Action) returns (ending: Option<Ending>)
      modifies this
      ensures Follows(OnContract(setup, old(Snapshot()), kind, a), ending)
    {
      hide Drafting, Noting, OutOf;
      if submissions >= setup.budget.maxSubmissions {
        ending := CloseBudget(Submissions, None);
        return;
      }
      var isRepair := kind.PatchContract? || kind.RepairContract?;
      if isRepair && repairs >= setup.budget.maxRepairs {
        ending := CloseBudget(Repairs, None);
        return;
      }
      if a.contractType.None? || a.contractType.value !in setup.capabilities.contractTypes
         || a.contract.None? || !a.contract.value.Obj? {
        ending := Refuse(ContractTypeNotAllowed, kind);
        return;
      }
      if setup.search(a.contract.value).Err? {
        ending := Refuse(StructuredContractExecutionField, kind);
        return;
      }
      SetDraft(isRepair, a.contract);
      LogAndContinue(if isRepair then ContractPatched else ContractProposed, if isRepair then Repairing else Proposing);
      ending := None;
    }

    method Show(o: Option<Broker.Observation>, id: Option<string>)
      modifies this`observation, this`observationId, this`inspected
      ensures Snapshot() == Showing(old(Snapshot()), o, id)
    {
      observation, observationId, inspected := o, id, false;
    }

    method ReplaceProgram(isRepair: bool, payload: Option<Program>)
      modifies this`repairs, this`sources, this`candidate, this`program
      ensures Snapshot() == Replacing(old(Snapshot()), isRepair, payload)
    {
      hide Candidate;
      if isRepair {
        repairs := repairs + 1;
      }
      sources := sources + 1;
      candidate := Some(Candidate(sources));
      program := payload;
    }

    method SubmitProgram(kind: Kind, a: Action) returns (ending: Option<Ending>)
      modifies this
      ensures Follows(OnProgram(setup, old(Snapshot()), kind, a), ending)
    {
      hide Noting, OutOf, ProgramOf, Replacing, Showing;
      if sources >= setup.budget.maxSources {
        ending := CloseBudget(Sources, Some(ModelProgram));
        return;
      }
      var isRepair := kind.PatchModelProgram?;
      if !isRepair && program.Some? {
        ending := Refuse(CandidateAlreadyExists, kind);
        return;
      }
      if isRepair {
        if program.None? {
          ending := Refuse(CandidateMissing, kind);
          return;
        }
        if observation.None? || !inspected {
          ending := Refuse(InspectionRequired, kind);
          return;
        }
        if repairs >= setup.budget.maxRepairs {
          ending := CloseBudget(Repairs, Some(ModelProgram));
          return;
        }
      }
      var payload := ProgramOf(a.modelProgram, setup.order);
      if payload.None? {
        ending := Some(Crashed);
        return;
      }
      Show(None, None);
      ReplaceProgram(isRepair, payload);
      LogAndContinue(if isRepair then ProgramPatched else ProgramCreated,
                     if isRepair then RepairingProgram else ProgramProposed);
      ending := None;
    }

    method Account(o: Broker.Observation)
      modifies this`sideEffect, this`executions, this`failure
      ensures Snapshot() == Accounting(old(Snapshot()), o)
    {
      sideEffect := sideEffect || o.sideEffect;
      executions := executions + 1;
      failure := if !o.success then Some(ToolRejected(o.observationType)) else None;
    }

    method Execute(turn: Turn) returns (ending: Option<Ending>)
      modifies this
      ensures Follows(OnExecution(setup, old(Snapshot()), turn), ending)
    {
      hide Accounting, Lineage, Noting, OutOf, Showing;
      if program.None? || candidate.None? {
        ending := Refuse(CandidateMissing, RequestExecution);
        return;
      }
      if observation.Some? {
        ending := Refuse(CandidateAlreadyExecuted, RequestExecution);
        return;
      }
      if executions >= setup.budget.maxExecutions {
        ending := CloseBudget(Executions, Some(ModelProgram));
        return;
      }
      if Lineage(setup).None? {
        ending := Refuse(InvalidExecutionLineage, RequestExecution);
        return;
      }
      var reply := setup.execute(program.value, candidate.value, turn).reply;
      if reply.Failure? {
        return Some(Crashed);
      }
      var o := reply.observation;
      Show(Some(o), Some(ObservationName(executions + 1)));
      Account(o);
      LogAndContinue(if o.sideEffect then ExecutionStarted else ExecutionBlocked, ObservationAvailable);
      ending := None;
    }

    method ShowInspection(shown: Supplied)
      modifies this`inspections, this`inspected, this`supplied
      ensures Snapshot() == Inspecting(old(Snapshot()), shown)
    {
      inspections := inspections + 1;
      inspected := true;
      supplied := supplied + [shown];
    }

    method Inspect() returns (ending: Option<Ending>)
      modifies this
      ensures Follows(OnInspection(setup, old(Snapshot())), ending)
    {
      if observation.None? || observationId.None? {
        ending := Refuse(ExecutionObservationMissing, InspectObservation);
        return;
      }
      if inspected {
        ending := Refuse(ObservationAlreadyInspected, InspectObservation);
        return;
      }
      if inspections >= setup.budget.maxInspections {
        ending := CloseBudget(Inspections, Some(ModelProgram));
        return;
      }
      ShowInspection(SuppliedObservation(observationId.value, observation.value));
      LogAndContinue(EventKind.Inspected, ObservationInspected);
      ending := None;
    }

    method Validate(turn: Turn) returns (ending: Option<Ending>)
      modifies this
      ensures Follows(OnValidation(setup, old(Snapshot()), turn), ending)
    {
      hide End, Noting;
      if draft.None? {
        ending := Refuse(StructuredContractMissing, RequestValidation);
        return;
      }
      var reply := setup.validate(draft.value, turn).reply;
      if reply.Failure? {
        return Some(Crashed);
      }
      var o := reply.observation;
      sideEffect := sideEffect || o.sideEffect;
      if !Broker.FeedbackOk(o.output) {
        ending := Refuse(InvalidToolObservation, RequestValidation);
        return;
      }
      feedback := Some(o.output);
      if o.output.fields["valid"].b {
        ending := Close(ContractValidated, Completed, NO_CLAIM.(validated := true));
        return;
      }
      LogAndContinue(ContractValidated, AwaitingValidation);
      ending := None;
    }

    method AskQuestions(a: Action) returns (ending: Option<Ending>)
      modifies this
      ensures Follows(OnQuestions(old(Snapshot()), a), ending)
    {
      hide Dictable, End;
      for i := 0 to |a.questions|
        invariant AllDictable(a.questions[..i]) && Snapshot() == old(Snapshot())
      {
        if !Dictable(a.questions[i]) {
          return Some(Crashed);
        }
        assert a.questions[..i + 1] == a.questions[..i] + [a.questions[i]];
      }
      assert a.questions[..|a.questions|] == a.questions;
      ending := Close(UserAsked, UserInputRequired, NO_CLAIM);
    }

    method StopEpisode(a: Action) returns (ending: Option<Ending>)
      modifies this
      ensures Follows(OnStop(setup, old(Snapshot()), a), ending)
    {
      hide Broker.ValidReimport, End, Raise;
      var reason := if a.stopReason.Some? then a.stopReason.value else InsufficientContext;
      if reason == Completed {
        if !(program.Some? && observation.Some? && observation.value.success && inspected
             && Broker.ValidReimport(observation.value.output)) {
          ending := Refuse(CompletionEvidenceIncomplete, Stop);
          return;
        }
        ending := Close(Stopped, Completed, Claim(false, Some(ModelProgram), true, None));
        return;
      }
      if reason !in setup.capabilities.stopReasons {
        ending := Refuse(StopReasonNotAllowed, Stop);
        return;
      }
      ending := Close(Stopped, reason,
        NO_CLAIM.(failure := if reason == PolicyBlocked && failure.None? then Some(ReportedPolicyBlock) else None));
    }

    method Perform(kind: Kind, a: Action, response: Response, turn: Turn) returns (ending: Option<Ending>)
      modifies this
      ensures Follows(Act(setup, old(Snapshot()), kind, a, response, turn), ending)
    {
      hide OnContext, OnContract, OnProgram, OnExecution, OnInspection, OnValidation, OnQuestions, OnStop, End;
      match kind
      case RequestContext => ending := RequestContextItem(a, response);
      case CreateContract | PatchContract | SubmitContract | RepairContract => ending := SubmitDraft(kind, a);
      case CreateModelProgram | PatchModelProgram => ending := SubmitProgram(kind, a);
      case RequestExecution => ending := Execute(turn);
      case InspectObservation => ending := Inspect();
      case RequestValidation => ending := Validate(turn);
      case AskUser => ending := AskQuestions(a);
      case Stop => ending := StopEpisode(a);
      case ProposeWorkDesign | CreatePartJobs => ending := Refuse(ActionNotRegistered, kind);
    }

    /** One pass of the loop. */
    method Step(turn: Turn) returns (ending: Option<Ending>)
      modifies this
      ensures Follows(Next(setup, old(Snapshot()), turn), ending)
    {
      hide Act, Correct, End;
      if turn.elapsed >= setup.budget.timeout {
        ending := CloseBudget(Timeout, None);
        return;
      }
      if steps >= setup.budget.maxSteps {
        ending := CloseBudget(Steps, None);
        return;
      }
      if turn.response.None? {
        ending := Close(SupplierFailed, ProviderFailure, NO_CLAIM);
        return;
      }
      var response := turn.response.value;
      responses := responses + [Logged(steps + 1, response)];
      steps := steps + 1;
      var judged := setup.judge(response);
      if judged.Err? {
        ending := HandleRejection(judged.error, response);
        return;
      }
      correction := None;
      ending := Perform(judged.value.0, judged.value.1, response, turn);
    }

    /** `EpisodeOrchestrator.run`: loops until a pass ends the episode, at most once per step of the budget. */
    method Run(env: nat -> Turn) returns (ending: Ending)
      requires Snapshot() == START
      modifies this
      ensures ending == RunFrom(setup, START, env)
    {
      hide Next;
      var open: Option<Ending> := None;
      while open.None?
        invariant open.None? ==> RunFrom(setup, Snapshot(), env) == RunFrom(setup, START, env)
        invariant open.Some? ==> open.value == RunFrom(setup, START, env)
        decreases open.None?, setup.budget.maxSteps - steps
      {
        ghost var before := Snapshot();
        RecordedEachStep(setup, before, env(steps));
        open := Step(env(steps));
      }
      ending := open.value;
    }
  }
}
