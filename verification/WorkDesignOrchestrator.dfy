/** The imperative Work Design loop, proved to be the transition system of `WorkDesignEpisode`. */
module WorkDesignOrchestrator {
  import opened Json
  import opened Actions
  import opened Dictionaries
  import opened Ledger
  import opened SemanticContext
  import opened WorkDesignProposal
  import opened WorkDesignEpisode
  import Validator = WorkDesignValidator

  class Orchestrator {
    const setup: Setup
    var phase: Phase
    var steps: nat
    var contextRequests: nat
    var contextBytes: nat
    var proposals: nat
    var draft: Option<Value>
    var correction: Option<Feedback>
    var turns: nat
    var exhausted: bool
    var supplied: seq<Supplied>
    var responses: seq<Logged>
    var events: seq<Event<EventKind>>

    constructor (setup: Setup)
      ensures this.setup == setup && Snapshot() == START
    {
      this.setup := setup;
      phase, steps, contextRequests, contextBytes, proposals := Created, 0, 0, 0, 0;
      draft, correction, turns, exhausted := None, None, 0, false;
      supplied, responses, events := [], [], [];
    }

    function Snapshot(): State
      reads this
    {
      State(phase, steps, contextRequests, contextBytes, proposals, draft, correction, turns, exhausted,
            supplied, responses, events)
    }

    /** The method either kept the loop going in the expected state or ended the run as expected. */
    ghost predicate Follows(expected: Outcome, ending: Option<Ending>)
      reads this
    {
      match expected
      case Continue(s) => ending.None? && Snapshot() == s
      case Ended(e) => ending == Some(e)
    }

    method Log(kind: EventKind)
      modifies this`events
      ensures Snapshot() == Note(old(Snapshot()), kind)
    {
      events := events + [Event(steps, kind)];
    }

    method LogAndContinue(kind: EventKind, next: Phase)
      modifies this`events, this`phase
      ensures Snapshot() == Noting(old(Snapshot()), kind, next)
    {
      Log(kind);
      phase := next;
    }

    method Close(kind: EventKind, reason: StopReason, creation: bool, failure: Option<Diagnostic>)
      returns (ending: Option<Ending>)
      modifies this`events
      ensures Follows(End(old(Snapshot()), kind, reason, creation, failure), ending)
    {
      Log(kind);
      ending := Some(Finished(Finish(Snapshot(), reason, creation, failure)));
    }

    method Supply(item: ContextItem, size: nat, initial: bool)
      modifies this`contextBytes, this`supplied
      ensures Snapshot() == Supplying(old(Snapshot()), item, size, initial)
    {
      contextBytes := contextBytes + size;
      supplied := supplied + [Supplied(item, size, initial)];
    }

    /** The earlier design and the clarification answers go in before the first turn. */
    method SupplyInitial() returns (ending: Option<Ending>)
      requires Snapshot() == START
      modifies this`contextBytes, this`supplied, this`events
      ensures Follows(Initial(setup, START, InitialKeys(setup)), ending)
    {
      hide Lookup, Finish;
      var keys := InitialKeys(setup);
      assert keys[0..] == keys;
      for i := 0 to |keys|
        invariant Initial(setup, Snapshot(), keys[i..]) == Initial(setup, START, keys)
      {
        assert keys[i..][0] == keys[i] && keys[i..][1..] == keys[i + 1..];
        var found := Lookup(setup, keys[i]);
        if found.Err? {
          return Some(Raised(found.error));
        }
        var size := setup.contentSize(found.value.content);
        if contextBytes + size > setup.budget.maxContextBytes {
          ending := Close(OutOfBudget, BudgetExhausted, false, None);
          return;
        }
        Supply(found.value, size, true);
      }
      assert keys[|keys|..] == [];
      ending := None;
    }

    method Grant(next: Option<Feedback>)
      modifies this`turns, this`correction
      ensures Snapshot() == Granting(old(Snapshot()), next)
    {
      turns := turns + 1;
      correction := next;
    }

    method HandleRejection(rejection: Rejection, response: Response) returns (ending: Option<Ending>)
      modifies this
      ensures Follows(Correct(setup, old(Snapshot()), rejection, response), ending)
    {
      var next := setup.repair(rejection, response);
      if next.None? {
        return Some(Raised(rejection));
      }
      if turns >= setup.budget.maxTurns {
        exhausted := true;
        ending := Close(CorrectionRefused, PolicyBlocked, false, Some(CorrectionExhausted(rejection.reason, turns)));
        return;
      }
      Grant(next);
      LogAndContinue(Corrected, CorrectingActionContract);
      ending := None;
    }

    method RequestContextItem(a: Action, response: Response) returns (ending: Option<Ending>)
      modifies this
      ensures Follows(OnContext(setup, old(Snapshot()), a, response), ending)
    {
      if contextRequests >= setup.budget.maxContextRequests {
        return Some(Finished(Finish(Snapshot(), BudgetExhausted, false, None)));
      }
      if a.contextKey.None? || a.contextKey.value == "" {
        ending := HandleRejection(Reject(MissingContextKey, a.action), response);
        return;
      }
      var found := Lookup(setup, a.contextKey.value);
      if found.Err? {
        return Some(Raised(found.error));
      }
      var size := setup.contentSize(found.value.content);
      if contextBytes + size > setup.budget.maxContextBytes {
        return Some(Finished(Finish(Snapshot(), BudgetExhausted, false, None)));
      }
      Supply(found.value, size, false);
      contextRequests := contextRequests + 1;
      LogAndContinue(ContextSupplied, GatheringContext);
      ending := None;
    }

    method KeepDraft(value: Value)
      modifies this`draft, this`proposals
      ensures Snapshot() == Drafting(old(Snapshot()), value)
    {
      draft := Some(value);
      proposals := proposals + 1;
    }

    method Propose(a: Action, response: Response) returns (ending: Option<Ending>)
      requires Wired(setup)
      modifies this
      ensures Follows(OnProposal(setup, old(Snapshot()), a, response), ending)
    {
      hide Correct, Drafting, Finish, Noting, ValidateProposal;
      if proposals >= setup.budget.maxProposals {
        return Some(Finished(Finish(Snapshot(), BudgetExhausted, false, None)));
      }
      if OrNull(a.workDesign).Null? {
        return Some(Crashed);
      }
      var checked := Validator.ValidateWorkDesign(a.workDesign.value);
      assert CheckWired(setup, a.workDesign.value);
      if checked.Err? {
        ending := HandleRejection(checked.error, response);
        return;
      }
      KeepDraft(checked.value);
      LogAndContinue(ProposalAccepted, Proposed);
      ending := None;
    }

    method RequestCreation(a: Action, response: Response) returns (ending: Option<Ending>)
      modifies this
      ensures Follows(OnCreation(setup, old(Snapshot()), a, response), ending)
    {
      if draft.None? {
        ending := HandleRejection(Reject(ProposalMissing, a.action), response);
        return;
      }
      if HasQuestions(draft.value) {
        ending := HandleRejection(Reject(QuestionsUnresolved, a.action), response);
        return;
      }
      ending := Close(CreationRequested, Completed, true, None);
    }

    method AskQuestions(a: Action) returns (ending: Option<Ending>)
      modifies this
      ensures Follows(OnQuestions(old(Snapshot()), a), ending)
    {
      hide Dictable, End;
      for i := 0 to |a.questions|
        invariant AllDictable(a.questions[..i]) && Snapshot() == old(Snapshot())
      {
        if !Dictable(a.questions[i]) {
          return Some(Crashed);
        }
        assert a.questions[..i + 1] == a.questions[..i] + [a.questions[i]];
      }
      assert a.questions[..|a.questions|] == a.questions;
      ending := Close(UserAsked, UserInputRequired, false, None);
    }

    method StopEpisode(a: Action, response: Response) returns (ending: Option<Ending>)
      modifies this
      ensures Follows(OnStop(setup, old(Snapshot()), a, response), ending)
    {
      hide Correct, End, Reject;
      var reason := if a.stopReason.Some? then a.stopReason.value else InsufficientContext;
      if reason == Completed {
        ending := HandleRejection(Reject(CompletionActionRequired, a.action), response);
        return;
      }
      if reason == UserInputRequired {
        ending := HandleRejection(Reject(QuestionActionRequired, a.action), response);
        return;
      }
      if reason !in STOP_REASONS {
        return Some(Raised(Reject(StopReasonNotAllowed, a.action)));
      }
      ending := Close(Stopped, reason, false, if reason == PolicyBlocked then Some(ReportedPolicyBlock) else None);
    }

    method Perform(kind: Kind, a: Action, response: Response) returns (ending: Option<Ending>)
      requires Wired(setup)
      modifies this
      ensures Follows(Act(setup, old(Snapshot()), kind, a, response), ending)
    {
      hide End, OnContext, OnCreation, OnProposal, OnQuestions, OnStop, Snapshot;
      match kind
      case RequestContext => ending := RequestContextItem(a, response);
      case ProposeWorkDesign => ending := Propose(a, response);
      case CreatePartJobs => ending := RequestCreation(a, response);
      case AskUser => ending := AskQuestions(a);
      case Stop => ending := StopEpisode(a, response);
      case _ => ending := Some(Raised(Reject(ActionNotRegistered, a.action)));
    }

    method Record(response: Response)
      modifies this`steps, this`responses
      ensures Snapshot() == Recorded(old(Snapshot()), response)
    {
      responses := responses + [Logged(steps + 1, response)];
      steps := steps + 1;
    }

    /** One pass of the loop. */
    method Step(turn: Turn) returns (ending: Option<Ending>)
      requires Wired(setup)
      modifies this
      ensures Follows(Next(setup, old(Snapshot()), turn), ending)
    {
      if turn.before >= setup.budget.timeout || steps >= setup.budget.maxSteps {
        ending := Close(OutOfBudget, BudgetExhausted, false, None);
        return;
      }
      if turn.response.None? {
        ending := Close(SupplierFailed, ProviderFailure, false, None);
        return;
      }
      var response := turn.response.value;
      Record(response);
      if turn.after >= setup.budget.timeout {
        ending := Close(OutOfBudget, BudgetExhausted, false, None);
        return;
      }
      var judged := setup.judge(response);
      if judged.Err? {
        ending := HandleRejection(judged.error, response);
        return;
      }
      correction := None;
      ending := Perform(judged.value.0, judged.value.1, response);
    }

    method Run(env: nat -> Turn) returns (ending: Ending)
      requires Wired(setup) && Snapshot() == START
      modifies this
      ensures ending == RunEpisode(setup, env)
    {
      hide Next, Initial, InitialKeys;
      var open := SupplyInitial();
      while open.None?
        invariant open.None? ==> RunFrom(setup, Snapshot(), env) == RunEpisode(setup, env)
        invariant open.Some? ==> open.value == RunEpisode(setup, env)
        decreases open.None?, setup.budget.maxSteps - steps
      {
        RecordedEachStep(setup, Snapshot(), env(steps));
        open := Step(env(steps));
      }
      ending := open.value;
    }
  }
}
