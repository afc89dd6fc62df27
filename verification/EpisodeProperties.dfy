/** What every reachable state and every result of the design episode satisfies, for any supplier. */
module EpisodeProperties {
  import opened Json
  import opened Strings
  import opened Actions
  import opened Ledger
  import opened SemanticContext
  import opened Episode
  import Broker = ToolBroker
  import BrokerFacts = ToolBrokerProperties
  import Forbidden = ForbiddenFields

  // ------------------------------------------------------------------ tallies

  ghost function ItemBytes(c: Setup, shown: Supplied): nat {
    if shown.SuppliedItem? then c.contentSize(shown.item.content) else 0
  }

  ghost function TotalBytes(c: Setup, supplied: seq<Supplied>): nat {
    if supplied == [] then 0
    else TotalBytes(c, supplied[..|supplied| - 1]) + ItemBytes(c, supplied[|supplied| - 1])
  }

  lemma TotalOne(c: Setup, supplied: seq<Supplied>, shown: Supplied)
    ensures TotalBytes(c, supplied + [shown]) == TotalBytes(c, supplied) + ItemBytes(c, shown)
  {
    assert (supplied + [shown])[..|supplied|] == supplied;
  }

  // --------------------------------------------------------------- invariants

  /** Submission, execution and inspection alternate, and which inequality is strict is the current phase. */
  ghost predicate Ladder(s: State) {
    && s.inspections <= s.executions <= s.sources <= s.inspections + 1
    && (s.program.Some? <==> s.sources > 0)
    && s.candidate == (if s.sources > 0 then Some(Candidate(s.sources)) else None)
    && (s.observation.Some? <==> s.sources > 0 && s.executions == s.sources)
    && s.observationId == (if s.observation.Some? then Some(ObservationName(s.executions)) else None)
    && (s.inspected <==> s.observation.Some? && s.inspections == s.executions)
  }

  /** Every counter is the number of its events. */
  ghost predicate Books(s: State) {
    && s.contextRequests == Tally(s.events, ContextSupplied)
    && s.submissions == Tally(s.events, ContractProposed) + Tally(s.events, ContractPatched)
    && s.sources == Tally(s.events, ProgramCreated) + Tally(s.events, ProgramPatched)
    && s.executions == Tally(s.events, ExecutionStarted) + Tally(s.events, ExecutionBlocked)
    && s.inspections == Tally(s.events, EventKind.Inspected)
    && s.turns == Tally(s.events, Corrected)
    && s.repairs == Tally(s.events, ContractPatched) + (if s.sources > 0 then s.sources - 1 else 0)
    && (s.sideEffect <==> Tally(s.events, ExecutionStarted) > 0)
  }

  ghost predicate WithinBudget(c: Setup, s: State) {
    && s.steps <= c.budget.maxSteps
    && s.contextRequests <= c.budget.maxContextRequests && s.contextBytes <= c.budget.maxContextBytes
    && s.submissions <= c.budget.maxSubmissions && s.repairs <= c.budget.maxRepairs
    && s.sources <= c.budget.maxSources && s.executions <= c.budget.maxExecutions
    && s.inspections <= c.budget.maxInspections && s.turns <= c.budget.maxTurns
  }

  /** The draft is a dictionary that no later executable-field check refuses. */
  ghost predicate DraftSound(s: State) {
    && (s.draft.Some? <==> s.submissions > 0)
    && (s.draft.Some? ==> s.draft.value.Obj? && Forbidden.Clear(s.draft.value))
  }

  ghost predicate Passed(c: Setup, shown: Supplied) {
    shown.SuppliedItem? ==>
      exists key :: Resolve(c.items, key, c.capabilities.contextKeys, c.work) == Ok(shown.item)
  }

  ghost predicate ContextSound(c: Setup, s: State) {
    && s.contextBytes == TotalBytes(c, s.supplied)
    && forall i | 0 <= i < |s.supplied| :: Passed(c, s.supplied[i])
  }

  /** The latest observation answers the current candidate, and a successful one carries full evidence. */
  ghost predicate ObservationSound(s: State) {
    s.observation.Some? && s.observation.value.success ==>
      && s.candidate.Some?
      && Broker.ValidReimport(s.observation.value.output)
      && Get(s.observation.value.output.fields, "candidate_id") == Some(Str(s.candidate.value))
      && s.observation.value.sideEffect
  }

  ghost predicate Sound(c: Setup, s: State) {
    && Ladder(s) && Books(s) && WithinBudget(c, s) && NumberedInOrder(s.responses, s.steps)
    && DraftSound(s) && ContextSound(c, s) && ObservationSound(s)
  }

  /** Between passes: a pending correction is exactly the correcting phase, and no side effect preceded it. */
  ghost predicate Open(s: State) {
    && !s.exhausted
    && (s.correction.Some? <==> s.phase == CorrectingActionContract)
    && (s.correction.Some? ==> !s.sideEffect)
  }

  ghost predicate Empty(s: State) {
    && s.steps == 0 && s.contextRequests == 0 && s.contextBytes == 0 && s.submissions == 0 && s.repairs == 0
    && s.sources == 0 && s.executions == 0 && s.inspections == 0 && s.turns == 0
    && s.draft.None? && s.program.None? && s.candidate.None? && s.observation.None? && s.observationId.None?
    && s.correction.None? && s.phase == Created && !s.inspected && !s.exhausted && !s.sideEffect
    && s.supplied == [] && s.responses == [] && s.events == []
  }

  lemma EmptySound(c: Setup, s: State)
    requires Empty(s)
    ensures Sound(c, s) && Open(s)
  {
    forall k: EventKind ensures Tally([], k) == 0 { TallyNone(k); }
    assert TotalBytes(c, []) == 0;
  }

  lemma StartSound(c: Setup)
    ensures Sound(c, START) && Open(START) && START.steps == 0
  {
    hide Open, Sound;
    assert Empty(START) && START.steps == 0;
    EmptySound(c, START);
  }

  // ------------------------------------------------ every transition keeps them

  /** Events other than the counted ones change no book. */
  ghost predicate Uncounted(kind: EventKind) {
    kind in {ContractValidated, CorrectionRefused, SupplierFailed, UserAsked, Stopped} || kind.Exhausted?
  }

  lemma NoteSound(c: Setup, s: State, kind: EventKind)
    requires Sound(c, s) && Uncounted(kind)
    ensures Sound(c, Note(s, kind))
  {
    hide Broker.ValidReimport, Tally, TotalBytes;
    forall k ensures Tally(Note(s, kind).events, k) == Tally(s.events, k) + (if kind == k then 1 else 0) {
      TallyOne(s.events, Event(s.steps, kind), k);
    }
  }

  lemma TalliesAfter(s: State, kind: EventKind, phase: Phase)
    ensures forall k :: Tally(Noting(s, kind, phase).events, k) == Tally(s.events, k) + (if kind == k then 1 else 0)
  {
    hide Tally;
    forall k ensures Tally(Noting(s, kind, phase).events, k) == Tally(s.events, k) + (if kind == k then 1 else 0) {
      TallyOne(s.events, Event(s.steps, kind), k);
    }
  }

  lemma CorrectionSound(c: Setup, s: State, rejection: Rejection, response: Response)
    requires Sound(c, s)
    ensures var outcome := Correct(c, s, rejection, response);
            outcome.Continue? ==> Sound(c, outcome.state)
  {
    var feedback := c.repair(rejection, response, s.sideEffect);
    hide Broker.ValidReimport, Candidate, Finish, Forbidden.Clear, ObservationName, Passed;
    hide Tally, TotalBytes;
    TalliesAfter(Granting(s, feedback), Corrected, CorrectingActionContract);
  }

  lemma ContextStepSound(c: Setup, s: State, a: Action, response: Response)
    requires Sound(c, s)
    ensures var outcome := OnContext(c, s, a, response);
            outcome.Continue? ==> Sound(c, outcome.state)
  {
    hide Correct, Finish, Resolve, Sound, WithItem;
    CorrectionSound(c, s, Reject(MissingContextKey, a.action), response);
    if s.contextRequests < c.budget.maxContextRequests && a.contextKey.Some? && a.contextKey.value != "" {
      var key := a.contextKey.value;
      var resolved := Resolve(c.items, key, c.capabilities.contextKeys, c.work);
      if resolved.Ok? && s.contextBytes + c.contentSize(resolved.value.content) <= c.budget.maxContextBytes {
        ItemSound(c, s, key, resolved.value);
      }
    }
  }

  lemma ItemSound(c: Setup, s: State, key: string, item: ContextItem)
    requires Sound(c, s) && s.contextRequests < c.budget.maxContextRequests
    requires Resolve(c.items, key, c.capabilities.contextKeys, c.work) == Ok(item)
    requires s.contextBytes + c.contentSize(item.content) <= c.budget.maxContextBytes
    ensures Sound(c, WithItem(s, item, c.contentSize(item.content)))
  {
    hide Broker.ValidReimport, Resolve, Tally, TotalBytes;
    var size := c.contentSize(item.content);
    TalliesAfter(Supplying(s, item, size), ContextSupplied, GatheringContext);
    TotalOne(c, s.supplied, SuppliedItem(item));
    assert Passed(c, SuppliedItem(item));
  }

  lemma DraftKeptSound(c: Setup, s: State, isRepair: bool, contract: Value)
    requires Sound(c, s) && s.submissions < c.budget.maxSubmissions && (isRepair ==> s.repairs < c.budget.maxRepairs)
    requires contract.Obj? && Forbidden.Clear(contract)
    ensures Sound(c, WithDraft(s, isRepair, Some(contract)))
  {
    TalliesAfter(Drafting(s, isRepair, Some(contract)), if isRepair then ContractPatched else ContractProposed,
                 if isRepair then Repairing else Proposing);
  }

  lemma ContractStepSound(c: Setup, s: State, kind: Kind, a: Action)
    requires Wired(c) && Sound(c, s)
    ensures var outcome := OnContract(c, s, kind, a);
            outcome.Continue? ==> Sound(c, outcome.state)
  {
    hide Finish;
    hide Sound, WithDraft;
    if OnContract(c, s, kind, a).Continue? {
      assert SearchWired(c, a.contract.value);
      Forbidden.AcceptedDraftIsNeverForbidden(a.contract.value, c.order, c.order);
      DraftKeptSound(c, s, kind.PatchContract? || kind.RepairContract?, a.contract.value);
    }
  }

  lemma ProgramKeptSound(c: Setup, s: State, isRepair: bool, program: Program)
    requires Sound(c, s) && s.sources < c.budget.maxSources
    requires if isRepair then s.inspected && s.repairs < c.budget.maxRepairs else s.program.None?
    ensures Sound(c, WithProgram(s, isRepair, Some(program)))
  {
    TalliesAfter(Replacing(Showing(s, None, None), isRepair, Some(program)),
                 if isRepair then ProgramPatched else ProgramCreated,
                 if isRepair then RepairingProgram else ProgramProposed);
  }

  lemma ProgramStepSound(c: Setup, s: State, kind: Kind, a: Action)
    requires Sound(c, s)
    ensures var outcome := OnProgram(c, s, kind, a);
            outcome.Continue? ==> Sound(c, outcome.state)
  {
    if OnProgram(c, s, kind, a).Continue? {
      ProgramKeptSound(c, s, kind.PatchModelProgram?, ProgramOf(a.modelProgram, c.order).value);
    }
  }

  lemma PayloadCandidate(program: Program, candidate: string)
    ensures ExecutionPayload(program, candidate).Obj?
    ensures Get(ExecutionPayload(program, candidate).fields, "candidate_id") == Some(Str(candidate))
  {
  }

  lemma ObservationKeptSound(c: Setup, s: State, o: Broker.Observation)
    requires Sound(c, s) && s.program.Some? && s.candidate.Some? && s.observation.None?
    requires s.executions < c.budget.maxExecutions
    requires o.success ==>
               && o.sideEffect && Broker.ValidReimport(o.output)
               && Get(o.output.fields, "candidate_id") == Some(Str(s.candidate.value))
    ensures Sound(c, WithObservation(s, o))
  {
    hide Books, Broker.ValidReimport, TotalBytes;
    assert Books(s);
    ObservationBooked(s, o);
  }

  lemma ObservationFields(s: State, o: Broker.Observation)
    ensures var t, kind := WithObservation(s, o), if o.sideEffect then ExecutionStarted else ExecutionBlocked;
            && t.executions == s.executions + 1 && t.sideEffect == (s.sideEffect || o.sideEffect)
            && t.contextRequests == s.contextRequests && t.submissions == s.submissions && t.sources == s.sources
            && t.inspections == s.inspections && t.turns == s.turns && t.repairs == s.repairs
            && forall k :: Tally(t.events, k) == Tally(s.events, k) + (if kind == k then 1 else 0)
  {
    hide ObservationName, Tally;
    TalliesAfter(Accounting(Showing(s, Some(o), Some(ObservationName(s.executions + 1))), o),
                 if o.sideEffect then ExecutionStarted else ExecutionBlocked, ObservationAvailable);
  }

  lemma ObservationBooked(s: State, o: Broker.Observation)
    requires Books(s)
    ensures Books(WithObservation(s, o))
  {
    hide Tally, WithObservation;
    ObservationFields(s, o);
  }

  lemma ExecutionStepSound(c: Setup, s: State, turn: Turn)
    requires Wired(c) && Sound(c, s)
    ensures var outcome := OnExecution(c, s, turn);
            outcome.Continue? ==> Sound(c, outcome.state)
  {
    hide Broker.Invoke, Broker.ValidReimport, ExecutionPayload, Finish, Lineage, Sound;
    hide WithObservation;
    if OnExecution(c, s, turn).Continue? {
      var program, candidate := s.program.value, s.candidate.value;
      var o := c.execute(program, candidate, turn).reply.observation;
      assert ExecuteWired(c, program, candidate, turn);
      PayloadCandidate(program, candidate);
      if o.success {
        BrokerFacts.SuccessfulObservationCompletes(
          turn.tools, c.platform, turn.world, "model_program", ExecutionPayload(program, candidate), Lineage(c));
      }
      ObservationKeptSound(c, s, o);
    }
  }

  lemma InspectionStepSound(c: Setup, s: State)
    requires Sound(c, s)
    ensures var outcome := OnInspection(c, s);
            outcome.Continue? ==> Sound(c, outcome.state)
  {
    if OnInspection(c, s).Continue? {
      var shown := SuppliedObservation(s.observationId.value, s.observation.value);
      TalliesAfter(Inspecting(s, shown), EventKind.Inspected, ObservationInspected);
      TotalOne(c, s.supplied, shown);
      assert ItemBytes(c, shown) == 0 && Passed(c, shown);
    }
  }

  /** What the structured validator tool answers about a draft the episode holds. */
  lemma DraftAnswer(c: Setup, draft: Value, turn: Turn)
    requires Wired(c) && draft.Obj? && Forbidden.Clear(draft)
    ensures var reply := c.validate(draft, turn).reply;
            && reply.Observed? && !reply.observation.sideEffect
            && (Broker.FeedbackOk(reply.observation.output)
                <==> c.capabilities.skill in Broker.AllowedSkills(Broker.STRUCTURED_CONTRACT_TOOL))
            && (c.capabilities.skill in Broker.AllowedSkills(Broker.STRUCTURED_CONTRACT_TOOL) ==>
                  reply.observation.output == Broker.FeedbackOf(c.platform, draft))
  {
    hide Broker.AllowedSkills, Broker.FeedbackOf, Broker.FeedbackOk, Broker.Invoke;
    var payload := ValidationPayload(draft);
    assert ValidateWired(c, draft, turn);
    BrokerFacts.DraftValidation(turn.tools, c.platform, turn.world, c.capabilities.skill, payload, draft);
  }

  lemma FeedbackSound(c: Setup, s: State, o: Broker.Observation)
    requires Sound(c, s) && !o.sideEffect
    ensures Sound(c, WithFeedback(s, o))
  {
  }

  lemma ValidationStepSound(c: Setup, s: State, turn: Turn)
    requires Wired(c) && Sound(c, s)
    ensures var outcome := OnValidation(c, s, turn);
            outcome.Continue? ==> Sound(c, outcome.state)
  {
    hide Wired, ActionName, Broker.AllowedSkills, Broker.FeedbackOf, Broker.ValidReimport;
    hide NumberedInOrder, ObservationName, Passed, Reject, Tally, TotalBytes;
    if OnValidation(c, s, turn).Continue? {
      assert DraftSound(s);
      DraftAnswer(c, s.draft.value, turn);
      var o := c.validate(s.draft.value, turn).reply.observation;
      FeedbackSound(c, s, o);
      assert Uncounted(ContractValidated);
      NoteSound(c, WithFeedback(s, o), ContractValidated);
    }
  }

  lemma ActSound(c: Setup, s: State, kind: Kind, a: Action, response: Response, turn: Turn)
    requires Wired(c) && Sound(c, s)
    ensures var outcome := Act(c, s, kind, a, response, turn);
            outcome.Continue? ==> Sound(c, outcome.state)
  {
    hide Wired, Finish, OnContext, OnContract, OnExecution, OnInspection, OnProgram, OnValidation, Sound;
    match kind
    case RequestContext => ContextStepSound(c, s, a, response);
    case CreateContract | PatchContract | SubmitContract | RepairContract => ContractStepSound(c, s, kind, a);
    case CreateModelProgram | PatchModelProgram => ProgramStepSound(c, s, kind, a);
    case RequestExecution => ExecutionStepSound(c, s, turn);
    case InspectObservation => InspectionStepSound(c, s);
    case RequestValidation => ValidationStepSound(c, s, turn);
    case _ =>
  }

  lemma RecordedSound(c: Setup, s: State, response: Response, correction: Option<Feedback>)
    requires Sound(c, s) && s.steps < c.budget.maxSteps
    ensures Sound(c, Recorded(s, response).(correction := correction))
    ensures Sound(c, Recorded(s, response))
  {
    hide Broker.ValidReimport, Tally, TotalBytes;
  }

  /** One pass of the loop keeps every invariant, whatever the supplier returned. */
  lemma NextSound(c: Setup, s: State, turn: Turn)
    requires Wired(c) && Sound(c, s)
    ensures Next(c, s, turn).Continue? ==> Sound(c, Next(c, s, turn).state)
  {
    hide Wired, Act, Correct, Finish, Recorded, Sound;
    if turn.elapsed < c.budget.timeout && s.steps < c.budget.maxSteps && turn.response.Some? {
      var response := turn.response.value;
      RecordedSound(c, s, response, None);
      var judged := c.judge(response);
      if judged.Err? {
        CorrectionSound(c, Recorded(s, response), judged.error, response);
      } else {
        ActSound(c, Recorded(s, response).(correction := None), judged.value.0, judged.value.1, response, turn);
      }
    }
  }

  // -------------------------------------------------------------------- runs

  /** Pass `i` took one state of the run to the next. */
  ghost predicate Stepped(c: Setup, env: nat -> Turn, states: seq<State>, i: nat)
    requires i + 1 < |states|
  {
    Next(c, states[i], env(i)) == Continue(states[i + 1])
  }

  /** The states of a run so far: the supplier, the clock and the tools are whatever `env` says. */
  ghost predicate IsRun(c: Setup, env: nat -> Turn, states: seq<State>) {
    states != [] && states[0] == START && forall i: nat | i + 1 < |states| :: Stepped(c, env, states, i)
  }

  /** Every state of every run is sound and open, and state `k` has spent `k` steps. */
  lemma {:induction false} ReachableSound(c: Setup, env: nat -> Turn, states: seq<State>, k: nat)
    requires Wired(c) && IsRun(c, env, states) && k < |states|
    ensures Sound(c, states[k]) && Open(states[k]) && states[k].steps == k
  {
    hide Next, Sound, Open, Wired;
    if k == 0 {
      StartSound(c);
    } else {
      ReachableSound(c, env, states, k - 1);
      assert Stepped(c, env, states, k - 1);
      NextSound(c, states[k - 1], env(k - 1));
      NextOpen(c, states[k - 1], env(k - 1));
      RecordedEachStep(c, states[k - 1], env(k - 1));
    }
  }

  /** No run is longer than the step budget. */
  lemma RunsAreShort(c: Setup, env: nat -> Turn, states: seq<State>)
    requires Wired(c) && IsRun(c, env, states)
    ensures |states| <= c.budget.maxSteps + 1
  {
    hide Wired;
    ReachableSound(c, env, states, |states| - 1);
    hide IsRun, Books, Ladder, DraftSound, ContextSound, ObservationSound, Open;
  }

  /** Between any two states of a run the correction protocol holds. */
  lemma CorrectionsAlongRuns(c: Setup, env: nat -> Turn, states: seq<State>, k: nat)
    requires Wired(c) && IsRun(c, env, states) && k + 1 < |states|
    ensures env(k).response.Some? && Protocol(c, states[k], env(k).response.value, states[k + 1])
  {
    hide Next, Sound, Wired, Protocol;
    ReachableSound(c, env, states, k);
    assert Stepped(c, env, states, k);
    CorrectionProtocol(c, states[k], env(k));
  }

  /** The pass after the last state ended the run. */
  ghost predicate ClosedBy(c: Setup, env: nat -> Turn, states: seq<State>, i: nat, ending: Ending)
    requires i < |states|
  {
    Next(c, states[i], env(i)) == Ended(ending)
  }

  ghost predicate IsCompleteRun(c: Setup, env: nat -> Turn, states: seq<State>, ending: Ending) {
    && IsRun(c, env, states)
    && forall i: nat | |states| - 1 <= i < |states| :: ClosedBy(c, env, states, i, ending)
  }

  /** The run function follows a complete run, so what holds of every complete run holds of it. */
  lemma {:induction false} RunIsComplete(c: Setup, env: nat -> Turn, states: seq<State>) returns (all: seq<State>)
    requires Wired(c) && IsRun(c, env, states)
    ensures IsCompleteRun(c, env, all, RunFrom(c, states[|states| - 1], env))
    decreases c.budget.maxSteps + 1 - |states|
  {
    hide Next, Sound, Open, Wired;
    var last := states[|states| - 1];
    ReachableSound(c, env, states, |states| - 1);
    RecordedEachStep(c, last, env(last.steps));
    match Next(c, last, env(last.steps)) {
      case Ended(_) => all := states;
      case Continue(next) =>
        var longer := states + [next];
        forall i: nat | i + 1 < |longer| ensures Stepped(c, env, longer, i) {
          if i + 1 < |states| { assert Stepped(c, env, states, i); }
        }
        RunsAreShort(c, env, longer);
        all := RunIsComplete(c, env, longer);
    }
  }

  // ------------------------------------------------- the correction protocol

  /** A correction is owed: the response was no authorised action, or a context request without a key. */
  predicate Owed(c: Setup, s: State, response: Response) {
    match c.judge(response)
    case Err(_) => true
    case Ok(authorised) =>
      && authorised.0.RequestContext? && s.contextRequests < c.budget.maxContextRequests
      && (authorised.1.contextKey.None? || authorised.1.contextKey.value == "")
  }

  /** The only thing a corrected response changes. */
  ghost predicate CostsOneTurn(s: State, response: Response, t: State) {
    && t.turns == s.turns + 1
    && t == s.(steps := s.steps + 1, responses := s.responses + [Logged(s.steps + 1, response)],
               turns := s.turns + 1, correction := t.correction, phase := CorrectingActionContract,
               events := s.events + [Event(s.steps + 1, Corrected)])
  }

  lemma NoRepairAfterSideEffect(c: Setup, rejection: Rejection, response: Response)
    requires Wired(c)
    ensures c.repair(rejection, response, true).None?
  {
    assert RepairWired(c, rejection, response, true);
  }

  lemma CorrectShape(c: Setup, s: State, rejection: Rejection, response: Response)
    requires Wired(c)
    ensures var outcome := Correct(c, s, rejection, response);
            outcome.Continue? ==>
              && outcome.state.correction.Some? && !s.sideEffect && s.turns < c.budget.maxTurns
              && outcome.state == s.(turns := s.turns + 1, correction := outcome.state.correction,
                                     phase := CorrectingActionContract,
                                     events := s.events + [Event(s.steps, Corrected)])
  {
    hide Wired;
    NoRepairAfterSideEffect(c, rejection, response);
  }

  lemma ActShape(c: Setup, s: State, kind: Kind, a: Action, response: Response, turn: Turn)
    requires s.correction.None? && !s.exhausted
    ensures var outcome := Act(c, s, kind, a, response, turn);
            outcome.Continue? && !(kind.RequestContext? && (a.contextKey.None? || a.contextKey.value == "")) ==>
              && outcome.state.correction.None? && !outcome.state.exhausted
              && outcome.state.phase != CorrectingActionContract && outcome.state.turns == s.turns
  {
    hide ActionName, Broker.FeedbackOk, Candidate, Correct, Evidence, Finish;
    hide Lineage, ObservationName, ProgramOf, Reject, Resolve, Succeeded;
    match kind
    case RequestContext =>
    case CreateContract | PatchContract | SubmitContract | RepairContract =>
    case CreateModelProgram | PatchModelProgram =>
    case RequestExecution =>
    case InspectObservation =>
    case RequestValidation =>
    case _ =>
  }

  /** Shape of a continued answer: corrected exactly when owed. */
  ghost predicate Protocol(c: Setup, s: State, response: Response, t: State) {
    && (t.correction.Some? <==> Owed(c, s, response))
    && (t.correction.Some? ==> CostsOneTurn(s, response, t) && !s.sideEffect && s.turns < c.budget.maxTurns)
    && (t.correction.None? ==> t.turns == s.turns && t.phase != CorrectingActionContract)
    && !t.exhausted
  }

  lemma RejectedProtocol(c: Setup, s: State, response: Response, cleared: Option<Feedback>, rejection: Rejection)
    requires Wired(c) && !s.exhausted && Owed(c, s, response)
    requires Correct(c, Recorded(s, response).(correction := cleared), rejection, response).Continue?
    ensures Protocol(c, s, response,
                     Correct(c, Recorded(s, response).(correction := cleared), rejection, response).state)
  {
    hide Wired, Correct, Owed;
    CorrectShape(c, Recorded(s, response).(correction := cleared), rejection, response);
  }

  lemma ActedProtocol(c: Setup, s: State, response: Response, turn: Turn)
    requires Wired(c) && !s.exhausted && c.judge(response).Ok?
    requires Answer(c, Recorded(s, response), response, turn).Continue?
    ensures Protocol(c, s, response, Answer(c, Recorded(s, response), response, turn).state)
  {
    hide Wired, Correct, CostsOneTurn, Finish, OnContract, OnExecution, OnInspection, OnProgram, OnStop;
    hide OnValidation, Resolve, WithItem;
    var authorised := c.judge(response).value;
    var kind, a := authorised.0, authorised.1;
    var cleared := Recorded(s, response).(correction := None);
    assert cleared.turns == s.turns && !cleared.exhausted && cleared.contextRequests == s.contextRequests;
    if kind.RequestContext? && (a.contextKey.None? || a.contextKey.value == "") {
      RejectedProtocol(c, s, response, None, Reject(MissingContextKey, a.action));
    } else {
      ActShape(c, cleared, kind, a, response, turn);
    }
  }

  /** The correction protocol in full: who is corrected, what it costs, and that nothing else changes. */
  lemma CorrectionProtocol(c: Setup, s: State, turn: Turn)
    requires Wired(c) && !s.exhausted && Next(c, s, turn).Continue?
    ensures turn.response.Some? && Protocol(c, s, turn.response.value, Next(c, s, turn).state)
  {
    hide Wired;
    RecordedEachStep(c, s, turn);
    var response := turn.response.value;
    var judged := c.judge(response);
    if judged.Err? {
      assert Recorded(s, response).(correction := Recorded(s, response).correction) == Recorded(s, response);
      RejectedProtocol(c, s, response, Recorded(s, response).correction, judged.error);
    } else {
      ActedProtocol(c, s, response, turn);
    }
  }

  lemma NextOpen(c: Setup, s: State, turn: Turn)
    requires Wired(c) && Open(s) && Next(c, s, turn).Continue?
    ensures Open(Next(c, s, turn).state)
  {
    hide Wired, Next, Owed;
    CorrectionProtocol(c, s, turn);
    assert CostsOneTurn(s, turn.response.value, Next(c, s, turn).state) ==>
             Next(c, s, turn).state.phase == CorrectingActionContract
             && Next(c, s, turn).state.sideEffect == s.sideEffect;
  }

  /** Raised, or ended as policy blocked with every turn spent; always raised after a side effect. */
  ghost predicate OutOfTurns(c: Setup, turns: nat, sideEffect: bool, ending: Ending) {
    && !ending.Crashed?
    && (ending.Finished? ==> ending.result.final.exhausted && ending.result.reason == PolicyBlocked
                             && turns >= c.budget.maxTurns && ending.result.final.turns == turns)
    && (sideEffect ==> ending.Raised?)
  }

  lemma CorrectEnds(c: Setup, s: State, rejection: Rejection, response: Response)
    requires Wired(c) && Correct(c, s, rejection, response).Ended?
    ensures OutOfTurns(c, s.turns, s.sideEffect, Correct(c, s, rejection, response).ending)
  {
    hide Wired;
    NoRepairAfterSideEffect(c, rejection, response);
  }

  lemma OwedEnds(c: Setup, s: State, response: Response, turn: Turn)
    requires Wired(c) && Owed(c, s, response) && Answer(c, Recorded(s, response), response, turn).Ended?
    ensures OutOfTurns(c, s.turns, s.sideEffect, Answer(c, Recorded(s, response), response, turn).ending)
  {
    hide Wired;
    var t := Recorded(s, response);
    hide Correct, OutOfTurns, Reject, Resolve, WithItem;
    forall rejection | Correct(c, t, rejection, response).Ended?
      ensures OutOfTurns(c, s.turns, s.sideEffect, Correct(c, t, rejection, response).ending)
    {
      CorrectEnds(c, t, rejection, response);
    }
    forall rejection | Correct(c, t.(correction := None), rejection, response).Ended?
      ensures OutOfTurns(c, s.turns, s.sideEffect, Correct(c, t.(correction := None), rejection, response).ending)
    {
      CorrectEnds(c, t.(correction := None), rejection, response);
    }
    hide OnContract, OnExecution, OnInspection, OnProgram, OnStop, OnValidation, OutOf, End, Raise;
  }

  /** An owed correction that does not continue was either not repairable, or met a spent turn budget. */
  lemma UncorrectedEnds(c: Setup, s: State, turn: Turn)
    requires Wired(c) && Open(s) && Sound(c, s)
    requires turn.elapsed < c.budget.timeout && s.steps < c.budget.maxSteps && turn.response.Some?
    requires Owed(c, s, turn.response.value) && Next(c, s, turn).Ended?
    ensures s.turns <= c.budget.maxTurns
    ensures OutOfTurns(c, s.turns, s.sideEffect, Next(c, s, turn).ending)
  {
    hide Wired;
    assert s.turns <= c.budget.maxTurns;
    OwedEnds(c, s, turn.response.value, turn);
  }

  // ------------------------------------------------------------------ results

  ghost predicate Validated(c: Setup, s: State) {
    && s.draft.Some?
    && s.feedback == Some(Broker.FeedbackOf(c.platform, s.draft.value))
    && Broker.FeedbackOk(s.feedback.value) && s.feedback.value.fields["valid"].b
  }

  ghost predicate LastEvent(s: State, kind: EventKind) {
    s.events != [] && s.events[|s.events| - 1].kind == kind
  }

  /** What a typed result may claim. */
  ghost predicate ResultSound(c: Setup, r: EpisodeResult) {
    && Sound(c, r.final)
    && (r.completed <==> r.reason == Completed)
    && (r.completed ==> r.validated || (Evidence(r.final) && r.final.inspected))
    && (r.validated ==> r.completed && Validated(c, r.final))
    && (r.outputValidated <==> Evidence(r.final))
    && (r.executionSucceeded <==> Evidence(r.final))
    && (r.kind == ModelProgram <==> r.final.program.Some? || LastEvent(r.final, Exhausted(Sources)))
    && (LastEvent(r.final, Exhausted(Sources)) ==> r.final.sources == c.budget.maxSources)
    && (r.final.exhausted ==> r.reason == PolicyBlocked && r.final.turns == c.budget.maxTurns && !r.final.sideEffect)
  }

  lemma FinishSound(c: Setup, s: State, kind: EventKind, reason: StopReason, claim: Claim)
    requires Sound(c, s) && Uncounted(kind)
    requires claim.validated ==> reason == Completed && Validated(c, s)
    requires claim.outputValidated ==> reason == Completed && Evidence(s) && s.inspected
    requires reason == Completed ==> claim.validated || claim.outputValidated
    requires claim.kind != Some(StructuredContract)
    requires claim.kind == Some(ModelProgram) ==> s.program.Some? || kind == Exhausted(Sources)
    requires kind == Exhausted(Sources) ==> claim.kind == Some(ModelProgram) && s.sources == c.budget.maxSources
    requires s.exhausted ==> reason == PolicyBlocked && s.turns == c.budget.maxTurns && !s.sideEffect
    ensures ResultSound(c, Finish(Note(s, kind), reason, claim))
  {
    hide Finish, LastEvent, Sound, Validated;
    NoteSound(c, s, kind);
    NoteKeeps(c, s, kind);
    var t := Note(s, kind);
    FinishFields(t, reason, claim);
  }

  lemma FinishFields(t: State, reason: StopReason, claim: Claim)
    ensures var r := Finish(t, reason, claim);
            && r.final == t && r.reason == reason && r.validated == claim.validated
            && (r.completed <==> reason == Completed && (claim.validated || claim.outputValidated))
            && (r.outputValidated <==> claim.outputValidated || Evidence(t))
            && (r.executionSucceeded <==> Succeeded(t))
            && r.kind == (if claim.kind.Some? then claim.kind.value
                          else if t.program.Some? then ModelProgram else StructuredContract)
  {
    hide Evidence, Succeeded;
  }

  lemma NoteKeeps(c: Setup, s: State, kind: EventKind)
    requires Sound(c, s)
    ensures var t := Note(s, kind);
            && (Evidence(t) <==> Evidence(s)) && (Succeeded(t) <==> Evidence(s))
            && (Validated(c, t) <==> Validated(c, s)) && (forall k :: LastEvent(t, k) <==> k == kind)
            && t.program == s.program && t.inspected == s.inspected && t.sources == s.sources
            && t.exhausted == s.exhausted && t.turns == s.turns && t.sideEffect == s.sideEffect
  {
    assert ObservationSound(s);
  }

  lemma OutOfSound(c: Setup, s: State, limit: Limit, kind: Option<ResultKind>)
    requires Sound(c, s) && !s.exhausted
    requires kind.Some? ==> kind.value == ModelProgram && (s.program.Some? || limit == Sources)
    requires limit == Sources ==> kind.Some? && s.sources >= c.budget.maxSources
    ensures ResultSound(c, OutOf(s, limit, kind).ending.result)
  {
    assert Uncounted(Exhausted(limit)) && s.sources <= c.budget.maxSources;
    FinishSound(c, s, Exhausted(limit), BudgetExhausted, NO_CLAIM.(kind := kind));
  }

  lemma ExhaustedSound(c: Setup, s: State)
    requires Sound(c, s)
    ensures Sound(c, s.(exhausted := true)) && s.turns <= c.budget.maxTurns
  {
    hide Broker.ValidReimport, Tally, TotalBytes, Forbidden.Clear, Passed;
  }

  lemma CorrectResult(c: Setup, s: State, rejection: Rejection, response: Response)
    requires Wired(c) && Sound(c, s) && !s.exhausted
    ensures var outcome := Correct(c, s, rejection, response);
            outcome.Ended? && outcome.ending.Finished? ==> ResultSound(c, outcome.ending.result)
  {
    hide Wired, Sound, ResultSound;
    if c.repair(rejection, response, s.sideEffect).Some? && s.turns >= c.budget.maxTurns {
      NoRepairAfterSideEffect(c, rejection, response);
      ExhaustedSound(c, s);
      assert !s.sideEffect && Uncounted(CorrectionRefused);
      FinishSound(c, s.(exhausted := true), CorrectionRefused, PolicyBlocked,
                  NO_CLAIM.(failure := Some(CorrectionExhausted(rejection.reason, s.turns))));
    }
  }

  ghost predicate FinishesSound(c: Setup, outcome: Outcome) {
    outcome.Ended? && outcome.ending.Finished? ==> ResultSound(c, outcome.ending.result)
  }

  lemma ContextResult(c: Setup, s: State, a: Action, response: Response)
    requires Wired(c) && Sound(c, s) && !s.exhausted
    ensures FinishesSound(c, OnContext(c, s, a, response))
  {
    hide Wired, Correct, OutOf, Resolve, ResultSound, Sound, WithItem;
    OutOfSound(c, s, ContextRequests, None);
    OutOfSound(c, s, ContextBytes, None);
    CorrectResult(c, s, Reject(MissingContextKey, a.action), response);
  }

  lemma ContractResult(c: Setup, s: State, kind: Kind, a: Action)
    requires Wired(c) && Sound(c, s) && !s.exhausted
    ensures FinishesSound(c, OnContract(c, s, kind, a))
  {
    hide Wired, OutOf, ResultSound, Sound, WithDraft;
    OutOfSound(c, s, Submissions, None);
    OutOfSound(c, s, Repairs, None);
  }

  lemma ProgramResult(c: Setup, s: State, kind: Kind, a: Action)
    requires Sound(c, s) && !s.exhausted
    ensures FinishesSound(c, OnProgram(c, s, kind, a))
  {
    hide OutOf, ProgramOf, ResultSound, Sound, WithProgram;
    if s.sources >= c.budget.maxSources { OutOfSound(c, s, Sources, Some(ModelProgram)); }
    if s.program.Some? { OutOfSound(c, s, Repairs, Some(ModelProgram)); }
  }

  lemma TrialResult(c: Setup, s: State, turn: Turn)
    requires Wired(c) && Sound(c, s) && !s.exhausted
    ensures FinishesSound(c, OnExecution(c, s, turn)) && FinishesSound(c, OnInspection(c, s))
  {
    hide Wired, Books, ContextSound, DraftSound, Lineage, ObservationSound, OutOf, ResultSound;
    hide WithInspection, WithObservation, WithinBudget;
    assert s.observation.Some? ==> s.program.Some?;
    if s.program.Some? {
      OutOfSound(c, s, Executions, Some(ModelProgram));
      OutOfSound(c, s, Inspections, Some(ModelProgram));
    }
  }

  lemma ValidationResult(c: Setup, s: State, turn: Turn)
    requires Wired(c) && Sound(c, s) && !s.exhausted
    ensures FinishesSound(c, OnValidation(c, s, turn))
  {
    hide Wired, Books, Broker.AllowedSkills, Broker.FeedbackOf, ContextSound, Finish, Ladder;
    hide Noting, ObservationSound, ResultSound, WithinBudget;
    assert DraftSound(s);
    if s.draft.Some? {
      DraftAnswer(c, s.draft.value, turn);
      var o := c.validate(s.draft.value, turn).reply.observation;
      if Broker.FeedbackOk(o.output) && o.output.fields["valid"].b {
        FeedbackSound(c, s, o);
        assert Uncounted(ContractValidated);
        assert Validated(c, WithFeedback(s, o));
        FinishSound(c, WithFeedback(s, o), ContractValidated, Completed, NO_CLAIM.(validated := true));
      }
    }
  }

  lemma StopResult(c: Setup, s: State, a: Action)
    requires Sound(c, s) && !s.exhausted
    ensures FinishesSound(c, OnStop(c, s, a)) && FinishesSound(c, End(s, UserAsked, UserInputRequired, NO_CLAIM))
    ensures FinishesSound(c, End(s, SupplierFailed, ProviderFailure, NO_CLAIM))
  {
    hide Finish, ResultSound, Sound, Validated;
    assert Uncounted(Stopped) && Uncounted(UserAsked) && Uncounted(SupplierFailed);
    FinishSound(c, s, UserAsked, UserInputRequired, NO_CLAIM);
    FinishSound(c, s, SupplierFailed, ProviderFailure, NO_CLAIM);
    var reason := if a.stopReason.Some? then a.stopReason.value else InsufficientContext;
    if reason == Completed {
      if s.program.Some? && Succeeded(s) && s.inspected && Evidence(s) {
        FinishSound(c, s, Stopped, Completed, Claim(false, Some(ModelProgram), true, None));
      }
    } else {
      FinishSound(c, s, Stopped, reason,
        NO_CLAIM.(failure := if reason == PolicyBlocked && s.failure.None? then Some(ReportedPolicyBlock) else None));
    }
  }

  lemma ActResult(c: Setup, s: State, kind: Kind, a: Action, response: Response, turn: Turn)
    requires Wired(c) && Sound(c, s) && !s.exhausted
    ensures FinishesSound(c, Act(c, s, kind, a, response, turn))
  {
    hide Wired, End, OnContext, OnContract, OnExecution, OnInspection, OnProgram, OnStop, OnValidation, ResultSound;
    hide Sound;
    match kind
    case RequestContext => ContextResult(c, s, a, response);
    case CreateContract | PatchContract | SubmitContract | RepairContract => ContractResult(c, s, kind, a);
    case CreateModelProgram | PatchModelProgram => ProgramResult(c, s, kind, a);
    case RequestExecution => TrialResult(c, s, turn);
    case InspectObservation => TrialResult(c, s, turn);
    case RequestValidation => ValidationResult(c, s, turn);
    case AskUser | Stop => StopResult(c, s, a);
    case _ =>
  }

  lemma NextResult(c: Setup, s: State, turn: Turn)
    requires Wired(c) && Sound(c, s) && !s.exhausted
    ensures FinishesSound(c, Next(c, s, turn))
  {
    hide Wired, Act, Correct, End, OnStop, OutOf, ResultSound, Sound;
    if turn.elapsed >= c.budget.timeout {
      OutOfSound(c, s, Timeout, None);
    } else if s.steps >= c.budget.maxSteps {
      OutOfSound(c, s, Steps, None);
    } else if turn.response.None? {
      StopResult(c, s, Action("stop", None, None, None, None, None, [], None));
    } else {
      var response := turn.response.value;
      RecordedSound(c, s, response, None);
      var judged := c.judge(response);
      if judged.Err? {
        CorrectResult(c, Recorded(s, response), judged.error, response);
      } else {
        ActResult(c, Recorded(s, response).(correction := None), judged.value.0, judged.value.1, response, turn);
      }
    }
  }

  /** Over every complete run, for every supplier, clock and toolbox: a typed result claims only what happened. */
  lemma EveryResultSound(c: Setup, env: nat -> Turn, states: seq<State>, ending: Ending)
    requires Wired(c) && IsCompleteRun(c, env, states, ending)
    ensures ending.Finished? ==> ResultSound(c, ending.result)
  {
    hide Next, Sound, Wired, ResultSound;
    var last := |states| - 1;
    ReachableSound(c, env, states, last);
    assert ClosedBy(c, env, states, last, ending);
    NextResult(c, states[last], env(last));
  }

  /** In particular for the result of the loop itself. */
  lemma RunResultSound(c: Setup, env: nat -> Turn)
    requires Wired(c)
    ensures RunFrom(c, START, env).Finished? ==> ResultSound(c, RunFrom(c, START, env).result)
  {
    hide Next, Wired, ResultSound, RunFrom;
    var all := RunIsComplete(c, env, [START]);
    EveryResultSound(c, env, all, RunFrom(c, START, env));
  }

  // --------------------------------------------------------- completion, exactly

  /** Completion is granted exactly after a successful, inspected execution: the re-import check never refuses it. */
  lemma CompletionExactly(c: Setup, s: State, a: Action)
    requires Sound(c, s) && a.stopReason == Some(Completed)
    ensures OnStop(c, s, a).Ended?
    ensures OnStop(c, s, a).ending.Finished? <==> Succeeded(s) && s.inspected
    ensures OnStop(c, s, a).ending.Finished? ==>
              && OnStop(c, s, a).ending.result.completed && OnStop(c, s, a).ending.result.outputValidated
              && OnStop(c, s, a).ending.result.kind == ModelProgram
              && s.candidate == Some(Candidate(s.sources)) && s.executions == s.sources
              && Get(s.observation.value.output.fields, "candidate_id") == Some(Str(Candidate(s.sources)))
  {
    assert Ladder(s) && ObservationSound(s);
  }

  /** Asking for validation of a draft raises exactly when the Skill may not use the validator tool. */
  lemma ValidationExactly(c: Setup, s: State, turn: Turn)
    requires Wired(c) && Sound(c, s)
    ensures var outcome := OnValidation(c, s, turn);
            && (outcome.Ended? && !outcome.ending.Finished?
                <==> s.draft.None? || c.capabilities.skill !in Broker.AllowedSkills(Broker.STRUCTURED_CONTRACT_TOOL))
            && (outcome.Ended? ==> !outcome.ending.Crashed?)
            && (outcome.Ended? && outcome.ending.Finished? ==>
                  && outcome.ending.result.completed && outcome.ending.result.validated
                  && (outcome.ending.result.kind == ModelProgram <==> s.sources > 0))
  {
    hide Wired;
    assert Ladder(s) && DraftSound(s);
    if s.draft.Some? { DraftAnswer(c, s.draft.value, turn); }
  }

  // ---------------------------------------- parsed programs and the executor's request

  lemma {:induction false} DecimalIsAlphanumeric(n: nat)
    ensures forall i | 0 <= i < |Decimal(n)| :: Broker.Alphanumeric(Decimal(n)[i])
  {
    forall i | 0 <= i < |Decimal(n)| ensures Broker.Alphanumeric(Decimal(n)[i]) {
      assert Decimal(n)[i] in Decimal(n);
    }
  }

  /** Candidate names are path-safe as long as they fit, and never repeat. */
  lemma CandidateNames(m: nat, n: nat)
    ensures Broker.SafeId(Candidate(n)) <==> |Candidate(n)| <= 96
    ensures Candidate(m) == Candidate(n) ==> m == n
  {
    CandidateIsSafe(n);
    if Candidate(m) == Candidate(n) {
      NumberedValue("candidate_", m);
      NumberedValue("candidate_", n);
    }
  }

  lemma CandidateIsSafe(n: nat)
    ensures Broker.SafeId(Candidate(n)) <==> |Candidate(n)| <= 96
  {
    DecimalIsAlphanumeric(n);
    hide Decimal;
    var zeros := if n < 10 then "00" else if n < 100 then "0" else "";
    assert Candidate(n) == "candidate_" + zeros + Decimal(n);
    assert Candidate(n)[0] == 'c';
    forall i | 1 <= i < |Candidate(n)|
      ensures Broker.Alphanumeric(Candidate(n)[i]) || Candidate(n)[i] == '_'
    {
      if i >= |"candidate_" + zeros| {
        assert Candidate(n)[i] == Decimal(n)[i - |"candidate_" + zeros|];
      }
    }
  }

  lemma {:induction false} LeadingZeros(zeros: string, s: string)
    requires forall c | c in zeros :: c == '0'
    ensures DecimalValue(zeros + s) == DecimalValue(s)
    decreases |s|, |zeros|
  {
    if s == [] {
      if zeros != [] {
        assert zeros + s == zeros && zeros[..|zeros| - 1] + [] == zeros[..|zeros| - 1];
        var shorter := zeros[..|zeros| - 1];
        assert forall c | c in shorter :: c in zeros;
        LeadingZeros(shorter, []);
        assert zeros[|zeros| - 1] in zeros;
      }
    } else {
      LeadingZeros(zeros, s[..|s| - 1]);
      assert (zeros + s)[..|zeros + s| - 1] == zeros + s[..|s| - 1];
    }
  }

  lemma NumberedValue(prefix: string, n: nat)
    ensures |prefix| <= |Numbered(prefix, n)| && DecimalValue(Numbered(prefix, n)[|prefix|..]) == n
  {
    var zeros := if n < 10 then "00" else if n < 100 then "0" else "";
    hide Decimal, DecimalValue;
    assert Numbered(prefix, n) == prefix + (zeros + Decimal(n));
    assert Numbered(prefix, n)[|prefix|..] == zeros + Decimal(n);
    LeadingZeros(zeros, Decimal(n));
    DecimalRoundTrip(n);
  }

  /** A program submission that parsed is never refused as a malformed execution request. */
  lemma ParsedProgramIsExecutable(c: Setup, v: Value, n: nat)
    requires Wired(c) && c.judge(Raw(v)).Ok? && |Candidate(n)| <= 96
    requires var kind := c.judge(Raw(v)).value.0; kind.CreateModelProgram? || kind.PatchModelProgram?
    ensures var program := ProgramOf(c.judge(Raw(v)).value.1.modelProgram, c.order);
            && program.Some? && program.value.api == Str(Broker.API_ID) && program.value.source.Str?
            && Broker.RequestOf(c.platform, ExecutionPayload(program.value, Candidate(n)).fields)
               == Some(Broker.Request(program.value.api, Candidate(n), program.value.source, program.value.parameters))
  {
    assert JudgeWired(c, Raw(v));
    var size := EncodedSize(c);
    ParsedPayloadComplete(v, size);
    var a := c.judge(Raw(v)).value.1;
    var payload := a.modelProgram.value.fields;
    assert ModelProgramProblem(payload, size).None?;
    CandidateIsSafe(n);
    WellFormedPayload(c, payload, n);
  }

  lemma WellFormedPayload(c: Setup, payload: map<string, Value>, n: nat)
    requires ModelProgramProblem(payload, EncodedSize(c)).None? && Broker.SafeId(Candidate(n))
    ensures var program := ProgramOf(Some(Obj(payload)), c.order);
            && program.Some? && program.value.api == Str(Broker.API_ID) && program.value.source.Str?
            && Broker.RequestOf(c.platform, ExecutionPayload(program.value, Candidate(n)).fields)
               == Some(Broker.Request(program.value.api, Candidate(n), program.value.source, program.value.parameters))
  {
    hide Broker.SafeId, Candidate, ParametersOk;
    assert payload.Keys == {"api_id", "source", "parameters", "requested_outputs"};
    var program := ProgramOf(Some(Obj(payload)), c.order).value;
    var sent := ExecutionPayload(program, Candidate(n)).fields;
    assert sent.Keys == {"api_id", "candidate_id", "source", "parameters", "requested_outputs"};
    assert Broker.OnlyStep(sent["requested_outputs"]);
  }
}
