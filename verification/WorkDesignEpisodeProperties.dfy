/** What every reachable state and every result of the Work Design episode satisfies, for any supplier. */
module WorkDesignEpisodeProperties {
  import opened Json
  import opened Actions
  import opened Dictionaries
  import opened Ledger
  import opened SemanticContext
  import opened WorkDesignContract
  import opened WorkDesignProposal
  import opened WorkDesignEpisode
  import ProposalFacts = WorkDesignProposalProperties

  // ------------------------------------------------------------------ tallies

  ghost function TotalBytes(supplied: seq<Supplied>): nat {
    if supplied == [] then 0 else TotalBytes(supplied[..|supplied| - 1]) + supplied[|supplied| - 1].size
  }

  ghost function InitialCount(supplied: seq<Supplied>): nat {
    if supplied == [] then 0
    else InitialCount(supplied[..|supplied| - 1]) + (if supplied[|supplied| - 1].initial then 1 else 0)
  }

  lemma SuppliedOne(supplied: seq<Supplied>, more: Supplied)
    ensures TotalBytes([]) == 0 && InitialCount([]) == 0
    ensures TotalBytes(supplied + [more]) == TotalBytes(supplied) + more.size
    ensures InitialCount(supplied + [more]) == InitialCount(supplied) + (if more.initial then 1 else 0)
  {
    assert (supplied + [more])[..|supplied|] == supplied;
  }

  // --------------------------------------------------------------- invariants

  ghost predicate Books(s: State) {
    && s.contextRequests == Tally(s.events, ContextSupplied)
    && s.proposals == Tally(s.events, ProposalAccepted)
    && s.turns == Tally(s.events, Corrected)
  }

  ghost predicate WithinBudget(c: Setup, s: State) {
    && s.steps <= c.budget.maxSteps
    && s.contextRequests <= c.budget.maxContextRequests && s.contextBytes <= c.budget.maxContextBytes
    && s.proposals <= c.budget.maxProposals && s.turns <= c.budget.maxTurns
  }

  /** The item passed the key, Skill and Work checks, and is charged its own size. */
  ghost predicate Passed(c: Setup, given: Supplied) {
    && given.size == c.contentSize(given.item.content)
    && exists key :: Lookup(c, key) == Ok(given.item)
  }

  ghost predicate SupplySound(c: Setup, s: State) {
    && s.contextBytes == TotalBytes(s.supplied)
    && s.contextRequests + InitialCount(s.supplied) == |s.supplied|
    && forall i | 0 <= i < |s.supplied| :: Passed(c, s.supplied[i])
  }

  /** A draft is a normal form of the contract table. */
  ghost predicate ContractValid(draft: Value) {
    && draft.Obj?
    && Get(draft.fields, "schema_version") == Some(Int(1))
    && Fits(WORK_DESIGN, Obj(draft.fields - {"schema_version"}))
  }

  ghost predicate DraftSound(s: State) {
    (s.draft.Some? <==> s.proposals > 0) && (s.draft.Some? ==> ContractValid(s.draft.value))
  }

  ghost predicate Sound(c: Setup, s: State) {
    Books(s) && WithinBudget(c, s) && NumberedInOrder(s.responses, s.steps) && SupplySound(c, s) && DraftSound(s)
  }

  ghost predicate Open(s: State) {
    !s.exhausted && (s.correction.Some? <==> s.phase == CorrectingActionContract)
  }

  lemma StartSound(c: Setup)
    ensures Sound(c, START) && Open(START)
  {
  }

  // ----------------------------------------------------------- initial supply

  lemma SupplyingSound(c: Setup, s: State, key: string, item: ContextItem, initial: bool)
    requires Sound(c, s) && Lookup(c, key) == Ok(item)
    requires s.contextBytes + c.contentSize(item.content) <= c.budget.maxContextBytes
    requires !initial ==> s.contextRequests < c.budget.maxContextRequests
    ensures var t := Supplying(s, item, c.contentSize(item.content), initial);
            && SupplySound(c, t.(contextRequests := s.contextRequests + (if initial then 0 else 1)))
            && (initial ==> Sound(c, t))
  {
    var given := Supplied(item, c.contentSize(item.content), initial);
    SuppliedOne(s.supplied, given);
    assert Passed(c, given);
  }

  /** The initial supply keeps the books, and ends early only for want of bytes or a missing item. */
  lemma {:induction false} InitialSound(c: Setup, s: State, keys: seq<string>)
    requires Sound(c, s) && Open(s)
    ensures var outcome := Initial(c, s, keys);
            match outcome
            case Continue(t) =>
              && Sound(c, t) && Open(t) && t.steps == s.steps && t.contextRequests == s.contextRequests
              && |t.supplied| == |s.supplied| + |keys|
            case Ended(Finished(r)) => ResultSound(c, r) && r.reason == BudgetExhausted
            case Ended(Raised(_)) => true
            case Ended(Crashed) => false
    decreases |keys|
  {
    hide SupplySound;
    if keys != [] {
      var found := Lookup(c, keys[0]);
      if found.Ok? {
        var size := c.contentSize(found.value.content);
        if s.contextBytes + size <= c.budget.maxContextBytes {
          SupplyingSound(c, s, keys[0], found.value, true);
          var t := Supplying(s, found.value, size, true);
          assert Open(t) && t.steps == s.steps && t.contextRequests == s.contextRequests
              && |t.supplied| == |s.supplied| + 1;
          InitialSound(c, t, keys[1..]);
        } else {
          SpentSound(c, s);
        }
      }
    }
  }

  // ------------------------------------------------ every transition keeps them

  lemma TalliesAfter(s: State, kind: EventKind, phase: Phase)
    ensures forall k :: Tally(Noting(s, kind, phase).events, k) == Tally(s.events, k) + (if kind == k then 1 else 0)
  {
    hide Tally;
    forall k ensures Tally(Noting(s, kind, phase).events, k) == Tally(s.events, k) + (if kind == k then 1 else 0) {
      TallyOne(s.events, Event(s.steps, kind), k);
    }
  }

  lemma CorrectionSound(c: Setup, s: State, rejection: Rejection, response: Response)
    requires Sound(c, s)
    ensures Correct(c, s, rejection, response).Continue? ==> Sound(c, Correct(c, s, rejection, response).state)
  {
    var feedback := c.repair(rejection, response);
    hide ContractValid, Finish, InitialCount, Tally, TotalBytes;
    TalliesAfter(Granting(s, feedback), Corrected, CorrectingActionContract);
  }

  lemma ContextStepSound(c: Setup, s: State, a: Action, response: Response)
    requires Sound(c, s)
    ensures OnContext(c, s, a, response).Continue? ==> Sound(c, OnContext(c, s, a, response).state)
  {
    hide ContractValid, Correct, Finish, InitialCount, Lookup, Tally, TotalBytes;
    CorrectionSound(c, s, Reject(MissingContextKey, a.action), response);
    if s.contextRequests < c.budget.maxContextRequests && a.contextKey.Some? && a.contextKey.value != "" {
      var found := Lookup(c, a.contextKey.value);
      if found.Ok? && s.contextBytes + c.contentSize(found.value.content) <= c.budget.maxContextBytes {
        SupplyingSound(c, s, a.contextKey.value, found.value, false);
        var size := c.contentSize(found.value.content);
        var t := Supplying(s, found.value, size, false).(contextRequests := s.contextRequests + 1);
        TalliesAfter(t, ContextSupplied, GatheringContext);
      }
    }
  }

  lemma AcceptedDraftValid(v: Value)
    requires ValidateProposal(v).Ok?
    ensures ContractValid(ValidateProposal(v).value)
  {
    hide Fits, Trimmed, ValidateProposal;
    ProposalFacts.AcceptedExactly(v);
    ProposalFacts.ResultIsNormalForm(v);
    ProposalFacts.AcceptedExactly(Obj(ValidateProposal(v).value.fields - {"schema_version"}));
  }

  lemma ProposalStepSound(c: Setup, s: State, a: Action, response: Response)
    requires Wired(c) && Sound(c, s)
    ensures OnProposal(c, s, a, response).Continue? ==> Sound(c, OnProposal(c, s, a, response).state)
  {
    hide ContractValid, Correct, Finish, InitialCount, Tally, TotalBytes, ValidateProposal;
    if s.proposals < c.budget.maxProposals && a.workDesign.Some? {
      var checked := c.check(a.workDesign.value);
      if checked.Err? {
        CorrectionSound(c, s, checked.error, response);
      } else {
        assert CheckWired(c, a.workDesign.value);
        AcceptedDraftValid(a.workDesign.value);
        TalliesAfter(Drafting(s, checked.value), ProposalAccepted, Proposed);
      }
    }
  }

  lemma ActSound(c: Setup, s: State, kind: Kind, a: Action, response: Response)
    requires Wired(c) && Sound(c, s)
    ensures Act(c, s, kind, a, response).Continue? ==> Sound(c, Act(c, s, kind, a, response).state)
  {
    hide Correct, Finish, HasQuestions, OnContext, OnProposal, Sound;
    forall rejection
      ensures Correct(c, s, rejection, response).Continue? ==> Sound(c, Correct(c, s, rejection, response).state)
    {
      CorrectionSound(c, s, rejection, response);
    }
    ContextStepSound(c, s, a, response);
    ProposalStepSound(c, s, a, response);
  }

  lemma RecordedSound(c: Setup, s: State, response: Response, correction: Option<Feedback>)
    requires Sound(c, s) && s.steps < c.budget.maxSteps
    ensures Sound(c, Recorded(s, response).(correction := correction)) && Sound(c, Recorded(s, response))
  {
  }

  /** One pass of the loop keeps every invariant, whatever the supplier returned. */
  lemma NextSound(c: Setup, s: State, turn: Turn)
    requires Wired(c) && Sound(c, s)
    ensures Next(c, s, turn).Continue? ==> Sound(c, Next(c, s, turn).state)
  {
    hide Act, Correct, Finish, Recorded, Sound;
    if s.steps < c.budget.maxSteps && turn.response.Some? {
      var response := turn.response.value;
      RecordedSound(c, s, response, None);
      var judged := c.judge(response);
      if judged.Err? {
        CorrectionSound(c, Recorded(s, response), judged.error, response);
      } else {
        ActSound(c, Recorded(s, response).(correction := None), judged.value.0, judged.value.1, response);
      }
    }
  }

  // ------------------------------------------------- the correction protocol

  /** Ordering mistakes are owed a correction here, besides responses that are no authorised action. */
  predicate Owed(c: Setup, s: State, response: Response) {
    match c.judge(response)
    case Err(_) => true
    case Ok(authorised) =>
      var a := authorised.1;
      match authorised.0
      case RequestContext =>
        s.contextRequests < c.budget.maxContextRequests && (a.contextKey.None? || a.contextKey.value == "")
      case ProposeWorkDesign =>
        s.proposals < c.budget.maxProposals && !OrNull(a.workDesign).Null? && c.check(a.workDesign.value).Err?
      case CreatePartJobs => s.draft.None? || HasQuestions(s.draft.value)
      case Stop => a.stopReason == Some(Completed) || a.stopReason == Some(UserInputRequired)
      case _ => false
  }

  /** The only thing a corrected response changes. */
  ghost predicate CostsOneTurn(s: State, response: Response, t: State) {
    t == s.(steps := s.steps + 1, responses := s.responses + [Logged(s.steps + 1, response)],
            turns := s.turns + 1, correction := t.correction, phase := CorrectingActionContract,
            events := s.events + [Event(s.steps + 1, Corrected)])
  }

  ghost predicate Protocol(c: Setup, s: State, response: Response, t: State) {
    && (t.correction.Some? <==> Owed(c, s, response))
    && (t.correction.Some? ==> CostsOneTurn(s, response, t) && s.turns < c.budget.maxTurns)
    && (t.correction.None? ==> t.turns == s.turns && t.phase != CorrectingActionContract)
    && !t.exhausted
  }

  lemma CorrectShape(c: Setup, s: State, cleared: Option<Feedback>, rejection: Rejection, response: Response)
    requires !s.exhausted
    ensures var outcome := Correct(c, Recorded(s, response).(correction := cleared), rejection, response);
            outcome.Continue? ==>
              && outcome.state.correction.Some? && !outcome.state.exhausted
              && CostsOneTurn(s, response, outcome.state) && s.turns < c.budget.maxTurns
  {
    hide Finish;
  }

  lemma ActedProtocol(c: Setup, s: State, kind: Kind, a: Action, response: Response)
    requires !s.exhausted && c.judge(response) == Ok((kind, a))
    ensures var outcome := Act(c, Recorded(s, response).(correction := None), kind, a, response);
            outcome.Continue? ==> Protocol(c, s, response, outcome.state)
  {
    hide Correct, CostsOneTurn, Finish, HasQuestions, Lookup, ValidateProposal;
    var t := Recorded(s, response).(correction := None);
    assert t.turns == s.turns && !t.exhausted && t.contextRequests == s.contextRequests && t.proposals == s.proposals
        && t.draft == s.draft;
    forall rejection ensures var outcome := Correct(c, t, rejection, response);
                             outcome.Continue? ==>
                               && outcome.state.correction.Some? && !outcome.state.exhausted
                               && CostsOneTurn(s, response, outcome.state) && s.turns < c.budget.maxTurns
    {
      CorrectShape(c, s, None, rejection, response);
    }
    match kind
    case RequestContext =>
    case ProposeWorkDesign =>
    case CreatePartJobs =>
    case Stop =>
    case _ =>
  }

  /** The correction protocol in full: who is corrected, what it costs, and that nothing else changes. */
  lemma CorrectionProtocol(c: Setup, s: State, turn: Turn)
    requires !s.exhausted && Next(c, s, turn).Continue?
    ensures turn.response.Some? && Protocol(c, s, turn.response.value, Next(c, s, turn).state)
  {
    RecordedEachStep(c, s, turn);
    var response := turn.response.value;
    var judged := c.judge(response);
    if judged.Err? {
      assert Recorded(s, response).(correction := Recorded(s, response).correction) == Recorded(s, response);
      CorrectShape(c, s, Recorded(s, response).correction, judged.error, response);
    } else {
      ActedProtocol(c, s, judged.value.0, judged.value.1, response);
    }
  }

  lemma NextOpen(c: Setup, s: State, turn: Turn)
    requires Open(s) && Next(c, s, turn).Continue?
    ensures Open(Next(c, s, turn).state)
  {
    hide Next, Owed;
    CorrectionProtocol(c, s, turn);
    assert CostsOneTurn(s, turn.response.value, Next(c, s, turn).state) ==>
             Next(c, s, turn).state.phase == CorrectingActionContract;
  }

  /** Raised, or ended as policy blocked with every turn spent. */
  ghost predicate OutOfTurns(c: Setup, turns: nat, ending: Ending) {
    !ending.Crashed? &&
    (ending.Finished? ==>
      && ending.result.final.exhausted && ending.result.reason == PolicyBlocked
      && turns >= c.budget.maxTurns && ending.result.final.turns == turns)
  }

  lemma CorrectEnds(c: Setup, s: State, rejection: Rejection, response: Response)
    requires Correct(c, s, rejection, response).Ended?
    ensures OutOfTurns(c, s.turns, Correct(c, s, rejection, response).ending)
  {
    hide Granting, Noting;
  }

  lemma OwedEnds(c: Setup, s: State, response: Response)
    requires Owed(c, s, response) && Answer(c, Recorded(s, response), response).Ended?
    ensures OutOfTurns(c, s.turns, Answer(c, Recorded(s, response), response).ending)
  {
    var t := Recorded(s, response);
    hide Correct, OutOfTurns, Lookup, Supplying, Drafting, Noting, ValidateProposal, HasQuestions, End;
    hide SpentQuietly;
    forall rejection | Correct(c, t, rejection, response).Ended?
      ensures OutOfTurns(c, s.turns, Correct(c, t, rejection, response).ending)
    {
      CorrectEnds(c, t, rejection, response);
    }
    forall rejection | Correct(c, t.(correction := None), rejection, response).Ended?
      ensures OutOfTurns(c, s.turns, Correct(c, t.(correction := None), rejection, response).ending)
    {
      CorrectEnds(c, t.(correction := None), rejection, response);
    }
  }

  /** An owed correction that does not continue was not repairable, or met a spent turn budget. */
  lemma UncorrectedEnds(c: Setup, s: State, turn: Turn)
    requires Sound(c, s) && Open(s)
    requires turn.before < c.budget.timeout && s.steps < c.budget.maxSteps
    requires turn.response.Some? && turn.after < c.budget.timeout
    requires Owed(c, s, turn.response.value) && Next(c, s, turn).Ended?
    ensures s.turns <= c.budget.maxTurns && OutOfTurns(c, s.turns, Next(c, s, turn).ending)
  {
    assert s.turns <= c.budget.maxTurns;
    OwedEnds(c, s, turn.response.value);
  }

  // ------------------------------------------------------------------ results

  ghost predicate LastEvent(s: State, kind: EventKind) {
    s.events != [] && s.events[|s.events| - 1].kind == kind
  }

  /** What a typed result may claim. */
  ghost predicate ResultSound(c: Setup, r: EpisodeResult) {
    && Sound(c, r.final)
    && (r.completed <==> r.reason == Completed) && (r.completed <==> r.creationRequested)
    && (r.completed ==>
          && r.final.draft.Some? && ContractValid(r.final.draft.value) && !HasQuestions(r.final.draft.value)
          && LastEvent(r.final, CreationRequested))
    && (r.final.exhausted ==> r.reason == PolicyBlocked && r.final.turns == c.budget.maxTurns)
  }

  ghost predicate FinishesSound(c: Setup, outcome: Outcome) {
    outcome.Ended? && outcome.ending.Finished? ==> ResultSound(c, outcome.ending.result)
  }

  ghost predicate Uncounted(kind: EventKind) {
    kind in {CorrectionRefused, CreationRequested, OutOfBudget, SupplierFailed, UserAsked, Stopped}
  }

  lemma NoteSound(c: Setup, s: State, kind: EventKind)
    requires Sound(c, s) && Uncounted(kind)
    ensures Sound(c, Note(s, kind))
  {
    forall k ensures Tally(Note(s, kind).events, k) == Tally(s.events, k) + (if kind == k then 1 else 0) {
      TallyOne(s.events, Event(s.steps, kind), k);
    }
  }

  lemma EndSound(c: Setup, s: State, kind: EventKind, reason: StopReason, creation: bool, failure: Option<Diagnostic>)
    requires Sound(c, s) && Uncounted(kind)
    requires creation <==> reason == Completed
    requires creation ==> s.draft.Some? && !HasQuestions(s.draft.value) && kind == CreationRequested
    requires s.exhausted ==> reason == PolicyBlocked && s.turns == c.budget.maxTurns
    ensures FinishesSound(c, End(s, kind, reason, creation, failure))
  {
    NoteSound(c, s, kind);
    assert DraftSound(s);
  }

  lemma SpentSound(c: Setup, s: State)
    requires Sound(c, s) && !s.exhausted
    ensures FinishesSound(c, Spent(s)) && FinishesSound(c, SpentQuietly(s))
    ensures Spent(s).Ended? && Spent(s).ending.Finished? && Spent(s).ending.result.reason == BudgetExhausted
    ensures ResultSound(c, Spent(s).ending.result)
  {
    assert Uncounted(OutOfBudget);
    EndSound(c, s, OutOfBudget, BudgetExhausted, false, None);
  }

  lemma CorrectResult(c: Setup, s: State, rejection: Rejection, response: Response)
    requires Sound(c, s) && !s.exhausted
    ensures FinishesSound(c, Correct(c, s, rejection, response))
  {
    var spent := s.(exhausted := true);
    assert Sound(c, spent) && s.turns <= c.budget.maxTurns && Uncounted(CorrectionRefused);
    if s.turns >= c.budget.maxTurns {
      EndSound(c, spent, CorrectionRefused, PolicyBlocked, false, Some(CorrectionExhausted(rejection.reason, s.turns)));
    }
  }

  lemma ActResult(c: Setup, s: State, kind: Kind, a: Action, response: Response)
    requires Sound(c, s) && !s.exhausted
    ensures FinishesSound(c, Act(c, s, kind, a, response))
  {
    hide Correct, Drafting, End, HasQuestions, Lookup, Noting, ResultSound, Sound, Spent, SpentQuietly;
    hide Supplying, ValidateProposal;
    forall rejection ensures FinishesSound(c, Correct(c, s, rejection, response)) {
      CorrectResult(c, s, rejection, response);
    }
    SpentSound(c, s);
    assert Uncounted(UserAsked) && Uncounted(Stopped) && Uncounted(CreationRequested);
    EndSound(c, s, UserAsked, UserInputRequired, false, None);
    if s.draft.Some? && !HasQuestions(s.draft.value) { EndSound(c, s, CreationRequested, Completed, true, None); }
    forall reason, failure | reason != Completed ensures FinishesSound(c, End(s, Stopped, reason, false, failure)) {
      EndSound(c, s, Stopped, reason, false, failure);
    }
    match kind
    case RequestContext =>
    case ProposeWorkDesign =>
    case CreatePartJobs =>
    case Stop =>
    case _ =>
  }

  lemma NextResult(c: Setup, s: State, turn: Turn)
    requires Sound(c, s) && !s.exhausted
    ensures FinishesSound(c, Next(c, s, turn))
  {
    hide Act, Correct, ResultSound, Sound;
    if turn.before >= c.budget.timeout || s.steps >= c.budget.maxSteps {
      SpentSound(c, s);
    } else if turn.response.None? {
      assert Uncounted(SupplierFailed);
      EndSound(c, s, SupplierFailed, ProviderFailure, false, None);
    } else {
      var response := turn.response.value;
      RecordedSound(c, s, response, None);
      assert !Recorded(s, response).exhausted;
      SpentSound(c, Recorded(s, response));
      var judged := c.judge(response);
      if judged.Err? {
        CorrectResult(c, Recorded(s, response), judged.error, response);
      } else {
        ActResult(c, Recorded(s, response).(correction := None), judged.value.0, judged.value.1, response);
      }
    }
  }

  // -------------------------------------------------------------------- runs

  /** Pass `i` took one state of the run to the next. */
  ghost predicate Stepped(c: Setup, env: nat -> Turn, states: seq<State>, i: nat)
    requires i + 1 < |states|
  {
    Next(c, states[i], env(i)) == Continue(states[i + 1])
  }

  /** The states of a run so far, after the initial supply. */
  ghost predicate IsRun(c: Setup, env: nat -> Turn, states: seq<State>) {
    && states != [] && Initial(c, START, InitialKeys(c)) == Continue(states[0])
    && forall i: nat | i + 1 < |states| :: Stepped(c, env, states, i)
  }

  /** Every state of every run is sound and open, and state `k` has spent `k` steps. */
  lemma {:induction false} ReachableSound(c: Setup, env: nat -> Turn, states: seq<State>, k: nat)
    requires Wired(c) && IsRun(c, env, states) && k < |states|
    ensures Sound(c, states[k]) && Open(states[k]) && states[k].steps == k
  {
    hide Next, Wired;
    if k == 0 {
      StartSound(c);
      assert START.steps == 0;
      hide Sound, Open, Initial, InitialKeys;
      InitialSound(c, START, InitialKeys(c));
    } else {
      hide Sound, Open, Initial, InitialKeys;
      ReachableSound(c, env, states, k - 1);
      assert Stepped(c, env, states, k - 1);
      NextSound(c, states[k - 1], env(k - 1));
      NextOpen(c, states[k - 1], env(k - 1));
      RecordedEachStep(c, states[k - 1], env(k - 1));
    }
  }

  /** Between any two states of a run the correction protocol holds. */
  lemma CorrectionsAlongRuns(c: Setup, env: nat -> Turn, states: seq<State>, k: nat)
    requires Wired(c) && IsRun(c, env, states) && k + 1 < |states|
    ensures env(k).response.Some? && Protocol(c, states[k], env(k).response.value, states[k + 1])
  {
    hide Next, Sound, Wired, Protocol, Initial, InitialKeys;
    ReachableSound(c, env, states, k);
    assert Stepped(c, env, states, k);
    CorrectionProtocol(c, states[k], env(k));
  }

  /** The pass after the last state ended the run. */
  ghost predicate ClosedBy(c: Setup, env: nat -> Turn, states: seq<State>, i: nat, ending: Ending)
    requires i < |states|
  {
    Next(c, states[i], env(i)) == Ended(ending)
  }

  ghost predicate IsCompleteRun(c: Setup, env: nat -> Turn, states: seq<State>, ending: Ending) {
    && IsRun(c, env, states)
    && forall i: nat | |states| - 1 <= i < |states| :: ClosedBy(c, env, states, i, ending)
  }

  /** No run is longer than the step budget. */
  lemma RunsAreShort(c: Setup, env: nat -> Turn, states: seq<State>)
    requires Wired(c) && IsRun(c, env, states)
    ensures |states| <= c.budget.maxSteps + 1
  {
    ReachableSound(c, env, states, |states| - 1);
    hide Wired, IsRun, Books, DraftSound, SupplySound, NumberedInOrder, Open;
  }

  /** The run function follows a complete run, so what holds of every complete run holds of it. */
  lemma {:induction false} RunIsComplete(c: Setup, env: nat -> Turn, states: seq<State>) returns (all: seq<State>)
    requires Wired(c) && IsRun(c, env, states)
    ensures IsCompleteRun(c, env, all, RunFrom(c, states[|states| - 1], env))
    decreases c.budget.maxSteps + 1 - |states|
  {
    hide Next, Sound, Open, Wired, Initial, InitialKeys;
    var last := states[|states| - 1];
    ReachableSound(c, env, states, |states| - 1);
    RecordedEachStep(c, last, env(last.steps));
    match Next(c, last, env(last.steps)) {
      case Ended(_) => all := states;
      case Continue(next) =>
        var longer := states + [next];
        forall i: nat | i + 1 < |longer| ensures Stepped(c, env, longer, i) {
          if i + 1 < |states| { assert Stepped(c, env, states, i); }
        }
        RunsAreShort(c, env, longer);
        all := RunIsComplete(c, env, longer);
    }
  }

  /** Over every complete run, for every supplier and clock: a typed result claims only what happened. */
  lemma EveryResultSound(c: Setup, env: nat -> Turn, states: seq<State>, ending: Ending)
    requires Wired(c) && IsCompleteRun(c, env, states, ending)
    ensures ending.Finished? ==> ResultSound(c, ending.result)
  {
    hide Next, Sound, Wired, ResultSound, Initial, InitialKeys;
    var last := |states| - 1;
    ReachableSound(c, env, states, last);
    assert ClosedBy(c, env, states, last, ending);
    NextResult(c, states[last], env(last));
  }

  /** In particular for the result of the episode itself, including one that ends during the initial supply. */
  lemma RunResultSound(c: Setup, env: nat -> Turn)
    requires Wired(c)
    ensures RunEpisode(c, env).Finished? ==> ResultSound(c, RunEpisode(c, env).result)
  {
    StartSound(c);
    hide Next, Wired, ResultSound, RunFrom, Initial, InitialKeys, Sound, Open;
    InitialSound(c, START, InitialKeys(c));
    var begun := Initial(c, START, InitialKeys(c));
    if begun.Continue? {
      assert IsRun(c, env, [begun.state]);
      var all := RunIsComplete(c, env, [begun.state]);
      EveryResultSound(c, env, all, RunFrom(c, begun.state, env));
    }
  }

  // --------------------------------------------------------- completion, exactly

  ghost predicate Completes(outcome: Outcome) {
    outcome.Ended? && outcome.ending.Finished? && outcome.ending.result.completed
  }

  /** In time and within the steps, an authorised request for Part Jobs meets a draft without open questions. */
  ghost predicate Grants(c: Setup, s: State, turn: Turn) {
    && turn.before < c.budget.timeout && s.steps < c.budget.maxSteps && turn.response.Some?
    && turn.after < c.budget.timeout
    && c.judge(turn.response.value).Ok? && c.judge(turn.response.value).value.0.CreatePartJobs?
    && s.draft.Some? && !HasQuestions(s.draft.value)
  }

  lemma CorrectNeverCompletes(c: Setup, s: State, rejection: Rejection, response: Response)
    ensures !Completes(Correct(c, s, rejection, response))
  {
  }

  /** A create request is granted exactly without open questions; every other one is owed a correction. */
  lemma CreationExactly(c: Setup, s: State, a: Action, response: Response)
    requires Sound(c, s) && c.judge(response) == Ok((CreatePartJobs, a))
    ensures var granted := s.draft.Some? && !HasQuestions(s.draft.value);
            && (granted <==> !Owed(c, s, response))
            && (granted <==> Completes(OnCreation(c, s, a, response)))
            && (granted ==> ContractValid(s.draft.value))
  {
    assert DraftSound(s);
  }

  /** No other action completes the episode, a stop that claims completion included. */
  lemma OnlyCreationCompletes(c: Setup, s: State, kind: Kind, a: Action, response: Response)
    ensures Completes(Act(c, s, kind, a, response)) <==>
            kind.CreatePartJobs? && s.draft.Some? && !HasQuestions(s.draft.value)
  {
    hide Resolve, HasQuestions;
    forall rejection ensures !Completes(Correct(c, s, rejection, response)) {
      CorrectNeverCompletes(c, s, rejection, response);
    }
    hide Correct;
  }

  /** A pass completes the episode exactly when it grants such a request. */
  lemma NextCompletesExactly(c: Setup, s: State, turn: Turn)
    ensures Completes(Next(c, s, turn)) <==> Grants(c, s, turn)
  {
    hide Act, HasQuestions;
    if turn.response.Some? {
      var response := turn.response.value;
      var t := Recorded(s, response);
      var judged := c.judge(response);
      if judged.Err? {
        CorrectNeverCompletes(c, t, judged.error, response);
      } else {
        OnlyCreationCompletes(c, t.(correction := None), judged.value.0, judged.value.1, response);
      }
    }
    hide Correct;
  }

  /** A run completes exactly when its last pass grants Part Jobs, and then its draft is valid under the contract. */
  lemma RunCompletesExactly(c: Setup, env: nat -> Turn, states: seq<State>, ending: Ending)
    requires Wired(c) && IsCompleteRun(c, env, states, ending)
    ensures Completes(Ended(ending)) <==> Grants(c, states[|states| - 1], env(|states| - 1))
    ensures Completes(Ended(ending)) ==> ContractValid(states[|states| - 1].draft.value)
  {
    hide Next, Wired, Sound, HasQuestions, ContractValid;
    var last := |states| - 1;
    ReachableSound(c, env, states, last);
    assert ClosedBy(c, env, states, last, ending);
    NextCompletesExactly(c, states[last], env(last));
    if Grants(c, states[last], env(last)) {
      var response := env(last).response.value;
      CreationExactly(c, states[last], c.judge(response).value.1, response);
    }
  }

  // ------------------------------------------------------------ crashes, exactly

  /** In time and within the steps, an authorised action without a Work Design, or with a question `dict` refuses. */
  ghost predicate Crashes(c: Setup, s: State, turn: Turn) {
    && turn.before < c.budget.timeout && s.steps < c.budget.maxSteps && turn.response.Some?
    && turn.after < c.budget.timeout && c.judge(turn.response.value).Ok?
    && var kind, a := c.judge(turn.response.value).value.0, c.judge(turn.response.value).value.1;
       || (kind.ProposeWorkDesign? && s.proposals < c.budget.maxProposals && OrNull(a.workDesign).Null?)
       || (kind.AskUser? && !AllDictable(a.questions))
  }

  lemma CorrectNeverCrashes(c: Setup, s: State, rejection: Rejection, response: Response)
    ensures Correct(c, s, rejection, response) != Ended(Crashed)
  {
    hide Finish;
  }

  lemma ActCrashesExactly(c: Setup, s: State, kind: Kind, a: Action, response: Response)
    ensures Act(c, s, kind, a, response) == Ended(Crashed) <==>
            || (kind.ProposeWorkDesign? && s.proposals < c.budget.maxProposals && OrNull(a.workDesign).Null?)
            || (kind.AskUser? && !AllDictable(a.questions))
  {
    hide Lookup, HasQuestions, AllDictable, Finish;
    forall rejection ensures Correct(c, s, rejection, response) != Ended(Crashed) {
      CorrectNeverCrashes(c, s, rejection, response);
    }
    hide Correct;
  }

  /** A pass ends in an untyped failure exactly on such an action. */
  lemma NextCrashesExactly(c: Setup, s: State, turn: Turn)
    ensures Next(c, s, turn) == Ended(Crashed) <==> Crashes(c, s, turn)
  {
    hide Act, AllDictable, OrNull, Finish;
    if turn.response.Some? {
      var response := turn.response.value;
      var t := Recorded(s, response);
      var judged := c.judge(response);
      if judged.Err? {
        CorrectNeverCrashes(c, t, judged.error, response);
      } else {
        ActCrashesExactly(c, t.(correction := None), judged.value.0, judged.value.1, response);
      }
    }
    hide Correct;
  }

  /** A run ends in an untyped failure exactly when its last pass is such an action. */
  lemma RunCrashesExactly(c: Setup, env: nat -> Turn, states: seq<State>, ending: Ending)
    requires IsCompleteRun(c, env, states, ending)
    ensures ending == Crashed <==> Crashes(c, states[|states| - 1], env(|states| - 1))
  {
    hide Next, Crashes, Initial, InitialKeys, Stepped;
    var last := |states| - 1;
    assert ClosedBy(c, env, states, last, ending);
    NextCrashesExactly(c, states[last], env(last));
  }

  /** A plain response that parsed never crashes a pass, so only typed actions do. */
  lemma ParsedNeverCrashes(c: Setup, s: State, v: Value, turn: Turn)
    requires Wired(c) && turn.response == Some(Raw(v))
    ensures !Crashes(c, s, turn)
  {
    assert JudgeWired(c, Raw(v));
    hide Wired, ParseValue;
    if c.judge(Raw(v)).Ok? { ParsedPayloadComplete(v, c.encodedSize); }
  }
}
