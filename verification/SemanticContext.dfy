/** Semantic context items and the checks on a request for one. */
module SemanticContext {
  import opened Json
  import opened Actions

  datatype ContextItem = ContextItem(key: string, active: bool, workId: Option<string>, content: Value)

  const CONTEXT_KEYS := {
    "intent_active", "part_job", "part_interfaces", "previous_candidates", "previous_validation_observations",
    "user_acceptance_or_revision", "requirement_active", "assembly_plan", "reviewed_part_handoff",
    "previous_cad_ir_attempts", "previous_validation_feedback", "user_stage_review", "work_request",
    "accepted_work_context", "previous_work_design", "work_clarification_answers"}

  /** The active items by key; a later item replaces an earlier one. */
  function Registry(items: seq<ContextItem>): map<string, ContextItem> {
    if items == [] then map[]
    else
      var last := items[|items| - 1];
      var rest := Registry(items[..|items| - 1]);
      if last.active then rest[last.key := last] else rest
  }

  function Refuse(reason: Reason): Result<ContextItem, Rejection> {
    Err(Reject(reason, "request_context"))
  }

  /** `ContextBroker.resolve` */
  function Resolve(items: map<string, ContextItem>, key: string, allowed: set<string>, work: Option<string>)
    : Result<ContextItem, Rejection>
  {
    if key !in CONTEXT_KEYS then Refuse(ContextKeyNotRegistered)
    else if key !in allowed then Refuse(ContextNotAllowedForSkill)
    else if key !in items then Refuse(ContextNotAvailable)
    else if work.Some? && items[key].workId.Some? && items[key].workId != work then Refuse(ContextBelongsToOtherWork)
    else Ok(items[key])
  }

  /** The item is one this Skill and this Work may be given. */
  predicate Granted(item: ContextItem, allowed: set<string>, work: Option<string>) {
    && item.active
    && item.key in CONTEXT_KEYS && item.key in allowed
    && (work.Some? && item.workId.Some? ==> item.workId == work)
  }

  lemma {:induction false} RegistryHoldsActive(items: seq<ContextItem>)
    ensures forall k | k in Registry(items) :: Registry(items)[k].key == k && Registry(items)[k].active
  {
    if items != [] { RegistryHoldsActive(items[..|items| - 1]); }
  }

  /** A request is granted exactly for the last active item of a granted key, within the Work. */
  lemma ResolvedExactly(
      items: seq<ContextItem>, key: string, allowed: set<string>, work: Option<string>, item: ContextItem)
    ensures Resolve(Registry(items), key, allowed, work) == Ok(item)
       <==> && item.key == key && Granted(item, allowed, work)
            && Get(Registry(items), key) == Some(item)
  {
    hide Registry, Reject;
    RegistryHoldsActive(items);
  }
}
