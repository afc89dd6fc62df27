/** The log of an episode: events with the step they happened in, and numbered responses. */
module Ledger {
  import opened Actions

  datatype Event<K> = Event(step: nat, kind: K)

  datatype Logged = Logged(number: nat, response: Response)

  /** How many events are of this kind. */
  ghost function Tally<K(!new)>(events: seq<Event<K>>, kind: K): nat {
    if events == [] then 0
    else Tally(events[..|events| - 1], kind) + (if events[|events| - 1].kind == kind then 1 else 0)
  }

  lemma TallyNone<K(!new)>(kind: K)
    ensures Tally([], kind) == 0
  {
  }

  lemma TallyOne<K(!new)>(events: seq<Event<K>>, e: Event<K>, kind: K)
    ensures Tally(events + [e], kind) == Tally(events, kind) + (if e.kind == kind then 1 else 0)
  {
    assert (events + [e])[..|events|] == events;
  }

  ghost predicate NumberedInOrder(responses: seq<Logged>, steps: nat) {
    |responses| == steps && forall i | 0 <= i < |responses| :: responses[i].number == i + 1
  }
}
