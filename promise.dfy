/** The promise demo: `pending` settles once, into one of two final states. */
module Promise {
  import opened Shared

  datatype State = Pending | Resolved | Rejected

  /** `Other` stands only for event names that no state of this machine declares. */
  datatype Event = Resolve | Reject | Other(eventType: string)

  const Initial: State := Pending

  /** `resolved` and `rejected` are declared `final`. */
  predicate IsFinal(s: State) {
    s == Resolved || s == Rejected
  }

  /** Only `pending` has an `on` table: RESOLVE and REJECT. */
  function StateOn(s: State, e: Event): Option<State> {
    match (s, e)
    case (Pending, Resolve) => Some(Resolved)
    case (Pending, Reject) => Some(Rejected)
    case _ => None
  }

  /** A machine in a final state is done and accepts no further events. */
  function Step(s: State, e: Event): State {
    if IsFinal(s) then s else Handle([StateOn(s, e)], s)
  }

  function Run(s: State, es: seq<Event>): State
    decreases |es|
  {
    if es == [] then s else Run(Step(s, es[0]), es[1..])
  }

  lemma InitialIsPending()
    ensures Initial == Pending && !IsFinal(Initial)
  {
  }

  lemma PendingTransitions(eventType: string)
    ensures Step(Pending, Resolve) == Resolved
    ensures Step(Pending, Reject) == Rejected
    ensures Step(Pending, Other(eventType)) == Pending
  {
  }

  /** Once settled, no sequence of events changes the outcome. */
  lemma {:induction false} FinalIsAbsorbing(s: State, es: seq<Event>)
    requires IsFinal(s)
    ensures Run(s, es) == s
    decreases |es|
  {
    if es != [] {
      FinalIsAbsorbing(Step(s, es[0]), es[1..]);
    }
  }

  /** From `pending`, the outcome is decided by the first RESOLVE or REJECT
      in the sequence; with neither the machine is still `pending`. */
  lemma {:induction false} OutcomeIsFirstSettlement(es: seq<Event>)
    ensures Run(Pending, es) == Pending <==> forall i :: 0 <= i < |es| ==> es[i].Other?
    ensures Run(Pending, es) == Resolved <==>
            exists i :: 0 <= i < |es| && es[i] == Resolve && forall j :: 0 <= j < i ==> es[j].Other?
    ensures Run(Pending, es) == Rejected <==>
            exists i :: 0 <= i < |es| && es[i] == Reject && forall j :: 0 <= j < i ==> es[j].Other?
    decreases |es|
  {
    if es != [] {
      var rest := es[1..];
      assert forall i :: 0 < i < |es| ==> es[i] == rest[i - 1];
      if es[0].Other? {
        OutcomeIsFirstSettlement(rest);
        if Run(Pending, es) == Resolved {
          var k :| 0 <= k < |rest| && rest[k] == Resolve && forall j :: 0 <= j < k ==> rest[j].Other?;
          assert es[k + 1] == Resolve && forall j :: 0 <= j < k + 1 ==> es[j].Other?;
        }
        if Run(Pending, es) == Rejected {
          var k :| 0 <= k < |rest| && rest[k] == Reject && forall j :: 0 <= j < k ==> rest[j].Other?;
          assert es[k + 1] == Reject && forall j :: 0 <= j < k + 1 ==> es[j].Other?;
        }
      } else {
        FinalIsAbsorbing(Step(Pending, es[0]), rest);
      }
    }
  }

  /** Once the machine has left `pending` it never returns there. */
  lemma NeverBackToPending(s: State, es: seq<Event>)
    requires s != Pending
    ensures Run(s, es) == s
  {
    FinalIsAbsorbing(s, es);
  }
}
