/** The dog demo: a flat machine with three states and no context. */
module Dog {
  import opened Shared

  datatype State = Awake | Asleep | Walking

  /** `Other` stands only for event names that no state of this machine declares. */
  datatype Event = Sleep | Walk | WakeUp | Stop | Other(eventType: string)

  const Initial: State := Awake

  /** The `on` tables: `awake` declares SLEEP and WALK, `asleep` only
      WAKE_UP, `walking` only STOP. */
  function StateOn(s: State, e: Event): Option<State> {
    match (s, e)
    case (Awake, Sleep) => Some(Asleep)
    case (Awake, Walk) => Some(Walking)
    case (Asleep, WakeUp) => Some(Awake)
    case (Walking, Stop) => Some(Awake)
    case _ => None
  }

  function Step(s: State, e: Event): State {
    Handle([StateOn(s, e)], s)
  }

  function Run(s: State, es: seq<Event>): State
    decreases |es|
  {
    if es == [] then s else Run(Step(s, es[0]), es[1..])
  }

  /** The states the machine passes through, one per event. */
  function Trace(s: State, es: seq<Event>): (t: seq<State>)
    ensures |t| == |es|
    ensures forall i :: 0 <= i < |es| ==> t[i] == Run(s, es[..i + 1])
    decreases |es|
  {
    if es == [] then []
    else
      var next := Step(s, es[0]);
      assert forall i :: 0 < i < |es| ==> es[..i + 1][1..] == es[1..][..i];
      [next] + Trace(next, es[1..])
  }

  lemma InitialIsAwake()
    ensures Initial == Awake
  {
  }

  lemma AwakeTransitions(eventType: string)
    ensures Step(Awake, Sleep) == Asleep && Step(Awake, Walk) == Walking
    ensures Step(Awake, WakeUp) == Awake && Step(Awake, Stop) == Awake
    ensures Step(Awake, Other(eventType)) == Awake
  {
  }

  /** `asleep` handles only WAKE_UP and `walking` only STOP, both back to
      `awake`; every other event leaves them where they are. */
  lemma RestingStatesOnlyWake(s: State, e: Event)
    requires s == Asleep || s == Walking
    ensures Step(s, e) == (if (s == Asleep && e == WakeUp) || (s == Walking && e == Stop) then Awake else s)
  {
  }

  /** Away from `awake`, the machine stays put until it passes through `awake`. */
  lemma {:induction false} StaysUntilAwake(s: State, es: seq<Event>)
    requires s != Awake && Awake !in Trace(s, es)
    ensures Run(s, es) == s
    decreases |es|
  {
    if es != [] {
      var t := Step(s, es[0]);
      assert Trace(s, es) == [t] + Trace(t, es[1..]);
      RestingStatesOnlyWake(s, es[0]);
      StaysUntilAwake(t, es[1..]);
    }
  }

  /** Every path between `asleep` and `walking` passes through `awake`. */
  lemma AsleepAndWalkingMeetThroughAwake(es: seq<Event>)
    ensures Run(Asleep, es) == Walking ==> Awake in Trace(Asleep, es)
    ensures Run(Walking, es) == Asleep ==> Awake in Trace(Walking, es)
  {
    if Awake !in Trace(Asleep, es) {
      StaysUntilAwake(Asleep, es);
    }
    if Awake !in Trace(Walking, es) {
      StaysUntilAwake(Walking, es);
    }
  }
}
