/** Values and the one piece of statechart semantics that every machine of the
    demos relies on. */
module Shared {

  /** JavaScript's `null` / `undefined` versus a present value. */
  datatype Option<T> = None | Some(value: T)

  /** One post of a subreddit listing: the fields the pages render. The
      listing itself is whatever the invoked fetch settles with. */
  datatype Post = Post(title: string, permalink: string, selftext: string, thumbnail: string)

  /** An event is handled by the deepest active state that declares it.
      `levels` holds, from the active leaf up to the root, what the `on`
      table of each level yields for the event (`None` when that level does
      not declare it). The first level that declares the event wins and the
      levels above it are not consulted; when no level declares it the event
      is a no-op and the snapshot stays `current`. */
  function Handle<T>(levels: seq<Option<T>>, current: T): (r: T)
    ensures (forall i :: 0 <= i < |levels| ==> levels[i].None?) ==> r == current
    ensures forall i :: 0 <= i < |levels| && levels[i].Some? && (forall j :: 0 <= j < i ==> levels[j].None?)
                 ==> r == levels[i].value
  {
    if levels == [] then current
    else if levels[0].Some? then levels[0].value
    else
      assert forall i :: 0 < i < |levels| ==> levels[1..][i - 1] == levels[i];
      Handle(levels[1..], current)
  }

  /** The deeper level wins when two levels both declare the event. */
  lemma DeepestWins<T>(leaf: T, ancestor: T, current: T)
    ensures Handle([Some(leaf), Some(ancestor)], current) == leaf
  {
  }
}
