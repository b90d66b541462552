/** The reddit page: a hierarchical machine that selects a subreddit and
    loads its posts, and the keyboard navigation that cycles through the
    page's fixed list of subreddits. */
module Reddit {
  import opened Shared

  /** The children of the compound state `selected`; `loading` is its initial child. */
  datatype Phase = Loading | Loaded | Failed

  datatype State = Idle | Selected(phase: Phase)

  /** `subreddit` is `None` for both `null` (the initial value) and
      `undefined` (a SELECT without a name). */
  datatype Context = Context(subreddit: Option<string>, posts: Option<seq<Post>>)

  /** SELECT carries an optional name. The invoked fetch's settlement arrives
      as `FetchDone` (with the listing) or `FetchError`. `Other` stands only for event names that no state of this machine declares. */
  datatype Event = Select(name: Option<string>) | FetchDone(data: seq<Post>) | FetchError | Other(eventType: string)

  datatype Snapshot = Snapshot(state: State, context: Context)

  const Initial: Snapshot := Snapshot(Idle, Context(None, None))

  /** Transitions of the active leaf. `idle`, `selected.loaded` and
      `selected.failed` declare none; `selected.loading` declares the done
      and error transitions of its invoked fetch, both relative to `selected`. */
  function LeafOn(s: Snapshot, e: Event): Option<Snapshot> {
    match s.state
    case Selected(Loading) =>
      (match e
       case FetchDone(data) => Some(Snapshot(Selected(Loaded), s.context.(posts := Some(data))))
       case FetchError => Some(Snapshot(Selected(Failed), s.context))
       case _ => None)
    case _ => None
  }

  /** The root declares SELECT, targeting `.selected`, which is entered at its
      initial child `loading`; the action assigns the event's name. */
  function RootOn(s: Snapshot, e: Event): Option<Snapshot> {
    match e
    case Select(name) => Some(Snapshot(Selected(Loading), s.context.(subreddit := name)))
    case _ => None
  }

  /** One event, handled by the deepest active state that declares it: the
      leaf, then (for a leaf of `selected`, which declares nothing itself)
      the root. */
  function Step(s: Snapshot, e: Event): Snapshot {
    Handle([LeafOn(s, e), RootOn(s, e)], s)
  }

  function Run(s: Snapshot, es: seq<Event>): Snapshot
    decreases |es|
  {
    if es == [] then s else Run(Step(s, es[0]), es[1..])
  }

  // ---------------------------------------------------------------------
  // Machine properties
  // ---------------------------------------------------------------------

  lemma InitialIsIdleAndEmpty()
    ensures Initial.state == Idle && Initial.context.subreddit.None? && Initial.context.posts.None?
  {
  }

  /** SELECT, from any state, ends in `selected.loading` with the new name
      and the posts left as they were. */
  lemma SelectEntersLoading(s: Snapshot, name: Option<string>)
    ensures Step(s, Select(name)) == Snapshot(Selected(Loading), Context(name, s.context.posts))
  {
    assert LeafOn(s, Select(name)).None?;
    var levels := [LeafOn(s, Select(name)), RootOn(s, Select(name))];
    assert levels[1] == Some(Snapshot(Selected(Loading), Context(name, s.context.posts)));
  }

  /** In `selected.loading` the fetch's done event stores the listing and
      moves to `loaded`; its error event moves to `failed` and keeps the
      context; an undeclared event changes nothing. */
  lemma LoadingSettles(c: Context, data: seq<Post>, eventType: string)
    ensures Step(Snapshot(Selected(Loading), c), FetchDone(data)) == Snapshot(Selected(Loaded), c.(posts := Some(data)))
    ensures Step(Snapshot(Selected(Loading), c), FetchError) == Snapshot(Selected(Failed), c)
    ensures Step(Snapshot(Selected(Loading), c), Other(eventType)) == Snapshot(Selected(Loading), c)
  {
  }

  /** Outside `selected.loading` only SELECT does anything: in particular
      `failed` has no retry and a late fetch result is ignored. */
  lemma OnlySelectLeavesSettledStates(s: Snapshot, e: Event)
    requires s.state != Selected(Loading)
    requires !e.Select?
    ensures Step(s, e) == s
  {
  }

  /** SELECT followed by a done event with a non-empty listing ends in
      `selected.loaded` with non-empty posts. */
  lemma SelectThenLoadShowsPosts(s: Snapshot, name: Option<string>, data: seq<Post>)
    requires data != []
    ensures Run(s, [Select(name), FetchDone(data)]).state == Selected(Loaded)
    ensures Run(s, [Select(name), FetchDone(data)]).context == Context(name, Some(data))
    ensures Run(s, [Select(name), FetchDone(data)]).context.posts.value != []
  {
    SelectEntersLoading(s, name);
    var t := Step(s, Select(name));
    assert Run(s, [Select(name), FetchDone(data)]) == Run(t, [FetchDone(data)]);
    assert Run(t, [FetchDone(data)]) == Step(t, FetchDone(data));
  }

  /** What every reachable snapshot satisfies: `idle` is only ever the
      initial snapshot, and `loaded` always has posts. */
  ghost predicate Reachable(s: Snapshot) {
    (s.state == Idle ==> s.context == Initial.context) &&
    (s.state == Selected(Loaded) ==> s.context.posts.Some?)
  }

  lemma StepKeepsReachable(s: Snapshot, e: Event)
    requires Reachable(s)
    ensures Reachable(Step(s, e))
  {
  }

  lemma {:induction false} RunKeepsReachable(s: Snapshot, es: seq<Event>)
    requires Reachable(s)
    ensures Reachable(Run(s, es))
    ensures Run(s, es).state == Idle ==> Run(s, es) == s
    decreases |es|
  {
    if es != [] {
      StepKeepsReachable(s, es[0]);
      RunKeepsReachable(Step(s, es[0]), es[1..]);
      if Run(s, es).state == Idle {
        assert Step(s, es[0]).state == Idle;
      }
    }
  }

  // ---------------------------------------------------------------------
  // Keyboard navigation (handleTab)
  // ---------------------------------------------------------------------

  /** The page's subreddits, in display order. */
  const Subreddits: seq<string> := ["mechanicalkeyboards", "frontend", "reactjs", "vuejs"]

  /** `findIndex` with strict equality: the first index holding `current`, or
      -1; `null` and `undefined` match nothing. */
  function FindIndex(names: seq<string>, current: Option<string>): (r: int)
    ensures -1 <= r < |names|
    ensures r == -1 <==> current.None? || current.value !in names
    ensures r >= 0 ==> current == Some(names[r]) && names[r] !in names[..r]
  {
    if names == [] then -1
    else if current == Some(names[0]) then 0
    else
      var k := FindIndex(names[1..], current);
      if k == -1 then -1
      else
        assert names[..k + 1] == [names[0]] + names[1..][..k];
        k + 1
  }

  /** Indexing an array: `undefined` (here `None`) outside its bounds. */
  function At(names: seq<string>, i: int): Option<string> {
    if 0 <= i < |names| then Some(names[i]) else None
  }

  /** `a || b` on an optional string: `b` when `a` is `undefined` or the
      empty string, the two falsy values it can take. */
  function Or(a: Option<string>, b: Option<string>): Option<string> {
    if a.Some? && a.value != "" then a else b
  }

  /** Comma: the element before the current one, the last element otherwise. */
  function Prev(names: seq<string>, current: Option<string>): Option<string> {
    Or(At(names, FindIndex(names, current) - 1), At(names, |names| - 1))
  }

  /** Period: the element after the current one, the first element otherwise. */
  function Next(names: seq<string>, current: Option<string>): Option<string> {
    Or(At(names, FindIndex(names, current) + 1), At(names, 0))
  }

  /** `handleTab`: the SELECT event a key press sends, if any. */
  function HandleTab(code: string, names: seq<string>, current: Option<string>): (r: Option<Event>)
    ensures code == "Comma" ==> r == Some(Select(Prev(names, current)))
    ensures code == "Period" ==> r == Some(Select(Next(names, current)))
    ensures code != "Comma" && code != "Period" ==> r.None?
    ensures r.Some? && names != [] ==> r.value.Select? && r.value.name.Some? && r.value.name.value in names
  {
    if code == "Comma" then Some(Select(Prev(names, current)))
    else if code == "Period" then Some(Select(Next(names, current)))
    else None
  }

  ghost predicate Distinct(names: seq<string>) {
    forall i, j :: 0 <= i < j < |names| ==> names[i] != names[j]
  }

  ghost predicate NoEmptyNames(names: seq<string>) {
    forall i :: 0 <= i < |names| ==> names[i] != ""
  }

  lemma SubredditsAreWellFormed()
    ensures Distinct(Subreddits) && NoEmptyNames(Subreddits)
  {
  }

  /** Both directions always land on a member of a non-empty list, whatever
      the current value is. */
  lemma NavigationStaysInList(names: seq<string>, current: Option<string>)
    requires names != []
    ensures Prev(names, current).Some? && Prev(names, current).value in names
    ensures Next(names, current).Some? && Next(names, current).value in names
  {
  }

  /** In a list with no empty name (`""` is falsy for `||`), on the first
      occurrence of a name, Comma steps back one place and
      wraps from the first element to the last. */
  lemma PrevOfMember(names: seq<string>, i: int)
    requires 0 <= i < |names| && names[i] !in names[..i]
    requires NoEmptyNames(names)
    ensures Prev(names, Some(names[i])) == Some(if i == 0 then names[|names| - 1] else names[i - 1])
  {
  }

  /** In a list with no empty name, on the first occurrence of a name,
      Period steps forward one place and
      wraps from the last element to the first. */
  lemma NextOfMember(names: seq<string>, i: int)
    requires 0 <= i < |names| && names[i] !in names[..i]
    requires NoEmptyNames(names)
    ensures Next(names, Some(names[i])) == Some(if i == |names| - 1 then names[0] else names[i + 1])
  {
  }

  /** A current value that is not in the list sends the last name on Comma
      and the first on Period (nothing, that is `undefined`, for an empty list). */
  lemma NavigationFromOutside(names: seq<string>, current: Option<string>)
    requires current.None? || current.value !in names
    ensures Prev(names, current) == At(names, |names| - 1)
    ensures Next(names, current) == At(names, 0)
  {
  }

  lemma DistinctFirstOccurrence(names: seq<string>, i: int)
    requires Distinct(names) && 0 <= i < |names|
    ensures names[i] !in names[..i]
  {
  }

  /** On a list of distinct non-empty names, Comma and Period undo each other. */
  lemma NextPrevInverse(names: seq<string>, x: string)
    requires Distinct(names) && NoEmptyNames(names)
    requires x in names
    ensures Next(names, Prev(names, Some(x))) == Some(x)
    ensures Prev(names, Next(names, Some(x))) == Some(x)
  {
    var i :| 0 <= i < |names| && names[i] == x;
    var n := |names|;
    DistinctFirstOccurrence(names, i);
    PrevOfMember(names, i);
    NextOfMember(names, i);
    var p := if i == 0 then n - 1 else i - 1;
    var q := if i == n - 1 then 0 else i + 1;
    DistinctFirstOccurrence(names, p);
    DistinctFirstOccurrence(names, q);
    NextOfMember(names, p);
    PrevOfMember(names, q);
  }

  /** On the page's own list, Period from the last subreddit wraps to the first. */
  lemma PeriodWrapsOnPage()
    ensures HandleTab("Period", Subreddits, Some("vuejs")) == Some(Select(Some("mechanicalkeyboards")))
    ensures HandleTab("Comma", Subreddits, Some("mechanicalkeyboards")) == Some(Select(Some("vuejs")))
  {
    PrevOfMember(Subreddits, 0);
    NextOfMember(Subreddits, 3);
  }
}
