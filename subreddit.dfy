/** The per-subreddit machine that `createSubredditMachine` builds for one
    name: it loads that subreddit's posts on start, and can reload them after
    a success (REFRESH) or a failure (RETRY). */
module Subreddit {
  import opened Shared

  datatype State = Loading | Loaded | Failure

  /** `lastUpdated` is the clock reading taken when the posts arrived. */
  datatype Context = Context(subreddit: string, posts: Option<seq<Post>>, lastUpdated: Option<int>)

  /** The invoked fetch's settlement arrives as `FetchDone`, carrying the
      listing and the clock reading `now` that the done action stores, or as
      `FetchError`. `Other` stands only for event names that no state of this machine declares. */
  datatype Event = FetchDone(data: seq<Post>, now: int) | FetchError | Refresh | Retry | Other(eventType: string)

  datatype Snapshot = Snapshot(state: State, context: Context)

  /** `createSubredditMachine(subreddit)`: starts in `loading` with no posts
      and no update time yet. */
  function CreateMachine(subreddit: string): (r: Snapshot)
    ensures r.state == Loading
    ensures r.context.subreddit == subreddit && r.context.posts.None? && r.context.lastUpdated.None?
  {
    Snapshot(Loading, Context(subreddit, None, None))
  }

  /** The `on` tables of the three states; the root declares nothing. */
  function StateOn(s: Snapshot, e: Event): Option<Snapshot> {
    match (s.state, e)
    case (Loading, FetchDone(data, now)) =>
      Some(Snapshot(Loaded, s.context.(posts := Some(data), lastUpdated := Some(now))))
    case (Loading, FetchError) => Some(Snapshot(Failure, s.context))
    case (Loaded, Refresh) => Some(Snapshot(Loading, s.context))
    case (Failure, Retry) => Some(Snapshot(Loading, s.context))
    case _ => None
  }

  function Step(s: Snapshot, e: Event): Snapshot {
    Handle([StateOn(s, e)], s)
  }

  function Run(s: Snapshot, es: seq<Event>): Snapshot
    decreases |es|
  {
    if es == [] then s else Run(Step(s, es[0]), es[1..])
  }

  // ---------------------------------------------------------------------
  // Properties
  // ---------------------------------------------------------------------

  /** In `loading`, the done event moves to `loaded` with the listing and
      the supplied time; the error event moves to `failure` and keeps the context. */
  lemma LoadingSettles(c: Context, data: seq<Post>, now: int)
    ensures Step(Snapshot(Loading, c), FetchDone(data, now)) ==
            Snapshot(Loaded, Context(c.subreddit, Some(data), Some(now)))
    ensures Step(Snapshot(Loading, c), FetchError) == Snapshot(Failure, c)
  {
  }

  /** REFRESH from `loaded` and RETRY from `failure` re-enter `loading`,
      which starts a new fetch; the old posts stay until it settles. */
  lemma ReloadKeepsContext(c: Context)
    ensures Step(Snapshot(Loaded, c), Refresh) == Snapshot(Loading, c)
    ensures Step(Snapshot(Failure, c), Retry) == Snapshot(Loading, c)
  {
  }

  /** REFRESH in `failure`, RETRY in `loaded`, and the fetch's events
      outside `loading` are ignored. */
  lemma UndeclaredEventsIgnored(s: Snapshot, e: Event)
    requires (s.state == Failure && !e.Retry?) || (s.state == Loaded && !e.Refresh?) ||
             (s.state == Loading && (e.Refresh? || e.Retry? || e.Other?))
    ensures Step(s, e) == s
  {
  }

  /** What every snapshot reachable from `CreateMachine(name)` satisfies:
      the name is still `name`, the posts and their time arrive together, and
      `loaded` always has them. */
  ghost predicate Reachable(s: Snapshot, name: string) {
    s.context.subreddit == name &&
    (s.context.posts.Some? <==> s.context.lastUpdated.Some?) &&
    (s.state == Loaded ==> s.context.posts.Some?)
  }

  lemma StepKeepsReachable(s: Snapshot, name: string, e: Event)
    requires Reachable(s, name)
    ensures Reachable(Step(s, e), name)
  {
  }

  /** No sequence of events changes the subreddit a machine was created for. */
  lemma {:induction false} RunKeepsReachable(s: Snapshot, name: string, es: seq<Event>)
    requires Reachable(s, name)
    ensures Reachable(Run(s, es), name)
    decreases |es|
  {
    if es != [] {
      StepKeepsReachable(s, name, es[0]);
      RunKeepsReachable(Step(s, es[0]), name, es[1..]);
    }
  }

  lemma SubredditNeverChanges(name: string, es: seq<Event>)
    ensures Run(CreateMachine(name), es).context.subreddit == name
    ensures Run(CreateMachine(name), es).state == Loaded ==> Run(CreateMachine(name), es).context.posts.Some?
  {
    RunKeepsReachable(CreateMachine(name), name, es);
  }
}
