# xstate demo machines, modelled in Dafny

The repository is a set of Next.js pages, each driven by a declarative
`xstate` machine. This project models the transition function of each
machine over (state, context, event), as the machine definitions and their
`assign` actions describe it, together with the page logic that computes
which event to send, and proves the properties the machines promise.

- `shared.dfy` (module `Shared`): `Option`, the `Post` record of a listing,
  and `Handle`, the one rule of statechart semantics these machines rely
  on. An event is handled by the deepest active state that declares it.
  If no state declares it, the event is a no-op.
- `undoredo.dfy` (module `UndoRedo`): the undo/redo machine of
  `pages/undoredo.tsx`. It has two modes, `normal` and `turbo`. Its
  context holds the list on screen (`present`) and two stacks of whole
  earlier and later lists (`pasts`, `futures`). The five `assign` actions
  are pure functions. The running service is the class `Machine`, whose
  `Send` replaces `mode` and `context` on each event, running the actions
  of a transition in the listed order. The lemmas prove the linear-history
  laws. Undo and redo move a cursor along an unchanged timeline
  (`pasts + [present] + futures`). They are no-ops on an empty stack and
  undo each other exactly. An edit commits the present and clears the
  future.
- `reddit.dfy` (module `Reddit`): the hierarchical machine of
  `pages/reddit.tsx`, with states `idle` and `selected.{loading, loaded,
  failed}` and a root-level SELECT. It also models the page's `handleTab`
  key navigation (`findIndex` ± 1 with `||` fallbacks) and proves that
  Comma and Period are inverse cyclic moves on a list of distinct, non-empty names.
- `subreddit.dfy` (module `Subreddit`): the machine that
  `createSubredditMachine(name)` in `components/subreddit.tsx` builds, with
  states `loading`, `loaded` and `failure`, REFRESH and RETRY.
- `dog.dfy` (module `Dog`) and `promise.dfy` (module `Promise`): the flat
  machines of `pages/dog.tsx` and `pages/xstate.tsx`, with reachability
  lemmas over event sequences.

The settlement of an invoked fetch is an ordinary event: `FetchDone(data)`
or `FetchError`. In the subreddit machine the done event also carries
`now`, the clock reading that `Date.now()` supplies in `components/subreddit.tsx`. Each
machine's `Run` delivers a sequence of events one by one.

Two consequences of the code worth stating:
- The first edit commits the initial empty `present`, so after two edits and one undo `pasts` is `[[]]` (`AddAddUndoRedoScenario`).
- `selected.failed` declares no transitions, so only SELECT leaves it (`OnlySelectLeavesSettledStates`).

## Model

| member | source | states |
|---|---|---|
| `Shared.Handle` | pages/reddit.tsx:29-69 | The first level, from the active leaf up to the root, that declares the event decides the result. When no level declares it, the snapshot is unchanged. |
| `Shared.DeepestWins` | pages/reddit.tsx:36-68 | When both a leaf and an ancestor declare an event, the leaf's transition is taken. |
| `UndoRedo.AddDogAction` | pages/undoredo.tsx:68-75 | `addDog` keeps the old `present` as a prefix and appends exactly one `"lol"` in `normal`, three otherwise. The stacks are untouched. |
| `UndoRedo.DeleteDogAction` | pages/undoredo.tsx:76-82 | `deleteDog` removes the last item of `present`. An empty `present` stays empty. The stacks are untouched. |
| `UndoRedo.UpdatePast` | pages/undoredo.tsx:83-88 | `updatePast` appends the old present to `pasts` and empties `futures`. `present` is unchanged, so the timeline ends with the old present twice and has nothing after the cursor. `pasts` grows by one. |
| `UndoRedo.UndoAction` | pages/undoredo.tsx:89-103 | With empty `pasts` the context is returned unchanged. Otherwise the timeline is the same and the cursor moves one step back. |
| `UndoRedo.RedoAction` | pages/undoredo.tsx:104-118 | With empty `futures` the context is returned unchanged. Otherwise the timeline is the same and the cursor moves one step forward. |
| `UndoRedo.Machine.constructor` | pages/undoredo.tsx:31-38 | The machine starts in `normal` with `present`, `_pasts` and `_futures` all empty. |
| `UndoRedo.Machine.Send` | pages/undoredo.tsx:39-65 | After an event, mode and context are exactly what `Step` gives for the old mode and context. The actions of one transition run in order, each on the previous one's result. |
| `UndoRedo.UndoOnEmptyIsNoOp` | pages/undoredo.tsx:90 | UNDO with empty `_pasts` leaves the snapshot unchanged. |
| `UndoRedo.RedoOnEmptyIsNoOp` | pages/undoredo.tsx:105 | REDO with empty `_futures` leaves the snapshot unchanged. |
| `UndoRedo.UndoMovesPresentToFutures` | pages/undoredo.tsx:89-103 | UNDO makes the last past the present, removes it from `_pasts` and puts the old present at the front of `_futures`. The mode is unchanged. |
| `UndoRedo.RedoMovesPresentToPasts` | pages/undoredo.tsx:104-118 | REDO makes the first future the present, removes it from `_futures` and appends the old present to `_pasts`. The mode is unchanged. |
| `UndoRedo.UndoThenRedoRestores` | pages/undoredo.tsx:89-118 | With `_pasts` non-empty, UNDO then REDO restores the exact prior snapshot. |
| `UndoRedo.RedoThenUndoRestores` | pages/undoredo.tsx:89-118 | With `_futures` non-empty, REDO then UNDO restores the exact prior snapshot. |
| `UndoRedo.UndoRedoPreserveHistory` | pages/undoredo.tsx:48-61 | UNDO and REDO keep the mode and the timeline, so the combined length of `_pasts` and `_futures` is unchanged. |
| `UndoRedo.EditCommitsPresent` | pages/undoredo.tsx:46-47 | ADD_DOG and DELETE_DOG append the pre-event present to `_pasts`, empty `_futures` and keep the mode. The timeline is cut at the cursor. |
| `UndoRedo.AddDogAppendsDogs` | pages/undoredo.tsx:68-75 | ADD_DOG makes `present` the old present plus `["lol"]` in `normal` mode, and plus three `"lol"` in `turbo`. |
| `UndoRedo.DeleteDogDropsLast` | pages/undoredo.tsx:76-82 | DELETE_DOG drops the last item of `present`. An empty `present` stays empty. |
| `UndoRedo.ToggleModeFlips` | pages/undoredo.tsx:40-57 | TOGGLE_MODE switches between `normal` and `turbo` and leaves the context untouched. Toggling twice is the identity. |
| `UndoRedo.UndeclaredEventIsNoOp` | pages/undoredo.tsx:39-64 | An event that neither mode declares leaves the snapshot unchanged. |
| `UndoRedo.UndosMoveCursorBack` | pages/undoredo.tsx:89-103 | k UNDOs, with k at most the length of `_pasts`, keep the mode and timeline and move the cursor k steps back. |
| `UndoRedo.RedosMoveCursorForward` | pages/undoredo.tsx:104-118 | k REDOs, with k at most the length of `_futures`, keep the mode and timeline and move the cursor k steps forward. |
| `UndoRedo.UndosThenRedosRestore` | pages/undoredo.tsx:9-22 | k UNDOs followed by k REDOs, with k at most the length of `_pasts`, restore the exact snapshot. |
| `UndoRedo.AddAddUndoRedoScenario` | pages/undoredo.tsx:31-118 | From the initial snapshot, ADD_DOG, ADD_DOG, UNDO gives present `["lol"]`, pasts `[[]]`, futures `[["lol","lol"]]`. A further REDO gives present `["lol","lol"]`, pasts `[[],["lol"]]`, futures `[]`. |
| `Reddit.InitialIsIdleAndEmpty` | pages/reddit.tsx:29-35 | The machine starts in `idle` with `subreddit` and `posts` both null. |
| `Reddit.SelectEntersLoading` | pages/reddit.tsx:60-67 | SELECT from any state ends in `selected.loading`, with `subreddit` set to the event's name and `posts` unchanged. |
| `Reddit.LoadingSettles` | pages/reddit.tsx:42-53 | In `selected.loading`, the done event moves to `selected.loaded` with `posts` set to its data. The error event moves to `selected.failed` with the context unchanged. An undeclared event leaves the snapshot unchanged. |
| `Reddit.OnlySelectLeavesSettledStates` | pages/reddit.tsx:36-58 | Outside `selected.loading`, every event other than SELECT leaves the snapshot unchanged. So `failed` has no retry. |
| `Reddit.SelectThenLoadShowsPosts` | __tests__/reddit.test.ts:12-21 | SELECT followed by a done event with a non-empty listing ends in `selected.loaded` with those posts, which are non-empty. |
| `Reddit.StepKeepsReachable` | pages/reddit.tsx:29-69 | Each step keeps two facts. `idle` holds only the initial context, and `loaded` always has posts. |
| `Reddit.RunKeepsReachable` | pages/reddit.tsx:29-69 | Any event sequence keeps the invariant. Once the machine has left `idle`, it never returns there. |
| `Reddit.FindIndex` | pages/reddit.tsx:85 | The result is -1 exactly when the current value is null or not in the list. Otherwise it is the first index holding the current value. |
| `Reddit.HandleTab` | pages/reddit.tsx:82-96 | Comma sends SELECT with the previous name, and Period sends SELECT with the next. Any other key code sends nothing. On a non-empty list the name sent is always a member of the list. |
| `Reddit.SubredditsAreWellFormed` | pages/reddit.tsx:78 | The page's list of subreddits is duplicate-free and has no empty name. |
| `Reddit.NavigationStaysInList` | pages/reddit.tsx:82-96 | On a non-empty list, both directions always give a member of the list, whatever the current value is. |
| `Reddit.PrevOfMember` | pages/reddit.tsx:84-90 | On a list with no empty name, at the first occurrence `i` of a name, Comma gives the element at `i - 1`, or the last element when `i` is 0. |
| `Reddit.NextOfMember` | pages/reddit.tsx:91-95 | On a list with no empty name, at the first occurrence `i` of a name, Period gives the element at `i + 1`, or the first element when `i` is last. |
| `Reddit.NavigationFromOutside` | pages/reddit.tsx:84-95 | A current value not in the list makes Comma give the last element and Period the first. An empty list gives undefined. |
| `Reddit.NextPrevInverse` | pages/reddit.tsx:84-95 | On distinct non-empty names, next(prev(x)) == x and prev(next(x)) == x for every member x. |
| `Reddit.PeriodWrapsOnPage` | pages/reddit.tsx:78-95 | On the page's list, Period from `vuejs` selects `mechanicalkeyboards`, and Comma from `mechanicalkeyboards` selects `vuejs`. |
| `Subreddit.CreateMachine` | components/subreddit.tsx:17-25 | The machine starts in `loading` with the given subreddit, `posts` null and `lastUpdated` null. |
| `Subreddit.LoadingSettles` | components/subreddit.tsx:27-40 | In `loading`, the done event goes to `loaded` with `posts` set to its data and `lastUpdated` to the supplied time. The error event goes to `failure` with the context unchanged. |
| `Subreddit.ReloadKeepsContext` | components/subreddit.tsx:42-51 | REFRESH in `loaded` and RETRY in `failure` go back to `loading` with the context unchanged, old posts included. |
| `Subreddit.UndeclaredEventsIgnored` | components/subreddit.tsx:26-52 | REFRESH in `failure`, RETRY in `loaded`, and REFRESH, RETRY or any other event in `loading` are ignored. |
| `Subreddit.StepKeepsReachable` | components/subreddit.tsx:17-53 | Each step keeps three facts. The subreddit name is unchanged, `posts` and `lastUpdated` are set together, and `loaded` has posts. |
| `Subreddit.RunKeepsReachable` | components/subreddit.tsx:17-53 | Any event sequence keeps that invariant. |
| `Subreddit.SubredditNeverChanges` | components/subreddit.tsx:17-53 | After any events, the machine made for a name still carries that name, and `loaded` has posts. |
| `Dog.InitialIsAwake` | pages/dog.tsx:6 | The initial state is `awake`. |
| `Dog.AwakeTransitions` | pages/dog.tsx:8-13 | From `awake`, SLEEP goes to `asleep` and WALK goes to `walking`. WAKE_UP, STOP and any undeclared event are ignored. |
| `Dog.RestingStatesOnlyWake` | pages/dog.tsx:14-23 | `asleep` handles only WAKE_UP and `walking` handles only STOP, both going to `awake`. Any other event leaves them unchanged. |
| `Dog.StaysUntilAwake` | pages/dog.tsx:7-24 | From `asleep` or `walking`, an event sequence that never visits `awake` ends where it started. |
| `Dog.AsleepAndWalkingMeetThroughAwake` | pages/dog.tsx:7-24 | Every path from `asleep` to `walking`, or from `walking` to `asleep`, passes through `awake`. |
| `Promise.InitialIsPending` | pages/xstate.tsx:6 | The initial state is `pending`, which is not final. |
| `Promise.PendingTransitions` | pages/xstate.tsx:8-13 | From `pending`, RESOLVE goes to `resolved` and REJECT goes to `rejected`. Any other event is ignored. |
| `Promise.FinalIsAbsorbing` | pages/xstate.tsx:14-19 | In `resolved` or `rejected`, no event sequence changes the state. |
| `Promise.OutcomeIsFirstSettlement` | pages/xstate.tsx:8-20 | From `pending`, the outcome is the one named by the first RESOLVE or REJECT in the sequence. With neither, the machine stays `pending`. Both directions are proved. |
| `Promise.NeverBackToPending` | pages/xstate.tsx:8-20 | Once the machine has left `pending`, no event sequence brings it back or changes its outcome. |

## Left out

- Rendering: the JSX page bodies, the `Subreddit` component, `next/image` and `JSON.stringify(state.toJSON())` are presentation only.
- The fetch in `invokeFetchSubreddit` (both copies) is network I/O. Its outcome is only the `FetchDone` / `FetchError` event, and the listing is a sequence of `Post` records rather than arbitrary JSON.
- `Date.now()` is an external clock. It is the `now` field of the subreddit machine's done event.
- The window key listeners, the ctrl+Z / ctrl+Y mapping to UNDO / REDO, the `<select>` `onChange`, and the `alert` actions of TOGGLE_MODE are DOM side effects. `handleTab` is modelled as the event it computes.
- The `xstate` interpreter is a foreign library and is not modelled in general. Each machine's transition function is written out. The interpreter's service lifecycle is not modelled: starting an invocation on entry, and discarding a settlement from an invocation whose state was left.
- Which fetch a settlement comes from: the fetch events carry no invocation identity, and the model does not say whether SELECT during `selected.loading` keeps or restarts the running fetch. The next done event in `loading` is applied under the new `subreddit` name, so the posts shown may belong to the previous name.
- The actor registry: the core files contain no spawning or caching code, only the per-name factory.
- `cloneDeep` and the in-place `pop` / `unshift` / `shift` / `push` on the copies: Dafny sequences are values, so each action returns the new lists.
- JavaScript's `null` and `undefined` are both `None` for the reddit `subreddit` field. `findIndex` never matches either of them, so navigation cannot tell them apart.
- `addDog` falls back to three dogs when the service has no current state value. That case cannot arise through `Send`, which always has a mode.
