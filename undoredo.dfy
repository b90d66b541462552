/** The undo/redo demo: a flat machine with two modes, `normal` and `turbo`,
    whose context keeps the list of dogs on screen (`present`) between two
    stacks of whole earlier and later snapshots of that list. */
module UndoRedo {
  import opened Shared

  datatype Mode = Normal | Turbo

  /** `pasts` is chronological, oldest first; `futures` is chronological
      too, so its head is the snapshot a redo brings back. */
  datatype Context = Context(present: seq<string>, pasts: seq<seq<string>>, futures: seq<seq<string>>)

  /** `Other` stands only for event names that no state of this machine declares. */
  datatype Event = ToggleMode | AddDog | DeleteDog | Undo | Redo | Other(eventType: string)

  /** What the running machine holds: the active mode state and the context. */
  datatype Snapshot = Snapshot(mode: Mode, context: Context)

  /** The item one dog adds to `present`. */
  const Dog: string := "lol"

  const Initial: Snapshot := Snapshot(Normal, Context([], [], []))

  /** The whole linear history, oldest first. Undo and redo move the cursor
      `|pasts|` along it; an edit cuts it at the cursor. */
  function Timeline(c: Context): (t: seq<seq<string>>)
    ensures |t| == |c.pasts| + 1 + |c.futures|
    ensures t[|c.pasts|] == c.present
  {
    c.pasts + [c.present] + c.futures
  }

  // ---------------------------------------------------------------------
  // The assign actions. Each returns the updated context: the partial object
  // the `assign` updater returns, merged into the one it receives.
  // ---------------------------------------------------------------------

  /** `addDog`: one dog in `normal` mode, three in any other mode. */
  function AddDogAction(mode: Mode, c: Context): (r: Context)
    ensures r.pasts == c.pasts && r.futures == c.futures
    ensures |r.present| == |c.present| + (if mode == Normal then 1 else 3)
    ensures r.present[..|c.present|] == c.present
    ensures forall i :: |c.present| <= i < |r.present| ==> r.present[i] == Dog
  {
    if mode == Normal then c.(present := c.present + [Dog])
    else c.(present := c.present + [Dog, Dog, Dog])
  }

  /** `deleteDog`: pops a copy of `present`; popping an empty list leaves it empty. */
  function DeleteDogAction(c: Context): (r: Context)
    ensures r.pasts == c.pasts && r.futures == c.futures
    ensures c.present == [] ==> r.present == []
    ensures c.present != [] ==> r.present + [c.present[|c.present| - 1]] == c.present
  {
    if c.present == [] then c
    else c.(present := c.present[..|c.present| - 1])
  }

  /** `updatePast`: commits `present` to the end of `pasts` and clears `futures`. */
  function UpdatePast(c: Context): (r: Context)
    ensures Timeline(r) == c.pasts + [c.present] + [c.present]
    ensures |r.pasts| == |c.pasts| + 1
  {
    c.(pasts := c.pasts + [c.present], futures := [])
  }

  /** `undo`: with an empty `pasts` the context is returned as it is;
      otherwise the cursor moves one step back along the same timeline. */
  function UndoAction(c: Context): (r: Context)
    ensures |c.pasts| == 0 ==> r == c
    ensures |c.pasts| > 0 ==> Timeline(r) == Timeline(c) && |r.pasts| == |c.pasts| - 1
  {
    if |c.pasts| == 0 then c
    else
      var newPasts := c.pasts[..|c.pasts| - 1];
      var lastPointInTime := c.pasts[|c.pasts| - 1];
      assert c.pasts == newPasts + [lastPointInTime];
      Context(lastPointInTime, newPasts, [c.present] + c.futures)
  }

  /** `redo`: with an empty `futures` the context is returned as it is;
      otherwise the cursor moves one step forward along the same timeline. */
  function RedoAction(c: Context): (r: Context)
    ensures |c.futures| == 0 ==> r == c
    ensures |c.futures| > 0 ==> Timeline(r) == Timeline(c) && |r.pasts| == |c.pasts| + 1
  {
    if |c.futures| == 0 then c
    else
      var lastUndo := c.futures[0];
      assert c.futures == [lastUndo] + c.futures[1..];
      Context(lastUndo, c.pasts + [c.present], c.futures[1..])
  }

  // ---------------------------------------------------------------------
  // The machine
  // ---------------------------------------------------------------------

  /** The `on` table of the active mode state. `normal` and `turbo` declare
      the same five events; TOGGLE_MODE targets the other mode, the others
      have no target and run their actions in the listed order, each on the
      result of the one before. `addDog` reads the mode the machine is in
      when the event arrives. */
  function ModeOn(s: Snapshot, e: Event): Option<Snapshot> {
    match e
    case ToggleMode => Some(s.(mode := if s.mode == Normal then Turbo else Normal))
    case AddDog => Some(s.(context := AddDogAction(s.mode, UpdatePast(s.context))))
    case DeleteDog => Some(s.(context := DeleteDogAction(UpdatePast(s.context))))
    case Undo => Some(s.(context := UndoAction(s.context)))
    case Redo => Some(s.(context := RedoAction(s.context)))
    case Other(_) => None
  }

  /** One event delivered to the machine; the root declares no transitions. */
  function Step(s: Snapshot, e: Event): Snapshot {
    Handle([ModeOn(s, e)], s)
  }

  /** A sequence of events delivered one after another. */
  function Run(s: Snapshot, es: seq<Event>): Snapshot
    decreases |es|
  {
    if es == [] then s else Run(Step(s, es[0]), es[1..])
  }

  function Repeat(e: Event, k: nat): (es: seq<Event>)
    ensures |es| == k && forall i :: 0 <= i < k ==> es[i] == e
  {
    if k == 0 then [] else [e] + Repeat(e, k - 1)
  }

  /** The running service: it holds the active mode and the context and
      replaces both on every event. */
  class Machine {
    var mode: Mode
    var context: Context

    function Snap(): Snapshot
      reads this
    {
      Snapshot(mode, context)
    }

    /** The machine starts in `normal` with all three lists empty. */
    constructor ()
      ensures Snap() == Initial
      ensures mode == Normal && context.present == [] && context.pasts == [] && context.futures == []
    {
      mode := Normal;
      context := Context([], [], []);
    }

    method Send(e: Event)
      modifies this
      ensures Snap() == Step(old(Snap()), e)
    {
      match e
      case ToggleMode =>
        mode := if mode == Normal then Turbo else Normal;
      case AddDog =>
        context := UpdatePast(context);
        context := AddDogAction(mode, context);
      case DeleteDog =>
        context := UpdatePast(context);
        context := DeleteDogAction(context);
      case Undo =>
        context := UndoAction(context);
      case Redo =>
        context := RedoAction(context);
      case Other(_) =>
    }
  }

  // ---------------------------------------------------------------------
  // Properties
  // ---------------------------------------------------------------------

  /** A context is determined by its timeline and its cursor. */
  lemma TimelineDetermines(c: Context, d: Context)
    requires Timeline(c) == Timeline(d) && |c.pasts| == |d.pasts|
    ensures c == d
  {
    var t, k := Timeline(c), |c.pasts|;
    assert c.pasts == t[..k] && d.pasts == t[..k];
    assert c.futures == t[k + 1..] && d.futures == t[k + 1..];
  }

  lemma UndoOnEmptyIsNoOp(s: Snapshot)
    requires s.context.pasts == []
    ensures Step(s, Undo) == s
  {
  }

  lemma RedoOnEmptyIsNoOp(s: Snapshot)
    requires s.context.futures == []
    ensures Step(s, Redo) == s
  {
  }

  /** Undo takes the last past as present, drops it from `pasts` and puts the
      old present at the front of `futures`. */
  lemma UndoMovesPresentToFutures(s: Snapshot)
    requires s.context.pasts != []
    ensures var n := |s.context.pasts|;
      Step(s, Undo) == Snapshot(s.mode, Context(s.context.pasts[n - 1], s.context.pasts[..n - 1],
                                                [s.context.present] + s.context.futures))
  {
  }

  /** Redo takes the first future as present, drops it from `futures` and
      puts the old present at the end of `pasts`. */
  lemma RedoMovesPresentToPasts(s: Snapshot)
    requires s.context.futures != []
    ensures Step(s, Redo) == Snapshot(s.mode, Context(s.context.futures[0], s.context.pasts + [s.context.present],
                                                      s.context.futures[1..]))
  {
  }

  lemma UndoThenRedoRestores(s: Snapshot)
    requires s.context.pasts != []
    ensures Step(Step(s, Undo), Redo) == s
  {
    var u := Step(s, Undo);
    TimelineDetermines(Step(u, Redo).context, s.context);
  }

  lemma RedoThenUndoRestores(s: Snapshot)
    requires s.context.futures != []
    ensures Step(Step(s, Redo), Undo) == s
  {
    var r := Step(s, Redo);
    TimelineDetermines(Step(r, Undo).context, s.context);
  }

  /** Undo and redo keep the mode, the timeline and so the number of stored
      snapshots; only the cursor moves. */
  lemma UndoRedoPreserveHistory(s: Snapshot, e: Event)
    requires e == Undo || e == Redo
    ensures Step(s, e).mode == s.mode
    ensures Timeline(Step(s, e).context) == Timeline(s.context)
    ensures |Step(s, e).context.pasts| + |Step(s, e).context.futures| == |s.context.pasts| + |s.context.futures|
  {
  }

  /** ADD_DOG and DELETE_DOG commit the old present to the end of `pasts`
      and leave `futures` empty, whatever it held before: the timeline is
      cut at the cursor. */
  lemma EditCommitsPresent(s: Snapshot, e: Event)
    requires e == AddDog || e == DeleteDog
    ensures Step(s, e).mode == s.mode
    ensures Step(s, e).context.pasts == s.context.pasts + [s.context.present]
    ensures Step(s, e).context.futures == []
    ensures Timeline(Step(s, e).context) == s.context.pasts + [s.context.present] + [Step(s, e).context.present]
  {
  }

  /** ADD_DOG appends one dog in `normal` mode and three in `turbo`. */
  lemma AddDogAppendsDogs(s: Snapshot)
    ensures Step(s, AddDog).context.present ==
            s.context.present + (if s.mode == Normal then [Dog] else [Dog, Dog, Dog])
  {
    var r := Step(s, AddDog).context.present;
    var added := if s.mode == Normal then [Dog] else [Dog, Dog, Dog];
    assert r == r[..|s.context.present|] + r[|s.context.present|..];
    assert r[|s.context.present|..] == added;
  }

  /** DELETE_DOG drops the last item of `present`; an empty `present` stays empty. */
  lemma DeleteDogDropsLast(s: Snapshot)
    ensures s.context.present == [] ==> Step(s, DeleteDog).context.present == []
    ensures s.context.present != [] ==>
      Step(s, DeleteDog).context.present + [s.context.present[|s.context.present| - 1]] == s.context.present
  {
  }

  /** TOGGLE_MODE flips the mode and leaves the context alone; twice is the identity. */
  lemma ToggleModeFlips(s: Snapshot)
    ensures Step(s, ToggleMode).mode != s.mode
    ensures Step(s, ToggleMode).context == s.context
    ensures Step(Step(s, ToggleMode), ToggleMode) == s
  {
  }

  lemma UndeclaredEventIsNoOp(s: Snapshot, eventType: string)
    ensures Step(s, Other(eventType)) == s
  {
  }

  lemma {:induction false} RunAppend(s: Snapshot, a: seq<Event>, b: seq<Event>)
    ensures Run(s, a + b) == Run(Run(s, a), b)
    decreases |a|
  {
    if a == [] {
      assert a + b == b;
    } else {
      assert (a + b)[0] == a[0] && (a + b)[1..] == a[1..] + b;
      RunAppend(Step(s, a[0]), a[1..], b);
    }
  }

  /** k undos move the cursor k steps back along an unchanged timeline. */
  lemma {:induction false} UndosMoveCursorBack(s: Snapshot, k: nat)
    requires k <= |s.context.pasts|
    ensures Run(s, Repeat(Undo, k)).mode == s.mode
    ensures Timeline(Run(s, Repeat(Undo, k)).context) == Timeline(s.context)
    ensures |Run(s, Repeat(Undo, k)).context.pasts| == |s.context.pasts| - k
    decreases k
  {
    if k > 0 {
      var es := Repeat(Undo, k);
      assert es[0] == Undo && es[1..] == Repeat(Undo, k - 1);
      UndosMoveCursorBack(Step(s, Undo), k - 1);
    }
  }

  /** k redos move the cursor k steps forward along an unchanged timeline. */
  lemma {:induction false} RedosMoveCursorForward(s: Snapshot, k: nat)
    requires k <= |s.context.futures|
    ensures Run(s, Repeat(Redo, k)).mode == s.mode
    ensures Timeline(Run(s, Repeat(Redo, k)).context) == Timeline(s.context)
    ensures |Run(s, Repeat(Redo, k)).context.pasts| == |s.context.pasts| + k
    decreases k
  {
    if k > 0 {
      var es := Repeat(Redo, k);
      assert es[0] == Redo && es[1..] == Repeat(Redo, k - 1);
      RedosMoveCursorForward(Step(s, Redo), k - 1);
    }
  }

  /** Time travel: undoing k steps and redoing k steps, with no edit in
      between, restores the exact snapshot. */
  lemma UndosThenRedosRestore(s: Snapshot, k: nat)
    requires k <= |s.context.pasts|
    ensures Run(s, Repeat(Undo, k) + Repeat(Redo, k)) == s
  {
    RunAppend(s, Repeat(Undo, k), Repeat(Redo, k));
    var t := Run(s, Repeat(Undo, k));
    UndosMoveCursorBack(s, k);
    RedosMoveCursorForward(t, k);
    TimelineDetermines(Run(t, Repeat(Redo, k)).context, s.context);
  }

  /** From the initial snapshot: two dogs added one by one, then undo, then redo. */
  lemma AddAddUndoRedoScenario()
    ensures Run(Initial, [AddDog, AddDog, Undo]) == Snapshot(Normal, Context([Dog], [[]], [[Dog, Dog]]))
    ensures Run(Initial, [AddDog, AddDog, Undo, Redo]) == Snapshot(Normal, Context([Dog, Dog], [[], [Dog]], []))
  {
    var s1 := Step(Initial, AddDog);
    assert s1 == Snapshot(Normal, Context([Dog], [[]], []));
    var s2 := Step(s1, AddDog);
    assert s2 == Snapshot(Normal, Context([Dog, Dog], [[], [Dog]], []));
    var s3 := Step(s2, Undo);
    assert s3 == Snapshot(Normal, Context([Dog], [[]], [[Dog, Dog]]));
    assert Run(Initial, [AddDog, AddDog, Undo]) == Run(s1, [AddDog, Undo]);
  }
}
