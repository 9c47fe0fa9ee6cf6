/**
 * The visibility state machine of the older controller, `DynamicNotch.swift` at the top of
 * the package, as pure transitions. `show` and `hide` also report whether they acted.
 */
module LegacyMachine {
  import opened Wrappers
  import opened Screens
  import opened MainQueue
  import opened Surface

  /** The closures this controller leaves on the main queue. */
  datatype Event =
    | MakeVisible  // `DispatchQueue.main.async { self.isVisible = true }` in `show()`
    | TimedHide    // `asyncAfter(deadline: .now() + time) { self.hide() }` in `show(for:)`
    | HoverRetry   // `asyncAfter(deadline: .now() + 0.1) { self.hide() }` in `hide()`
    | Teardown     // the `Timer` that calls `deinitializeWindow()`

  const HoverRetryDelayMs: nat := 100
  /** `animationDuration`, 0.4 s. */
  const AnimationDurationMs: nat := 400

  datatype State<C> = State(
    window: Option<Window>,
    openWindows: set<Handle>,
    nextHandle: Handle,
    content: C,
    isMouseInside: bool,
    isVisible: bool,
    notchWidth: real,
    notchHeight: real,
    hasNotch: bool,
    timer: Option<nat>,
    queue: seq<Entry<Event>>,
    now: nat)

  /** The only open panel is the one held, `timer` names a teardown, and nothing waiting is overdue. */
  ghost predicate Inv<C>(s: State<C>) {
    && (s.window.Some? ==> s.window.value.handle < s.nextHandle)
    && s.openWindows == Held(s.window)
    && SlotOfKind(s.queue, s.timer, Teardown)
    && NotBefore(s.queue, s.now)
  }

  /** `init(content:)`: `hasNotch` starts out true and both sizes zero. */
  function Initial<C>(content: C): State<C> {
    State(None, {}, 0, content, false, false, 0.0, 0.0, true, None, [], 0)
  }

  function Post<C>(s: State<C>, kind: Event, delayMs: int): State<C> {
    s.(queue := s.queue + [Entry(kind, After(s.now, delayMs), Pending)])
  }

  /** `refreshNotchSize(_:)`: with both auxiliary areas the notch is measured; otherwise only `hasNotch` is cleared. */
  function RefreshNotchSize<C>(s: State<C>, screen: Screen): State<C> {
    if screen.auxiliaryTopLeftWidth.Some? && screen.auxiliaryTopRightWidth.Some? then
      s.(notchHeight := screen.safeAreaTop,
         notchWidth := screen.frame.size.width - screen.auxiliaryTopLeftWidth.value - screen.auxiliaryTopRightWidth.value + 10.0,
         hasNotch := true)
    else
      s.(hasNotch := false)
  }

  /** `initializeWindow()`: an existing window is only brought to the front; otherwise one is built on the main screen. */
  function InitializeWindow<C>(s: State<C>, mainScreen: Screen): State<C> {
    if s.window.Some? then s
    else
      var t := RefreshNotchSize(s, mainScreen);
      t.(window := Some(Window(t.nextHandle, if t.hasNotch then NotchView else NotchlessView)),
         openWindows := t.openWindows + {t.nextHandle},
         nextHandle := t.nextHandle + 1)
  }

  function DeinitializeWindow<C>(s: State<C>): State<C> {
    match s.window
    case None => s
    case Some(w) => s.(window := None, openWindows := s.openWindows - {w.handle})
  }

  /** `setContent(content:)`: the content is replaced and an existing window is re-rooted on a `NotchView`. */
  function SetContent<C>(s: State<C>, content: C): State<C> {
    s.(content := content,
       window := match s.window case None => None case Some(w) => Some(w.(root := NotchView)))
  }

  /** `show()`. */
  function Show<C>(s: State<C>, mainScreen: Screen): (State<C>, bool) {
    if s.isVisible then (s, false)
    else (Post(InitializeWindow(s.(queue := CancelSlot(s.queue, s.timer)), mainScreen), MakeVisible, 0), true)
  }

  /** `show(for:)`: `show()`, then an uncancellable `hide()` `timeMs` later, whether or not `show()` acted. */
  function ShowFor<C>(s: State<C>, mainScreen: Screen, timeMs: int): State<C> {
    Post(Show(s, mainScreen).0, TimedHide, timeMs)
  }

  /** `hide()`. */
  function Hide<C>(s: State<C>): (State<C>, bool) {
    if !s.isVisible then (s, false)
    else if s.isMouseInside then (Post(s, HoverRetry, HoverRetryDelayMs), false)
    else (Post(s.(isVisible := false, timer := Some(|s.queue|)), Teardown, AnimationDurationMs * 2), true)
  }

  /** `toggleVisibility()`. */
  function ToggleVisibility<C>(s: State<C>, mainScreen: Screen): State<C> {
    if s.isVisible then Hide(s).0 else Show(s, mainScreen).0
  }

  function SetMouseInside<C>(s: State<C>, hovering: bool): State<C> {
    s.(isMouseInside := hovering)
  }

  /** The main queue runs entry `e`; a cancelled entry does nothing. */
  function Fire<C>(s: State<C>, e: nat): State<C>
    requires e < |s.queue|
  {
    var entry := s.queue[e];
    var t := s.(queue := Run(s.queue, e), now := if s.now < entry.deadline then entry.deadline else s.now);
    if entry.status != Pending then t
    else
      match entry.kind
      case MakeVisible => t.(isVisible := true)
      case TimedHide => Hide(t).0
      case HoverRetry => Hide(t).0
      case Teardown => DeinitializeWindow(t)
  }

  function Advance<C>(s: State<C>, t: nat): State<C> {
    s.(now := t)
  }

  // ---------------------------------------------------------------------------------
  // Properties

  /** The measured width is the notch's width plus 10 points for its rounded top; `hasNotch` agrees with the screen. */
  lemma RefreshAgreesWithNotchSize<C>(s: State<C>, screen: Screen)
    ensures var r := RefreshNotchSize(s, screen);
      && (r.hasNotch <==> HasNotch(screen))
      && (HasNotch(screen) ==> r.notchWidth == NotchSize(screen).value.width + 10.0
                               && r.notchHeight == NotchSize(screen).value.height)
      && (!HasNotch(screen) ==> r.notchWidth == s.notchWidth && r.notchHeight == s.notchHeight)
      && r.(notchWidth := s.notchWidth, notchHeight := s.notchHeight, hasNotch := s.hasNotch) == s
  {
  }

  /** A panel is never duplicated: an existing one is reused, and a new one is the only panel open. */
  lemma InitializeWindowReusesPanel<C>(s: State<C>, mainScreen: Screen)
    requires Inv(s)
    ensures var r := InitializeWindow(s, mainScreen);
      && (s.window.Some? ==> r == s)
      && (s.window.None? ==> r.openWindows == {s.nextHandle}
                             && r.window == Some(Window(s.nextHandle, if HasNotch(mainScreen) then NotchView else NotchlessView)))
  {
    if s.window.None? {
      RefreshAgreesWithNotchSize(s, mainScreen);
    }
  }

  /** `show()` acts exactly when the notch is not visible, and then only posts `isVisible = true`. */
  lemma ShowOutcomes<C>(s: State<C>, mainScreen: Screen)
    requires Inv(s)
    ensures Show(s, mainScreen).1 <==> !s.isVisible
    ensures s.isVisible ==> Show(s, mainScreen).0 == s
    ensures !s.isVisible ==>
              var r := Show(s, mainScreen).0;
              && !r.isVisible && r.window.Some? && |r.openWindows| == 1
              && r.queue[|s.queue|] == Entry(MakeVisible, s.now, Pending)
              && (s.timer.Some? ==> r.queue[s.timer.value].status != Pending)
  {
    if !s.isVisible {
      InitializeWindowReusesPanel(s.(queue := CancelSlot(s.queue, s.timer)), mainScreen);
    }
  }

  /** `hide()` reports whether it started hiding: never while hidden, never with the mouse inside. */
  lemma HideOutcomes<C>(s: State<C>)
    ensures Hide(s).1 <==> s.isVisible && !s.isMouseInside
    ensures !s.isVisible ==> Hide(s).0 == s
    ensures s.isVisible && s.isMouseInside ==>
              Hide(s).0 == s.(queue := s.queue + [Entry(HoverRetry, s.now + 100, Pending)])
    ensures Hide(s).1 ==>
              && !Hide(s).0.isVisible && Hide(s).0.window == s.window && Hide(s).0.timer == Some(|s.queue|)
              && Hide(s).0.queue == s.queue + [Entry(Teardown, s.now + 800, Pending)]
  {
  }

  /** What `show()` does to the queue: nothing while visible, else invalidate the teardown and post `isVisible = true`. */
  lemma ShowQueue<C>(s: State<C>, mainScreen: Screen)
    ensures Show(s, mainScreen).0.queue ==
              if s.isVisible then s.queue else CancelSlot(s.queue, s.timer) + [Entry(MakeVisible, s.now, Pending)]
  {
  }

  /**
   * `show(for:)` hides are never cancelled: each call adds one more pending hide and leaves the
   * earlier ones pending, so an earlier call's hide can cut a later call's duration short.
   */
  lemma {:induction false} ShowForAddsHide<C>(s: State<C>, mainScreen: Screen, timeMs: int)
    requires Inv(s)
    ensures var r := ShowFor(s, mainScreen, timeMs);
      && LiveCount(r.queue, TimedHide) == LiveCount(s.queue, TimedHide) + 1
      && (forall i :: 0 <= i < |s.queue| && s.queue[i].kind == TimedHide ==> r.queue[i] == s.queue[i])
      && r.queue[|r.queue| - 1] == Entry(TimedHide, After(s.now, timeMs), Pending)
  {
    var q := Show(s, mainScreen).0.queue;
    ShowQueue(s, mainScreen);
    var timed := Entry(TimedHide, After(s.now, timeMs), Pending);
    assert ShowFor(s, mainScreen, timeMs).queue == q + [timed];
    LiveCountAppend(q, timed, TimedHide);
    if !s.isVisible {
      var c := CancelSlot(s.queue, s.timer);
      TimedHideCountUnchangedByCancel(s.queue, s.timer);
      LiveCountAppend(c, Entry(MakeVisible, s.now, Pending), TimedHide);
    }
  }

  /** Invalidating the teardown timer leaves the timed hides alone. */
  lemma {:induction false} TimedHideCountUnchangedByCancel(q: seq<Entry<Event>>, slot: Option<nat>)
    requires slot.Some? && slot.value < |q| ==> q[slot.value].kind != TimedHide
    ensures LiveCount(CancelSlot(q, slot), TimedHide) == LiveCount(q, TimedHide)
  {
    if slot.Some? && slot.value < |q| && q[slot.value].status == Pending {
      var r := CancelSlot(q, slot);
      assert r == q[slot.value := q[slot.value].(status := Cancelled)];
      LiveCountIgnoresOtherKinds(q, slot.value, Cancelled);
    }
  }

  /** Changing the status of an entry of another kind leaves the count of timed hides alone. */
  lemma {:induction false} LiveCountIgnoresOtherKinds(q: seq<Entry<Event>>, i: nat, st: Status)
    requires i < |q| && q[i].kind != TimedHide
    ensures LiveCount(q[i := q[i].(status := st)], TimedHide) == LiveCount(q, TimedHide)
  {
    var r := q[i := q[i].(status := st)];
    if i == |q| - 1 {
      assert r[..|r| - 1] == q[..|q| - 1];
    } else {
      assert r[..|r| - 1] == q[..|q| - 1][i := q[i].(status := st)];
      LiveCountIgnoresOtherKinds(q[..|q| - 1], i, st);
    }
  }

  /** A hover retry keeps re-posting itself while the mouse stays inside and starts the hide once it has left. */
  lemma HoverRetryTurn<C>(s: State<C>, e: nat)
    requires Inv(s) && IsNext(s.queue, e)
    requires s.queue[e].kind == HoverRetry && s.queue[e].status == Pending && s.isVisible
    ensures var r := Fire(s, e); var t := s.queue[e].deadline;
      && r.now == t && r.window == s.window && |r.queue| == |s.queue| + 1
      && (s.isMouseInside ==> r.isVisible && r.queue[|s.queue|] == Entry(HoverRetry, t + 100, Pending))
      && (!s.isMouseInside ==> !r.isVisible && r.queue[|s.queue|] == Entry(Teardown, t + 800, Pending))
  {
    assert NotBefore(s.queue, s.now);
  }

  /** `setContent` swaps in a `NotchView` even on a screen without a notch, where the window showed a `NotchlessView`. */
  lemma SetContentRerootsOnNotchView<C>(s: State<C>, content: C)
    ensures var r := SetContent(s, content);
      && r.content == content
      && (s.window.None? ==> r.window.None?)
      && (s.window.Some? ==> r.window == Some(Window(s.window.value.handle, NotchView)))
      && r.(content := s.content, window := s.window) == s
  {
  }

  /** `toggleVisibility` hides when visible and shows otherwise. */
  lemma ToggleOutcomes<C>(s: State<C>, mainScreen: Screen)
    requires Inv(s)
    ensures s.isVisible ==> ToggleVisibility(s, mainScreen) == Hide(s).0
    ensures !s.isVisible ==> ToggleVisibility(s, mainScreen).window.Some? && !ToggleVisibility(s, mainScreen).isVisible
  {
    if !s.isVisible {
      ShowOutcomes(s, mainScreen);
    }
  }

  /** A screen whose width is not measured: no auxiliary areas, so `hasNotch` becomes false. */
  const PlainScreen: Screen :=
    Screen(Rect(Point(0.0, 0.0), Size(1440.0, 900.0)), Rect(Point(0.0, 0.0), Size(1440.0, 875.0)), None, None, 0.0)

  /**
   * As in the newer controller, two `show()` calls before the first deferred turn both act, and
   * the teardown of a `hide()` between the two deferred turns closes the window of a visible notch.
   */
  lemma DoubleShowOutlivesTeardown()
    ensures var s1 := Show(Show(Initial(0), PlainScreen).0, PlainScreen);
      var s2 := Hide(Fire(s1.0, 0));
      var s3 := Fire(s2.0, 1);
      && s1.1 && Show(Initial(0), PlainScreen).1
      && s2.1 && s3.isVisible && IsNext(s3.queue, 2)
      && Fire(s3, 2).isVisible && Fire(s3, 2).window.None?
      && LiveCount(Hide(s3).0.queue, Teardown) == 2
  {
    var s1 := Show(Show(Initial(0), PlainScreen).0, PlainScreen).0;
    assert s1.queue == [Entry(MakeVisible, 0, Pending), Entry(MakeVisible, 0, Pending)];
    var s3 := Fire(Hide(Fire(s1, 0)).0, 1);
    assert s3.queue == [Entry(MakeVisible, 0, Fired), Entry(MakeVisible, 0, Fired), Entry(Teardown, 800, Pending)];
    var q4 := Hide(s3).0.queue;
    assert q4 == s3.queue + [Entry(Teardown, 800, Pending)];
    LiveCountAppend(s3.queue, Entry(Teardown, 800, Pending), Teardown);
    assert s3.queue == [Entry(MakeVisible, 0, Fired), Entry(MakeVisible, 0, Fired)] + [Entry(Teardown, 800, Pending)];
    LiveCountAppend([Entry(MakeVisible, 0, Fired), Entry(MakeVisible, 0, Fired)], Entry(Teardown, 800, Pending), Teardown);
  }

  // ---------------------------------------------------------------------------------
  // The invariant

  lemma InitialInv<C>(content: C)
    ensures Inv(Initial(content))
  {
  }

  lemma ShowKeepsInv<C>(s: State<C>, mainScreen: Screen)
    requires Inv(s)
    ensures Inv(Show(s, mainScreen).0)
  {
    if !s.isVisible {
      var t := s.(queue := CancelSlot(s.queue, s.timer));
      assert Inv(t);
      assert Inv(InitializeWindow(t, mainScreen));
    }
  }

  lemma ShowForKeepsInv<C>(s: State<C>, mainScreen: Screen, timeMs: int)
    requires Inv(s)
    ensures Inv(ShowFor(s, mainScreen, timeMs))
  {
    ShowKeepsInv(s, mainScreen);
  }

  lemma HideKeepsInv<C>(s: State<C>)
    requires Inv(s)
    ensures Inv(Hide(s).0)
  {
  }

  lemma FireKeepsInv<C>(s: State<C>, e: nat)
    requires Inv(s) && IsNext(s.queue, e)
    ensures Inv(Fire(s, e))
  {
    var entry := s.queue[e];
    var t := s.(queue := Run(s.queue, e), now := if s.now < entry.deadline then entry.deadline else s.now);
    assert Inv(t);
    if entry.status == Pending && (entry.kind == TimedHide || entry.kind == HoverRetry) {
      HideKeepsInv(t);
    }
  }

  lemma AdvanceKeepsInv<C>(s: State<C>, t: nat)
    requires Inv(s) && s.now <= t && NotBefore(s.queue, t)
    ensures Inv(Advance(s, t))
  {
  }

  lemma ToggleKeepsInv<C>(s: State<C>, mainScreen: Screen)
    requires Inv(s)
    ensures Inv(ToggleVisibility(s, mainScreen))
  {
    if s.isVisible { HideKeepsInv(s); } else { ShowKeepsInv(s, mainScreen); }
  }

  lemma SetContentKeepsInv<C>(s: State<C>, content: C)
    requires Inv(s)
    ensures Inv(SetContent(s, content))
  {
  }
}
