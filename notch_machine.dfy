/**
 * The visibility state machine of `DynamicNotch/DynamicNotch.swift`, as pure transitions on a
 * snapshot of the controller. The class `Notch.DynamicNotch` is proved to follow these
 * transitions; the lemmas below state what they guarantee.
 */
module NotchMachine {
  import opened Wrappers
  import opened Screens
  import opened NotchStyles
  import opened MainQueue
  import opened Surface
  import opened UI
  import NotchContentViews

  /** The closures the controller leaves on the main queue. */
  datatype Event =
    | MakeVisible  // `DispatchQueue.main.async { self.isVisible = true }` in `show`
    | AutoHide     // the `DispatchWorkItem { self.hide() }` of `scheduleHide`
    | HoverRetry   // `asyncAfter(deadline: .now() + 0.1) { self.hide() }` in `hide`
    | Teardown     // the `Timer` that calls `deinitializeWindow()` after `maxAnimationDuration`

  /** The hover polling interval, 0.1 s. */
  const HoverRetryDelayMs: nat := 100
  /** `maxAnimationDuration`, 0.8 s. */
  const MaxAnimationDurationMs: nat := 800

  /** A Swift `Duration` as its `components`; only whole `seconds` are read by `show`. */
  datatype Duration = Duration(seconds: int, attoseconds: int)
  const ZeroDuration: Duration := Duration(0, 0)

  /** The controller's fields, the window server's open panels, and the main queue with its clock. */
  datatype State<C> = State(
    window: Option<Window>,
    openWindows: set<Handle>,
    nextHandle: Handle,
    content: C,
    contentID: UUID,
    isVisible: bool,
    notchSize: Size,
    isMouseInside: bool,
    timer: Option<nat>,
    workItem: Option<nat>,
    notchStyle: NotchStyle,
    queue: seq<Entry<Event>>,
    now: nat)

  /**
   * What every transition keeps: the only open panel is the one the controller holds,
   * `workItem` and `timer` name entries of their kind, no auto-hide other than `workItem`
   * is pending, and nothing waiting is overdue.
   */
  ghost predicate Inv<C>(s: State<C>) {
    && (s.window.Some? ==> s.window.value.handle < s.nextHandle)
    && s.openWindows == Held(s.window)
    && SlotOfKind(s.queue, s.workItem, AutoHide)
    && SlotOfKind(s.queue, s.timer, Teardown)
    && SoleLive(s.queue, AutoHide, s.workItem)
    && NotBefore(s.queue, s.now)
  }

  /** `init(contentID:style:content:)`. */
  function Initial<C>(contentID: UUID, style: NotchStyle, content: C): State<C> {
    State(None, {}, 0, content, contentID, false, ZeroSize, false, None, None, style, [], 0)
  }

  /** Posts a closure of the given kind `delayMs` from now. */
  function Post<C>(s: State<C>, kind: Event, delayMs: int): State<C> {
    s.(queue := s.queue + [Entry(kind, After(s.now, delayMs), Pending)])
  }

  /** `deinitializeWindow()`: nothing without a window; otherwise close it and forget it. */
  function DeinitializeWindow<C>(s: State<C>): State<C> {
    match s.window
    case None => s
    case Some(w) => s.(window := None, openWindows := s.openWindows - {w.handle})
  }

  /** The root view `initializeWindow` hosts: decided by the style, and for `.auto` by the screen. */
  function SelectRoot(style: NotchStyle, screen: Screen): (v: RootView)
    ensures v == NotchView <==> IsNotch(style) || (style.Auto? && HasNotch(screen))
  {
    match style
    case Notch(_, _) => NotchView
    case Floating(_) => NotchlessView
    case Auto => if HasNotch(screen) then NotchView else NotchlessView
  }

  /** `initializeWindow(screen:)`: close any window first, size the notch after the screen, open a new panel. */
  function InitializeWindow<C>(s: State<C>, screen: Screen): State<C> {
    var t := DeinitializeWindow(s);
    t.(notchSize := NotchFrameWithMenubarAsBackup(screen).size,
       window := Some(Window(t.nextHandle, SelectRoot(t.notchStyle, screen))),
       openWindows := t.openWindows + {t.nextHandle},
       nextHandle := t.nextHandle + 1)
  }

  /** The nested `scheduleHide(_:)`: cancel the stored work item, store and post a new one. */
  function ScheduleHide<C>(s: State<C>, seconds: int): State<C> {
    var q := CancelSlot(s.queue, s.workItem);
    s.(queue := q + [Entry(AutoHide, After(s.now, seconds * 1000), Pending)], workItem := Some(|q|))
  }

  /** `show(on:for:)`. */
  function Show<C>(s: State<C>, screen: Screen, duration: Duration): State<C> {
    var seconds := duration.seconds;
    if s.isVisible then
      if seconds > 0 then ScheduleHide(s, seconds) else s
    else
      var w := InitializeWindow(s.(queue := CancelSlot(s.queue, s.timer)), screen);
      var v := Post(w, MakeVisible, 0);
      if seconds != 0 then ScheduleHide(v, seconds) else v
  }

  /** `hide(ignoreMouse:)`. */
  function Hide<C>(s: State<C>, ignoreMouse: bool): State<C> {
    if !s.isVisible then s
    else if !ignoreMouse && s.isMouseInside then Post(s, HoverRetry, HoverRetryDelayMs)
    else Post(s.(isVisible := false, timer := Some(|s.queue|)), Teardown, MaxAnimationDurationMs)
  }

  /** `toggle()`: `hide()` when visible, else `show()` with its defaults. */
  function Toggle<C>(s: State<C>, defaultScreen: Screen): State<C> {
    if s.isVisible then Hide(s, false) else Show(s, defaultScreen, ZeroDuration)
  }

  /** `setContent(contentID:content:)`: the passed ID is ignored and `minted`, a newly drawn `UUID`, is used. */
  function SetContent<C>(s: State<C>, content: C, minted: UUID): State<C> {
    s.(content := content, contentID := minted)
  }

  /** The `onHover` of the hosted views records whether the mouse is inside. */
  function SetMouseInside<C>(s: State<C>, hovering: bool): State<C> {
    s.(isMouseInside := hovering)
  }

  /** The `didChangeScreenParametersNotification` subscription: a new window on the first screen, if any. */
  function ScreenParametersChanged<C>(s: State<C>, screens: seq<Screen>): State<C> {
    if |screens| == 0 then s else InitializeWindow(s, screens[0])
  }

  /** The main queue runs entry `e`; a cancelled entry does nothing. */
  function Fire<C>(s: State<C>, e: nat): State<C>
    requires e < |s.queue|
  {
    var entry := s.queue[e];
    var t := s.(queue := Run(s.queue, e), now := if s.now < entry.deadline then entry.deadline else s.now);
    if entry.status != Pending then t
    else
      match entry.kind
      case MakeVisible => t.(isVisible := true)
      case AutoHide => Hide(t, false)
      case HoverRetry => Hide(t, false)
      case Teardown => DeinitializeWindow(t)
  }

  /** Time passes with nothing on the queue due. */
  function Advance<C>(s: State<C>, t: nat): State<C> {
    s.(now := t)
  }

  /** `checkIfMouseIsInNotch()`: the first screen holding the mouse has it inside its (backup) notch frame. */
  function CheckIfMouseIsInNotch(screens: seq<Screen>, mouse: Point): (r: bool)
    ensures r <==> exists i :: IsFirstWithMouse(screens, mouse, i) && Contains(NotchFrameWithMenubarAsBackup(screens[i]), mouse)
  {
    match ScreenWithMouse(screens, mouse)
    case None => false
    case Some(screen) =>
      var r := Contains(NotchFrameWithMenubarAsBackup(screen), mouse);
      assert r ==> exists i :: IsFirstWithMouse(screens, mouse, i) && Contains(NotchFrameWithMenubarAsBackup(screens[i]), mouse);
      assert (exists i :: IsFirstWithMouse(screens, mouse, i) && Contains(NotchFrameWithMenubarAsBackup(screens[i]), mouse)) ==> r by {
        forall i | IsFirstWithMouse(screens, mouse, i) && Contains(NotchFrameWithMenubarAsBackup(screens[i]), mouse)
          ensures r
        {
          var k :| IsFirstWithMouse(screens, mouse, k) && screens[k] == screen;
          FirstWithMouseIsUnique(screens, mouse, i, k);
        }
      }
      r
  }

  // ---------------------------------------------------------------------------------
  // Windows

  /** Closing twice is closing once; without a window nothing happens; afterwards no panel is open. */
  lemma DeinitializeWindowIsIdempotent<C>(s: State<C>)
    requires Inv(s)
    ensures DeinitializeWindow(DeinitializeWindow(s)) == DeinitializeWindow(s)
    ensures s.window.None? ==> DeinitializeWindow(s) == s
    ensures DeinitializeWindow(s).window.None? && DeinitializeWindow(s).openWindows == {}
  {
  }

  /** `initializeWindow` closes the old panel before opening a new one, so exactly one panel is open. */
  lemma InitializeWindowLeavesOnePanel<C>(s: State<C>, screen: Screen)
    requires Inv(s)
    ensures var r := InitializeWindow(s, screen);
      && r.window == Some(Window(s.nextHandle, SelectRoot(s.notchStyle, screen)))
      && r.openWindows == {s.nextHandle}
      && (s.window.Some? ==> s.window.value.handle !in r.openWindows)
      && r.notchSize == NotchFrameWithMenubarAsBackup(screen).size
      && r.isVisible == s.isVisible && r.queue == s.queue
  {
  }

  /** `.auto` resolves per screen to the notch or the floating preset, and otherwise the choice agrees with `NotchContentView`. */
  lemma RootSelectionAgreesWithContentView(style: NotchStyle, screen: Screen)
    ensures SelectRoot(Auto, screen) == SelectRoot(if HasNotch(screen) then NotchPreset else FloatingPreset, screen)
    ensures !style.Auto? ==> SelectRoot(style, screen) == NotchContentViews.ChosenView(style)
  {
  }

  // ---------------------------------------------------------------------------------
  // Auto-hide

  /** `scheduleHide` is last-writer-wins: the new work item is the only pending auto-hide. */
  lemma ScheduleHideReplacesPending<C>(s: State<C>, seconds: int)
    requires Inv(s)
    ensures var r := ScheduleHide(s, seconds);
      && r.workItem == Some(|s.queue|)
      && r.queue[|s.queue|] == Entry(AutoHide, After(s.now, seconds * 1000), Pending)
      && (s.workItem.Some? ==> r.queue[s.workItem.value].status != Pending)
      && LiveCount(r.queue, AutoHide) == 1
  {
    var r := ScheduleHide(s, seconds);
    assert SoleLive(r.queue, AutoHide, r.workItem);
    SoleLiveCount(r.queue, AutoHide, r.workItem);
    var q := CancelSlot(s.queue, s.workItem);
    assert r.queue == q + [r.queue[|s.queue|]];
    LiveCountAppend(q, r.queue[|s.queue|], AutoHide);
    assert SoleLive(q, AutoHide, None);
    SoleLiveCount(q, AutoHide, None);
  }

  /** `show` while visible never touches the window; a positive whole-second duration restarts the auto-hide, anything else changes nothing. */
  lemma ShowWhileVisible<C>(s: State<C>, screen: Screen, d: Duration)
    requires Inv(s) && s.isVisible
    ensures var r := Show(s, screen, d);
      && r.window == s.window && r.openWindows == s.openWindows && r.isVisible
      && (d.seconds <= 0 ==> r == s)
      && (d.seconds > 0 ==> r.workItem == Some(|s.queue|) && |r.queue| == |s.queue| + 1
                            && r.queue[|s.queue|] == Entry(AutoHide, s.now + 1000 * d.seconds, Pending)
                            && LiveCount(r.queue, AutoHide) == 1)
  {
    if d.seconds > 0 {
      ScheduleHideReplacesPending(s, d.seconds);
    }
  }

  /**
   * `show` while hidden invalidates the teardown, opens a new panel and only posts
   * `isVisible = true`; a zero-second duration leaves an earlier auto-hide as it was.
   */
  lemma ShowWhileHidden<C>(s: State<C>, screen: Screen, d: Duration)
    requires Inv(s) && !s.isVisible
    ensures var r := Show(s, screen, d);
      && !r.isVisible
      && (s.timer.Some? ==> r.queue[s.timer.value].status != Pending)
      && r.window == Some(Window(s.nextHandle, SelectRoot(s.notchStyle, screen)))
      && r.openWindows == {s.nextHandle}
      && r.queue[|s.queue|] == Entry(MakeVisible, s.now, Pending)
      && (d.seconds == 0 ==> r.workItem == s.workItem && |r.queue| == |s.queue| + 1
                             && (forall i :: 0 <= i < |s.queue| && s.timer != Some(i) ==> r.queue[i] == s.queue[i]))
      && (d.seconds != 0 ==> r.workItem == Some(|s.queue| + 1)
                             && r.queue[|s.queue| + 1] == Entry(AutoHide, After(s.now, d.seconds * 1000), Pending))
  {
  }

  /** Because `isVisible` is set on a later turn, a `hide` right after `show` from hidden does nothing. */
  lemma HideBeforeDeferredTurnIsNoOp<C>(s: State<C>, screen: Screen, d: Duration, ignoreMouse: bool)
    requires !s.isVisible
    ensures Hide(Show(s, screen, d), ignoreMouse) == Show(s, screen, d)
  {
  }

  /** The posted `isVisible = true` is due at once, and running it makes the notch visible in the window just opened. */
  lemma DeferredTurnMakesVisible<C>(s: State<C>, screen: Screen, d: Duration)
    requires Inv(s) && !s.isVisible
    ensures var r := Show(s, screen, d);
      && IsNext(r.queue, |s.queue|)
      && Fire(r, |s.queue|).isVisible
      && Fire(r, |s.queue|).window == r.window
  {
    var r := Show(s, screen, d);
    ShowKeepsInv(s, screen, d);
    assert r.queue[|s.queue|] == Entry(MakeVisible, s.now, Pending);
    forall j | Waiting(r.queue, j)
      ensures r.queue[|s.queue|].deadline <= r.queue[j].deadline
    {
      assert NotBefore(r.queue, r.now);
    }
  }

  // ---------------------------------------------------------------------------------
  // Hide and the hover retry loop

  /**
   * `hide` does nothing while hidden; with the mouse inside (and the mouse not ignored) it
   * changes nothing but re-posts itself 100 ms later; otherwise it hides and schedules the
   * teardown 800 ms later, leaving the window open until then.
   */
  lemma HideOutcomes<C>(s: State<C>, ignoreMouse: bool)
    ensures !s.isVisible ==> Hide(s, ignoreMouse) == s
    ensures s.isVisible && !ignoreMouse && s.isMouseInside ==>
              Hide(s, ignoreMouse) == s.(queue := s.queue + [Entry(HoverRetry, s.now + 100, Pending)])
    ensures s.isVisible && (ignoreMouse || !s.isMouseInside) ==>
              var r := Hide(s, ignoreMouse);
              && !r.isVisible && r.window == s.window && r.timer == Some(|s.queue|)
              && r.queue == s.queue + [Entry(Teardown, s.now + 800, Pending)]
  {
  }

  /** A pending hover retry keeps re-posting itself while the mouse stays inside and hides once it has left. */
  lemma HoverRetryTurn<C>(s: State<C>, e: nat)
    requires Inv(s) && IsNext(s.queue, e)
    requires s.queue[e].kind == HoverRetry && s.queue[e].status == Pending && s.isVisible
    ensures var r := Fire(s, e); var t := s.queue[e].deadline;
      && r.now == t && r.window == s.window && |r.queue| == |s.queue| + 1
      && (s.isMouseInside ==> r.isVisible && r.queue[|s.queue|] == Entry(HoverRetry, t + 100, Pending))
      && (!s.isMouseInside ==> !r.isVisible && r.timer == Some(|s.queue|)
                               && r.queue[|s.queue|] == Entry(Teardown, t + 800, Pending))
  {
    assert NotBefore(s.queue, s.now);
  }

  /** A cancelled work item or invalidated timer only leaves the queue; no controller field changes. */
  lemma CancelledEntryIsNoOp<C>(s: State<C>, e: nat)
    requires e < |s.queue| && s.queue[e].status == Cancelled
    ensures Fire(s, e) == s.(queue := Run(s.queue, e), now := Fire(s, e).now)
  {
  }

  /** A live teardown closes the window whatever `isVisible` says. */
  lemma TeardownClosesWindow<C>(s: State<C>, e: nat)
    requires Inv(s) && IsNext(s.queue, e)
    requires s.queue[e].kind == Teardown && s.queue[e].status == Pending
    ensures Fire(s, e).window.None? && Fire(s, e).openWindows == {}
    ensures Fire(s, e).isVisible == s.isVisible
  {
  }

  // ---------------------------------------------------------------------------------
  // Other entry points

  /** `toggle` hides when visible and otherwise shows on the default screen for no fixed time. */
  lemma ToggleOutcomes<C>(s: State<C>, screen: Screen)
    requires Inv(s)
    ensures s.isVisible ==> !Toggle(s, screen).isVisible || (s.isMouseInside && |Toggle(s, screen).queue| == |s.queue| + 1)
    ensures !s.isVisible ==> Toggle(s, screen).window.Some? && Toggle(s, screen).workItem == s.workItem
  {
  }

  /** `setContent` replaces the content and the ID and nothing else. */
  lemma SetContentReplacesOnlyContent<C>(s: State<C>, content: C, minted: UUID)
    ensures SetContent(s, content, minted).content == content && SetContent(s, content, minted).contentID == minted
    ensures SetContent(s, content, minted).(content := s.content, contentID := s.contentID) == s
  {
  }

  /** A screen change rebuilds the window on the first screen even while hidden, and never changes visibility. */
  lemma ScreenChangeRebuildsWindow<C>(s: State<C>, screens: seq<Screen>)
    requires Inv(s)
    ensures |screens| == 0 ==> ScreenParametersChanged(s, screens) == s
    ensures |screens| > 0 ==>
              var r := ScreenParametersChanged(s, screens);
              && r.window == Some(Window(s.nextHandle, SelectRoot(s.notchStyle, screens[0])))
              && r.openWindows == {s.nextHandle}
              && r.notchSize == NotchFrameWithMenubarAsBackup(screens[0]).size
              && r.isVisible == s.isVisible
  {
  }

  // ---------------------------------------------------------------------------------
  // The invariant

  lemma InitialInv<C>(contentID: UUID, style: NotchStyle, content: C)
    ensures Inv(Initial(contentID, style, content))
  {
  }

  lemma ScheduleHideKeepsInv<C>(s: State<C>, seconds: int)
    requires Inv(s)
    ensures Inv(ScheduleHide(s, seconds))
  {
  }

  lemma InitializeWindowKeepsInv<C>(s: State<C>, screen: Screen)
    requires Inv(s)
    ensures Inv(InitializeWindow(s, screen))
  {
  }

  lemma ShowKeepsInv<C>(s: State<C>, screen: Screen, d: Duration)
    requires Inv(s)
    ensures Inv(Show(s, screen, d))
  {
    if !s.isVisible {
      var t := s.(queue := CancelSlot(s.queue, s.timer));
      assert Inv(t);
      InitializeWindowKeepsInv(t, screen);
      var v := Post(InitializeWindow(t, screen), MakeVisible, 0);
      assert Inv(v);
      if d.seconds != 0 {
        ScheduleHideKeepsInv(v, d.seconds);
      }
    } else if d.seconds > 0 {
      ScheduleHideKeepsInv(s, d.seconds);
    }
  }

  lemma HideKeepsInv<C>(s: State<C>, ignoreMouse: bool)
    requires Inv(s)
    ensures Inv(Hide(s, ignoreMouse))
  {
  }

  lemma FireKeepsInv<C>(s: State<C>, e: nat)
    requires Inv(s) && IsNext(s.queue, e)
    ensures Inv(Fire(s, e))
  {
    var entry := s.queue[e];
    var t := s.(queue := Run(s.queue, e), now := if s.now < entry.deadline then entry.deadline else s.now);
    assert Inv(t);
    if entry.status == Pending && (entry.kind == AutoHide || entry.kind == HoverRetry) {
      HideKeepsInv(t, false);
    }
  }

  lemma AdvanceKeepsInv<C>(s: State<C>, t: nat)
    requires Inv(s) && s.now <= t && NotBefore(s.queue, t)
    ensures Inv(Advance(s, t))
  {
  }

  lemma ToggleKeepsInv<C>(s: State<C>, screen: Screen)
    requires Inv(s)
    ensures Inv(Toggle(s, screen))
  {
    if s.isVisible { HideKeepsInv(s, false); } else { ShowKeepsInv(s, screen, ZeroDuration); }
  }

  lemma ScreenChangeKeepsInv<C>(s: State<C>, screens: seq<Screen>)
    requires Inv(s)
    ensures Inv(ScreenParametersChanged(s, screens))
  {
    if |screens| > 0 { InitializeWindowKeepsInv(s, screens[0]); }
  }

  // ---------------------------------------------------------------------------------
  // Two traces

  /** A screen without a notch, 1440 x 900 with a 25-point menu bar. */
  const PlainScreen: Screen :=
    Screen(Rect(Point(0.0, 0.0), Size(1440.0, 900.0)), Rect(Point(0.0, 0.0), Size(1440.0, 875.0)), None, None, 0.0)

  /**
   * Showing for 4 s, then again for 4 s two seconds later, moves the hide to 6 s: the first
   * work item is cancelled, so its turn at 4 s leaves the notch visible, and the second hides it.
   */
  lemma ShowAgainPostponesHide()
    ensures var s1 := Show(Initial(0, NotchPreset, 0), PlainScreen, Duration(4, 0));
      var s3 := Show(Advance(Fire(s1, 0), 2000), PlainScreen, Duration(4, 0));
      var s4 := Fire(s3, 1);
      && s1.queue == [Entry(MakeVisible, 0, Pending), Entry(AutoHide, 4000, Pending)]
      && s3.queue == [Entry(MakeVisible, 0, Fired), Entry(AutoHide, 4000, Cancelled), Entry(AutoHide, 6000, Pending)]
      && IsNext(s3.queue, 1) && s4.isVisible && s4.now == 4000
      && IsNext(s4.queue, 2) && !Fire(s4, 2).isVisible && Fire(s4, 2).now == 6000
  {
    var s1 := Show(Initial(0, NotchPreset, 0), PlainScreen, Duration(4, 0));
    var s3 := Show(Advance(Fire(s1, 0), 2000), PlainScreen, Duration(4, 0));
    assert s3.queue == [Entry(MakeVisible, 0, Fired), Entry(AutoHide, 4000, Cancelled), Entry(AutoHide, 6000, Pending)];
    var s4 := Fire(s3, 1);
    assert s4.queue == [Entry(MakeVisible, 0, Fired), Entry(AutoHide, 4000, Fired), Entry(AutoHide, 6000, Pending)];
  }

  /**
   * Two `show` calls before the first deferred turn leave two `isVisible = true` closures;
   * a `hide` between them starts a teardown that the second closure does not cancel, so the
   * teardown later closes the window of a notch that claims to be visible.
   */
  lemma DoubleShowOutlivesTeardown()
    ensures var s1 := Show(Show(Initial(0, NotchPreset, 0), PlainScreen, ZeroDuration), PlainScreen, ZeroDuration);
      var s2 := Hide(Fire(s1, 0), false);
      var s3 := Fire(s2, 1);
      && s1.queue == [Entry(MakeVisible, 0, Pending), Entry(MakeVisible, 0, Pending)]
      && !s2.isVisible && s2.queue[2] == Entry(Teardown, 800, Pending)
      && s3.isVisible && IsNext(s3.queue, 2)
      && Fire(s3, 2).isVisible && Fire(s3, 2).window.None?
      && LiveCount(Hide(s3, false).queue, Teardown) == 2
  {
    var s1 := Show(Show(Initial(0, NotchPreset, 0), PlainScreen, ZeroDuration), PlainScreen, ZeroDuration);
    assert s1.queue == [Entry(MakeVisible, 0, Pending), Entry(MakeVisible, 0, Pending)];
    var s3 := Fire(Hide(Fire(s1, 0), false), 1);
    assert s3.queue == [Entry(MakeVisible, 0, Fired), Entry(MakeVisible, 0, Fired), Entry(Teardown, 800, Pending)];
    assert forall j :: Waiting(s3.queue, j) ==> j == 2;
    var q4 := Hide(s3, false).queue;
    assert q4 == s3.queue + [Entry(Teardown, 800, Pending)];
    LiveCountAppend(s3.queue, Entry(Teardown, 800, Pending), Teardown);
    assert s3.queue == [Entry(MakeVisible, 0, Fired), Entry(MakeVisible, 0, Fired)] + [Entry(Teardown, 800, Pending)];
    LiveCountAppend([Entry(MakeVisible, 0, Fired), Entry(MakeVisible, 0, Fired)], Entry(Teardown, 800, Pending), Teardown);
  }
}
