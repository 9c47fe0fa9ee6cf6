/**
 * The older `DynamicNotch` class, `DynamicNotch.swift` at the top of the package, with its
 * fields updated in place; each method performs the matching `LegacyMachine` transition.
 * `mainScreen` stands for `NSScreen.main`.
 */
module LegacyNotch {
  import opened Wrappers
  import opened Screens
  import opened MainQueue
  import opened Surface
  import L = LegacyMachine

  class DynamicNotch<C> {
    var content: C
    var windowController: Option<Window>
    /** The window server's open panels; kept by the model to state that no panel is leaked. */
    var openWindows: set<Handle>
    var nextHandle: Handle
    var isMouseInside: bool
    var isVisible: bool
    var notchWidth: real
    var notchHeight: real
    var hasNotch: bool
    var timer: Option<nat>
    var queue: seq<Entry<L.Event>>
    var now: nat

    function Snapshot(): L.State<C>
      reads this
    {
      L.State(windowController, openWindows, nextHandle, content, isMouseInside, isVisible,
              notchWidth, notchHeight, hasNotch, timer, queue, now)
    }

    ghost predicate Valid()
      reads this
    {
      L.Inv(Snapshot())
    }

    /** `init(content:)`. */
    constructor (content: C)
      ensures Valid() && Snapshot() == L.Initial(content)
    {
      this.content := content;
      windowController := None;
      openWindows := {};
      nextHandle := 0;
      isMouseInside := false;
      isVisible := false;
      notchWidth := 0.0;
      notchHeight := 0.0;
      hasNotch := true;
      timer := None;
      queue := [];
      now := 0;
      L.InitialInv(content);
    }

    /** `setContent(content:)`. */
    method SetContent(content: C)
      requires Valid()
      modifies this
      ensures Valid() && Snapshot() == L.SetContent(old(Snapshot()), content)
    {
      L.SetContentKeepsInv(Snapshot(), content);
      this.content := content;
      match windowController
      case None =>
      case Some(w) => windowController := Some(w.(root := NotchView));
    }

    method RefreshNotchSize(screen: Screen)
      modifies this
      ensures Snapshot() == L.RefreshNotchSize(old(Snapshot()), screen)
    {
      if screen.auxiliaryTopLeftWidth.Some? && screen.auxiliaryTopRightWidth.Some? {
        var topLeftNotchPadding := screen.auxiliaryTopLeftWidth.value;
        var topRightNotchPadding := screen.auxiliaryTopRightWidth.value;
        notchHeight := screen.safeAreaTop;
        notchWidth := screen.frame.size.width - topLeftNotchPadding - topRightNotchPadding + 10.0;
        hasNotch := true;
      } else {
        hasNotch := false;
      }
    }

    method InitializeWindow(mainScreen: Screen)
      modifies this
      ensures Snapshot() == L.InitializeWindow(old(Snapshot()), mainScreen)
    {
      if windowController.Some? {
        return;
      }
      RefreshNotchSize(mainScreen);
      var view := if hasNotch then NotchView else NotchlessView;
      windowController := Some(Window(nextHandle, view));
      openWindows := openWindows + {nextHandle};
      nextHandle := nextHandle + 1;
    }

    method DeinitializeWindow()
      modifies this
      ensures Snapshot() == L.DeinitializeWindow(old(Snapshot()))
    {
      match windowController
      case None =>
      case Some(w) =>
        openWindows := openWindows - {w.handle};
        windowController := None;
    }

    /** `show()`. */
    method Show(mainScreen: Screen) returns (shown: bool)
      requires Valid()
      modifies this
      ensures Valid()
      ensures (Snapshot(), shown) == L.Show(old(Snapshot()), mainScreen)
    {
      L.ShowKeepsInv(Snapshot(), mainScreen);
      if isVisible {
        return false;
      }
      queue := CancelSlot(queue, timer);
      InitializeWindow(mainScreen);
      queue := queue + [Entry(L.MakeVisible, After(now, 0), Pending)];
      return true;
    }

    /** `show(for:)`, with the time in milliseconds. */
    method ShowFor(mainScreen: Screen, timeMs: int)
      requires Valid()
      modifies this
      ensures Valid() && Snapshot() == L.ShowFor(old(Snapshot()), mainScreen, timeMs)
    {
      L.ShowForKeepsInv(Snapshot(), mainScreen, timeMs);
      var _ := Show(mainScreen);
      queue := queue + [Entry(L.TimedHide, After(now, timeMs), Pending)];
    }

    /** `hide()`. */
    method Hide() returns (hidden: bool)
      requires Valid()
      modifies this
      ensures Valid()
      ensures (Snapshot(), hidden) == L.Hide(old(Snapshot()))
    {
      L.HideKeepsInv(Snapshot());
      hidden := HideStep();
    }

    method HideStep() returns (hidden: bool)
      modifies this
      ensures (Snapshot(), hidden) == L.Hide(old(Snapshot()))
    {
      if !isVisible {
        return false;
      }
      if isMouseInside {
        queue := queue + [Entry(L.HoverRetry, After(now, L.HoverRetryDelayMs), Pending)];
        return false;
      }
      isVisible := false;
      timer := Some(|queue|);
      queue := queue + [Entry(L.Teardown, After(now, L.AnimationDurationMs * 2), Pending)];
      return true;
    }

    /** `toggleVisibility()`. */
    method ToggleVisibility(mainScreen: Screen)
      requires Valid()
      modifies this
      ensures Valid() && Snapshot() == L.ToggleVisibility(old(Snapshot()), mainScreen)
    {
      if isVisible {
        var _ := Hide();
      } else {
        var _ := Show(mainScreen);
      }
    }

    /** The `onHover` handler of the hosted view. */
    method SetMouseInside(hovering: bool)
      requires Valid()
      modifies this
      ensures Valid() && Snapshot() == L.SetMouseInside(old(Snapshot()), hovering)
    {
      isMouseInside := hovering;
    }

    /** The main queue runs its next entry, `e`. */
    method Fire(e: nat)
      requires Valid() && IsNext(queue, e)
      modifies this
      ensures Valid() && Snapshot() == L.Fire(old(Snapshot()), e)
    {
      L.FireKeepsInv(Snapshot(), e);
      var entry := queue[e];
      queue := Run(queue, e);
      if now < entry.deadline {
        now := entry.deadline;
      }
      if entry.status != Pending {
        return;
      }
      match entry.kind
      case MakeVisible => isVisible := true;
      case TimedHide => var _ := HideStep();
      case HoverRetry => var _ := HideStep();
      case Teardown => DeinitializeWindow();
    }

    /** Time passes to `t`, before anything on the queue is due. */
    method Advance(t: nat)
      requires Valid() && now <= t && NotBefore(queue, t)
      modifies this
      ensures Valid() && Snapshot() == L.Advance(old(Snapshot()), t)
    {
      L.AdvanceKeepsInv(Snapshot(), t);
      now := t;
    }
  }
}
