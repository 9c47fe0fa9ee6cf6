/**
 * `DynamicNotch`, the controller class of `DynamicNotch/DynamicNotch.swift`, with its fields
 * updated in place. Each method is proved to perform the matching transition of
 * `NotchMachine`, and to keep `NotchMachine.Inv`.
 */
module Notch {
  import opened Wrappers
  import opened Screens
  import opened NotchStyles
  import opened MainQueue
  import opened Surface
  import opened UI
  import M = NotchMachine

  class DynamicNotch<C> {
    var windowController: Option<Window>
    /** The window server's open panels; kept by the model to state that no panel is leaked. */
    var openWindows: set<Handle>
    var nextHandle: Handle
    var content: C
    var contentID: UUID
    var isVisible: bool
    var notchSize: Size
    var isMouseInside: bool
    /** The pending teardown `Timer`, as a queue index. */
    var timer: Option<nat>
    /** The pending auto-hide `DispatchWorkItem`, as a queue index. */
    var workItem: Option<nat>
    const notchStyle: NotchStyle
    /** The main queue and its clock, in milliseconds. */
    var queue: seq<Entry<M.Event>>
    var now: nat

    function Snapshot(): M.State<C>
      reads this
    {
      M.State(windowController, openWindows, nextHandle, content, contentID, isVisible, notchSize,
              isMouseInside, timer, workItem, notchStyle, queue, now)
    }

    ghost predicate Valid()
      reads this
    {
      M.Inv(Snapshot())
    }

    /** `init(contentID:style:content:)`. */
    constructor (contentID: UUID, style: NotchStyle, content: C)
      ensures Valid() && Snapshot() == M.Initial(contentID, style, content)
    {
      windowController := None;
      openWindows := {};
      nextHandle := 0;
      this.content := content;
      this.contentID := contentID;
      isVisible := false;
      notchSize := ZeroSize;
      isMouseInside := false;
      timer := None;
      workItem := None;
      notchStyle := style;
      queue := [];
      now := 0;
      M.InitialInv(contentID, style, content);
    }

    /** `setContent(contentID:content:)`; `minted` is the `UUID` drawn in its body. */
    method SetContent(passedID: UUID, content: C, minted: UUID)
      requires Valid()
      modifies this
      ensures Valid() && Snapshot() == M.SetContent(old(Snapshot()), content, minted)
    {
      this.content := content;
      contentID := minted;
    }

    method DeinitializeWindow()
      modifies this
      ensures Snapshot() == M.DeinitializeWindow(old(Snapshot()))
    {
      match windowController
      case None =>
      case Some(w) =>
        openWindows := openWindows - {w.handle};
        windowController := None;
    }

    method InitializeWindow(screen: Screen)
      modifies this
      ensures Snapshot() == M.InitializeWindow(old(Snapshot()), screen)
    {
      DeinitializeWindow();
      notchSize := NotchFrameWithMenubarAsBackup(screen).size;
      var view := M.SelectRoot(notchStyle, screen);
      windowController := Some(Window(nextHandle, view));
      openWindows := openWindows + {nextHandle};
      nextHandle := nextHandle + 1;
    }

    /** The `scheduleHide(_:)` nested in `show`. */
    method ScheduleHide(seconds: int)
      modifies this
      ensures Snapshot() == M.ScheduleHide(old(Snapshot()), seconds)
    {
      queue := CancelSlot(queue, workItem);
      workItem := Some(|queue|);
      queue := queue + [Entry(M.AutoHide, After(now, seconds * 1000), Pending)];
    }

    /** `show(on:for:)`. */
    method Show(screen: Screen, duration: M.Duration)
      requires Valid()
      modifies this
      ensures Valid() && Snapshot() == M.Show(old(Snapshot()), screen, duration)
    {
      M.ShowKeepsInv(Snapshot(), screen, duration);
      var seconds := duration.seconds;
      if isVisible {
        if seconds > 0 {
          ScheduleHide(seconds);
        }
        return;
      }
      queue := CancelSlot(queue, timer);
      InitializeWindow(screen);
      queue := queue + [Entry(M.MakeVisible, After(now, 0), Pending)];
      if seconds != 0 {
        ScheduleHide(seconds);
      }
    }

    /** `hide(ignoreMouse:)`. */
    method Hide(ignoreMouse: bool)
      requires Valid()
      modifies this
      ensures Valid() && Snapshot() == M.Hide(old(Snapshot()), ignoreMouse)
    {
      M.HideKeepsInv(Snapshot(), ignoreMouse);
      HideStep(ignoreMouse);
    }

    method HideStep(ignoreMouse: bool)
      modifies this
      ensures Snapshot() == M.Hide(old(Snapshot()), ignoreMouse)
    {
      if !isVisible {
        return;
      }
      if !ignoreMouse && isMouseInside {
        queue := queue + [Entry(M.HoverRetry, After(now, M.HoverRetryDelayMs), Pending)];
        return;
      }
      isVisible := false;
      timer := Some(|queue|);
      queue := queue + [Entry(M.Teardown, After(now, M.MaxAnimationDurationMs), Pending)];
    }

    /** `toggle()`; `defaultScreen` is `NSScreen.screens[0]`. */
    method Toggle(defaultScreen: Screen)
      requires Valid()
      modifies this
      ensures Valid() && Snapshot() == M.Toggle(old(Snapshot()), defaultScreen)
    {
      if isVisible {
        Hide(false);
      } else {
        Show(defaultScreen, M.ZeroDuration);
      }
    }

    /** The `onHover` handler of the hosted view. */
    method SetMouseInside(hovering: bool)
      requires Valid()
      modifies this
      ensures Valid() && Snapshot() == M.SetMouseInside(old(Snapshot()), hovering)
    {
      isMouseInside := hovering;
    }

    /** The screen-parameters subscription set up in `init`. */
    method ScreenParametersChanged(screens: seq<Screen>)
      requires Valid()
      modifies this
      ensures Valid() && Snapshot() == M.ScreenParametersChanged(old(Snapshot()), screens)
    {
      M.ScreenChangeKeepsInv(Snapshot(), screens);
      if |screens| > 0 {
        InitializeWindow(screens[0]);
      }
    }

    /** The main queue runs its next entry, `e`. */
    method Fire(e: nat)
      requires Valid() && IsNext(queue, e)
      modifies this
      ensures Valid() && Snapshot() == M.Fire(old(Snapshot()), e)
    {
      M.FireKeepsInv(Snapshot(), e);
      var entry := queue[e];
      queue := Run(queue, e);
      if now < entry.deadline {
        now := entry.deadline;
      }
      if entry.status != Pending {
        return;
      }
      match entry.kind
      case MakeVisible => isVisible := true;
      case AutoHide => HideStep(false);
      case HoverRetry => HideStep(false);
      case Teardown => DeinitializeWindow();
    }

    /** Time passes to `t`, before anything on the queue is due. */
    method Advance(t: nat)
      requires Valid() && now <= t && NotBefore(queue, t)
      modifies this
      ensures Valid() && Snapshot() == M.Advance(old(Snapshot()), t)
    {
      M.AdvanceKeepsInv(Snapshot(), t);
      now := t;
    }
  }
}
