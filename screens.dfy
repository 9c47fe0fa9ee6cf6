/**
 * Screen geometry of `Utility/NSScreen+Extensions.swift`.
 *
 * A screen is a record of the values AppKit reports for it; the mouse location
 * and the list `NSScreen.screens` are inputs.
 */
module Screens {
  import opened Wrappers

  datatype Point = Point(x: real, y: real)
  datatype Size = Size(width: real, height: real)
  /** An `NSRect`: origin at the bottom-left corner (AppKit is not flipped). */
  datatype Rect = Rect(origin: Point, size: Size)

  const ZeroSize := Size(0.0, 0.0)

  function MinX(r: Rect): real { r.origin.x }
  function MaxX(r: Rect): real { r.origin.x + r.size.width }
  function MidX(r: Rect): real { r.origin.x + r.size.width / 2.0 }
  function MinY(r: Rect): real { r.origin.y }
  function MaxY(r: Rect): real { r.origin.y + r.size.height }

  /** `NSMouseInRect(p, r, false)`: in an unflipped view the top edge belongs to the rectangle, the bottom edge does not. */
  predicate MouseInRect(p: Point, r: Rect) {
    MinX(r) <= p.x < MaxX(r) && MinY(r) < p.y <= MaxY(r)
  }

  /** `CGRect.contains(_:)`: the minimum edges belong to the rectangle, the maximum edges do not. */
  predicate Contains(r: Rect, p: Point) {
    MinX(r) <= p.x < MaxX(r) && MinY(r) <= p.y < MaxY(r)
  }

  /**
   * An `NSScreen`: its frame, its visible frame (the frame minus menu bar and Dock),
   * the widths of `auxiliaryTopLeftArea`/`auxiliaryTopRightArea` (present only beside
   * a camera housing) and `safeAreaInsets.top`.
   */
  datatype Screen = Screen(
    frame: Rect,
    visibleFrame: Rect,
    auxiliaryTopLeftWidth: Option<real>,
    auxiliaryTopRightWidth: Option<real>,
    safeAreaTop: real)

  /** Index `i` holds the first screen of the list whose frame contains the mouse. */
  predicate IsFirstWithMouse(screens: seq<Screen>, mouse: Point, i: int) {
    && 0 <= i < |screens|
    && MouseInRect(mouse, screens[i].frame)
    && forall j :: 0 <= j < i ==> !MouseInRect(mouse, screens[j].frame)
  }

  /** `NSScreen.screenWithMouse`: `screens.first { NSMouseInRect(mouse, $0.frame, false) }`. */
  function ScreenWithMouse(screens: seq<Screen>, mouse: Point): (r: Option<Screen>)
    ensures r.None? <==> forall i :: 0 <= i < |screens| ==> !MouseInRect(mouse, screens[i].frame)
    ensures r.Some? ==> exists i :: IsFirstWithMouse(screens, mouse, i) && screens[i] == r.value
  {
    if |screens| == 0 then None
    else if MouseInRect(mouse, screens[0].frame) then
      assert IsFirstWithMouse(screens, mouse, 0);
      Some(screens[0])
    else
      var r := ScreenWithMouse(screens[1..], mouse);
      FirstWithMouseShifts(screens, mouse);
      r
  }

  /** Searching past a first screen without the mouse shifts every first-match index by one. */
  lemma FirstWithMouseShifts(screens: seq<Screen>, mouse: Point)
    requires |screens| > 0 && !MouseInRect(mouse, screens[0].frame)
    ensures forall i :: IsFirstWithMouse(screens[1..], mouse, i) ==> IsFirstWithMouse(screens, mouse, i + 1)
  {
    forall i | IsFirstWithMouse(screens[1..], mouse, i)
      ensures IsFirstWithMouse(screens, mouse, i + 1)
    {
      forall j | 0 <= j < i + 1
        ensures !MouseInRect(mouse, screens[j].frame)
      {
        if j > 0 { assert screens[j] == screens[1..][j - 1]; }
      }
    }
  }

  /** There is at most one first match. */
  lemma FirstWithMouseIsUnique(screens: seq<Screen>, mouse: Point, i: int, k: int)
    requires IsFirstWithMouse(screens, mouse, i) && IsFirstWithMouse(screens, mouse, k)
    ensures i == k
  {
  }

  /** `hasNotch`: both auxiliary top areas are reported. */
  predicate HasNotch(s: Screen) {
    s.auxiliaryTopLeftWidth.Some? && s.auxiliaryTopRightWidth.Some?
  }

  /** `notchSize`: the frame width between the two auxiliary areas, and the top safe-area inset. */
  function NotchSize(s: Screen): (r: Option<Size>)
    ensures r.Some? <==> HasNotch(s)
    ensures r.Some? ==> r.value.width == s.frame.size.width - s.auxiliaryTopLeftWidth.value - s.auxiliaryTopRightWidth.value
    ensures r.Some? ==> r.value.height == s.safeAreaTop
  {
    match (s.auxiliaryTopLeftWidth, s.auxiliaryTopRightWidth)
    case (Some(left), Some(right)) => Some(Size(s.frame.size.width - left - right, s.safeAreaTop))
    case _ => None
  }

  /** `notchFrame`: a rectangle of `notchSize`, centred at the top of the frame. */
  function NotchFrame(s: Screen): (r: Option<Rect>)
    ensures r.Some? <==> HasNotch(s)
    ensures r.Some? ==> r.value.size == NotchSize(s).value
    ensures r.Some? ==> MidX(r.value) == MidX(s.frame) && MaxY(r.value) == MaxY(s.frame)
  {
    match NotchSize(s)
    case None => None
    case Some(size) => Some(Rect(Point(MidX(s.frame) - size.width / 2.0, MaxY(s.frame) - size.height), size))
  }

  /** `menubarHeight`: how far the visible frame's top lies below the frame's top. */
  function MenubarHeight(s: Screen): (h: real)
    ensures MaxY(s.visibleFrame) + h == MaxY(s.frame)
  {
    MaxY(s.frame) - MaxY(s.visibleFrame)
  }

  /** The width of the stand-in notch on a screen without one. */
  const ArbitraryNotchWidth: real := 300.0

  /**
   * `notchFrameWithMenubarAsBackup`: the notch frame, or else a 300-wide rectangle as tall
   * as the menu bar; either way centred on the frame and touching its top edge.
   */
  function NotchFrameWithMenubarAsBackup(s: Screen): (r: Rect)
    ensures HasNotch(s) ==> Some(r) == NotchFrame(s)
    ensures !HasNotch(s) ==> r.size == Size(ArbitraryNotchWidth, MenubarHeight(s))
    ensures MidX(r) == MidX(s.frame) && MaxY(r) == MaxY(s.frame)
  {
    match NotchFrame(s)
    case Some(f) => f
    case None =>
      var height := MenubarHeight(s);
      Rect(Point(MidX(s.frame) - ArbitraryNotchWidth / 2.0, MaxY(s.frame) - height), Size(ArbitraryNotchWidth, height))
  }
}
