/**
 * The older copy of `NSScreen.screenWithMouse` in `NSScreen+Extensions.swift`.
 *
 * It is the same `first { }` search as `Screens.ScreenWithMouse`; here it is stated as a
 * scan by index, and `AgreesWithUtilitySearch` shows that both copies pick the same screen.
 */
module LegacyScreens {
  import opened Wrappers
  import opened Screens

  /** The index of the first screen at or after `from` whose frame contains the mouse. */
  function FirstIndexFrom(screens: seq<Screen>, mouse: Point, from: nat): (r: Option<nat>)
    requires from <= |screens|
    ensures r.Some? ==> from <= r.value < |screens| && MouseInRect(mouse, screens[r.value].frame)
    ensures r.Some? ==> forall j :: from <= j < r.value ==> !MouseInRect(mouse, screens[j].frame)
    ensures r.None? ==> forall j :: from <= j < |screens| ==> !MouseInRect(mouse, screens[j].frame)
    decreases |screens| - from
  {
    if from == |screens| then None
    else if MouseInRect(mouse, screens[from].frame) then Some(from)
    else FirstIndexFrom(screens, mouse, from + 1)
  }

  /** `NSScreen.screenWithMouse`: the screen at the first matching index, if any. */
  function ScreenWithMouse(screens: seq<Screen>, mouse: Point): (r: Option<Screen>)
    ensures r.Some? ==> r.value in screens
    ensures r.Some? ==> MouseInRect(mouse, r.value.frame)
    ensures r.Some? ==> exists i :: 0 <= i < |screens| && screens[i] == r.value
                                    && forall j :: 0 <= j < i ==> !MouseInRect(mouse, screens[j].frame)
    ensures r.None? <==> forall i :: 0 <= i < |screens| ==> !MouseInRect(mouse, screens[i].frame)
  {
    match FirstIndexFrom(screens, mouse, 0)
    case Some(i) => Some(screens[i])
    case None => None
  }

  /** Both copies of the search return the same screen for every list and mouse location. */
  lemma AgreesWithUtilitySearch(screens: seq<Screen>, mouse: Point)
    ensures ScreenWithMouse(screens, mouse) == Screens.ScreenWithMouse(screens, mouse)
  {
    var mine, theirs := ScreenWithMouse(screens, mouse), Screens.ScreenWithMouse(screens, mouse);
    if theirs.Some? {
      var k :| IsFirstWithMouse(screens, mouse, k) && screens[k] == theirs.value;
      var i := FirstIndexFrom(screens, mouse, 0).value;
      assert IsFirstWithMouse(screens, mouse, i);
      FirstWithMouseIsUnique(screens, mouse, i, k);
    }
  }
}
