/** `Views/NotchView.swift`: the layout decisions of the view that hugs a physical notch. */
module NotchViews {
  import opened Wrappers
  import opened NotchStyles
  import opened Screens

  datatype Radii = Radii(top: real, bottom: real)

  /** `expandedNotchCornerRadii`: the radii of a `.notch` style, else those of the `.notch` preset. */
  function ExpandedRadii(style: NotchStyle): (r: Radii)
    ensures IsNotch(style) ==> r == Radii(style.topCornerRadius, style.bottomCornerRadius)
    ensures !IsNotch(style) ==> r == Radii(NotchPreset.topCornerRadius, NotchPreset.bottomCornerRadius)
  {
    match style
    case Notch(top, bottom) => Radii(top, bottom)
    case _ => Radii(15.0, 20.0)
  }

  /** `compactNotchCornerRadii`. */
  const CompactRadii: Radii := Radii(6.0, 14.0)

  /** `topCornerRadius`/`bottomCornerRadius`: the expanded pair while visible, the compact pair while hidden. */
  function CornerRadii(style: NotchStyle, isVisible: bool): (r: Radii)
    ensures isVisible ==> r == ExpandedRadii(style)
    ensures !isVisible ==> r == Radii(6.0, 14.0)
  {
    if isVisible then ExpandedRadii(style) else CompactRadii
  }

  /** `notchWidth`: the notch plus a top corner on either side. */
  function NotchWidth(notchSize: Size, style: NotchStyle, isVisible: bool): (w: real)
    ensures w - notchSize.width == 2.0 * CornerRadii(style, isVisible).top
  {
    notchSize.width + CornerRadii(style, isVisible).top * 2.0
  }

  /** The frame given to the mask: none while visible, the bare notch area while hidden. */
  function MaskFrame(notchSize: Size, style: NotchStyle, isVisible: bool): (f: Option<Size>)
    ensures f.None? <==> isVisible
    ensures f.Some? ==> f.value == Size(notchSize.width + 12.0, notchSize.height)
  {
    if isVisible then None else Some(Size(NotchWidth(notchSize, style, isVisible), notchSize.height))
  }

  /**
   * The shadow radius both hosting views (`NotchView` and `NotchlessView`) give themselves:
   * there is a shadow exactly while visible.
   */
  function ShadowRadius(isVisible: bool): (r: real)
    ensures r == 0.0 <==> !isVisible
    ensures isVisible ==> r > 0.0
  {
    if isVisible then 10.0 else 0.0
  }

  /** The `notchStyle` placed in the environment: the controller's style when it is a notch style, else the `.notch` preset. */
  function EnvironmentStyle(style: NotchStyle): (e: NotchStyle)
    ensures IsNotch(e)
    ensures IsNotch(style) ==> e == style
    ensures !IsNotch(style) ==> e == NotchPreset
  {
    if IsNotch(style) then style else NotchPreset
  }

  /** Children reading the environment see the radii this view draws with, and the choice is idempotent. */
  lemma EnvironmentAgreesWithRadii(style: NotchStyle)
    ensures ExpandedRadii(EnvironmentStyle(style)) == ExpandedRadii(style)
    ensures EnvironmentStyle(EnvironmentStyle(style)) == EnvironmentStyle(style)
  {
  }

  /** The `Spacer` at the top of `notchContent()`: as wide as the notch with its top corners, as high as the notch. */
  function SpacerFrame(notchSize: Size, style: NotchStyle, isVisible: bool): (f: Size)
    ensures f.height == notchSize.height
    ensures f.width - notchSize.width == 2.0 * CornerRadii(style, isVisible).top
  {
    Size(NotchWidth(notchSize, style, isVisible), notchSize.height)
  }

  /**
   * While hidden the mask is exactly the spacer reserved above the content, so only the notch area
   * is drawn; while visible the mask is lifted and the spacer still keeps the content below the notch.
   */
  lemma HiddenMaskCoversSpacer(notchSize: Size, style: NotchStyle)
    ensures MaskFrame(notchSize, style, false) == Some(SpacerFrame(notchSize, style, false))
    ensures MaskFrame(notchSize, style, true).None? && SpacerFrame(notchSize, style, true).height == notchSize.height
  {
  }
}
