/** `Views/NotchlessView.swift`: the layout decisions of the floating view for screens without a notch. */
module NotchlessViews {
  import opened NotchStyles

  /** `safeAreaInset`: the content keeps this distance from all four edges. */
  const SafeAreaInset: real := 15.0

  datatype Insets = Insets(top: real, bottom: real, leading: real, trailing: real)

  /** The four `safeAreaInset` modifiers around the content. */
  const ContentInsets: Insets := Insets(SafeAreaInset, SafeAreaInset, SafeAreaInset, SafeAreaInset)

  /** `cornerRadius`: the radius of a `.floating` style, else that of the `.floating` preset. */
  function CornerRadius(style: NotchStyle): (r: real)
    ensures IsFloating(style) ==> r == style.cornerRadius
    ensures !IsFloating(style) ==> r == FloatingPreset.cornerRadius
  {
    match style
    case Floating(radius) => radius
    case _ => 20.0
  }

  /** The vertical offset: just below the notch area while visible, slid up by its own height while hidden. */
  function VerticalOffset(isVisible: bool, notchHeight: real, windowHeight: real): (y: real)
    ensures isVisible ==> y == notchHeight
    ensures !isVisible ==> y + windowHeight == 0.0
  {
    if isVisible then notchHeight else -windowHeight
  }

  /** The `notchStyle` placed in the environment: the controller's style when floating, else the `.floating` preset. */
  function EnvironmentStyle(style: NotchStyle): (e: NotchStyle)
    ensures IsFloating(e) && !IsNotch(e)
    ensures IsFloating(style) ==> e == style
    ensures !IsFloating(style) ==> e == FloatingPreset
  {
    if IsFloating(style) then style else FloatingPreset
  }

  /** Children reading the environment see the radius this view clips with, and the choice is idempotent. */
  lemma EnvironmentAgreesWithRadius(style: NotchStyle)
    ensures CornerRadius(EnvironmentStyle(style)) == CornerRadius(style)
    ensures EnvironmentStyle(EnvironmentStyle(style)) == EnvironmentStyle(style)
  {
  }

  /** `padding(20)`: the margin around the clipped view, inside the measured height, that leaves room for the shadow. */
  const OuterPadding: real := 20.0

  /**
   * The height `onGeometryChange` records as `windowHeight`: the content, its top and bottom
   * insets and the padding on both sides.
   */
  function MeasuredHeight(contentHeight: real): (h: real)
    ensures h - contentHeight == 2.0 * SafeAreaInset + 2.0 * OuterPadding
  {
    contentHeight + ContentInsets.top + ContentInsets.bottom + 2.0 * OuterPadding
  }

  /**
   * With `windowHeight` measured from the content, a hidden view has slid fully above the top edge
   * (its bottom lies exactly on it, and it is at least the insets and padding high), while a visible one
   * starts at the notch height and its content sits the inset and the padding below that.
   */
  lemma HiddenViewSlidesOffScreen(notchHeight: real, contentHeight: real)
    requires contentHeight >= 0.0
    ensures VerticalOffset(false, notchHeight, MeasuredHeight(contentHeight)) + MeasuredHeight(contentHeight) == 0.0
    ensures VerticalOffset(false, notchHeight, MeasuredHeight(contentHeight)) <= -(2.0 * SafeAreaInset + 2.0 * OuterPadding)
    ensures VerticalOffset(true, notchHeight, MeasuredHeight(contentHeight)) + OuterPadding + ContentInsets.top == notchHeight + 35.0
    ensures VerticalOffset(true, notchHeight, MeasuredHeight(contentHeight)) - VerticalOffset(false, notchHeight, MeasuredHeight(contentHeight))
      == notchHeight + MeasuredHeight(contentHeight)
  {
  }
}
