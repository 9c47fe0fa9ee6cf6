/** `Views/NotchContentView.swift`: the view that picks the notch or the floating presentation and casts the shadow. */
module NotchContentViews {
  import opened NotchStyles
  import opened HoverBehaviors
  import opened Surface
  import NotchViews

  /** The shadow is emphasised while hovered, if the hover behaviour asks for it. */
  predicate Emphasised(hoverBehavior: HoverBehavior, isHovering: bool) {
    Contains(hoverBehavior, IncreaseShadow) && isHovering
  }

  /** `shadowOpacity`. */
  function ShadowOpacity(hoverBehavior: HoverBehavior, isHovering: bool): (o: real)
    ensures o == 0.8 <==> Emphasised(hoverBehavior, isHovering)
    ensures o == 0.5 <==> !Emphasised(hoverBehavior, isHovering)
  {
    if Contains(hoverBehavior, IncreaseShadow) && isHovering then 0.8 else 0.5
  }

  /** `shadowRadius`: none while hidden, whatever the hover; 20 when emphasised, else 10. */
  function ShadowRadius(isVisible: bool, isHovering: bool, hoverBehavior: HoverBehavior): (r: real)
    ensures !isVisible ==> r == 0.0
    ensures isVisible ==> (r == 20.0 <==> Emphasised(hoverBehavior, isHovering))
    ensures isVisible ==> (r == 10.0 <==> !Emphasised(hoverBehavior, isHovering))
  {
    if !isVisible then 0.0
    else if isHovering && Contains(hoverBehavior, IncreaseShadow) then 20.0
    else 10.0
  }

  /** The root chosen in `body`: the notch view exactly for notch styles. */
  function ChosenView(style: NotchStyle): (v: RootView)
    ensures v == NotchView <==> IsNotch(style)
    ensures v == NotchlessView <==> !IsNotch(style)
  {
    if IsNotch(style) then NotchView else NotchlessView
  }

  /** Radius and opacity move together: a visible shadow is wide exactly when it is dark. */
  lemma ShadowIsConsistent(isVisible: bool, isHovering: bool, hoverBehavior: HoverBehavior)
    ensures ShadowRadius(isVisible, isHovering, hoverBehavior) == 20.0 ==> ShadowOpacity(hoverBehavior, isHovering) == 0.8
    ensures isVisible && ShadowOpacity(hoverBehavior, isHovering) == 0.8 ==> ShadowRadius(isVisible, isHovering, hoverBehavior) == 20.0
  {
  }

  /** With the default behaviour `.all`, hovering alone decides the emphasis; with no behaviour it never happens. */
  lemma EmphasisUnderPresets(isHovering: bool)
    ensures Emphasised(All, isHovering) <==> isHovering
    ensures !Emphasised(NoBehavior, isHovering)
  {
    AllContainsEveryFlag(IncreaseShadow);
  }

  /**
   * The hosting view's shadow and the content view's shadow around it: both vanish while hidden,
   * and while visible the host's radius is the content view's resting radius, which emphasis only widens.
   */
  lemma HostShadowWithinContentShadow(isVisible: bool, isHovering: bool, hoverBehavior: HoverBehavior)
    ensures !isVisible ==> NotchViews.ShadowRadius(isVisible) == 0.0 && ShadowRadius(isVisible, isHovering, hoverBehavior) == 0.0
    ensures isVisible ==> NotchViews.ShadowRadius(isVisible) <= ShadowRadius(isVisible, isHovering, hoverBehavior)
    ensures isVisible ==> NotchViews.ShadowRadius(isVisible) == ShadowRadius(isVisible, false, hoverBehavior)
  {
  }
}
