/** `DynamicNotch/DynamicNotchStyle.swift`: how a notch is drawn. */
module NotchStyles {

  /** `DynamicNotchStyle`; `CGFloat` radii are reals. */
  datatype NotchStyle =
    | Notch(topCornerRadius: real, bottomCornerRadius: real)
    | Floating(cornerRadius: real)
    | Auto

  /** The static presets `.notch` and `.floating`. */
  const NotchPreset: NotchStyle := Notch(15.0, 20.0)
  const FloatingPreset: NotchStyle := Floating(20.0)

  /** `isNotch`: `if case .notch = self`, whatever the radii. */
  predicate IsNotch(s: NotchStyle) {
    match s
    case Notch(_, _) => true
    case _ => false
  }

  /** `isFloating`: `if case .floating = self`, whatever the radius. */
  predicate IsFloating(s: NotchStyle) {
    match s
    case Floating(_) => true
    case _ => false
  }

  /** The hand-written `==`: same case, and equal radii where the case has them. */
  function Equal(lhs: NotchStyle, rhs: NotchStyle): (r: bool)
    ensures r <==> lhs == rhs
  {
    match (lhs, rhs)
    case (Notch(lt, lb), Notch(rt, rb)) => lt == rt && lb == rb
    case (Floating(lr), Floating(rr)) => lr == rr
    case (Auto, Auto) => true
    case _ => false
  }

  /** The two predicates pick out exactly their own case, so no style is both and `.auto` is neither. */
  lemma KindsAreExclusive(s: NotchStyle)
    ensures IsNotch(s) <==> s.Notch?
    ensures IsFloating(s) <==> s.Floating?
    ensures !(IsNotch(s) && IsFloating(s))
    ensures s.Auto? <==> !IsNotch(s) && !IsFloating(s)
  {
  }

  /** `==` is an equivalence relation. */
  lemma EqualIsEquivalence(a: NotchStyle, b: NotchStyle, c: NotchStyle)
    ensures Equal(a, a)
    ensures Equal(a, b) == Equal(b, a)
    ensures Equal(a, b) && Equal(b, c) ==> Equal(a, c)
  {
  }

  /** The presets' radii and kinds. */
  lemma Presets()
    ensures IsNotch(NotchPreset) && NotchPreset.topCornerRadius == 15.0 && NotchPreset.bottomCornerRadius == 20.0
    ensures IsFloating(FloatingPreset) && FloatingPreset.cornerRadius == 20.0
    ensures !Equal(NotchPreset, FloatingPreset)
  {
  }
}
