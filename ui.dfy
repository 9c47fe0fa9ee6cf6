/**
 * SwiftUI values the presets handle only by identity: colours, images, type-erased views,
 * `UUID`s, and the `notchSection` environment value of `EnvironmentValues+Extensions.swift`.
 */
module UI {
  import opened Wrappers
  import opened NotchStyles

  /** A `UUID`; minting a fresh one (`UUID()`) is an input of the operations that do it. */
  type UUID = nat

  /** A SwiftUI `Color`; only `.white`, `.primary` and equality matter here. */
  datatype Color = White | Primary | OtherColor(id: nat)

  /** A SwiftUI `Image`, compared with its own `==`. */
  datatype Image = Image(id: nat)

  /** A view wrapped in `AnyView`. */
  datatype ErasedView = AnyView(id: nat)

  /** `DynamicNotchSection`: which part of the notch a view is drawn in. */
  datatype Section = Expanded | CompactLeading | CompactTrailing

  /**
   * The foreground colour of a symbol or ring: `color ?? (notchStyle.isNotch ? .white : .primary)`,
   * where `notchStyle` is the style found in the environment.
   */
  function Tint(color: Option<Color>, environment: NotchStyle): (c: Color)
    ensures color.Some? ==> c == color.value
    ensures color.None? && IsNotch(environment) ==> c == White
    ensures color.None? && !IsNotch(environment) ==> c == Primary
  {
    color.GetOr(if IsNotch(environment) then White else Primary)
  }
}
