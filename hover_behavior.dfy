/**
 * `DynamicNotch/DynamicNotchHoverBehavior.swift`: an `OptionSet` over a Swift `Int`.
 *
 * The 64-bit `rawValue` is its two's-complement bit pattern; `OptionSet`'s union is bitwise
 * or, and `contains(m)` holds when every bit of `m` is set.
 */
module HoverBehaviors {

  /** `DynamicNotchHoverBehavior`; `init(rawValue:)` is the constructor and stores its argument. */
  datatype HoverBehavior = HoverBehavior(rawValue: bv64)

  const KeepVisible: HoverBehavior := HoverBehavior(1)  // 1 << 0
  const HapticFeedback: HoverBehavior := HoverBehavior(2)  // 1 << 1
  const IncreaseShadow: HoverBehavior := HoverBehavior(4)  // 1 << 2

  /** The empty set, `[]`. */
  const NoBehavior: HoverBehavior := HoverBehavior(0)

  /** `union` (and `insert`, which forms the union in place). */
  function Union(a: HoverBehavior, b: HoverBehavior): HoverBehavior {
    HoverBehavior(a.rawValue | b.rawValue)
  }

  /** `contains(_:)`: `self.intersection(m) == m`. */
  predicate Contains(s: HoverBehavior, m: HoverBehavior) {
    s.rawValue & m.rawValue == m.rawValue
  }

  /** `all`: the array literal `[.keepVisible, .hapticFeedback, .increaseShadow]`, inserted one by one into `[]`. */
  const All: HoverBehavior := Union(Union(Union(NoBehavior, KeepVisible), HapticFeedback), IncreaseShadow)

  /** One of the three declared flags (raw values 1, 2, 4). */
  predicate IsFlag(m: HoverBehavior) {
    m.rawValue == 1 || m.rawValue == 2 || m.rawValue == 4
  }

  /** The flags' raw values are 1, 2 and 4 and share no bit. */
  lemma FlagsAreDisjointBits()
    ensures KeepVisible.rawValue == 1 && HapticFeedback.rawValue == 2 && IncreaseShadow.rawValue == 4
    ensures KeepVisible.rawValue & HapticFeedback.rawValue == 0
    ensures KeepVisible.rawValue & IncreaseShadow.rawValue == 0
    ensures HapticFeedback.rawValue & IncreaseShadow.rawValue == 0
    ensures !Contains(KeepVisible, HapticFeedback) && !Contains(KeepVisible, IncreaseShadow)
    ensures !Contains(HapticFeedback, KeepVisible) && !Contains(HapticFeedback, IncreaseShadow)
    ensures !Contains(IncreaseShadow, KeepVisible) && !Contains(IncreaseShadow, HapticFeedback)
  {
  }

  /** `all` has raw value 7 and contains every flag. */
  lemma AllContainsEveryFlag(m: HoverBehavior)
    requires IsFlag(m)
    ensures All.rawValue == 7
    ensures Contains(All, m)
  {
  }

  /** For a single flag, membership in a union is membership in either side. */
  lemma ContainsUnion(a: HoverBehavior, b: HoverBehavior, m: HoverBehavior)
    requires m.rawValue == 1 || m.rawValue == 2 || m.rawValue == 4
    ensures Contains(Union(a, b), m) <==> Contains(a, m) || Contains(b, m)
  {
  }

  /** A set built from flags contains exactly the flags it was built from. */
  lemma ContainsExactlyItsFlags(m: HoverBehavior, n: HoverBehavior)
    requires IsFlag(m) && IsFlag(n)
    ensures Contains(m, n) <==> m == n
    ensures !Contains(NoBehavior, m)
  {
  }
}
