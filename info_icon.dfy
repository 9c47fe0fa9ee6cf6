/** `DynamicNotch/DynamicNotchInfoIcon.swift`: the icon of the older info preset. */
module InfoIcon {
  import opened Wrappers
  import opened NotchStyles
  import opened UI

  /**
   * `IconStyle`. A `Binding<CGFloat>` is represented by the value it holds when read;
   * the overlay is already type-erased.
   */
  datatype IconStyle =
    | ImageStyle(image: Image)
    | SystemImage(systemName: string, color: Option<Color>)
    | Progress(progress: real, color: Option<Color>, overlay: Option<ErasedView>)
    | CustomView(contentID: UUID, view: ErasedView)

  /** `DynamicNotchInfoIcon`: only its `iconStyle` is stored. */
  datatype Icon = Icon(iconStyle: IconStyle)

  /** What the hand-written `==` looks at: the case and the payload fields it compares. */
  datatype EqualityKey =
    | ImageKey(image: Image)
    | SymbolKey(systemName: string, color: Option<Color>)
    | ProgressKey(progress: real, color: Option<Color>)
    | CustomKey(contentID: UUID)

  function Key(s: IconStyle): EqualityKey {
    match s
    case ImageStyle(i) => ImageKey(i)
    case SystemImage(n, c) => SymbolKey(n, c)
    case Progress(p, c, _) => ProgressKey(p, c)
    case CustomView(id, _) => CustomKey(id)
  }

  /** `IconStyle.==`: equal exactly when the compared fields agree; overlays and custom views are ignored. */
  function StyleEqual(lhs: IconStyle, rhs: IconStyle): (r: bool)
    ensures r <==> Key(lhs) == Key(rhs)
  {
    match (lhs, rhs)
    case (ImageStyle(i1), ImageStyle(i2)) => i1 == i2
    case (SystemImage(n1, c1), SystemImage(n2, c2)) => n1 == n2 && c1 == c2
    case (Progress(p1, c1, _), Progress(p2, c2, _)) => p1 == p2 && c1 == c2
    case (CustomView(id1, _), CustomView(id2, _)) => id1 == id2
    case _ => false
  }

  /** `init(image:)`. */
  function FromImage(image: Image): (icon: Icon)
    ensures icon.iconStyle == ImageStyle(image)
  {
    Icon(ImageStyle(image))
  }

  /** `init(systemName:color:)`; the colour defaults to `nil`. */
  function FromSystemName(systemName: string, color: Option<Color>): (icon: Icon)
    ensures icon.iconStyle.SystemImage? && icon.iconStyle.systemName == systemName && icon.iconStyle.color == color
  {
    Icon(SystemImage(systemName, color))
  }

  /** `init(progress:color:overlay:)`: a missing overlay stays missing, a present one is wrapped in `AnyView`. */
  function FromProgress(progress: real, color: Option<Color>, overlay: Option<nat>): (icon: Icon)
    ensures icon.iconStyle.Progress? && icon.iconStyle.progress == progress && icon.iconStyle.color == color
    ensures icon.iconStyle.overlay.None? <==> overlay.None?
    ensures overlay.Some? ==> icon.iconStyle.overlay == Some(AnyView(overlay.value))
  {
    Icon(Progress(progress, color, if overlay.None? then None else Some(AnyView(overlay.value))))
  }

  /** `init(content:)`: the view under `minted`, a `UUID` drawn for this icon alone. */
  function FromContent(content: nat, minted: UUID): (icon: Icon)
    ensures icon.iconStyle == CustomView(minted, AnyView(content))
  {
    Icon(CustomView(minted, AnyView(content)))
  }

  /** `DynamicNotchInfoIcon.==`: compares the styles with the operands swapped. */
  function IconEqual(lhs: Icon, rhs: Icon): (r: bool)
    ensures r <==> StyleEqual(lhs.iconStyle, rhs.iconStyle)
  {
    StyleEqual(rhs.iconStyle, lhs.iconStyle)
  }

  /** Styles of different cases are never equal, and equality is an equivalence. */
  lemma StyleEqualProperties(a: IconStyle, b: IconStyle, c: IconStyle)
    ensures a.ImageStyle? != b.ImageStyle? || a.SystemImage? != b.SystemImage? || a.Progress? != b.Progress? ==> !StyleEqual(a, b)
    ensures StyleEqual(a, a)
    ensures StyleEqual(a, b) == StyleEqual(b, a)
    ensures StyleEqual(a, b) && StyleEqual(b, c) ==> StyleEqual(a, c)
  {
  }

  /** Two progress icons with the same value and colour are equal whatever their overlays. */
  lemma ProgressIgnoresOverlay(p: real, color: Option<Color>, o1: Option<nat>, o2: Option<nat>)
    ensures IconEqual(FromProgress(p, color, o1), FromProgress(p, color, o2))
  {
  }

  /** Custom icons built from the same view under separately minted IDs are unequal; equal IDs make any views equal. */
  lemma CustomViewsCompareByID(v1: nat, v2: nat, id1: UUID, id2: UUID)
    ensures IconEqual(FromContent(v1, id1), FromContent(v2, id2)) <==> id1 == id2
  {
  }

  /** Two symbol icons are equal exactly when name and colour are. */
  lemma SymbolsCompareNameAndColor(n1: string, c1: Option<Color>, n2: string, c2: Option<Color>)
    ensures IconEqual(FromSystemName(n1, c1), FromSystemName(n2, c2)) <==> n1 == n2 && c1 == c2
  {
  }

  /** The colour `body` draws a symbol or a ring in under the environment's style; images and custom views get none. */
  function RenderedColor(icon: Icon, environment: NotchStyle): (c: Option<Color>)
    ensures (icon.iconStyle.SystemImage? || icon.iconStyle.Progress?) <==> c.Some?
    ensures icon.iconStyle.SystemImage? ==> c == Some(Tint(icon.iconStyle.color, environment))
    ensures icon.iconStyle.Progress? ==> c == Some(Tint(icon.iconStyle.color, environment))
  {
    match icon.iconStyle
    case SystemImage(_, color) => Some(Tint(color, environment))
    case Progress(_, color, _) => Some(Tint(color, environment))
    case _ => None
  }

  /** An uncoloured symbol or ring is white under a notch style and primary otherwise; a given colour always wins. */
  lemma ColorFallback(icon: Icon, environment: NotchStyle)
    requires icon.iconStyle.SystemImage? || icon.iconStyle.Progress?
    ensures icon.iconStyle.color.Some? ==> RenderedColor(icon, environment) == icon.iconStyle.color
    ensures icon.iconStyle.color.None? ==> RenderedColor(icon, environment) == Some(if IsNotch(environment) then White else Primary)
  {
  }
}
