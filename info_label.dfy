/** `DynamicNotchInfo/DynamicNotchInfo+Label.swift`: the labels of the info preset. */
module InfoLabel {
  import opened Wrappers
  import opened NotchStyles
  import opened UI

  /** `Label.Style`; a `Binding<CGFloat>` is represented by the value it holds when read. */
  datatype LabelStyle =
    | ImageStyle(image: Image)
    | SystemImage(systemName: string, color: Option<Color>)
    | Progress(progress: real, color: Option<Color>, overlay: Option<ErasedView>)
    | CustomView(contentID: UUID, view: ErasedView)

  /** `DynamicNotchInfo.Label`: a private identity `id`, minted when the label is made, and its style. */
  datatype Label = Label(id: UUID, iconStyle: LabelStyle)

  /** What the hand-written `==` looks at: the case and the payload fields it compares. */
  datatype EqualityKey =
    | ImageKey(image: Image)
    | SymbolKey(systemName: string, color: Option<Color>)
    | ProgressKey(progress: real, color: Option<Color>)
    | CustomKey(contentID: UUID)

  function Key(s: LabelStyle): EqualityKey {
    match s
    case ImageStyle(i) => ImageKey(i)
    case SystemImage(n, c) => SymbolKey(n, c)
    case Progress(p, c, _) => ProgressKey(p, c)
    case CustomView(id, _) => CustomKey(id)
  }

  /** `Label.Style.==`: equal exactly when the compared fields agree; overlays and custom views are ignored. */
  function StyleEqual(lhs: LabelStyle, rhs: LabelStyle): (r: bool)
    ensures r <==> Key(lhs) == Key(rhs)
  {
    match (lhs, rhs)
    case (ImageStyle(i1), ImageStyle(i2)) => i1 == i2
    case (SystemImage(n1, c1), SystemImage(n2, c2)) => n1 == n2 && c1 == c2
    case (Progress(p1, c1, _), Progress(p2, c2, _)) => p1 == p2 && c1 == c2
    case (CustomView(id1, _), CustomView(id2, _)) => id1 == id2
    case _ => false
  }

  /** `init(image:)`; `id` is the label's freshly minted identity. */
  function FromImage(image: Image, id: UUID): (l: Label)
    ensures l.id == id && l.iconStyle == ImageStyle(image)
  {
    Label(id, ImageStyle(image))
  }

  /** `init(systemName:color:)`. */
  function FromSystemName(systemName: string, color: Option<Color>, id: UUID): (l: Label)
    ensures l.id == id && l.iconStyle.SystemImage?
    ensures l.iconStyle.systemName == systemName && l.iconStyle.color == color
  {
    Label(id, SystemImage(systemName, color))
  }

  /** `init(progress:color:overlay:)`: a missing overlay stays missing, a present one is wrapped in `AnyView`. */
  function FromProgress(progress: real, color: Option<Color>, overlay: Option<nat>, id: UUID): (l: Label)
    ensures l.id == id && l.iconStyle.Progress?
    ensures l.iconStyle.progress == progress && l.iconStyle.color == color
    ensures l.iconStyle.overlay.None? <==> overlay.None?
    ensures overlay.Some? ==> l.iconStyle.overlay == Some(AnyView(overlay.value))
  {
    Label(id, Progress(progress, color, if overlay.None? then None else Some(AnyView(overlay.value))))
  }

  /** `init(content:)`: two fresh `UUID`s are drawn, one for the label and one for the content. */
  function FromContent(content: nat, id: UUID, contentID: UUID): (l: Label)
    ensures l.id == id && l.iconStyle == CustomView(contentID, AnyView(content))
  {
    Label(id, CustomView(contentID, AnyView(content)))
  }

  /** Styles of different cases are never equal, and equality is an equivalence. */
  lemma StyleEqualProperties(a: LabelStyle, b: LabelStyle, c: LabelStyle)
    ensures a.ImageStyle? != b.ImageStyle? || a.SystemImage? != b.SystemImage? || a.Progress? != b.Progress? ==> !StyleEqual(a, b)
    ensures StyleEqual(a, a)
    ensures StyleEqual(a, b) == StyleEqual(b, a)
    ensures StyleEqual(a, b) && StyleEqual(b, c) ==> StyleEqual(a, c)
  {
  }

  /** Progress styles with the same value and colour are equal whatever their overlays. */
  lemma ProgressIgnoresOverlay(p: real, color: Option<Color>, o1: Option<nat>, o2: Option<nat>, id1: UUID, id2: UUID)
    ensures StyleEqual(FromProgress(p, color, o1, id1).iconStyle, FromProgress(p, color, o2, id2).iconStyle)
  {
  }

  /** Custom styles compare only their content IDs, so separately made custom labels differ. */
  lemma CustomViewsCompareByID(v1: nat, v2: nat, id1: UUID, id2: UUID, c1: UUID, c2: UUID)
    ensures StyleEqual(FromContent(v1, id1, c1).iconStyle, FromContent(v2, id2, c2).iconStyle) <==> c1 == c2
  {
  }

  /** Two symbol styles are equal exactly when name and colour are. */
  lemma SymbolsCompareNameAndColor(n1: string, c1: Option<Color>, n2: string, c2: Option<Color>, id1: UUID, id2: UUID)
    ensures StyleEqual(FromSystemName(n1, c1, id1).iconStyle, FromSystemName(n2, c2, id2).iconStyle) <==> n1 == n2 && c1 == c2
  {
  }

  /**
   * A label's minted identity and its style's `==` are independent: two labels of one image are
   * different labels whose styles compare equal, while two custom labels wrapping the same view
   * compare unequal once their content IDs differ.
   */
  lemma LabelsHaveOwnIdentity(image: Image, content: nat, id1: UUID, id2: UUID, c1: UUID, c2: UUID)
    requires id1 != id2 && c1 != c2
    ensures FromImage(image, id1) != FromImage(image, id2)
    ensures StyleEqual(FromImage(image, id1).iconStyle, FromImage(image, id2).iconStyle)
    ensures FromContent(content, id1, c1).iconStyle.view == FromContent(content, id2, c2).iconStyle.view
    ensures !StyleEqual(FromContent(content, id1, c1).iconStyle, FromContent(content, id2, c2).iconStyle)
  {
  }

  /** The ring's line width: 4 in the expanded section, 3 in either compact section. */
  function RingThickness(section: Section): (t: real)
    ensures section == Expanded ==> t == 4.0
    ensures section != Expanded ==> t == 3.0
  {
    if section == Expanded then 4.0 else 3.0
  }

  /** What `body` draws for a label, reduced to the choices it makes. */
  datatype Rendering =
    | ImageView(image: Image)
    | SymbolView(systemName: string, color: Color)
    | RingView(progress: real, color: Color, thickness: real, overlay: Option<ErasedView>)
    | CustomContent(view: ErasedView)

  /** `body` under the environment's `notchStyle` and `notchSection`. */
  function Render(l: Label, environment: NotchStyle, section: Section): (r: Rendering)
    ensures l.iconStyle.SystemImage? ==> r == SymbolView(l.iconStyle.systemName, Tint(l.iconStyle.color, environment))
    ensures l.iconStyle.Progress? ==> r.RingView? && r.progress == l.iconStyle.progress && r.overlay == l.iconStyle.overlay
    ensures l.iconStyle.Progress? ==> r.color == Tint(l.iconStyle.color, environment) && r.thickness == RingThickness(section)
    ensures l.iconStyle.ImageStyle? ==> r == ImageView(l.iconStyle.image)
    ensures l.iconStyle.CustomView? ==> r == CustomContent(l.iconStyle.view)
  {
    match l.iconStyle
    case ImageStyle(image) => ImageView(image)
    case SystemImage(name, color) => SymbolView(name, Tint(color, environment))
    case Progress(p, color, overlay) => RingView(p, Tint(color, environment), RingThickness(section), overlay)
    case CustomView(_, view) => CustomContent(view)
  }

  /** Rings are thicker when expanded, and uncoloured symbols and rings follow the environment's style. */
  lemma RenderingChoices(l: Label, environment: NotchStyle)
    ensures l.iconStyle.Progress? ==> Render(l, environment, Expanded).thickness > Render(l, environment, CompactLeading).thickness
    ensures l.iconStyle.Progress? ==> Render(l, environment, CompactLeading) == Render(l, environment, CompactTrailing)
    ensures l.iconStyle.SystemImage? && l.iconStyle.color.None? ==>
              Render(l, environment, Expanded).color == (if IsNotch(environment) then White else Primary)
  {
  }
}
