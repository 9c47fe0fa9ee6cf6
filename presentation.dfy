/**
 * How the hosting views and the preset labels and icons combine: the style a view places in
 * the environment decides the colour of every symbol or ring that was given none.
 */
module Presentation {
  import opened Wrappers
  import opened NotchStyles
  import opened UI
  import NotchViews
  import NotchlessViews
  import InfoIcon
  import InfoLabel

  /** Inside a `NotchView` uncoloured labels are white; inside a `NotchlessView` they take the primary colour. */
  lemma UncolouredLabelsFollowHostView(l: InfoLabel.Label, style: NotchStyle, section: Section)
    requires l.iconStyle.SystemImage? || l.iconStyle.Progress?
    requires l.iconStyle.color.None?
    ensures InfoLabel.Render(l, NotchViews.EnvironmentStyle(style), section).color == White
    ensures InfoLabel.Render(l, NotchlessViews.EnvironmentStyle(style), section).color == Primary
  {
  }

  /** The same holds for icons. */
  lemma UncolouredIconsFollowHostView(icon: InfoIcon.Icon, style: NotchStyle)
    requires icon.iconStyle.SystemImage? || icon.iconStyle.Progress?
    requires icon.iconStyle.color.None?
    ensures InfoIcon.RenderedColor(icon, NotchViews.EnvironmentStyle(style)) == Some(White)
    ensures InfoIcon.RenderedColor(icon, NotchlessViews.EnvironmentStyle(style)) == Some(Primary)
  {
  }
}
