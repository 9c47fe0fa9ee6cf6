/**
 * `DynamicNotchInfo`, the preset wrapper of `DynamicNotchInfo/DynamicNotchInfo.swift`. The
 * two-state controller it wraps is not part of this model; it appears only as the flags the
 * wrapper writes on it and the requests the wrapper forwards to it.
 */
module NotchInfo {
  import opened Wrappers
  import Screens
  import opened NotchStyles
  import opened HoverBehaviors
  import opened UI
  import opened InfoLabel

  /** A call forwarded to the wrapped controller. */
  datatype NotchRequest =
    | ExpandRequest(screen: Screens.Screen, skipHide: bool)   // `_expand(on:skipHide:)`
    | CompactRequest(screen: Screens.Screen, skipHide: bool)  // `_compact(on:skipHide:)`
    | HideRequest                                     // `hide()`

  /** The defaults of `init`'s last two parameters. */
  const DefaultHoverBehavior: HoverBehavior := All
  const DefaultStyle: NotchStyle := Auto

  /** With the defaults every hover behaviour is on and the style follows the screen. */
  lemma DefaultsEnableEverything()
    ensures Contains(DefaultHoverBehavior, KeepVisible)
    ensures Contains(DefaultHoverBehavior, HapticFeedback)
    ensures Contains(DefaultHoverBehavior, IncreaseShadow)
    ensures !IsNotch(DefaultStyle) && !IsFloating(DefaultStyle)
  {
    AllContainsEveryFlag(KeepVisible);
    AllContainsEveryFlag(HapticFeedback);
    AllContainsEveryFlag(IncreaseShadow);
  }

  class DynamicNotchInfo {
    var icon: Option<Label>
    var title: string
    var description: Option<string>
    var textColor: Option<Color>
    var compactLeading: Option<Label>
    var compactTrailing: Option<Label>
    var shouldSkipHideWhenConverting: bool
    /** The wrapped controller's configuration. */
    const hoverBehavior: HoverBehavior
    const style: NotchStyle
    /** The wrapped controller's `disableCompactLeading`/`disableCompactTrailing`, `None` while the wrapper has not written them. */
    var disableCompactLeading: Option<bool>
    var disableCompactTrailing: Option<bool>
    /** Every call forwarded to the wrapped controller, oldest first. */
    var forwarded: seq<NotchRequest>

    /**
     * `init(icon:title:description:compactLeading:compactTrailing:hoverBehavior:style:)`:
     * without a compact-leading label the icon is used and hiding is skipped when converting.
     * Observers do not run inside the class's own initializer, so no flag is written.
     */
    constructor (icon: Option<Label>, title: string, description: Option<string>,
                 compactLeading: Option<Label>, compactTrailing: Option<Label>,
                 hoverBehavior: HoverBehavior, style: NotchStyle)
      ensures this.icon == icon && this.title == title && this.description == description && textColor.None?
      ensures compactLeading.Some? ==> this.compactLeading == compactLeading && !shouldSkipHideWhenConverting
      ensures compactLeading.None? ==> this.compactLeading == icon && shouldSkipHideWhenConverting
      ensures this.compactTrailing == compactTrailing
      ensures this.hoverBehavior == hoverBehavior && this.style == style
      ensures disableCompactLeading.None? && disableCompactTrailing.None? && forwarded == []
    {
      this.icon := icon;
      this.title := title;
      this.description := description;
      textColor := None;
      this.hoverBehavior := hoverBehavior;
      this.style := style;
      disableCompactLeading := None;
      disableCompactTrailing := None;
      forwarded := [];
      if compactLeading.Some? {
        this.compactLeading := compactLeading;
        shouldSkipHideWhenConverting := false;
      } else {
        this.compactLeading := icon;
        shouldSkipHideWhenConverting := true;
      }
      this.compactTrailing := compactTrailing;
    }

    /** Assigning `compactLeading`: its `didSet` disables the leading side exactly when the new value is nil. */
    method SetCompactLeading(newValue: Option<Label>)
      modifies this
      ensures compactLeading == newValue && disableCompactLeading == Some(newValue.None?)
      ensures compactTrailing == old(compactTrailing) && disableCompactTrailing == old(disableCompactTrailing)
      ensures shouldSkipHideWhenConverting == old(shouldSkipHideWhenConverting) && forwarded == old(forwarded)
      ensures icon == old(icon) && title == old(title) && description == old(description) && textColor == old(textColor)
    {
      compactLeading := newValue;
      disableCompactLeading := Some(compactLeading == None);
    }

    /** Assigning `compactTrailing`: its `didSet` disables the trailing side exactly when the new value is nil. */
    method SetCompactTrailing(newValue: Option<Label>)
      modifies this
      ensures compactTrailing == newValue && disableCompactTrailing == Some(newValue.None?)
      ensures compactLeading == old(compactLeading) && disableCompactLeading == old(disableCompactLeading)
      ensures shouldSkipHideWhenConverting == old(shouldSkipHideWhenConverting) && forwarded == old(forwarded)
      ensures icon == old(icon) && title == old(title) && description == old(description) && textColor == old(textColor)
    {
      compactTrailing := newValue;
      disableCompactTrailing := Some(compactTrailing == None);
    }

    /** `expand(on:)` forwards the current skip-hide setting. */
    method Expand(screen: Screens.Screen)
      modifies this`forwarded
      ensures forwarded == old(forwarded) + [ExpandRequest(screen, shouldSkipHideWhenConverting)]
    {
      forwarded := forwarded + [ExpandRequest(screen, shouldSkipHideWhenConverting)];
    }

    /** `compact(on:)` forwards the current skip-hide setting. */
    method Compact(screen: Screens.Screen)
      modifies this`forwarded
      ensures forwarded == old(forwarded) + [CompactRequest(screen, shouldSkipHideWhenConverting)]
    {
      forwarded := forwarded + [CompactRequest(screen, shouldSkipHideWhenConverting)];
    }

    /** `hide()` forwards directly. */
    method Hide()
      modifies this`forwarded
      ensures forwarded == old(forwarded) + [HideRequest]
    {
      forwarded := forwarded + [HideRequest];
    }
  }
}
