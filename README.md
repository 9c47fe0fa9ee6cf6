# DynamicNotchKit in Dafny

A model of the decision-making core of DynamicNotchKit, a macOS library that shows a
popover growing out of the screen's notch (or, on a screen without one, a floating
one below the menu bar):

- **Screen geometry.** This covers the search for the screen under the mouse, the notch size and frame measured from the
  areas either side of the camera housing, and the menu-bar fallback frame for screens without a notch.
- **Styles.** This covers `DynamicNotchStyle` with its presets, kind tests and hand-written equality, and the
  `DynamicNotchHoverBehavior` option set, modelled as a 64-bit mask.
- **What the hosting views decide.** This covers corner radii, the notch width, the hidden mask, shadows, the
  floating view's offsets and insets, the `notchStyle` they place in the environment, and
  the view `NotchContentView` chooses.
- **The preset content.** This covers `DynamicNotchInfoIcon` and `DynamicNotchInfo.Label`: their styles,
  the hand-written equality that ignores overlays and custom views, their initializers, the colour fallback and the ring
  thickness.
- **The controllers.** This covers `DynamicNotch` in `DynamicNotch/DynamicNotch.swift` and the older
  `DynamicNotch` in `DynamicNotch.swift`. Each is a class whose fields are updated in place, and each method is proved
  to perform a pure transition of a state machine (`NotchMachine`, `LegacyMachine`) and
  to keep that machine's invariant. Everything the Swift code posts for later is an entry of a
  modelled main queue (`MainQueue`) with a deadline in milliseconds:
  - `DispatchQueue.main.async`;
  - `asyncAfter`;
  - a `DispatchWorkItem`;
  - a `Timer`.

  The queue runs the earliest waiting entry; a cancelled work item or an invalidated timer still takes its turn and
  does nothing. The window server is a set of open panel handles, so "no panel leaks" can be stated.
- **`DynamicNotchInfo`.** This covers the initializer's compact-leading fallback, the observers on `compactLeading`/`compactTrailing`, and the forwarding of
  `expand`/`compact`/`hide`.

Inputs the system supplies are parameters:
- `NSScreen.screens`;
- `NSScreen.main`;
- `NSEvent.mouseLocation`;
- a freshly drawn `UUID`;
- the hover state reported by SwiftUI.

The lemmas `NotchMachine.DoubleShowOutlivesTeardown` and `LegacyMachine.DoubleShowOutlivesTeardown` trace one sequence of calls. Two `show` calls are made before the main queue's next turn, which leaves two "become visible" closures pending. A `hide` runs between those two turns, so its teardown timer is never invalidated. When the timer fires, it closes the window while `isVisible` is true.

## Model

| member | source | states |
|---|---|---|
| Screens.ScreenWithMouse | Sources/DynamicNotchKit/Utility/NSScreen+Extensions.swift:11-17 | none exactly when no screen's frame holds the mouse (`NSMouseInRect`, not flipped); otherwise the first screen in order whose frame holds it |
| Screens.FirstWithMouseShifts | Sources/DynamicNotchKit/Utility/NSScreen+Extensions.swift:14 | when the first screen misses the mouse, the first hit in the rest is the first hit overall, one index later |
| Screens.FirstWithMouseIsUnique | Sources/DynamicNotchKit/Utility/NSScreen+Extensions.swift:14 | "first screen holding the mouse" names at most one index |
| Screens.NotchSize | Sources/DynamicNotchKit/Utility/NSScreen+Extensions.swift:19-34 | present exactly when both auxiliary top areas exist (`hasNotch`); width is the frame width minus both areas, height the top safe-area inset |
| Screens.NotchFrame | Sources/DynamicNotchKit/Utility/NSScreen+Extensions.swift:36-44 | present exactly when the screen has a notch; has the notch size, is centred on the frame and touches its top edge |
| Screens.MenubarHeight | Sources/DynamicNotchKit/Utility/NSScreen+Extensions.swift:46-48 | the visible frame's top plus the menu-bar height is the frame's top |
| Screens.NotchFrameWithMenubarAsBackup | Sources/DynamicNotchKit/Utility/NSScreen+Extensions.swift:50-65 | the notch frame when there is a notch; otherwise 300 points wide and menu-bar high; always centred and flush with the top |
| LegacyScreens.FirstIndexFrom | Sources/DynamicNotchKit/NSScreen+Extensions.swift:14 | the first index from `from` on whose frame holds the mouse, or none when no later frame does |
| LegacyScreens.ScreenWithMouse | Sources/DynamicNotchKit/NSScreen+Extensions.swift:11-17 | a screen of the list that holds the mouse and comes first among those that do; none exactly when no frame holds it |
| LegacyScreens.AgreesWithUtilitySearch | Sources/DynamicNotchKit/NSScreen+Extensions.swift:11-17 | the older copy of `screenWithMouse` returns the same screen as the one in `Utility` for every list and mouse position |
| NotchStyles.Equal | Sources/DynamicNotchKit/DynamicNotch/DynamicNotchStyle.swift:48-61 | the hand-written `==` holds exactly when both styles are the same case with the same radii |
| NotchStyles.KindsAreExclusive | Sources/DynamicNotchKit/DynamicNotch/DynamicNotchStyle.swift:31-45 | `isNotch` holds exactly for `.notch`, `isFloating` exactly for `.floating`; never both; `.auto` is neither |
| NotchStyles.EqualIsEquivalence | Sources/DynamicNotchKit/DynamicNotch/DynamicNotchStyle.swift:48-61 | `==` is reflexive, symmetric and transitive |
| NotchStyles.Presets | Sources/DynamicNotchKit/DynamicNotch/DynamicNotchStyle.swift:28-29 | `.notch` has radii 15/20, `.floating` radius 20, and they differ |
| HoverBehaviors.FlagsAreDisjointBits | Sources/DynamicNotchKit/DynamicNotch/DynamicNotchHoverBehavior.swift:29-36 | the three behaviours are bits 0, 1, 2, share no bit, and none contains another |
| HoverBehaviors.AllContainsEveryFlag | Sources/DynamicNotchKit/DynamicNotch/DynamicNotchHoverBehavior.swift:26-27 | `.all` has raw value 7 and contains each behaviour |
| HoverBehaviors.ContainsUnion | Sources/DynamicNotchKit/DynamicNotch/DynamicNotchHoverBehavior.swift:17-27 | a union of sets contains a behaviour exactly when one of its operands does |
| HoverBehaviors.ContainsExactlyItsFlags | Sources/DynamicNotchKit/DynamicNotch/DynamicNotchHoverBehavior.swift:29-36 | a single behaviour contains only itself; the empty set contains none |
| InfoIcon.StyleEqual | Sources/DynamicNotchKit/DynamicNotch/DynamicNotchInfoIcon.swift:21-34 | equal exactly when the same case and: same image; same name and colour; same progress value and colour (overlay ignored); same content ID (view ignored) |
| InfoIcon.FromImage | Sources/DynamicNotchKit/DynamicNotch/DynamicNotchInfoIcon.swift:39-41 | the icon shows exactly that image |
| InfoIcon.FromSystemName | Sources/DynamicNotchKit/DynamicNotch/DynamicNotchInfoIcon.swift:47-49 | a symbol icon with the given name and optional colour |
| InfoIcon.FromProgress | Sources/DynamicNotchKit/DynamicNotch/DynamicNotchInfoIcon.swift:56-62 | a ring with the given progress and colour; the overlay is absent exactly when `nil` is passed, and otherwise wraps the given view |
| InfoIcon.FromContent | Sources/DynamicNotchKit/DynamicNotch/DynamicNotchInfoIcon.swift:66-68 | a custom view tagged with the freshly drawn ID |
| InfoIcon.IconEqual | Sources/DynamicNotchKit/DynamicNotch/DynamicNotchInfoIcon.swift:142-146 | icons are equal exactly when their styles are, whichever operand comes first |
| InfoIcon.StyleEqualProperties | Sources/DynamicNotchKit/DynamicNotch/DynamicNotchInfoIcon.swift:21-34 | styles of different cases are never equal; equality is an equivalence |
| InfoIcon.ProgressIgnoresOverlay | Sources/DynamicNotchKit/DynamicNotch/DynamicNotchInfoIcon.swift:27-28 | two rings with the same progress and colour are equal whatever their overlays |
| InfoIcon.CustomViewsCompareByID | Sources/DynamicNotchKit/DynamicNotch/DynamicNotchInfoIcon.swift:29-30 | two custom icons are equal exactly when they were given the same ID, whatever their views |
| InfoIcon.SymbolsCompareNameAndColor | Sources/DynamicNotchKit/DynamicNotch/DynamicNotchInfoIcon.swift:25-26 | two symbol icons are equal exactly when name and colour agree |
| InfoIcon.RenderedColor | Sources/DynamicNotchKit/DynamicNotch/DynamicNotchInfoIcon.swift:70-96 | symbols and rings get a colour, images and custom views none; that colour is the tint of the given one under the environment's style |
| InfoIcon.ColorFallback | Sources/DynamicNotchKit/DynamicNotch/DynamicNotchInfoIcon.swift:80-86 | a given colour wins; otherwise white under a notch style and primary elsewhere |
| InfoLabel.StyleEqual | Sources/DynamicNotchKit/DynamicNotchInfo/DynamicNotchInfo+Label.swift:28-41 | same rules as the icon's style equality |
| InfoLabel.FromImage | Sources/DynamicNotchKit/DynamicNotchInfo/DynamicNotchInfo+Label.swift:46-48 | a label of that image with the fresh identity |
| InfoLabel.FromSystemName | Sources/DynamicNotchKit/DynamicNotchInfo/DynamicNotchInfo+Label.swift:54-56 | a symbol label with the given name, colour and fresh identity |
| InfoLabel.FromProgress | Sources/DynamicNotchKit/DynamicNotchInfo/DynamicNotchInfo+Label.swift:63-69 | a ring label; the overlay is absent exactly when `nil` is passed, otherwise the given view is wrapped |
| InfoLabel.FromContent | Sources/DynamicNotchKit/DynamicNotchInfo/DynamicNotchInfo+Label.swift:73-75 | a custom label tagged with a freshly drawn content ID, apart from its own identity |
| InfoLabel.StyleEqualProperties | Sources/DynamicNotchKit/DynamicNotchInfo/DynamicNotchInfo+Label.swift:28-41 | different cases never equal; equality is an equivalence |
| InfoLabel.ProgressIgnoresOverlay | Sources/DynamicNotchKit/DynamicNotchInfo/DynamicNotchInfo+Label.swift:34-35 | rings with the same value and colour compare equal whatever their overlays |
| InfoLabel.CustomViewsCompareByID | Sources/DynamicNotchKit/DynamicNotchInfo/DynamicNotchInfo+Label.swift:36-37 | custom labels compare equal exactly when their content IDs agree |
| InfoLabel.SymbolsCompareNameAndColor | Sources/DynamicNotchKit/DynamicNotchInfo/DynamicNotchInfo+Label.swift:32-33 | symbol labels compare equal exactly when name and colour agree |
| InfoLabel.LabelsHaveOwnIdentity | Sources/DynamicNotchKit/DynamicNotchInfo/DynamicNotchInfo+Label.swift:19-20 | identity and style equality are independent: two labels of one image are different labels whose styles compare equal, and two custom labels wrapping the same view compare unequal once their content IDs differ |
| InfoLabel.RingThickness | Sources/DynamicNotchKit/DynamicNotchInfo/DynamicNotchInfo+Label.swift:95 | 4 in the expanded section, 3 in either compact section |
| InfoLabel.Render | Sources/DynamicNotchKit/DynamicNotchInfo/DynamicNotchInfo+Label.swift:77-108 | images and custom views are shown as given; symbols in the tinted colour; rings with their value, overlay, tinted colour and the section's thickness |
| InfoLabel.RenderingChoices | Sources/DynamicNotchKit/DynamicNotchInfo/DynamicNotchInfo+Label.swift:88-95 | expanded rings are thicker than compact ones, both compact sides draw alike, uncoloured symbols follow the environment |
| UI.Tint | Sources/DynamicNotchKit/DynamicNotchInfo/DynamicNotchInfo+Label.swift:88-94 | the given colour, else white under a notch style, else primary |
| Presentation.UncolouredLabelsFollowHostView | Sources/DynamicNotchKit/Views/NotchView.swift:50 | an uncoloured symbol or ring label is white inside a `NotchView` and primary inside a `NotchlessView`, whatever the controller's style |
| Presentation.UncolouredIconsFollowHostView | Sources/DynamicNotchKit/Views/NotchlessView.swift:47 | the same for icons |
| Surface.Held | Sources/DynamicNotchKit/DynamicNotch/DynamicNotch.swift:15 | the controller holds no panel without a window controller, else exactly its panel |
| NotchViews.ExpandedRadii | Sources/DynamicNotchKit/Views/NotchView.swift:14-20 | a `.notch` style's own radii, otherwise those of the `.notch` preset |
| NotchViews.CornerRadii | Sources/DynamicNotchKit/Views/NotchView.swift:82-88 | the expanded radii while visible, 6/14 while hidden |
| NotchViews.NotchWidth | Sources/DynamicNotchKit/Views/NotchView.swift:78-80 | exceeds the notch width by twice the current top radius |
| NotchViews.MaskFrame | Sources/DynamicNotchKit/Views/NotchView.swift:36-46 | unconstrained exactly while visible; otherwise the notch width plus 12 by the notch height |
| NotchViews.ShadowRadius | Sources/DynamicNotchKit/Views/NotchView.swift:48 | the one shadow radius of both hosting views (`NotchlessView.swift:38` uses the same expression): zero exactly while hidden, positive while visible |
| NotchViews.EnvironmentStyle | Sources/DynamicNotchKit/Views/NotchView.swift:50 | always a notch style: the controller's own when it is one, else the preset |
| NotchViews.EnvironmentAgreesWithRadii | Sources/DynamicNotchKit/Views/NotchView.swift:50 | children see the radii the view draws with; placing the style again changes nothing |
| NotchViews.SpacerFrame | Sources/DynamicNotchKit/Views/NotchView.swift:57-61 | the spacer above the content is as high as the notch and exceeds its width by twice the current top radius |
| NotchViews.HiddenMaskCoversSpacer | Sources/DynamicNotchKit/Views/NotchView.swift:42-61 | while hidden the mask frame is exactly the spacer's frame; while visible the mask is lifted and the spacer still keeps the content a notch height down |
| NotchlessViews.CornerRadius | Sources/DynamicNotchKit/Views/NotchlessView.swift:17-23 | a `.floating` style's radius, otherwise 20 |
| NotchlessViews.VerticalOffset | Sources/DynamicNotchKit/Views/NotchlessView.swift:44 | the notch height while visible; minus the window height while hidden |
| NotchlessViews.EnvironmentStyle | Sources/DynamicNotchKit/Views/NotchlessView.swift:47 | always a floating style: the controller's own when it is one, else the preset |
| NotchlessViews.EnvironmentAgreesWithRadius | Sources/DynamicNotchKit/Views/NotchlessView.swift:47 | children see the radius the view draws with; placing the style again changes nothing |
| NotchlessViews.MeasuredHeight | Sources/DynamicNotchKit/Views/NotchlessView.swift:39-43 | the recorded `windowHeight` exceeds the content height by the top and bottom insets of 15 and the padding of 20 on either side |
| NotchlessViews.HiddenViewSlidesOffScreen | Sources/DynamicNotchKit/Views/NotchlessView.swift:39-44 | with the measured height, a hidden view ends exactly at the top edge and lies at least 70 points above it; a visible one starts at the notch height with its content 35 points lower; the slide covers the notch height plus the view's height |
| NotchContentViews.ShadowOpacity | Sources/DynamicNotchKit/Views/NotchContentView.swift:20-26 | 0.8 exactly when hovering with `.increaseShadow`, else 0.5 |
| NotchContentViews.ShadowRadius | Sources/DynamicNotchKit/Views/NotchContentView.swift:28-36 | 0 while hidden; while visible 20 exactly when emphasised, else 10 |
| NotchContentViews.ChosenView | Sources/DynamicNotchKit/Views/NotchContentView.swift:40-45 | a `NotchView` exactly for notch styles, a `NotchlessView` otherwise |
| NotchContentViews.ShadowIsConsistent | Sources/DynamicNotchKit/Views/NotchContentView.swift:20-36 | the large shadow radius comes only with the strong opacity, and while visible the reverse |
| NotchContentViews.HostShadowWithinContentShadow | Sources/DynamicNotchKit/Views/NotchContentView.swift:28-36 | the hosting view's shadow and the content view's both vanish while hidden; while visible the host's radius is the content view's resting radius and never exceeds it |
| NotchContentViews.EmphasisUnderPresets | Sources/DynamicNotchKit/Views/NotchContentView.swift:20-36 | with `.all` the shadow is emphasised exactly while hovering; with no behaviour never |
| MainQueue.After | Sources/DynamicNotchKit/DynamicNotch/DynamicNotch.swift:89 | a non-negative delay lands that far from now; a negative one means now |
| MainQueue.CancelSlot | Sources/DynamicNotchKit/DynamicNotch/DynamicNotch.swift:87-98 | `cancel()`/`invalidate()`: the named entry is no longer pending, every other entry is untouched, kinds and deadlines never change |
| MainQueue.Run | Sources/DynamicNotchKit/DynamicNotch/DynamicNotch.swift:102-104 | the run entry is marked as run and nothing else changes |
| MainQueue.LiveCountAppend | Sources/DynamicNotchKit/DynamicNotch/DynamicNotch.swift:89 | posting a closure adds one to its kind's pending count and nothing to the others |
| MainQueue.SoleLiveCount | Sources/DynamicNotchKit/DynamicNotch/DynamicNotch.swift:86-89 | when only the stored slot may be pending, at most one entry of the kind is pending: exactly one when the slot names a pending entry of the kind, none when it is empty or names a settled entry |
| MainQueue.NoneLiveBelow | Sources/DynamicNotchKit/DynamicNotch/DynamicNotch.swift:86-89 | with no pending entry of a kind its count is zero |
| NotchMachine.SelectRoot | Sources/DynamicNotchKit/DynamicNotch/DynamicNotch.swift:161-165 | a `NotchView` exactly for a notch style, or for `.auto` on a screen with a notch |
| NotchMachine.CheckIfMouseIsInNotch | Sources/DynamicNotchKit/DynamicNotch/DynamicNotch.swift:143-149 | true exactly when there is a first screen holding the mouse and its backup notch frame contains the mouse |
| NotchMachine.DeinitializeWindowIsIdempotent | Sources/DynamicNotchKit/DynamicNotch/DynamicNotch.swift:196-200 | closing twice equals closing once, closing without a window changes nothing, and afterwards no panel is open |
| NotchMachine.InitializeWindowLeavesOnePanel | Sources/DynamicNotchKit/DynamicNotch/DynamicNotch.swift:155-193 | the old panel is closed, exactly one new panel is open with the chosen root, and the notch size is the screen's backup frame size |
| NotchMachine.RootSelectionAgreesWithContentView | Sources/DynamicNotchKit/DynamicNotch/DynamicNotch.swift:161-165 | `.auto` picks what the notch or floating preset would on that screen; other styles agree with `NotchContentView` |
| NotchMachine.ScheduleHideReplacesPending | Sources/DynamicNotchKit/DynamicNotch/DynamicNotch.swift:85-90 | the new work item is stored and due `seconds` from now, the previous one is cancelled, and exactly one auto-hide is pending |
| NotchMachine.ShowWhileVisible | Sources/DynamicNotchKit/DynamicNotch/DynamicNotch.swift:92-97 | the window is untouched; a positive duration restarts the auto-hide as the only pending one; zero or negative changes nothing |
| NotchMachine.ShowWhileHidden | Sources/DynamicNotchKit/DynamicNotch/DynamicNotch.swift:98-108 | the teardown is invalidated, a new sole panel is opened, visibility is only posted; zero seconds leaves the earlier auto-hide and the rest of the queue alone, any other value schedules a hide |
| NotchMachine.HideBeforeDeferredTurnIsNoOp | Sources/DynamicNotchKit/DynamicNotch/DynamicNotch.swift:102-114 | a hide right after showing from hidden does nothing |
| NotchMachine.DeferredTurnMakesVisible | Sources/DynamicNotchKit/DynamicNotch/DynamicNotch.swift:102-104 | the posted closure is the next to run, and running it makes the notch visible in the window just opened |
| NotchMachine.HideOutcomes | Sources/DynamicNotchKit/DynamicNotch/DynamicNotch.swift:113-128 | no-op while hidden; with the mouse inside and not ignored only a retry 100 ms later is posted; otherwise hidden, with the window kept and a teardown due 800 ms later stored as the timer |
| NotchMachine.HoverRetryTurn | Sources/DynamicNotchKit/DynamicNotch/DynamicNotch.swift:116-120 | a retry re-posts itself while the mouse stays inside and hides once it has left |
| NotchMachine.CancelledEntryIsNoOp | Sources/DynamicNotchKit/DynamicNotch/DynamicNotch.swift:87-98 | a cancelled work item or invalidated timer changes no controller field |
| NotchMachine.TeardownClosesWindow | Sources/DynamicNotchKit/DynamicNotch/DynamicNotch.swift:125-127 | a live teardown closes the window and every panel, whatever `isVisible` says |
| NotchMachine.ToggleOutcomes | Sources/DynamicNotchKit/DynamicNotch/DynamicNotch.swift:131-137 | from visible it hides or defers for the mouse; from hidden it opens a window and keeps any auto-hide |
| NotchMachine.SetContentReplacesOnlyContent | Sources/DynamicNotchKit/DynamicNotch/DynamicNotch.swift:67-73 | content and a newly drawn ID replace the old ones (the passed ID is ignored) and nothing else changes |
| NotchMachine.ScreenChangeRebuildsWindow | Sources/DynamicNotchKit/DynamicNotch/DynamicNotch.swift:51-56 | with no screens nothing changes; otherwise a sole new panel on the first screen, even while hidden, with visibility unchanged |
| NotchMachine.InitialInv | Sources/DynamicNotchKit/DynamicNotch/DynamicNotch.swift:43-57 | a new controller satisfies the invariant |
| NotchMachine.ScheduleHideKeepsInv | Sources/DynamicNotchKit/DynamicNotch/DynamicNotch.swift:85-90 | the invariant survives `scheduleHide` |
| NotchMachine.InitializeWindowKeepsInv | Sources/DynamicNotchKit/DynamicNotch/DynamicNotch.swift:155-194 | the invariant survives `initializeWindow` |
| NotchMachine.ShowKeepsInv | Sources/DynamicNotchKit/DynamicNotch/DynamicNotch.swift:79-109 | the invariant survives `show` |
| NotchMachine.HideKeepsInv | Sources/DynamicNotchKit/DynamicNotch/DynamicNotch.swift:113-128 | the invariant survives `hide` |
| NotchMachine.FireKeepsInv | Sources/DynamicNotchKit/DynamicNotch/DynamicNotch.swift:85-128 | the invariant survives the main queue running its next entry |
| NotchMachine.AdvanceKeepsInv | Sources/DynamicNotchKit/DynamicNotch/DynamicNotch.swift:89 | the invariant survives time passing up to the next deadline |
| NotchMachine.ToggleKeepsInv | Sources/DynamicNotchKit/DynamicNotch/DynamicNotch.swift:131-137 | the invariant survives `toggle` |
| NotchMachine.ScreenChangeKeepsInv | Sources/DynamicNotchKit/DynamicNotch/DynamicNotch.swift:51-56 | the invariant survives a screen-parameters change |
| NotchMachine.ShowAgainPostponesHide | Sources/DynamicNotchKit/DynamicNotch/DynamicNotch.swift:85-97 | show for 4 s, then again for 4 s at 2 s: the first hide is cancelled and its turn leaves the notch visible; it hides at 6 s |
| NotchMachine.DoubleShowOutlivesTeardown | Sources/DynamicNotchKit/DynamicNotch/DynamicNotch.swift:98-127 | two shows before the deferred turn, then a hide between the two turns: the teardown later closes the window of a visible notch, and a second hide before it fires leaves two teardowns pending |
| Notch.DynamicNotch.constructor | Sources/DynamicNotchKit/DynamicNotch/DynamicNotch.swift:43-57 | the initial state, with the invariant |
| Notch.DynamicNotch.SetContent | Sources/DynamicNotchKit/DynamicNotch/DynamicNotch.swift:67-73 | performs `NotchMachine.SetContent` |
| Notch.DynamicNotch.DeinitializeWindow | Sources/DynamicNotchKit/DynamicNotch/DynamicNotch.swift:196-200 | performs `NotchMachine.DeinitializeWindow` |
| Notch.DynamicNotch.InitializeWindow | Sources/DynamicNotchKit/DynamicNotch/DynamicNotch.swift:155-194 | performs `NotchMachine.InitializeWindow` |
| Notch.DynamicNotch.ScheduleHide | Sources/DynamicNotchKit/DynamicNotch/DynamicNotch.swift:85-90 | performs `NotchMachine.ScheduleHide` |
| Notch.DynamicNotch.Show | Sources/DynamicNotchKit/DynamicNotch/DynamicNotch.swift:79-109 | performs `NotchMachine.Show` and keeps the invariant |
| Notch.DynamicNotch.Hide | Sources/DynamicNotchKit/DynamicNotch/DynamicNotch.swift:113-128 | performs `NotchMachine.Hide` and keeps the invariant |
| Notch.DynamicNotch.HideStep | Sources/DynamicNotchKit/DynamicNotch/DynamicNotch.swift:113-128 | performs `NotchMachine.Hide` from any state, as the queued closures do |
| Notch.DynamicNotch.Toggle | Sources/DynamicNotchKit/DynamicNotch/DynamicNotch.swift:131-137 | performs `NotchMachine.Toggle` and keeps the invariant |
| Notch.DynamicNotch.SetMouseInside | Sources/DynamicNotchKit/Views/NotchView.swift:28-30 | records the hover state and keeps the invariant |
| Notch.DynamicNotch.ScreenParametersChanged | Sources/DynamicNotchKit/DynamicNotch/DynamicNotch.swift:51-56 | performs `NotchMachine.ScreenParametersChanged` and keeps the invariant |
| Notch.DynamicNotch.Fire | Sources/DynamicNotchKit/DynamicNotch/DynamicNotch.swift:85-128 | runs the next queue entry as `NotchMachine.Fire` and keeps the invariant |
| Notch.DynamicNotch.Advance | Sources/DynamicNotchKit/DynamicNotch/DynamicNotch.swift:89 | moves the clock no further than the next deadline, keeping the invariant |
| LegacyMachine.RefreshAgreesWithNotchSize | Sources/DynamicNotchKit/DynamicNotch.swift:143-154 | `hasNotch` becomes the screen's; with a notch the width is the notch width plus 10 and the height the notch height; without one the sizes are left as they were; nothing else changes |
| LegacyMachine.InitializeWindowReusesPanel | Sources/DynamicNotchKit/DynamicNotch.swift:96-135 | an existing window is reused unchanged; otherwise one new panel, its root chosen by whether the main screen has a notch |
| LegacyMachine.ShowOutcomes | Sources/DynamicNotchKit/DynamicNotch.swift:36-52 | returns true exactly when not visible; when visible nothing changes; otherwise the teardown is invalidated, one panel is open, and visibility is posted for now |
| LegacyMachine.HideOutcomes | Sources/DynamicNotchKit/DynamicNotch.swift:61-86 | returns true exactly when visible with the mouse outside; no-op while hidden; with the mouse inside only a retry 100 ms later; otherwise hidden with a teardown 800 ms later |
| LegacyMachine.ShowQueue | Sources/DynamicNotchKit/DynamicNotch.swift:38-49 | `show()` leaves the queue alone while visible, else invalidates the teardown and posts visibility |
| LegacyMachine.ShowForAddsHide | Sources/DynamicNotchKit/DynamicNotch.swift:54-59 | each call adds one pending hide `time` later and leaves every earlier timed hide as it was |
| LegacyMachine.TimedHideCountUnchangedByCancel | Sources/DynamicNotchKit/DynamicNotch.swift:41 | invalidating the teardown timer leaves the number of pending timed hides alone |
| LegacyMachine.LiveCountIgnoresOtherKinds | Sources/DynamicNotchKit/DynamicNotch.swift:41 | changing the status of an entry that is not a timed hide leaves their count alone |
| LegacyMachine.HoverRetryTurn | Sources/DynamicNotchKit/DynamicNotch.swift:67-72 | a retry re-posts itself while the mouse stays inside and starts hiding once it has left |
| LegacyMachine.SetContentRerootsOnNotchView | Sources/DynamicNotchKit/DynamicNotch.swift:29-34 | the content is replaced; an existing window keeps its handle but gets a `NotchView` root, even on a screen without a notch; nothing else changes |
| LegacyMachine.ToggleOutcomes | Sources/DynamicNotchKit/DynamicNotch.swift:88-94 | hides when visible; otherwise opens a window without becoming visible yet |
| LegacyMachine.DoubleShowOutlivesTeardown | Sources/DynamicNotchKit/DynamicNotch.swift:37-83 | both early shows report true, a teardown closes the window of a visible notch, and a second hide before it fires leaves two teardowns pending |
| LegacyMachine.InitialInv | Sources/DynamicNotchKit/DynamicNotch.swift:25-27 | a new controller satisfies the invariant |
| LegacyMachine.ShowKeepsInv | Sources/DynamicNotchKit/DynamicNotch.swift:36-52 | the invariant survives `show()` |
| LegacyMachine.ShowForKeepsInv | Sources/DynamicNotchKit/DynamicNotch.swift:54-59 | the invariant survives `show(for:)` |
| LegacyMachine.HideKeepsInv | Sources/DynamicNotchKit/DynamicNotch.swift:61-86 | the invariant survives `hide()` |
| LegacyMachine.FireKeepsInv | Sources/DynamicNotchKit/DynamicNotch.swift:45-83 | the invariant survives the main queue running its next entry |
| LegacyMachine.AdvanceKeepsInv | Sources/DynamicNotchKit/DynamicNotch.swift:54-59 | the invariant survives time passing up to the next deadline |
| LegacyMachine.ToggleKeepsInv | Sources/DynamicNotchKit/DynamicNotch.swift:88-94 | the invariant survives `toggleVisibility()` |
| LegacyMachine.SetContentKeepsInv | Sources/DynamicNotchKit/DynamicNotch.swift:29-34 | the invariant survives `setContent` |
| LegacyNotch.DynamicNotch.constructor | Sources/DynamicNotchKit/DynamicNotch.swift:14-27 | the initial state (`hasNotch` true, sizes zero), with the invariant |
| LegacyNotch.DynamicNotch.SetContent | Sources/DynamicNotchKit/DynamicNotch.swift:29-34 | performs `LegacyMachine.SetContent` and keeps the invariant |
| LegacyNotch.DynamicNotch.RefreshNotchSize | Sources/DynamicNotchKit/DynamicNotch.swift:143-154 | performs `LegacyMachine.RefreshNotchSize` |
| LegacyNotch.DynamicNotch.InitializeWindow | Sources/DynamicNotchKit/DynamicNotch.swift:96-135 | performs `LegacyMachine.InitializeWindow` |
| LegacyNotch.DynamicNotch.DeinitializeWindow | Sources/DynamicNotchKit/DynamicNotch.swift:137-141 | performs `LegacyMachine.DeinitializeWindow` |
| LegacyNotch.DynamicNotch.Show | Sources/DynamicNotchKit/DynamicNotch.swift:36-52 | performs `LegacyMachine.Show`, returning its result, and keeps the invariant |
| LegacyNotch.DynamicNotch.ShowFor | Sources/DynamicNotchKit/DynamicNotch.swift:54-59 | performs `LegacyMachine.ShowFor` and keeps the invariant |
| LegacyNotch.DynamicNotch.Hide | Sources/DynamicNotchKit/DynamicNotch.swift:61-86 | performs `LegacyMachine.Hide`, returning its result, and keeps the invariant |
| LegacyNotch.DynamicNotch.HideStep | Sources/DynamicNotchKit/DynamicNotch.swift:61-86 | performs `LegacyMachine.Hide` from any state, as the queued closures do |
| LegacyNotch.DynamicNotch.ToggleVisibility | Sources/DynamicNotchKit/DynamicNotch.swift:88-94 | performs `LegacyMachine.ToggleVisibility` and keeps the invariant |
| LegacyNotch.DynamicNotch.SetMouseInside | Sources/DynamicNotchKit/NotchlessView.swift:22-24 | records the hover state and keeps the invariant |
| LegacyNotch.DynamicNotch.Fire | Sources/DynamicNotchKit/DynamicNotch.swift:45-83 | runs the next queue entry as `LegacyMachine.Fire` and keeps the invariant |
| LegacyNotch.DynamicNotch.Advance | Sources/DynamicNotchKit/DynamicNotch.swift:54-59 | moves the clock no further than the next deadline, keeping the invariant |
| NotchInfo.DefaultsEnableEverything | Sources/DynamicNotchKit/DynamicNotchInfo/DynamicNotchInfo.swift:77-78 | by default every hover behaviour is on and the style is neither notch nor floating (`.auto`) |
| NotchInfo.DynamicNotchInfo.constructor | Sources/DynamicNotchKit/DynamicNotchInfo/DynamicNotchInfo.swift:71-100 | stores icon, title and description; an explicit compact-leading label is kept with skip-hide off, otherwise the icon is used with skip-hide on; compact-trailing is kept as passed; no `disable…` flag is written |
| NotchInfo.DynamicNotchInfo.SetCompactLeading | Sources/DynamicNotchKit/DynamicNotchInfo/DynamicNotchInfo.swift:52-54 | stores the label and disables the leading side exactly when it is nil; nothing else changes |
| NotchInfo.DynamicNotchInfo.SetCompactTrailing | Sources/DynamicNotchKit/DynamicNotchInfo/DynamicNotchInfo.swift:56-58 | stores the label and disables the trailing side exactly when it is nil; nothing else changes |
| NotchInfo.DynamicNotchInfo.Expand | Sources/DynamicNotchKit/DynamicNotchInfo/DynamicNotchInfo.swift:102-109 | forwards one expand request with the screen and the current skip-hide setting |
| NotchInfo.DynamicNotchInfo.Compact | Sources/DynamicNotchKit/DynamicNotchInfo/DynamicNotchInfo.swift:111-118 | forwards one compact request with the screen and the current skip-hide setting |
| NotchInfo.DynamicNotchInfo.Hide | Sources/DynamicNotchKit/DynamicNotchInfo/DynamicNotchInfo.swift:120-122 | forwards one hide request |

## Left out

- Rendering: the `NotchShape` path, progress-ring drawing, blur and scale transitions, `VisualEffectView`, animation curves, image paddings and the icon ring's default thickness of 5 are drawing details. They hold no decisions.
- Panel plumbing: the panel's style mask, level and collection behaviour, and the panel frames set in `initializeWindow` (half the screen, or the whole legacy screen) are not modelled. `orderFrontRegardless`/`orderInFrontOfSpaces` are not modelled either. A panel is an opaque handle.
- Geometry is in `real`: `CGFloat` rounding and NaN are not modelled, and rectangles with negative sizes are not standardised as `CGRect` would do.
- Time is in whole milliseconds, and `Double` delays become integers. `show`'s `Duration` is reduced to its whole `seconds` component, as the source reads only that. This model does not study run-loop ordering between equal deadlines beyond "earliest first".
- `NSScreen.main!` in the legacy `initializeWindow` crashes when there is no main screen. The model always receives a main screen.
- Notch.DynamicNotch.Toggle, NotchInfo.DynamicNotchInfo.Expand and NotchInfo.DynamicNotchInfo.Compact always receive a screen. In the source their default screen is `NSScreen.screens[0]` (`DynamicNotch/DynamicNotch.swift:80`, reached from `toggle()`, and `DynamicNotchInfo/DynamicNotchInfo.swift:103` and `:112`), which crashes when no screen is attached; that crash is not modelled.
- InfoIcon.FromProgress and InfoLabel.FromProgress take the overlay as an explicit optional. In the source, leaving the argument out passes the default `{ EmptyView() }`, so the stored overlay is present and empty; only an explicit `nil` leaves it absent. The default is not modelled as a separate case.
- InfoIcon.StyleEqual and InfoLabel.StyleEqual compare symbol names as sequences of code points. Swift's `String ==` compares by canonical equivalence, so two differently normalised spellings of one name are equal there and unequal here.
- The `progress` case holds a `Binding<CGFloat>`, and equality reads its current value. The model stores that value, so later writes through the binding are not modelled.
- The `UUID`s drawn by `init()` are inputs. Freshness is assumed of the caller, not produced.
- The two-state expand/compact controller that `DynamicNotchInfo` wraps and that `NotchContentView` asks about hovering is not part of this model. It appears only as the flags and requests the wrapper sends it, and as the `isHovering` input of the shadow functions.
- Plain settable properties without observers (`icon`, `title`, `description`, `textColor` of `DynamicNotchInfo`, `content` of the controllers' views) are not modelled as setters.
- `disableCompactLeading`/`disableCompactTrailing` start as "not written by the wrapper". Their initial values belong to the wrapped controller, which is not part of this model.
- `hide`/`show` with Swift `async` forwarding in `DynamicNotchInfo` is modelled as an ordered log of requests, without suspension.
- The property "at most one teardown is pending and the window is open while visible" does not hold for either controller, in either half. `NotchMachine.DoubleShowOutlivesTeardown` and `LegacyMachine.DoubleShowOutlivesTeardown` exhibit one sequence that leaves a visible notch without its window and, with one more `hide`, two teardowns pending. The invariants proved instead are "no panel leaks" and "at most one auto-hide work item is pending" (new controller only).
- LegacyMachine.ShowForAddsHide: `show(for:)` hides cannot be cancelled, so no "last duration wins" property is stated for the legacy controller. The lemma states the additive behaviour instead.
