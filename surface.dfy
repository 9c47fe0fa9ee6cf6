/**
 * The on-screen panel a controller owns, reduced to an opaque handle and the root view it
 * hosts. Panel level, collection behaviour and frame arithmetic are not part of this model.
 */
module Surface {
  import opened Wrappers

  /** An `NSWindowController` with its panel, named by the order in which it was created. */
  type Handle = nat

  /** The SwiftUI root view installed as the panel's content view. */
  datatype RootView = NotchView | NotchlessView

  datatype Window = Window(handle: Handle, root: RootView)

  /** The handles a controller holds: none, or the one of its window. */
  function Held(w: Option<Window>): (hs: set<Handle>)
    ensures w.None? <==> hs == {}
    ensures w.Some? ==> hs == {w.value.handle}
  {
    match w
    case None => {}
    case Some(win) => {win.handle}
  }
}
