/**
 * The shelf-height command: which (visible, height) pair the launcher
 * computes on each recompute, how `SET_SHELF_HEIGHT` carries it through the
 * two `int` arguments of an asynchronous command, and how the command
 * turns the arguments back into the pair handed to the system UI.
 */
module Shelf {
  import opened LauncherStates

  /** The two integer arguments of an asynchronous UI-thread-helper command. */
  datatype AsyncArgs = AsyncArgs(arg1: int, arg2: int)

  /** What the system UI is told: whether the shelf shows, and its height in pixels. */
  datatype ShelfHeight = ShelfHeight(visible: bool, heightPx: int)

  /**
   * The shelf is visible exactly when the launcher is on its home screen or
   * in overview, the user is active, and the layout is not vertical-bar.
   */
  predicate ShelfVisible(state: LauncherState, userActive: bool, verticalBarLayout: bool) {
    (state == Normal || state == Overview) && userActive && !verticalBarLayout
  }

  /** The arguments the launcher passes with `SET_SHELF_HEIGHT`: `visible ? 1 : 0` and the height. */
  function EncodeShelfHeight(visible: bool, heightPx: int): (a: AsyncArgs)
    ensures a.arg1 == 0 || a.arg1 == 1
    ensures a.arg2 == heightPx
  {
    AsyncArgs(if visible then 1 else 0, heightPx)
  }

  /** `SET_SHELF_HEIGHT` itself: any non-zero first argument means visible. */
  function SetShelfHeight(a: AsyncArgs): (s: ShelfHeight)
    ensures s.heightPx == a.arg2
  {
    ShelfHeight(a.arg1 != 0, a.arg2)
  }

  /** Encoding then decoding gives back the pair the launcher computed. */
  lemma ShelfHeightRoundTrip(visible: bool, heightPx: int)
    ensures SetShelfHeight(EncodeShelfHeight(visible, heightPx)) == ShelfHeight(visible, heightPx)
  {
  }

  /**
   * Decoding then encoding gives back the arguments exactly when the first
   * argument is already 0 or 1; every other non-zero value collapses to 1.
   */
  lemma ShelfArgsRoundTrip(a: AsyncArgs)
    ensures SetShelfHeight(a).visible <==> a.arg1 != 0
    ensures EncodeShelfHeight(SetShelfHeight(a).visible, SetShelfHeight(a).heightPx) == a
        <==> a.arg1 == 0 || a.arg1 == 1
  {
  }

  /** The shelf is never visible in a vertical-bar layout, nor when the user is inactive, nor outside NORMAL and OVERVIEW. */
  lemma ShelfHiddenCases(state: LauncherState, userActive: bool, verticalBarLayout: bool)
    ensures verticalBarLayout ==> !ShelfVisible(state, userActive, verticalBarLayout)
    ensures !userActive ==> !ShelfVisible(state, userActive, verticalBarLayout)
    ensures state.Other? ==> !ShelfVisible(state, userActive, verticalBarLayout)
    ensures !state.Other? && userActive && !verticalBarLayout ==> ShelfVisible(state, userActive, verticalBarLayout)
  {
  }
}
