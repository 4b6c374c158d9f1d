/**
 * Which touch controllers the launcher registers, and in what order.
 *
 * Controllers are consulted in registration order, so the list, not just
 * its contents, is what `createTouchControllers` decides.  Each controller
 * is a tag here; the portrait-states controller keeps the one setting it is
 * built with.  The navigation mode is reduced to the two facts the builder
 * reads: whether it is NO_BUTTON, and its `hasGestures` flag.
 */
module TouchControllers {
  datatype Mode = Mode(isNoButton: bool, hasGestures: bool)

  datatype Controller =
    | Drag
    | NoButtonQuickSwitch
    | NavBarToHome
    | NoButtonNavbarToOverview
    | FlingAndHold
    | OverviewToAllApps
    | LandscapeEdgeSwipe
    | TransposedQuickSwitch
    | PortraitStates(allowDragToOverview: bool)
    | QuickSwitch
    | StatusBar
    | TaskView

  /** The controllers that only the button-mode branches register. */
  predicate IsButtonModeController(c: Controller) {
    c.OverviewToAllApps? || c.LandscapeEdgeSwipe? || c.TransposedQuickSwitch?
    || c.PortraitStates? || c.QuickSwitch?
  }

  /** The controllers that only the NO_BUTTON branch registers. */
  predicate IsNoButtonController(c: Controller) {
    c.NoButtonQuickSwitch? || c.NavBarToHome? || c.NoButtonNavbarToOverview? || c.FlingAndHold?
  }

  /** The mode- and layout-specific controllers registered between the drag controller and the common tail. */
  function ModeControllers(mode: Mode, verticalBarLayout: bool, overviewActions: bool): seq<Controller> {
    if mode.isNoButton then
      [NoButtonQuickSwitch, NavBarToHome, if overviewActions then NoButtonNavbarToOverview else FlingAndHold]
    else if verticalBarLayout then
      [OverviewToAllApps, LandscapeEdgeSwipe] + (if mode.hasGestures then [TransposedQuickSwitch] else [])
    else
      [PortraitStates(mode.hasGestures)] + (if mode.hasGestures then [QuickSwitch] else [])
  }

  /** The controller list `createTouchControllers` builds. */
  function BuildControllers(mode: Mode, verticalBarLayout: bool, multiWindow: bool, overviewActions: bool)
    : (list: seq<Controller>)
    ensures 3 <= |list| <= 6
    ensures list[0] == Drag && list[|list| - 1] == TaskView
  {
    [Drag] + ModeControllers(mode, verticalBarLayout, overviewActions)
    + (if multiWindow then [] else [StatusBar]) + [TaskView]
  }

  // ---------------------------------------------------------------------
  // An independent description of the same list: which controllers are
  // registered under which conditions, and one fixed order among them.
  // ---------------------------------------------------------------------

  /** Whether controller `c` is registered for the given mode, layout, window mode and flag. */
  predicate Registered(c: Controller, mode: Mode, verticalBarLayout: bool, multiWindow: bool, overviewActions: bool) {
    match c
    case Drag => true
    case NoButtonQuickSwitch => mode.isNoButton
    case NavBarToHome => mode.isNoButton
    case NoButtonNavbarToOverview => mode.isNoButton && overviewActions
    case FlingAndHold => mode.isNoButton && !overviewActions
    case OverviewToAllApps => !mode.isNoButton && verticalBarLayout
    case LandscapeEdgeSwipe => !mode.isNoButton && verticalBarLayout
    case TransposedQuickSwitch => !mode.isNoButton && verticalBarLayout && mode.hasGestures
    case PortraitStates(allow) => !mode.isNoButton && !verticalBarLayout && allow == mode.hasGestures
    case QuickSwitch => !mode.isNoButton && !verticalBarLayout && mode.hasGestures
    case StatusBar => !multiWindow
    case TaskView => true
  }

  /** The position of each controller kind in the registration order. */
  function Rank(c: Controller): nat {
    match c
    case Drag => 0
    case NoButtonQuickSwitch => 1
    case NavBarToHome => 2
    case NoButtonNavbarToOverview => 3
    case FlingAndHold => 4
    case OverviewToAllApps => 5
    case LandscapeEdgeSwipe => 6
    case TransposedQuickSwitch => 7
    case PortraitStates(_) => 8
    case QuickSwitch => 9
    case StatusBar => 10
    case TaskView => 11
  }

  /** Ranks strictly increase along the list; in particular no controller occurs twice. */
  predicate StrictlyOrdered(list: seq<Controller>) {
    forall i, j :: 0 <= i < j < |list| ==> Rank(list[i]) < Rank(list[j])
  }

  /** Two rank-ordered lists, every rank of the first below `bound` and none of the second, concatenate to a rank-ordered list. */
  lemma ConcatOrdered(x: seq<Controller>, y: seq<Controller>, bound: nat)
    requires StrictlyOrdered(x) && StrictlyOrdered(y)
    requires forall i :: 0 <= i < |x| ==> Rank(x[i]) < bound
    requires forall j :: 0 <= j < |y| ==> bound <= Rank(y[j])
    ensures StrictlyOrdered(x + y)
  {
    forall i, j | 0 <= i < j < |x + y|
      ensures Rank((x + y)[i]) < Rank((x + y)[j])
    {
      if j < |x| {
        assert (x + y)[i] == x[i] && (x + y)[j] == x[j];
      } else if i < |x| {
        assert (x + y)[i] == x[i] && (x + y)[j] == y[j - |x|];
      } else {
        assert (x + y)[i] == y[i - |x|] && (x + y)[j] == y[j - |x|];
      }
    }
  }

  /** The mode-specific segment is rank-ordered, lies strictly between the drag controller and the common tail, and holds exactly the registered mode-specific controllers. */
  lemma ModeControllersMatchRegistry(mode: Mode, verticalBarLayout: bool, multiWindow: bool, overviewActions: bool)
    ensures StrictlyOrdered(ModeControllers(mode, verticalBarLayout, overviewActions))
    ensures forall c :: c in ModeControllers(mode, verticalBarLayout, overviewActions)
                    <==> 1 <= Rank(c) <= 9 && Registered(c, mode, verticalBarLayout, multiWindow, overviewActions)
  {
    var mid := ModeControllers(mode, verticalBarLayout, overviewActions);
    if mode.isNoButton {
      assert mid == [NoButtonQuickSwitch, NavBarToHome, if overviewActions then NoButtonNavbarToOverview else FlingAndHold];
    } else if verticalBarLayout {
      assert mid == if mode.hasGestures then [OverviewToAllApps, LandscapeEdgeSwipe, TransposedQuickSwitch]
                    else [OverviewToAllApps, LandscapeEdgeSwipe];
    } else {
      assert mid == if mode.hasGestures then [PortraitStates(true), QuickSwitch] else [PortraitStates(false)];
    }
  }

  /** The built list is rank-ordered. */
  lemma BuildControllersOrdered(mode: Mode, verticalBarLayout: bool, multiWindow: bool, overviewActions: bool)
    ensures StrictlyOrdered(BuildControllers(mode, verticalBarLayout, multiWindow, overviewActions))
  {
    var mid := ModeControllers(mode, verticalBarLayout, overviewActions);
    var tail := if multiWindow then [TaskView] else [StatusBar, TaskView];
    ModeControllersMatchRegistry(mode, verticalBarLayout, multiWindow, overviewActions);
    assert forall k :: 0 <= k < |mid| ==> mid[k] in mid;
    ConcatOrdered([Drag], mid, 1);
    var head := [Drag] + mid;
    forall k | 0 <= k < |head| ensures Rank(head[k]) < 10 {
      if k > 0 {
        assert head[k] == mid[k - 1];
      }
    }
    ConcatOrdered(head, tail, 10);
    assert BuildControllers(mode, verticalBarLayout, multiWindow, overviewActions) == head + tail;
  }

  /** The built list holds exactly the registered controllers. */
  lemma BuildControllersMembers(mode: Mode, verticalBarLayout: bool, multiWindow: bool, overviewActions: bool)
    ensures forall c :: c in BuildControllers(mode, verticalBarLayout, multiWindow, overviewActions)
                    <==> Registered(c, mode, verticalBarLayout, multiWindow, overviewActions)
  {
    var mid := ModeControllers(mode, verticalBarLayout, overviewActions);
    var tail := if multiWindow then [TaskView] else [StatusBar, TaskView];
    ModeControllersMatchRegistry(mode, verticalBarLayout, multiWindow, overviewActions);
    assert BuildControllers(mode, verticalBarLayout, multiWindow, overviewActions) == [Drag] + mid + tail;
    forall c ensures c in [Drag] + mid + tail <==> Registered(c, mode, verticalBarLayout, multiWindow, overviewActions) {
      assert c in [Drag] + mid + tail <==> c == Drag || c in mid || c in tail;
      if 1 <= Rank(c) <= 9 {
        assert c != Drag && c !in tail;
      }
    }
  }

  /** The built list holds exactly the registered controllers, each once, in rank order. */
  lemma BuildControllersMatchesRegistry(mode: Mode, verticalBarLayout: bool, multiWindow: bool, overviewActions: bool)
    ensures StrictlyOrdered(BuildControllers(mode, verticalBarLayout, multiWindow, overviewActions))
    ensures forall c :: c in BuildControllers(mode, verticalBarLayout, multiWindow, overviewActions)
                    <==> Registered(c, mode, verticalBarLayout, multiWindow, overviewActions)
  {
    BuildControllersOrdered(mode, verticalBarLayout, multiWindow, overviewActions);
    BuildControllersMembers(mode, verticalBarLayout, multiWindow, overviewActions);
  }

  lemma HeadIsElement(list: seq<Controller>)
    requires list != []
    ensures list[0] in list
  {
  }

  /** Dropping the head of a rank-ordered list leaves it rank-ordered. */
  lemma TailOrdered(list: seq<Controller>)
    requires list != [] && StrictlyOrdered(list)
    ensures StrictlyOrdered(list[1..])
  {
    forall i, j | 0 <= i < j < |list[1..]|
      ensures Rank(list[1..][i]) < Rank(list[1..][j])
    {
      assert list[1..][i] == list[i + 1] && list[1..][j] == list[j + 1];
    }
  }

  /** Two non-empty rank-ordered lists with the same elements start alike. */
  lemma HeadsAgree(a: seq<Controller>, b: seq<Controller>)
    requires a != [] && b != []
    requires StrictlyOrdered(a) && StrictlyOrdered(b)
    requires forall c :: c in a <==> c in b
    ensures a[0] == b[0]
  {
    assert a[0] in b;
    var k :| 0 <= k < |b| && b[k] == a[0];
    assert b[0] in a;
    var m :| 0 <= m < |a| && a[m] == b[0];
    assert Rank(b[0]) <= Rank(b[k]) && Rank(a[0]) <= Rank(a[m]);
    assert k == 0;
  }

  /** Past a common head, the tails of two such lists have the same elements. */
  lemma TailsAgree(a: seq<Controller>, b: seq<Controller>)
    requires a != [] && b != [] && a[0] == b[0]
    requires StrictlyOrdered(a) && StrictlyOrdered(b)
    requires forall c :: c in a <==> c in b
    ensures forall c :: c in a[1..] <==> c in b[1..]
  {
    forall c ensures c in a[1..] ==> c in b[1..] {
      if c in a[1..] {
        var i :| 1 <= i < |a| && a[i] == c;
        assert Rank(a[0]) < Rank(a[i]);
        assert c in a;
        var j :| 0 <= j < |b| && b[j] == c;
        assert j != 0;
        assert b[1..][j - 1] == c;
      }
    }
    forall c ensures c in b[1..] ==> c in a[1..] {
      if c in b[1..] {
        var i :| 1 <= i < |b| && b[i] == c;
        assert Rank(b[0]) < Rank(b[i]);
        assert c in b;
        var j :| 0 <= j < |a| && a[j] == c;
        assert j != 0;
        assert a[1..][j - 1] == c;
      }
    }
  }

  /** Two rank-ordered lists with the same elements are the same list. */
  lemma {:induction false} OrderedListsWithSameElementsAreEqual(a: seq<Controller>, b: seq<Controller>)
    requires StrictlyOrdered(a) && StrictlyOrdered(b)
    requires forall c :: c in a <==> c in b
    ensures a == b
  {
    if a == [] {
      if b != [] {
        HeadIsElement(b);
      }
    } else if b == [] {
      HeadIsElement(a);
    } else {
      HeadsAgree(a, b);
      TailsAgree(a, b);
      TailOrdered(a);
      TailOrdered(b);
      OrderedListsWithSameElementsAreEqual(a[1..], b[1..]);
      assert a == [a[0]] + a[1..];
      assert b == [b[0]] + b[1..];
    }
  }

  /** The registry alone determines the list: any rank-ordered list of exactly the registered controllers is the built one. */
  lemma RegistryDeterminesControllers(list: seq<Controller>, mode: Mode, verticalBarLayout: bool, multiWindow: bool, overviewActions: bool)
    requires StrictlyOrdered(list)
    requires forall c :: c in list <==> Registered(c, mode, verticalBarLayout, multiWindow, overviewActions)
    ensures list == BuildControllers(mode, verticalBarLayout, multiWindow, overviewActions)
  {
    BuildControllersMatchesRegistry(mode, verticalBarLayout, multiWindow, overviewActions);
    OrderedListsWithSameElementsAreEqual(list, BuildControllers(mode, verticalBarLayout, multiWindow, overviewActions));
  }

  // ---------------------------------------------------------------------
  // The shape of the list, case by case.
  // ---------------------------------------------------------------------

  /**
   * The common frame: drag first and only there, task-view last and only
   * there, and the status-bar controller present exactly outside
   * multi-window, then immediately before the task-view controller.
   */
  lemma ControllersFrame(mode: Mode, verticalBarLayout: bool, multiWindow: bool, overviewActions: bool)
    ensures var list := BuildControllers(mode, verticalBarLayout, multiWindow, overviewActions);
      && (forall i :: 0 <= i < |list| ==> (list[i] == Drag <==> i == 0))
      && (forall i :: 0 <= i < |list| ==> (list[i] == TaskView <==> i == |list| - 1))
      && (StatusBar in list <==> !multiWindow)
      && (!multiWindow ==> list[|list| - 2] == StatusBar)
  {
    BuildControllersMatchesRegistry(mode, verticalBarLayout, multiWindow, overviewActions);
  }

  /**
   * Under NO_BUTTON the middle is quick-switch, nav-bar-to-home and exactly
   * one of the overview-actions and fling-and-hold controllers; the layout
   * makes no difference and no button-mode controller appears.
   */
  lemma NoButtonControllers(mode: Mode, verticalBarLayout: bool, multiWindow: bool, overviewActions: bool)
    requires mode.isNoButton
    ensures var list := BuildControllers(mode, verticalBarLayout, multiWindow, overviewActions);
      && |list| == (if multiWindow then 5 else 6)
      && list[1..4] == [NoButtonQuickSwitch, NavBarToHome, if overviewActions then NoButtonNavbarToOverview else FlingAndHold]
      && (NoButtonNavbarToOverview in list <==> FlingAndHold !in list)
      && (forall c :: c in list ==> !IsButtonModeController(c))
      && list == BuildControllers(mode, !verticalBarLayout, multiWindow, overviewActions)
  {
    var list := BuildControllers(mode, verticalBarLayout, multiWindow, overviewActions);
    assert list[1..4] == [list[1], list[2], list[3]];
  }

  /**
   * In button mode on a vertical-bar layout the middle is overview-to-all-apps
   * and landscape edge swipe, then the transposed quick switch exactly when
   * the mode has gestures.
   */
  lemma VerticalBarControllers(mode: Mode, verticalBarLayout: bool, multiWindow: bool, overviewActions: bool)
    requires !mode.isNoButton && verticalBarLayout
    ensures var list := BuildControllers(mode, verticalBarLayout, multiWindow, overviewActions);
      && list[1..3] == [OverviewToAllApps, LandscapeEdgeSwipe]
      && (TransposedQuickSwitch in list <==> mode.hasGestures)
      && (mode.hasGestures ==> list[3] == TransposedQuickSwitch)
      && (forall c :: c in list ==> !IsNoButtonController(c) && !c.PortraitStates? && !c.QuickSwitch?)
      && list == BuildControllers(mode, verticalBarLayout, multiWindow, !overviewActions)
  {
    var list := BuildControllers(mode, verticalBarLayout, multiWindow, overviewActions);
    assert list[1..3] == [list[1], list[2]];
  }

  /**
   * In button mode on any other layout the middle is the portrait-states
   * controller allowing drag to overview exactly when the mode has
   * gestures, then the quick switch exactly when it has gestures.
   */
  lemma PortraitControllers(mode: Mode, verticalBarLayout: bool, multiWindow: bool, overviewActions: bool)
    requires !mode.isNoButton && !verticalBarLayout
    ensures var list := BuildControllers(mode, verticalBarLayout, multiWindow, overviewActions);
      && list[1] == PortraitStates(mode.hasGestures)
      && (QuickSwitch in list <==> mode.hasGestures)
      && (mode.hasGestures ==> list[2] == QuickSwitch)
      && (forall c :: c in list ==> !IsNoButtonController(c) && !c.OverviewToAllApps? && !c.LandscapeEdgeSwipe? && !c.TransposedQuickSwitch?)
      && (!mode.hasGestures && multiWindow ==> list == [Drag, PortraitStates(false), TaskView])
      && list == BuildControllers(mode, verticalBarLayout, multiWindow, !overviewActions)
  {
  }
}
