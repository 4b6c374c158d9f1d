/**
 * The launcher activity's coordination logic: it recomputes the shelf
 * height on state and activity-flag changes, builds the touch-controller
 * list, and sequences the calls into the optional hotseat prediction
 * controller.
 *
 * The state manager's current state, the activity flags and the device
 * profile are fields that the surrounding activity keeps current; the
 * launcher only reads them.  The asynchronous shelf-height command is a
 * single slot that every dispatch overwrites.
 */
module Quickstep {
  import opened Wrappers
  import opened LauncherStates
  import opened ActivityFlags
  import opened Shelf
  import opened TouchControllers

  /** The device-profile facts the launcher reads. */
  datatype DeviceProfile = DeviceProfile(isVerticalBarLayout: bool, isMultiWindowMode: bool, hotseatBarSizePx: int)

  /** A folder notification forwarded to the prediction controller: the item and the folder's info. */
  datatype FolderEvent =
    | CreatedFromItem(item: nat, folder: nat)
    | ConvertedToItem(item: nat, folder: nat)

  /**
   * What the launcher has done to its hotseat prediction controller: the
   * pause flag it last set, how often it asked for a predictor and for
   * destruction, and the folder notifications it forwarded, oldest first.
   */
  datatype HotseatPrediction = HotseatPrediction(
    pauseUIUpdate: bool,
    createPredictorCalls: nat,
    destroyCalls: nat,
    folderEvents: seq<FolderEvent>)

  /** `setPauseUIUpdate` behind the launcher's null check. */
  function SetPauseUIUpdate(prediction: Option<HotseatPrediction>, paused: bool): (r: Option<HotseatPrediction>)
    ensures r.Some? <==> prediction.Some?
    ensures r.Some? ==> r.value.pauseUIUpdate == paused
    ensures r.Some? ==> r.value == prediction.value.(pauseUIUpdate := paused)
  {
    match prediction
    case None => None
    case Some(p) => Some(p.(pauseUIUpdate := paused))
  }

  class QuickstepLauncher {
    /** The state manager's current state. */
    var state: LauncherState
    /** The activity flags, already updated when a change is reported. */
    var activityFlags: Bits
    /** The current device profile. */
    var profile: DeviceProfile
    /** The hotseat prediction controller, present only with the hybrid-hotseat feature. */
    var prediction: Option<HotseatPrediction>
    /** The recents view's "swipe down should launch app" setting. */
    var swipeDownShouldLaunchApp: bool
    /** The arguments of the last `SET_SHELF_HEIGHT` command dispatched. */
    var shelfCommand: Option<AsyncArgs>
    /** How many shelf-height commands have been dispatched. */
    ghost var shelfDispatches: nat

    ghost predicate Valid()
      reads this
    {
      && (shelfCommand.Some? ==> shelfCommand.value.arg1 == 0 || shelfCommand.value.arg1 == 1)
      && (shelfCommand.None? <==> shelfDispatches == 0)
    }

    /** The arguments a recompute dispatches in the current state; they decode to the visibility rule and the hotseat height. */
    function CurrentShelfArgs(): (a: AsyncArgs)
      reads this
      ensures SetShelfHeight(a)
           == ShelfHeight(ShelfVisible(state, IsUserActive(activityFlags), profile.isVerticalBarLayout),
                          profile.hotseatBarSizePx)
    {
      ShelfHeightRoundTrip(ShelfVisible(state, IsUserActive(activityFlags), profile.isVerticalBarLayout),
        profile.hotseatBarSizePx);
      EncodeShelfHeight(ShelfVisible(state, IsUserActive(activityFlags), profile.isVerticalBarLayout),
        profile.hotseatBarSizePx)
    }

    /** `isRecentsInteractive` of the task-view controller registered last by `CreateTouchControllers`: this launcher is in OVERVIEW. */
    predicate IsRecentsInteractive()
      reads this
    {
      state == Overview
    }

    /**
     * Recents is interactive exactly in OVERVIEW.  There a recompute
     * dispatches a shelf that shows exactly when the user is active outside
     * a vertical-bar layout, and it never touches the swipe-down setting.
     */
    lemma RecentsInteractiveExactlyInOverview()
      ensures IsRecentsInteractive() <==> state == Overview
      ensures IsRecentsInteractive() ==> state != Normal
      ensures IsRecentsInteractive()
              ==> (SetShelfHeight(CurrentShelfArgs()).visible
                   <==> IsUserActive(activityFlags) && !profile.isVerticalBarLayout)
    {
    }

    /** `onCreate`: the prediction controller exists exactly when the hybrid hotseat is enabled. */
    constructor (hybridHotseat: bool, state: LauncherState, activityFlags: Bits, profile: DeviceProfile,
                 swipeDownShouldLaunchApp: bool)
      ensures Valid()
      ensures this.state == state && this.activityFlags == activityFlags && this.profile == profile
      ensures this.swipeDownShouldLaunchApp == swipeDownShouldLaunchApp
      ensures prediction == if hybridHotseat then Some(HotseatPrediction(false, 0, 0, [])) else None
      ensures shelfCommand == None
    {
      this.state := state;
      this.activityFlags := activityFlags;
      this.profile := profile;
      this.swipeDownShouldLaunchApp := swipeDownShouldLaunchApp;
      prediction := if hybridHotseat then Some(HotseatPrediction(false, 0, 0, [])) else None;
      shelfCommand := None;
      shelfDispatches := 0;
    }

    /**
     * `onStateOrResumeChanged`: dispatch the shelf pair unconditionally,
     * overwriting any earlier one, and switch off swipe-down-launches-app
     * when the state is NORMAL.
     */
    method OnStateOrResumeChanged()
      requires Valid()
      modifies this
      ensures Valid()
      ensures shelfCommand == Some(CurrentShelfArgs())
      ensures shelfDispatches == old(shelfDispatches) + 1
      ensures swipeDownShouldLaunchApp == if state == Normal then false else old(swipeDownShouldLaunchApp)
      ensures old(IsRecentsInteractive()) ==> swipeDownShouldLaunchApp == old(swipeDownShouldLaunchApp)
      ensures state == old(state) && activityFlags == old(activityFlags) && profile == old(profile)
      ensures prediction == old(prediction)
    {
      var visible := (state == Normal || state == Overview) && IsUserActive(activityFlags)
        && !profile.isVerticalBarLayout;
      shelfCommand := Some(AsyncArgs(if visible then 1 else 0, profile.hotseatBarSizePx));
      shelfDispatches := shelfDispatches + 1;
      if state == Normal {
        swipeDownShouldLaunchApp := false;
      }
    }

    /** `onConfigurationChanged`: always recomputes. */
    method OnConfigurationChanged()
      requires Valid()
      modifies this
      ensures Valid()
      ensures shelfCommand == Some(CurrentShelfArgs())
      ensures shelfDispatches == old(shelfDispatches) + 1
      ensures swipeDownShouldLaunchApp == if state == Normal then false else old(swipeDownShouldLaunchApp)
      ensures state == old(state) && activityFlags == old(activityFlags) && profile == old(profile)
      ensures prediction == old(prediction)
    {
      OnStateOrResumeChanged();
    }

    /**
     * `startActivitySafely`: pause the prediction controller's UI updates,
     * then return what the base class's launch returns.
     */
    method StartActivitySafely(superResult: bool) returns (launched: bool)
      requires Valid()
      modifies this
      ensures Valid()
      ensures launched == superResult
      ensures prediction == SetPauseUIUpdate(old(prediction), true)
      ensures state == old(state) && activityFlags == old(activityFlags) && profile == old(profile)
      ensures swipeDownShouldLaunchApp == old(swipeDownShouldLaunchApp)
      ensures shelfCommand == old(shelfCommand) && shelfDispatches == old(shelfDispatches)
    {
      if prediction.Some? {
        prediction := Some(prediction.value.(pauseUIUpdate := true));
      }
      launched := superResult;
    }

    /**
     * `onActivityFlagsChanged`: recompute when the recompute gate holds,
     * then un-pause the prediction controller when the resume gate holds.
     */
    method OnActivityFlagsChanged(changeBits: Bits)
      requires Valid()
      modifies this
      ensures Valid()
      ensures state == old(state) && activityFlags == old(activityFlags) && profile == old(profile)
      ensures if ShouldRecompute(changeBits, activityFlags) then
                && shelfCommand == Some(CurrentShelfArgs())
                && shelfDispatches == old(shelfDispatches) + 1
                && swipeDownShouldLaunchApp == (if state == Normal then false else old(swipeDownShouldLaunchApp))
              else
                && shelfCommand == old(shelfCommand)
                && shelfDispatches == old(shelfDispatches)
                && swipeDownShouldLaunchApp == old(swipeDownShouldLaunchApp)
      ensures prediction == if ShouldResumePredictions(changeBits, activityFlags)
                            then SetPauseUIUpdate(old(prediction), false)
                            else old(prediction)
    {
      var recompute := ShouldRecompute(changeBits, activityFlags);
      var resume := ShouldResumePredictions(changeBits, activityFlags);
      if recompute {
        OnStateOrResumeChanged();
      }
      if prediction.Some? && resume {
        prediction := Some(prediction.value.(pauseUIUpdate := false));
      }
    }

    /** `folderCreatedFromItem`: forward the item and folder to the prediction controller. */
    method FolderCreatedFromItem(item: nat, folder: nat)
      requires Valid()
      modifies this
      ensures Valid()
      ensures prediction.Some? <==> old(prediction).Some?
      ensures prediction.Some? ==>
        prediction.value == old(prediction).value.(folderEvents := old(prediction).value.folderEvents + [CreatedFromItem(item, folder)])
      ensures state == old(state) && activityFlags == old(activityFlags) && profile == old(profile)
      ensures swipeDownShouldLaunchApp == old(swipeDownShouldLaunchApp)
      ensures shelfCommand == old(shelfCommand) && shelfDispatches == old(shelfDispatches)
    {
      if prediction.Some? {
        var p := prediction.value;
        prediction := Some(p.(folderEvents := p.folderEvents + [CreatedFromItem(item, folder)]));
      }
    }

    /** `folderConvertedToItem`: forward the item and folder to the prediction controller. */
    method FolderConvertedToItem(item: nat, folder: nat)
      requires Valid()
      modifies this
      ensures Valid()
      ensures prediction.Some? <==> old(prediction).Some?
      ensures prediction.Some? ==>
        prediction.value == old(prediction).value.(folderEvents := old(prediction).value.folderEvents + [ConvertedToItem(item, folder)])
      ensures state == old(state) && activityFlags == old(activityFlags) && profile == old(profile)
      ensures swipeDownShouldLaunchApp == old(swipeDownShouldLaunchApp)
      ensures shelfCommand == old(shelfCommand) && shelfDispatches == old(shelfDispatches)
    {
      if prediction.Some? {
        var p := prediction.value;
        prediction := Some(p.(folderEvents := p.folderEvents + [ConvertedToItem(item, folder)]));
      }
    }

    /** `finishBindingItems`: ask the prediction controller for a predictor, on every binding. */
    method FinishBindingItems(pageBoundFirst: int)
      requires Valid()
      modifies this
      ensures Valid()
      ensures prediction.Some? <==> old(prediction).Some?
      ensures prediction.Some? ==>
        prediction.value == old(prediction).value.(createPredictorCalls := old(prediction).value.createPredictorCalls + 1)
      ensures state == old(state) && activityFlags == old(activityFlags) && profile == old(profile)
      ensures swipeDownShouldLaunchApp == old(swipeDownShouldLaunchApp)
      ensures shelfCommand == old(shelfCommand) && shelfDispatches == old(shelfDispatches)
    {
      if prediction.Some? {
        var p := prediction.value;
        prediction := Some(p.(createPredictorCalls := p.createPredictorCalls + 1));
      }
    }

    /** `onDestroy`: destroy the prediction controller, behind the null check only. */
    method OnDestroy()
      requires Valid()
      modifies this
      ensures Valid()
      ensures prediction.Some? <==> old(prediction).Some?
      ensures prediction.Some? ==>
        prediction.value == old(prediction).value.(destroyCalls := old(prediction).value.destroyCalls + 1)
      ensures state == old(state) && activityFlags == old(activityFlags) && profile == old(profile)
      ensures swipeDownShouldLaunchApp == old(swipeDownShouldLaunchApp)
      ensures shelfCommand == old(shelfCommand) && shelfDispatches == old(shelfDispatches)
    {
      if prediction.Some? {
        var p := prediction.value;
        prediction := Some(p.(destroyCalls := p.destroyCalls + 1));
      }
    }

    /**
     * `createTouchControllers`: the list is built one controller at a time;
     * it holds exactly the registered controllers, each once, in order.
     */
    method CreateTouchControllers(mode: Mode, overviewActions: bool) returns (list: seq<Controller>)
      ensures list == BuildControllers(mode, profile.isVerticalBarLayout, profile.isMultiWindowMode, overviewActions)
      ensures StrictlyOrdered(list)
      ensures forall c :: c in list
                <==> Registered(c, mode, profile.isVerticalBarLayout, profile.isMultiWindowMode, overviewActions)
    {
      list := [Drag];
      if mode.isNoButton {
        list := list + [NoButtonQuickSwitch];
        list := list + [NavBarToHome];
        if overviewActions {
          list := list + [NoButtonNavbarToOverview];
        } else {
          list := list + [FlingAndHold];
        }
      } else {
        if profile.isVerticalBarLayout {
          list := list + [OverviewToAllApps];
          list := list + [LandscapeEdgeSwipe];
          if mode.hasGestures {
            list := list + [TransposedQuickSwitch];
          }
        } else {
          list := list + [PortraitStates(mode.hasGestures)];
          if mode.hasGestures {
            list := list + [QuickSwitch];
          }
        }
      }
      if !profile.isMultiWindowMode {
        list := list + [StatusBar];
      }
      list := list + [TaskView];
      BuildControllersMatchesRegistry(mode, profile.isVerticalBarLayout, profile.isMultiWindowMode, overviewActions);
    }
  }

  /**
   * Two configuration changes with nothing changed in between dispatch two
   * commands, and the same pair both times: no dispatch is suppressed.
   */
  method RecomputeTwiceDispatchesSamePair(launcher: QuickstepLauncher) returns (first: AsyncArgs, second: AsyncArgs)
    requires launcher.Valid()
    modifies launcher
    ensures launcher.Valid()
    ensures first == second && launcher.shelfCommand == Some(second)
    ensures launcher.shelfDispatches == old(launcher.shelfDispatches) + 2
  {
    launcher.OnConfigurationChanged();
    first := launcher.shelfCommand.value;
    launcher.OnConfigurationChanged();
    second := launcher.shelfCommand.value;
  }

  /**
   * A launch from a started, resumed, focused launcher with an active user
   * pauses the prediction controller.  The report that clears resumed and
   * deferred-resumed leaves it paused: deferred-resumed changed, but it is
   * no longer set.  The next report, which clears started, un-pauses it,
   * because any change of the started bit passes the resume gate.
   */
  method LaunchPausesUntilStartedChanges(launcher: QuickstepLauncher, superResult: bool)
    returns (pausedAfterLaunch: bool, pausedAfterResumeCleared: bool)
    requires launcher.Valid() && launcher.prediction.Some?
    requires launcher.activityFlags
             == ACTIVITY_STATE_STARTED | ACTIVITY_STATE_RESUMED | ACTIVITY_STATE_DEFERRED_RESUMED
                | ACTIVITY_STATE_WINDOW_FOCUSED | ACTIVITY_STATE_USER_ACTIVE
    modifies launcher
    ensures launcher.Valid() && launcher.prediction.Some?
    ensures pausedAfterLaunch && pausedAfterResumeCleared
    ensures !launcher.prediction.value.pauseUIUpdate
    ensures launcher.activityFlags == ACTIVITY_STATE_WINDOW_FOCUSED | ACTIVITY_STATE_USER_ACTIVE
  {
    var _ := launcher.StartActivitySafely(superResult);
    pausedAfterLaunch := launcher.prediction.value.pauseUIUpdate;
    launcher.activityFlags := ACTIVITY_STATE_STARTED | ACTIVITY_STATE_WINDOW_FOCUSED | ACTIVITY_STATE_USER_ACTIVE;
    launcher.OnActivityFlagsChanged(ACTIVITY_STATE_RESUMED | ACTIVITY_STATE_DEFERRED_RESUMED);
    pausedAfterResumeCleared := launcher.prediction.value.pauseUIUpdate;
    launcher.activityFlags := ACTIVITY_STATE_WINDOW_FOCUSED | ACTIVITY_STATE_USER_ACTIVE;
    launcher.OnActivityFlagsChanged(ACTIVITY_STATE_STARTED);
  }

  /**
   * The slot always holds arguments that `SET_SHELF_HEIGHT` decodes without
   * loss: re-encoding the decoded pair gives back the dispatched arguments.
   */
  lemma SlotSurvivesDecoding(launcher: QuickstepLauncher)
    requires launcher.Valid() && launcher.shelfCommand.Some?
    ensures EncodeShelfHeight(SetShelfHeight(launcher.shelfCommand.value).visible,
                              SetShelfHeight(launcher.shelfCommand.value).heightPx)
         == launcher.shelfCommand.value
  {
    ShelfArgsRoundTrip(launcher.shelfCommand.value);
  }

  /** With no prediction controller every prediction call site leaves the whole launcher as it was. */
  method AbsentPredictionIsNoOp(launcher: QuickstepLauncher, item: nat, folder: nat, superResult: bool)
    requires launcher.Valid() && launcher.prediction.None?
    modifies launcher
    ensures launcher.Valid()
    ensures launcher.prediction.None?
    ensures launcher.state == old(launcher.state) && launcher.activityFlags == old(launcher.activityFlags)
    ensures launcher.profile == old(launcher.profile)
    ensures launcher.swipeDownShouldLaunchApp == old(launcher.swipeDownShouldLaunchApp)
    ensures launcher.shelfCommand == old(launcher.shelfCommand)
    ensures launcher.shelfDispatches == old(launcher.shelfDispatches)
  {
    var _ := launcher.StartActivitySafely(superResult);
    launcher.FinishBindingItems(0);
    launcher.FolderCreatedFromItem(item, folder);
    launcher.FolderConvertedToItem(item, folder);
    launcher.OnDestroy();
  }
}
