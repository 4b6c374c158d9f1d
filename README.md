# QuickstepLauncher coordination model

A Dafny model of the controller-selection and state-coordination logic of
the launcher activity `QuickstepLauncher` (the home-screen activity of the
quickstep build). The model covers three parts:

- **Touch-controller list.** `createTouchControllers` registers gesture
  recognizers one by one. Registration order decides which recognizer
  gets first refusal of an input stream. The list depends on the
  navigation mode (whether it is NO_BUTTON, and whether it has gestures),
  the vertical-bar layout, multi-window mode and the overview-actions
  feature flag.
- **Shelf-height recomputation.** `onStateOrResumeChanged` computes
  whether the hotseat shelf is visible and its height. It hands the pair to
  the `SET_SHELF_HEIGHT` asynchronous command as `visible ? 1 : 0` and the
  height; the command decodes the flag as `arg1 != 0`. In NORMAL it also
  switches off the recents view's "swipe down should launch app".
  `onConfigurationChanged` always triggers it. `onActivityFlagsChanged`
  triggers it only through a bitmask gate.
- **Hotseat prediction sequencing.** The prediction controller exists only
  with the hybrid-hotseat feature. A launch pauses it, a flag change
  resumes it, folder changes are forwarded to it, item binding asks it for
  a predictor, and it is destroyed with the activity. Every call sits
  behind the same null check.

Files:

- `wrappers.dfy`: `Option`.
- `launcher_states.dfy`: the launcher state (NORMAL, OVERVIEW, or any
  other named state).
- `activity_flags.dfy`: the `bv32` activity flags, their named-set view,
  and the two gates of `onActivityFlagsChanged`.
- `shelf.dfy`: the visibility rule and the `SET_SHELF_HEIGHT` encoding and
  decoding.
- `touch_controllers.dfy`: controller tags and the built list. It also
  gives an independent description of the list: a registry saying when
  each controller is registered, plus one fixed rank order. The lemmas
  prove the two descriptions agree on every input.
- `quickstep_launcher.dfy`: the `QuickstepLauncher` class. It holds the
  state, the flags, the device profile, the optional prediction record,
  the swipe-down setting and the last shelf command. Its methods mirror
  the source methods.

The activity base class keeps the flags and calls `onActivityFlagsChanged`
with the changed bits after the flags are updated. In the model the flags
are a field that callers update before the call. The bit positions come
from that base class, which is not part of this model, so the values used
here are assumed. What the gates decide depends only on the six named
flags being distinct single bits. `isUserActive()` is modelled as a test of the
user-active bit.

## Model

| member | source | states |
|---|---|---|
| TouchControllers.BuildControllers | quickstep/recents_ui_overrides/src/com/android/launcher3/uioverrides/QuickstepLauncher.java:177-212 | The list has 3 to 6 entries. The drag controller is first and the task-view controller is last. |
| TouchControllers.BuildControllersMatchesRegistry | quickstep/recents_ui_overrides/src/com/android/launcher3/uioverrides/QuickstepLauncher.java:180-210 | For every input, the list holds a controller iff its registration condition holds. No controller occurs twice, and entries follow the fixed registration order. |
| TouchControllers.OrderedListsWithSameElementsAreEqual | quickstep/recents_ui_overrides/src/com/android/launcher3/uioverrides/QuickstepLauncher.java:180-211 | Two rank-ordered controller lists with the same elements are equal, so the registration order pins down the list. |
| TouchControllers.RegistryDeterminesControllers | quickstep/recents_ui_overrides/src/com/android/launcher3/uioverrides/QuickstepLauncher.java:180-211 | Any rank-ordered list holding exactly the registered controllers is the built list. |
| TouchControllers.ControllersFrame | quickstep/recents_ui_overrides/src/com/android/launcher3/uioverrides/QuickstepLauncher.java:181-210 | Drag occurs only at index 0 and task-view only at the last index. The status-bar controller is present iff not in multi-window mode, and then sits just before task-view. |
| TouchControllers.NoButtonControllers | quickstep/recents_ui_overrides/src/com/android/launcher3/uioverrides/QuickstepLauncher.java:182-189 | Covers the NO_BUTTON branch of `ModeControllers`. Under NO_BUTTON the middle is quick-switch, nav-bar-to-home, then overview-actions if the flag is on and fling-and-hold otherwise. Exactly one of those two appears. No button-mode controller appears, and the layout makes no difference. |
| TouchControllers.VerticalBarControllers | quickstep/recents_ui_overrides/src/com/android/launcher3/uioverrides/QuickstepLauncher.java:191-196 | Covers the vertical-bar branch of `ModeControllers`. In button mode on a vertical bar the middle starts with overview-to-all-apps and landscape-edge-swipe. The transposed quick switch follows iff the mode has gestures. No NO_BUTTON or portrait controller appears, and the overview-actions flag makes no difference. |
| TouchControllers.PortraitControllers | quickstep/recents_ui_overrides/src/com/android/launcher3/uioverrides/QuickstepLauncher.java:197-203 | Covers the remaining branch of `ModeControllers`. In button mode off the vertical bar, portrait-states comes second with allowDragToOverview equal to hasGestures. Quick switch follows iff hasGestures. With no gestures in multi-window the list is [drag, portrait-states(false), task-view]. |
| Quickstep.QuickstepLauncher.RecentsInteractiveExactlyInOverview | quickstep/recents_ui_overrides/src/com/android/launcher3/uioverrides/QuickstepLauncher.java:222-224 | `IsRecentsInteractive`, the hook of the task-view controller, reads the launcher's state and holds iff it is OVERVIEW. In that state the dispatched shelf decodes as visible iff the user is active off a vertical bar. The state is not NORMAL, so a recompute leaves swipe-down as it was; `OnStateOrResumeChanged` states that. |
| Shelf.EncodeShelfHeight | quickstep/recents_ui_overrides/src/com/android/launcher3/uioverrides/QuickstepLauncher.java:153-154 | The first argument is 0 or 1, and the second is the hotseat height. |
| Shelf.SetShelfHeight | quickstep/recents_ui_overrides/src/com/android/launcher3/uioverrides/QuickstepLauncher.java:69-70 | The height handed to the system UI is the second argument. |
| Shelf.ShelfHeightRoundTrip | quickstep/recents_ui_overrides/src/com/android/launcher3/uioverrides/QuickstepLauncher.java:69-70 | Decoding the encoded pair returns the visibility and height the launcher computed. |
| Shelf.ShelfArgsRoundTrip | quickstep/recents_ui_overrides/src/com/android/launcher3/uioverrides/QuickstepLauncher.java:69-70 | Any non-zero first argument decodes as visible, so -1 or 2 mean visible too. Encoding the decoded arguments gives them back iff the first argument is 0 or 1. |
| Shelf.ShelfHiddenCases | quickstep/recents_ui_overrides/src/com/android/launcher3/uioverrides/QuickstepLauncher.java:151-152 | States `ShelfVisible` case by case. The shelf is hidden in a vertical-bar layout, when the user is inactive, and outside NORMAL and OVERVIEW. Otherwise it is shown. |
| ActivityFlags.RecomputeGateByName | quickstep/recents_ui_overrides/src/com/android/launcher3/uioverrides/QuickstepLauncher.java:100-102 | `ShouldRecompute`, the mask test, holds iff the changed flags meet {deferred-resumed, started, user-active, transition-active} and transition-active is not among the current flags. |
| ActivityFlags.ResumeGateByName | quickstep/recents_ui_overrides/src/com/android/launcher3/uioverrides/QuickstepLauncher.java:106-107 | `ShouldResumePredictions`, the resume test, holds iff started changed, or deferred-resumed both changed and is currently set. |
| ActivityFlags.TransitionGate | quickstep/recents_ui_overrides/src/com/android/launcher3/uioverrides/QuickstepLauncher.java:100-102 | A report that clears transition-active always recomputes. While transition-active is set, nothing recomputes, even if it changed in the same report. |
| ActivityFlags.UnrelatedChangesDoNotRecompute | quickstep/recents_ui_overrides/src/com/android/launcher3/uioverrides/QuickstepLauncher.java:100-101 | Changes confined to resumed and window-focused never recompute. |
| ActivityFlags.FlagSet | quickstep/recents_ui_overrides/src/com/android/launcher3/uioverrides/QuickstepLauncher.java:100-107 | A named flag is in the set iff its bit is in the mask. |
| Quickstep.SetPauseUIUpdate | quickstep/recents_ui_overrides/src/com/android/launcher3/uioverrides/QuickstepLauncher.java:90-92 | A present controller gets the new pause flag with nothing else changed. An absent one stays absent. |
| Quickstep.QuickstepLauncher.CurrentShelfArgs | quickstep/recents_ui_overrides/src/com/android/launcher3/uioverrides/QuickstepLauncher.java:149-154 | The dispatched arguments decode to (visibility rule over current state, user-active and layout; hotseat height). |
| Quickstep.QuickstepLauncher.constructor | quickstep/recents_ui_overrides/src/com/android/launcher3/uioverrides/QuickstepLauncher.java:74-79 | A prediction controller exists iff the hybrid hotseat is enabled. It starts unpaused, with no calls yet, and no shelf command has been sent. |
| Quickstep.QuickstepLauncher.OnStateOrResumeChanged | quickstep/recents_ui_overrides/src/com/android/launcher3/uioverrides/QuickstepLauncher.java:148-158 | The slot is overwritten with the current pair, with no equality short-circuit, and the dispatch count rises by one. Swipe-down becomes false in NORMAL and is untouched otherwise, in particular while recents is interactive. Nothing else changes. |
| Quickstep.QuickstepLauncher.OnConfigurationChanged | quickstep/recents_ui_overrides/src/com/android/launcher3/uioverrides/QuickstepLauncher.java:82-85 | Always recomputes, with the same effects as above. |
| Quickstep.QuickstepLauncher.StartActivitySafely | quickstep/recents_ui_overrides/src/com/android/launcher3/uioverrides/QuickstepLauncher.java:88-94 | Pauses a present prediction controller and returns the result of the delegated launch. Nothing else changes. |
| Quickstep.QuickstepLauncher.OnActivityFlagsChanged | quickstep/recents_ui_overrides/src/com/android/launcher3/uioverrides/QuickstepLauncher.java:97-110 | When the recompute gate holds, it recomputes. Otherwise the slot, the dispatch count and swipe-down are unchanged. A present controller is un-paused iff the resume gate holds. |
| Quickstep.QuickstepLauncher.FolderCreatedFromItem | quickstep/recents_ui_overrides/src/com/android/launcher3/uioverrides/QuickstepLauncher.java:113-118 | A present controller receives exactly this (item, folder) notification, appended. Absent stays absent, and nothing else changes. |
| Quickstep.QuickstepLauncher.FolderConvertedToItem | quickstep/recents_ui_overrides/src/com/android/launcher3/uioverrides/QuickstepLauncher.java:121-126 | A present controller receives exactly this (item, folder) notification, appended. Absent stays absent, and nothing else changes. |
| Quickstep.QuickstepLauncher.FinishBindingItems | quickstep/recents_ui_overrides/src/com/android/launcher3/uioverrides/QuickstepLauncher.java:161-166 | Every binding asks a present controller for a predictor once more. Nothing else changes. |
| Quickstep.QuickstepLauncher.OnDestroy | quickstep/recents_ui_overrides/src/com/android/launcher3/uioverrides/QuickstepLauncher.java:169-174 | A present controller receives one more destroy call, with no guard beyond presence. Nothing else changes. |
| Quickstep.QuickstepLauncher.CreateTouchControllers | quickstep/recents_ui_overrides/src/com/android/launcher3/uioverrides/QuickstepLauncher.java:177-212 | The list built step by step from the current device profile equals BuildControllers. It holds exactly the registered controllers, once each, in order. |
| Quickstep.RecomputeTwiceDispatchesSamePair | quickstep/recents_ui_overrides/src/com/android/launcher3/uioverrides/QuickstepLauncher.java:151-154 | Two recomputes with unchanged inputs dispatch twice, with the same pair. |
| Quickstep.LaunchPausesUntilStartedChanges | quickstep/recents_ui_overrides/src/com/android/launcher3/uioverrides/QuickstepLauncher.java:90-109 | Starts from a fully resumed launcher. A launch pauses the controller. It stays paused through the report clearing resumed and deferred-resumed, because deferred-resumed is no longer set. It is un-paused by the report clearing started. |
| Quickstep.SlotSurvivesDecoding | quickstep/recents_ui_overrides/src/com/android/launcher3/uioverrides/QuickstepLauncher.java:69-70 | Under the launcher invariant, the first argument in the slot is always 0 or 1, so decoding with `arg1 != 0` and re-encoding gives back exactly the dispatched arguments. |
| Quickstep.AbsentPredictionIsNoOp | quickstep/recents_ui_overrides/src/com/android/launcher3/uioverrides/QuickstepLauncher.java:88-174 | Without a prediction controller, launch, binding, both folder notifications and destroy leave every field unchanged, including the dispatch count. |

## Left out

- The `super.*` calls into the activity base classes are not modelled. That behaviour is not part of this model. `StartActivitySafely` takes the base class's launch result as a parameter.
- Quickstep.QuickstepLauncher.StartActivitySafely: does not state that the pause happens before the launch it delegates to, because the delegated launch is a parameter in the model rather than a call.
- `UiThreadHelper.runAsyncCommand` runs the command on a background thread, and `SystemUiProxy.setShelfHeight` is an inter-process call. These are concurrency and IPC. A dispatch is modelled as overwriting one slot, and the decoded pair as the value of `Shelf.SetShelfHeight`.
- `SysUINavigationMode.getMode` and the feature flags `ENABLE_OVERVIEW_ACTIONS` and `ENABLE_HYBRID_HOTSEAT` are external queries. They are parameters. The mode is reduced to "is NO_BUTTON" and `hasGestures`.
- The state manager, the device profile and the activity flags belong to collaborators. They are fields that those collaborators keep current.
- The touch controllers, `HotseatPredictionController` and `RecentsView` are not part of this model. Controllers are tags. The prediction controller is a record of the calls it received, and its pause flag is assumed to start false. The recents view is its one swipe-down setting.
- `onUserControlledAnimationCreated` of the task-view controller is not modelled. It hands an animation handle to the state manager, which is not part of this model.
- `getSupportedShortcuts` (stream concatenation) and the getter `getHotseatPredictionController` are not modelled. They only expose the controller.
- `GO_LOW_RAM_RECENTS_ENABLED` is an unused constant.
- The code asks for a predictor on every `finishBindingItems`, and calls `destroy` under the null check alone. The model records each call. It does not claim create-at-most-once or destroy-idempotence, because the code does not enforce them.
- The hotseat height is an unbounded `int`; the code does no arithmetic on it, so Java's 32-bit width plays no role.
