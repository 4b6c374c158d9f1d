/**
 * The activity-flag bitmask of the launcher activity and the two gates
 * that `onActivityFlagsChanged` evaluates over it.
 *
 * Flags are a Java `int`, modelled as `bv32`.  The bit positions belong to
 * the activity base class, which is not part of this model; the values
 * below are assumed.  What the gates decide depends only on the six named
 * flags being distinct single bits.
 */
module ActivityFlags {

  type Bits = bv32

  const ACTIVITY_STATE_STARTED: Bits := 1 << 0
  const ACTIVITY_STATE_RESUMED: Bits := 1 << 1
  const ACTIVITY_STATE_DEFERRED_RESUMED: Bits := 1 << 2
  const ACTIVITY_STATE_WINDOW_FOCUSED: Bits := 1 << 3
  const ACTIVITY_STATE_USER_ACTIVE: Bits := 1 << 4
  const ACTIVITY_STATE_TRANSITION_ACTIVE: Bits := 1 << 5

  /** The named view of the same flags. */
  datatype Flag = Started | Resumed | DeferredResumed | WindowFocused | UserActive | TransitionActive

  const AllFlags: set<Flag> := {Started, Resumed, DeferredResumed, WindowFocused, UserActive, TransitionActive}

  function Bit(f: Flag): Bits {
    match f
    case Started => ACTIVITY_STATE_STARTED
    case Resumed => ACTIVITY_STATE_RESUMED
    case DeferredResumed => ACTIVITY_STATE_DEFERRED_RESUMED
    case WindowFocused => ACTIVITY_STATE_WINDOW_FOCUSED
    case UserActive => ACTIVITY_STATE_USER_ACTIVE
    case TransitionActive => ACTIVITY_STATE_TRANSITION_ACTIVE
  }

  /** `(bits & mask) != 0`, the test the source writes out at every use. */
  predicate Has(bits: Bits, mask: Bits) {
    bits & mask != 0
  }

  /** The set of named flags a bitmask holds; unnamed bits are ignored. */
  function FlagSet(bits: Bits): (s: set<Flag>)
    ensures forall f :: f in s <==> Has(bits, Bit(f))
  {
    AllFlagsComplete();
    set f | f in AllFlags && Has(bits, Bit(f))
  }

  /** Every named flag is listed in AllFlags. */
  lemma AllFlagsComplete()
    ensures forall f: Flag :: f in AllFlags
  {
    forall f: Flag ensures f in AllFlags {
      match f
      case Started =>
      case Resumed =>
      case DeferredResumed =>
      case WindowFocused =>
      case UserActive =>
      case TransitionActive =>
    }
  }

  /** The changes that make the launcher recompute its shelf height. */
  const RECOMPUTE_MASK: Bits :=
    ACTIVITY_STATE_DEFERRED_RESUMED | ACTIVITY_STATE_STARTED
    | ACTIVITY_STATE_USER_ACTIVE | ACTIVITY_STATE_TRANSITION_ACTIVE

  const RecomputeTriggers: set<Flag> := {DeferredResumed, Started, UserActive, TransitionActive}

  /**
   * The recompute gate: some trigger flag changed, and the resulting flags
   * have no transition in flight.
   */
  predicate ShouldRecompute(changeBits: Bits, flags: Bits) {
    Has(changeBits, RECOMPUTE_MASK) && !Has(flags, ACTIVITY_STATE_TRANSITION_ACTIVE)
  }

  /**
   * The prediction resume gate: the activity was just started, or
   * deferred-resumed both changed and is now set.
   */
  predicate ShouldResumePredictions(changeBits: Bits, flags: Bits) {
    Has(changeBits, ACTIVITY_STATE_STARTED)
    || Has(changeBits & flags, ACTIVITY_STATE_DEFERRED_RESUMED)
  }

  /** `isUserActive()` of the activity base class: the user-active flag is set. */
  predicate IsUserActive(flags: Bits) {
    Has(flags, ACTIVITY_STATE_USER_ACTIVE)
  }

  /** The mask test of the recompute gate, read as named flags. */
  lemma RecomputeGateByName(changeBits: Bits, flags: Bits)
    ensures ShouldRecompute(changeBits, flags)
        <==> FlagSet(changeBits) * RecomputeTriggers != {} && TransitionActive !in FlagSet(flags)
  {
    var changed := FlagSet(changeBits) * RecomputeTriggers;
    if Has(changeBits, RECOMPUTE_MASK) {
      var f :| f in RecomputeTriggers && Has(changeBits, Bit(f));
      assert f in changed;
    }
    if changed != {} {
      var f :| f in changed;
      assert Has(changeBits, RECOMPUTE_MASK);
    }
  }

  /** The mask test of the resume gate, read as named flags. */
  lemma ResumeGateByName(changeBits: Bits, flags: Bits)
    ensures ShouldResumePredictions(changeBits, flags)
        <==> Started in FlagSet(changeBits)
             || (DeferredResumed in FlagSet(changeBits) && DeferredResumed in FlagSet(flags))
  {
  }

  /**
   * A report that ends a transition (transition-active changed and is now
   * clear) always recomputes; one that starts or continues a transition
   * never does, whatever else changed in it.
   */
  lemma TransitionGate(changeBits: Bits, flags: Bits)
    ensures Has(changeBits, ACTIVITY_STATE_TRANSITION_ACTIVE) && !Has(flags, ACTIVITY_STATE_TRANSITION_ACTIVE)
            ==> ShouldRecompute(changeBits, flags)
    ensures Has(flags, ACTIVITY_STATE_TRANSITION_ACTIVE) ==> !ShouldRecompute(changeBits, flags)
  {
  }

  /** Changes confined to RESUMED and WINDOW_FOCUSED (and unnamed bits) never recompute. */
  lemma UnrelatedChangesDoNotRecompute(changeBits: Bits, flags: Bits)
    requires FlagSet(changeBits) <= {Resumed, WindowFocused}
    ensures !ShouldRecompute(changeBits, flags)
  {
    RecomputeGateByName(changeBits, flags);
  }
}
