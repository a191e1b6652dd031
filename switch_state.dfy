/** The public classification of a switch (`TnSwitchState`) and the states of
    the gesture machine, one constructor per state class of the source. */
module SwitchState {

  /** The value `TN_Switch::GiveSignal` returns: one per state, plus
      `LowPassFiltering` for a call that the chatter filter rejected. */
  datatype TnSwitchState =
    | Idring | SinglePress | SingleHold | SingleRelease
    | DoubleIdring | DoublePress | DoubleHold | DoubleRelease
    | LongPress | LongHold | LongRelease
    | ToggleOff | ToggleRising | ToggleOn | ToggleFalling
    | LowPassFiltering

  /** The current state of the machine: the fifteen singleton state classes. */
  datatype State =
    | IdringState | SinglePressState | SingleHoldState | SingleReleaseState
    | DoubleIdringState | DoublePressState | DoubleHoldState | DoubleReleaseState
    | LongPressState | LongHoldState | LongReleaseState
    | ToggleOffState | ToggleRisingState | ToggleOnState | ToggleFallingState

  /** The four states a toggle switch (`is_toggle == true`) uses. */
  predicate IsToggleState(s: State) {
    s.ToggleOffState? || s.ToggleRisingState? || s.ToggleOnState? || s.ToggleFallingState?
  }

  /** The classifications of the four toggle states. */
  predicate IsToggleClass(e: TnSwitchState) {
    e.ToggleOff? || e.ToggleRising? || e.ToggleOn? || e.ToggleFalling?
  }

  /** The state whose classification is `e`: the inverse of `GetStateEnum`. */
  function StateOf(e: TnSwitchState): State
    requires e != LowPassFiltering
  {
    match e
    case Idring => IdringState
    case SinglePress => SinglePressState
    case SingleHold => SingleHoldState
    case SingleRelease => SingleReleaseState
    case DoubleIdring => DoubleIdringState
    case DoublePress => DoublePressState
    case DoubleHold => DoubleHoldState
    case DoubleRelease => DoubleReleaseState
    case LongPress => LongPressState
    case LongHold => LongHoldState
    case LongRelease => LongReleaseState
    case ToggleOff => ToggleOffState
    case ToggleRising => ToggleRisingState
    case ToggleOn => ToggleOnState
    case ToggleFalling => ToggleFallingState
  }

  /** Each state class's `GetStateEnum`: a state is never reported as
      `LowPassFiltering`, distinct states are reported differently, and a
      toggle state is reported as a toggle classification. */
  function GetStateEnum(s: State): (e: TnSwitchState)
    ensures e != LowPassFiltering
    ensures StateOf(e) == s
    ensures IsToggleClass(e) == IsToggleState(s)
  {
    match s
    case IdringState => Idring
    case SinglePressState => SinglePress
    case SingleHoldState => SingleHold
    case SingleReleaseState => SingleRelease
    case DoubleIdringState => DoubleIdring
    case DoublePressState => DoublePress
    case DoubleHoldState => DoubleHold
    case DoubleReleaseState => DoubleRelease
    case LongPressState => LongPress
    case LongHoldState => LongHold
    case LongReleaseState => LongRelease
    case ToggleOffState => ToggleOff
    case ToggleRisingState => ToggleRising
    case ToggleOnState => ToggleOn
    case ToggleFallingState => ToggleFalling
  }

  /** Every classification except `LowPassFiltering` is the classification of
      exactly one state. */
  lemma GetStateEnumOnto(e: TnSwitchState)
    requires e != LowPassFiltering
    ensures GetStateEnum(StateOf(e)) == e
    ensures forall s :: GetStateEnum(s) == e ==> s == StateOf(e)
  {
  }
}
