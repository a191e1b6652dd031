/** The transitions of the gesture machine: every `*State::GiveSignal` of the
    source as one pure function of the current state, the signal level, the
    current time and what the state reads from its context. */
module Transition {
  import opened Uint32
  import opened SwitchState

  /** What a state's `GiveSignal` leaves in its context: the next state
      (`set_tn_state`) and the gesture start time (`set_start_time`). */
  datatype StepResult = StepResult(next: State, startTime: uint32)

  /** The three transitions that restart the gesture timer. */
  predicate RestartsTimer(s: State, isHigh: bool) {
    (s == SinglePressState && isHigh) || (s == SingleReleaseState && !isHigh)
    || (s == DoublePressState && isHigh)
  }

  /** The three states whose transitions read the clock. */
  predicate IsTimed(s: State) {
    s == SingleHoldState || s == DoubleHoldState || s == DoubleIdringState
  }

  /** The level on which a toggle state moves on; on the other level it stays. */
  function ToggleEdge(s: State): bool
    requires IsToggleState(s)
  {
    s.ToggleOffState? || s.ToggleOnState?
  }

  /** The toggle cycle Off -> Rising -> On -> Falling -> Off. */
  function ToggleSuccessor(s: State): (t: State)
    requires IsToggleState(s)
    ensures IsToggleState(t) && t != s
  {
    match s
    case ToggleOffState => ToggleRisingState
    case ToggleRisingState => ToggleOnState
    case ToggleOnState => ToggleFallingState
    case ToggleFallingState => ToggleOffState
  }

  /** One accepted signal. A transition never leaves the mode (toggle or
      momentary) it starts in, and the start time becomes `now` on exactly
      the three timer-restarting transitions and is kept on all others. */
  function Step(state: State, isHigh: bool, now: uint32, startTime: uint32,
                longPressTime: uint32, doublePressTime: uint32): (r: StepResult)
    ensures IsToggleState(r.next) == IsToggleState(state)
    ensures RestartsTimer(state, isHigh) ==> r.startTime == now
    ensures !RestartsTimer(state, isHigh) ==> r.startTime == startTime
  {
    var stay := StepResult(state, startTime);
    match state
    case IdringState =>
      if isHigh then StepResult(SinglePressState, startTime) else stay
    case SinglePressState =>
      if isHigh then StepResult(SingleHoldState, now)
      else StepResult(SingleReleaseState, startTime)
    case SingleHoldState =>
      if isHigh then
        if Elapsed(now, startTime) > longPressTime then StepResult(LongPressState, startTime)
        else stay
      else StepResult(SingleReleaseState, startTime)
    case SingleReleaseState =>
      if isHigh then StepResult(DoublePressState, startTime)
      else StepResult(DoubleIdringState, now)
    case DoubleIdringState =>
      if isHigh then StepResult(DoublePressState, startTime)
      else if Elapsed(now, startTime) > doublePressTime then StepResult(IdringState, startTime)
      else stay
    case DoublePressState =>
      if isHigh then StepResult(DoubleHoldState, now)
      else StepResult(DoubleReleaseState, startTime)
    case DoubleHoldState =>
      if isHigh then
        if Elapsed(now, startTime) > longPressTime then StepResult(LongPressState, startTime)
        else stay
      else StepResult(DoubleReleaseState, startTime)
    case DoubleReleaseState =>
      if isHigh then StepResult(DoublePressState, startTime)
      else StepResult(IdringState, startTime)
    case LongPressState =>
      if isHigh then StepResult(LongHoldState, startTime)
      else StepResult(LongReleaseState, startTime)
    case LongHoldState =>
      if isHigh then stay else StepResult(LongReleaseState, startTime)
    case LongReleaseState =>
      if isHigh then StepResult(SinglePressState, startTime)
      else StepResult(IdringState, startTime)
    case ToggleOffState =>
      if isHigh then StepResult(ToggleRisingState, startTime) else stay
    case ToggleRisingState =>
      if !isHigh then StepResult(ToggleOnState, startTime) else stay
    case ToggleOnState =>
      if isHigh then StepResult(ToggleFallingState, startTime) else stay
    case ToggleFallingState =>
      if !isHigh then StepResult(ToggleOffState, startTime) else stay
  }

  /** SingleHold and DoubleHold on a high signal become LongPress exactly when
      the hold has lasted strictly longer than the long-press threshold, and
      otherwise stay where they are. */
  lemma HoldBecomesLongPress(s: State, now: uint32, startTime: uint32,
                             longPressTime: uint32, doublePressTime: uint32)
    requires s == SingleHoldState || s == DoubleHoldState
    ensures var r := Step(s, true, now, startTime, longPressTime, doublePressTime);
            (r.next == LongPressState <==> Elapsed(now, startTime) > longPressTime)
            && (r.next != LongPressState ==> r.next == s)
  {
  }

  /** With the default threshold of 500 ms, a hold of exactly 500 ms keeps
      SingleHold and a hold of 501 ms gives LongPress, at any start time. */
  lemma LongPressBoundary(startTime: uint32)
    ensures Step(SingleHoldState, true, Add(startTime, 500), startTime, 500, 200).next
            == SingleHoldState
    ensures Step(SingleHoldState, true, Add(startTime, 501), startTime, 500, 200).next
            == LongPressState
  {
  }

  /** DoubleIdring always answers a high signal with DoublePress; on a low
      signal it returns to Idring exactly when strictly more than the
      double-press window has passed, and otherwise stays. */
  lemma DoubleIdringTimeout(now: uint32, startTime: uint32,
                            longPressTime: uint32, doublePressTime: uint32)
    ensures Step(DoubleIdringState, true, now, startTime, longPressTime, doublePressTime).next
            == DoublePressState
    ensures var r := Step(DoubleIdringState, false, now, startTime, longPressTime, doublePressTime);
            (r.next == IdringState <==> Elapsed(now, startTime) > doublePressTime)
            && (r.next != IdringState ==> r.next == DoubleIdringState)
  {
  }

  /** DoubleRelease does not look at the clock: low always gives Idring and
      high always gives DoublePress, and the start time is left alone. */
  lemma DoubleReleaseIgnoresTime(isHigh: bool, now: uint32, startTime: uint32,
                                 longPressTime: uint32, doublePressTime: uint32)
    ensures Step(DoubleReleaseState, isHigh, now, startTime, longPressTime, doublePressTime)
            == StepResult(if isHigh then DoublePressState else IdringState, startTime)
  {
  }

  /** Outside the three timed states the next state depends on the level
      alone: neither the clock, the start time nor the thresholds matter. */
  lemma UntimedIgnoresClock(s: State, isHigh: bool,
                            now: uint32, startTime: uint32, longPressTime: uint32, doublePressTime: uint32,
                            now': uint32, startTime': uint32, longPressTime': uint32, doublePressTime': uint32)
    requires !IsTimed(s)
    ensures Step(s, isHigh, now, startTime, longPressTime, doublePressTime).next
            == Step(s, isHigh, now', startTime', longPressTime', doublePressTime').next
  {
  }

  /** A toggle state moves to its successor on its designated level, ignores
      the other level, and never touches the start time. */
  lemma ToggleStep(s: State, isHigh: bool, now: uint32, startTime: uint32,
                   longPressTime: uint32, doublePressTime: uint32)
    requires IsToggleState(s)
    ensures Step(s, isHigh, now, startTime, longPressTime, doublePressTime)
            == StepResult(if isHigh == ToggleEdge(s) then ToggleSuccessor(s) else s, startTime)
  {
  }
}
