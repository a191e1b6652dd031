# TN_SwitchState in Dafny

TN_SwitchState turns a raw switch signal into a gesture. The signal is sampled
as high or low and handed to `TN_Switch::GiveSignal`. A chatter (low-pass)
filter first drops any call that comes too soon after the last accepted one.
An accepted call goes to a state machine. In momentary mode it tells apart a
single press, a double press and a long press. In toggle mode it cycles
Off, Rising, On, Falling. Each call returns a `TnSwitchState` classification,
or `kLowPassFiltering` when the filter held the call back.

The model has five modules:

- `Uint32` (`uint32.dfy`): `uint32_t` timestamps as a newtype. `Elapsed` is
  the wrapping subtraction `now - since` modulo 2^32; `Add` is its inverse.
- `SwitchState` (`switch_state.dfy`): the `TnSwitchState` enum. `State` has
  one constructor per state class (`IdringState` ... `ToggleFallingState`).
  `GetStateEnum` gives each state's classification.
- `Transition` (`transition.dfy`): `Step`, every `*State::GiveSignal` as one
  pure function. It returns the next state (`set_tn_state`) and the gesture
  start time (`set_start_time`). Lemmas state the timing guards.
- `Switch` (`switch.dfy`): the fields of `TN_Switch` as a `Context` value.
  `Signal` is the filter plus one transition, on values. `Run` folds `Signal`
  over a sequence of calls. The class `TnSwitch` has the source's fields,
  constructors, setters and getters. Its `GiveSignal` method is proved equal
  to `Signal` on the object's fields. `is_toggle_` has no setter in the
  source, so `isToggle` is a `const` field: Dafny itself keeps the mode fixed.
  Each getter reports its field of the object's snapshot, and each setter's
  contract pins what its getter returns afterwards.
- `SwitchProperties` (`properties.dfy`): properties of whole call sequences.
  These are the chatter filter over a burst and the single-click, double-click,
  long-press and toggle gestures from a fresh switch. The method
  `HoldUsesNewThreshold` proves, for any object in SingleHold, that a
  long-press threshold changed during the hold applies to the next comparison
  and does not restart the hold; `ThresholdChangeMidHold` is one concrete run.

The clock is an explicit `now` parameter of every call. The source reads
`millis()` up to three times per call: in the filter test, in the state's
transition and in the `receipt_time_` assignment. The model assumes all reads
in one call return the same value. `TnSwitch.GiveSignal` writes the start
time on every accepted call, to the value `Step` computes; the source writes it
only on the three timer-restarting transitions, and the resulting values agree.

Some behaviours of the code are easy to misread:

- The filter compares each call with the last ACCEPTED call, not with the
  previous call. So calls closer together than the chatter time are accepted
  again once they drift past it. `FilterMeasuresFromLastAccepted` shows this.
  `AcceptedThenBurst` states what does hold: after an accepted call at `t`,
  every call no later than the chatter time after `t` is rejected.
- SingleRelease goes to DoublePress on any high signal, with no check against
  the double-press window.
- DoubleRelease reads the start time and the long-press threshold but never
  uses them. It has no long-hold check.
- The first call is not special. A fresh switch has receipt time 0, so a call
  at `now <= 10` is filtered (`FirstCallBoundary`).

## Model

| member | source | states |
|---|---|---|
| Uint32.Elapsed | src/TN_SwitchState.cpp:59 | `now - since` in `uint32_t`: the plain difference when `since <= now`, else the difference plus 2^32; adding it to `since` modulo 2^32 gives back `now` |
| SwitchState.GetStateEnum | src/TN_SwitchState.h:136-313 | each state's classification is never `LowPassFiltering`; `StateOf` inverts it, so distinct states classify differently; toggle states, and only they, get toggle classifications |
| SwitchState.GetStateEnumOnto | src/TN_SwitchState.h:30-48 | every enum value except `kLowPassFiltering` is the classification of exactly one state |
| Transition.Step | src/TN_SwitchState.cpp:174-370 | a transition never changes mode (toggle stays toggle, momentary stays momentary); the start time becomes `now` exactly on SinglePress-high, SingleRelease-low and DoublePress-high, and is kept otherwise |
| Transition.HoldBecomesLongPress | src/TN_SwitchState.cpp:198-280 | SingleHold and DoubleHold on high go to LongPress iff the hold exceeds the long-press threshold strictly, else stay put |
| Transition.LongPressBoundary | src/TN_SwitchState.cpp:203-208 | with the 500 ms default, a hold of exactly 500 ms stays in SingleHold and 501 ms gives LongPress, at any start time (wrap-around included) |
| Transition.DoubleIdringTimeout | src/TN_SwitchState.cpp:231-247 | DoubleIdring on high always gives DoublePress; on low it gives Idring iff strictly more than the double-press window has passed, else stays |
| Transition.DoubleReleaseIgnoresTime | src/TN_SwitchState.cpp:283-296 | DoubleRelease gives DoublePress on high and Idring on low, whatever the clock, and keeps the start time |
| Transition.UntimedIgnoresClock | src/TN_SwitchState.cpp:174-336 | outside SingleHold, DoubleHold and DoubleIdring the next state does not depend on the clock, the start time or the thresholds |
| Transition.ToggleStep | src/TN_SwitchState.cpp:340-370 | a toggle state moves to its successor in Off, Rising, On, Falling on its designated level, is a no-op on the other level, and keeps the start time |
| Switch.InitialState | src/TN_SwitchState.cpp:35-46 | `Init` puts the switch in a state of its own mode |
| Switch.Initial | src/TN_SwitchState.h:108-115 | the freshly built switch is in a state of its own mode |
| Switch.Signal | src/TN_SwitchState.cpp:56-65 | a call returns `LowPassFiltering` iff `now - receipt_time_ <= chatter_time_`, and then changes nothing; otherwise it sets the receipt time to `now` and returns the new state's classification; the mode and thresholds never change, and the mode invariant is kept |
| Switch.Run | src/TN_SwitchState.cpp:56-65 | a sequence of calls yields one result per call and never changes the mode or the thresholds |
| Switch.RunKeepsMode | src/TN_SwitchState.cpp:174-370 | over any sequence of calls, a switch in a state of its own mode stays so, and every classification it reports belongs to its mode |
| Switch.TnSwitch.constructor | src/TN_SwitchState.cpp:30-33 | thresholds 500, 200 and 10 ms, receipt and start time 0, ToggleOff when `is_toggle` and Idring otherwise |
| Switch.TnSwitch.Default | src/TN_SwitchState.cpp:28 | the default constructor builds a non-toggle switch, in Idring |
| Switch.TnSwitch.GiveSignal | src/TN_SwitchState.cpp:56-65 | the new fields and the result are what `Signal` gives for the old fields; the mode invariant is kept |
| Switch.TnSwitch.SetTnState | src/TN_SwitchState.h:80 | sets the current state and no other field |
| Switch.TnSwitch.SetStartTime | src/TN_SwitchState.h:81 | sets the start time, which the getter then returns, and no other field |
| Switch.TnSwitch.SetLongPressTime | src/TN_SwitchState.h:82 | sets the long-press threshold, which the getter then returns; the state and start time are not reset |
| Switch.TnSwitch.SetDoublePressTime | src/TN_SwitchState.h:83 | sets the double-press window, which the getter then returns, and no other field |
| Switch.TnSwitch.SetChatterTime | src/TN_SwitchState.h:84 | sets the chatter time, which the getter then returns, and no other field |
| Switch.TnSwitch.StartTime | src/TN_SwitchState.h:85 | `start_time()` returns the stored start time; `SetStartTime`'s ensures pins it after a set |
| Switch.TnSwitch.LongPressTime | src/TN_SwitchState.h:86 | `long_press_time()` returns the stored threshold; `SetLongPressTime`'s ensures pins it after a set |
| Switch.TnSwitch.DoublePressTime | src/TN_SwitchState.h:87 | `double_press_time()` returns the stored window; `SetDoublePressTime`'s ensures pins it after a set |
| Switch.TnSwitch.ChatterTime | src/TN_SwitchState.h:88 | `chatter_time()` returns the stored chatter time; `SetChatterTime`'s ensures pins it after a set |
| Switch.TnSwitch.IsToggle | src/TN_SwitchState.h:89 | `is_toggle()` returns the mode, a constant fixed by the constructor |
| SwitchProperties.HoldUsesNewThreshold | src/TN_SwitchState.cpp:198-208 | a long-press threshold set during SingleHold decides the next accepted high call: LongPress iff the hold since the unchanged start time exceeds the new threshold strictly, else SingleHold |
| SwitchProperties.BurstFiltered | src/TN_SwitchState.cpp:59-64 | calls all within the chatter time of the last accepted call are all rejected and leave the switch unchanged |
| SwitchProperties.AcceptedThenBurst | src/TN_SwitchState.cpp:56-65 | after an accepted call at `t`, every later call within the chatter time of `t` is rejected; only the first call of the burst moves the machine |
| SwitchProperties.FilterMeasuresFromLastAccepted | src/TN_SwitchState.cpp:59-61 | with calls 5 ms apart at 100, 105, 110 and 115, the results are SinglePress, filtered, filtered (exactly 10 ms), SingleHold |
| SwitchProperties.FirstCallBoundary | src/TN_SwitchState.h:113 | a fresh switch filters its first call iff it comes at `now <= 10` |
| SwitchProperties.SignalAccepts | src/TN_SwitchState.cpp:59-62 | proof helper for the gesture lemmas: unfolds `Signal`'s accepted branch (one transition, then `now` recorded as the receipt time) |
| SwitchProperties.ToggleCycle | src/TN_SwitchState.cpp:340-370 | from ToggleOff, accepted high, low, high, low report ToggleRising, ToggleOn, ToggleFalling, ToggleOff and end in ToggleOff |
| SwitchProperties.SingleClick | src/TN_SwitchState.cpp:174-247 | from Idring, high, low, low, low (the last more than 200 ms after the third) report SinglePress, SingleRelease, DoubleIdring, Idring |
| SwitchProperties.LongPressGesture | src/TN_SwitchState.cpp:174-336 | from Idring, high, high, then high more than 500 ms later, then low, low report SinglePress, SingleHold, LongPress, LongRelease, Idring |
| SwitchProperties.DoubleClick | src/TN_SwitchState.cpp:174-296 | from Idring, high, low, high, low, low report SinglePress, SingleRelease, DoublePress, DoubleRelease, Idring |

## Left out

- The Arduino clock `millis()` and `<Arduino.h>`: replaced by a `now` parameter per call, read once per call (see above).
- Static singleton state objects and virtual dispatch through `TN_State`: the states are constructors of a datatype and one `Step` function does all the dispatch.
- The deleted copy constructor and copy assignment: C++ ownership rules with no Dafny counterpart.
- The unused locals `start` and `long_press` in `DoubleReleaseState::GiveSignal`: they have no effect.
- The commented-out `State()` accessor: it is not part of the compiled code.
