/** The switch object `TN_Switch`: its configuration, its timestamps, its
    current state, and the chatter filter in front of the state machine. */
module Switch {
  import opened Uint32
  import opened SwitchState
  import opened Transition

  const DEFAULT_LONG_PRESS_TIME: uint32 := 500
  const DEFAULT_DOUBLE_PRESS_TIME: uint32 := 200
  const DEFAULT_CHATTER_TIME: uint32 := 10

  /** The fields of a `TN_Switch` as one value. */
  datatype Context = Context(
    isToggle: bool,
    longPressTime: uint32,
    doublePressTime: uint32,
    chatterTime: uint32,
    receiptTime: uint32,
    startTime: uint32,
    state: State)

  /** The current state belongs to the switch's mode. */
  predicate Consistent(c: Context) {
    IsToggleState(c.state) == c.isToggle
  }

  /** Neither the mode nor any threshold differs between `c` and `d`. */
  predicate SameConfig(c: Context, d: Context) {
    c.isToggle == d.isToggle && c.longPressTime == d.longPressTime
    && c.doublePressTime == d.doublePressTime && c.chatterTime == d.chatterTime
  }

  /** `Init`: the starting state of the mode. */
  function InitialState(isToggle: bool): (s: State)
    ensures IsToggleState(s) == isToggle
  {
    if isToggle then ToggleOffState else IdringState
  }

  /** A switch as the constructor leaves it. */
  function Initial(isToggle: bool): (c: Context)
    ensures Consistent(c)
  {
    Context(isToggle, DEFAULT_LONG_PRESS_TIME, DEFAULT_DOUBLE_PRESS_TIME,
            DEFAULT_CHATTER_TIME, 0, 0, InitialState(isToggle))
  }

  /** A switch after one call of `GiveSignal`, with what that call returned. */
  datatype Reply = Reply(ctx: Context, result: TnSwitchState)

  /** `TN_Switch::GiveSignal` on values. A call is rejected, and changes
      nothing, exactly when no more than the chatter time has passed since the
      last accepted call; an accepted call runs one transition, records `now`
      as the receipt time and reports the new state. */
  function Signal(c: Context, isHigh: bool, now: uint32): (r: Reply)
    ensures r.result == LowPassFiltering <==> Elapsed(now, c.receiptTime) <= c.chatterTime
    ensures r.result == LowPassFiltering ==> r.ctx == c
    ensures r.result != LowPassFiltering ==>
              r.ctx.receiptTime == now && r.result == GetStateEnum(r.ctx.state)
    ensures SameConfig(r.ctx, c)
    ensures Consistent(c) ==> Consistent(r.ctx)
  {
    if Elapsed(now, c.receiptTime) > c.chatterTime then
      var s := Step(c.state, isHigh, now, c.startTime, c.longPressTime, c.doublePressTime);
      var d := c.(state := s.next, startTime := s.startTime, receiptTime := now);
      Reply(d, GetStateEnum(d.state))
    else
      Reply(c, LowPassFiltering)
  }

  /** One call of `GiveSignal`: the level and the clock reading it sees. */
  datatype Input = Input(isHigh: bool, now: uint32)

  /** A switch after a sequence of calls, with what each call returned. */
  datatype Trace = Trace(ctx: Context, results: seq<TnSwitchState>)

  /** A run of calls: one result per call, and the configuration never
      changes. */
  function Run(c: Context, inputs: seq<Input>): (r: Trace)
    ensures |r.results| == |inputs|
    ensures SameConfig(r.ctx, c)
    decreases |inputs|
  {
    if inputs == [] then Trace(c, [])
    else
      var first := Signal(c, inputs[0].isHigh, inputs[0].now);
      var rest := Run(first.ctx, inputs[1..]);
      Trace(rest.ctx, [first.result] + rest.results)
  }

  /** Toggle states only lead to toggle states and momentary states only to
      momentary states: over any run a consistent switch stays consistent,
      and every classification it reports belongs to its own mode. */
  lemma {:induction false} RunKeepsMode(c: Context, inputs: seq<Input>)
    requires Consistent(c)
    ensures Consistent(Run(c, inputs).ctx)
    ensures forall i :: 0 <= i < |inputs| ==>
              Run(c, inputs).results[i] == LowPassFiltering
              || IsToggleClass(Run(c, inputs).results[i]) == c.isToggle
    decreases |inputs|
  {
    if inputs != [] {
      var first := Signal(c, inputs[0].isHigh, inputs[0].now);
      RunKeepsMode(first.ctx, inputs[1..]);
    }
  }

  /** The switch object. `isToggle` is a constant: the source offers no
      setter for the mode, so it is fixed when the object is built. */
  class TnSwitch {
    const isToggle: bool
    var longPressTime: uint32
    var doublePressTime: uint32
    var chatterTime: uint32
    var receiptTime: uint32
    var startTime: uint32
    var tnState: State

    /** All fields as one value. */
    function Snapshot(): Context
      reads this
    {
      Context(isToggle, longPressTime, doublePressTime, chatterTime,
              receiptTime, startTime, tnState)
    }

    ghost predicate Valid()
      reads this
    {
      Consistent(Snapshot())
    }

    /** `TN_Switch(is_toggle)`: default thresholds, both timestamps zero, and
        ToggleOff for a toggle switch or Idring otherwise. */
    constructor (isToggle: bool)
      ensures this.isToggle == isToggle
      ensures longPressTime == 500 && doublePressTime == 200 && chatterTime == 10
      ensures receiptTime == 0 && startTime == 0
      ensures tnState == if isToggle then ToggleOffState else IdringState
      ensures Snapshot() == Initial(isToggle) && Valid()
    {
      this.isToggle := isToggle;
      longPressTime := DEFAULT_LONG_PRESS_TIME;
      doublePressTime := DEFAULT_DOUBLE_PRESS_TIME;
      chatterTime := DEFAULT_CHATTER_TIME;
      receiptTime := 0;
      startTime := 0;
      tnState := InitialState(isToggle);
    }

    /** `TN_Switch()`: the same as `TN_Switch(false)`. */
    constructor Default()
      ensures Snapshot() == Initial(false) && Valid()
    {
      isToggle := false;
      longPressTime := DEFAULT_LONG_PRESS_TIME;
      doublePressTime := DEFAULT_DOUBLE_PRESS_TIME;
      chatterTime := DEFAULT_CHATTER_TIME;
      receiptTime := 0;
      startTime := 0;
      tnState := InitialState(false);
    }

    /** Give one signal, read at time `now`, to the switch; it returns the new
        classification, or `LowPassFiltering` when the chatter filter held it
        back. */
    method GiveSignal(isHigh: bool, now: uint32) returns (result: TnSwitchState)
      modifies this
      ensures Reply(Snapshot(), result) == Signal(old(Snapshot()), isHigh, now)
      ensures old(Valid()) ==> Valid()
    {
      if Elapsed(now, receiptTime) > chatterTime {
        var s := Step(tnState, isHigh, now, startTime, longPressTime, doublePressTime);
        SetStartTime(s.startTime);
        SetTnState(s.next);
        receiptTime := now;
        result := GetStateEnum(tnState);
      } else {
        result := LowPassFiltering;
      }
    }

    /** The getters: each reports the matching component of the switch. */
    function StartTime(): (t: uint32)
      reads this
      ensures t == Snapshot().startTime
    {
      startTime
    }

    function LongPressTime(): (t: uint32)
      reads this
      ensures t == Snapshot().longPressTime
    {
      longPressTime
    }

    function DoublePressTime(): (t: uint32)
      reads this
      ensures t == Snapshot().doublePressTime
    {
      doublePressTime
    }

    function ChatterTime(): (t: uint32)
      reads this
      ensures t == Snapshot().chatterTime
    {
      chatterTime
    }

    function IsToggle(): (b: bool)
      reads this
      ensures b == Snapshot().isToggle
    {
      isToggle
    }

    /** `set_tn_state` is public and accepts any state, so it can put a
        momentary switch in a toggle state or the reverse: `Valid()` is then
        false. The class does not keep `Valid()` as an invariant; only
        `GiveSignal` preserves it. */
    method SetTnState(next: State)
      modifies this
      ensures Snapshot() == old(Snapshot()).(state := next)
    {
      tnState := next;
    }

    method SetStartTime(t: uint32)
      modifies this
      ensures StartTime() == t
      ensures Snapshot() == old(Snapshot()).(startTime := t)
    {
      startTime := t;
    }

    /** A new long-press threshold, used from the next call on; the running
        gesture (state and start time) is not reset. */
    method SetLongPressTime(t: uint32)
      modifies this
      ensures LongPressTime() == t
      ensures Snapshot() == old(Snapshot()).(longPressTime := t)
    {
      longPressTime := t;
    }

    method SetDoublePressTime(t: uint32)
      modifies this
      ensures DoublePressTime() == t
      ensures Snapshot() == old(Snapshot()).(doublePressTime := t)
    {
      doublePressTime := t;
    }

    method SetChatterTime(t: uint32)
      modifies this
      ensures ChatterTime() == t
      ensures Snapshot() == old(Snapshot()).(chatterTime := t)
    {
      chatterTime := t;
    }
  }
}
