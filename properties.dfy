/** Properties of whole sequences of calls: the chatter filter over a burst,
    and the gestures the machine recognises from a fresh switch. */
module SwitchProperties {
  import opened Uint32
  import opened SwitchState
  import opened Transition
  import opened Switch

  /** Calls that all come no later than the chatter time after the last
      accepted call are all rejected and leave the switch as it was. */
  lemma {:induction false} BurstFiltered(c: Context, inputs: seq<Input>)
    requires forall i :: 0 <= i < |inputs| ==> Elapsed(inputs[i].now, c.receiptTime) <= c.chatterTime
    ensures Run(c, inputs).ctx == c
    ensures forall i :: 0 <= i < |inputs| ==> Run(c, inputs).results[i] == LowPassFiltering
  {
    if inputs != [] {
      BurstFiltered(c, inputs[1..]);
    }
  }

  /** After an accepted call at time `t`, every further call no later than the
      chatter time after `t` is rejected: only the first call of such a burst
      moves the machine. */
  lemma AcceptedThenBurst(c: Context, first: Input, rest: seq<Input>)
    requires Elapsed(first.now, c.receiptTime) > c.chatterTime
    requires forall i :: 0 <= i < |rest| ==> Elapsed(rest[i].now, first.now) <= c.chatterTime
    ensures var r := Run(c, [first] + rest);
            r.ctx == Signal(c, first.isHigh, first.now).ctx
            && r.results[0] != LowPassFiltering
            && forall i :: 1 <= i < |r.results| ==> r.results[i] == LowPassFiltering
  {
    var s := Signal(c, first.isHigh, first.now);
    assert ([first] + rest)[1..] == rest;
    BurstFiltered(s.ctx, rest);
  }

  /** The filter compares with the last ACCEPTED call, not the previous call:
      calls 5 ms apart with a 10 ms chatter time are accepted again once 15 ms
      have passed since the last accepted one. A call exactly 10 ms after it
      is still rejected. */
  lemma FilterMeasuresFromLastAccepted()
    ensures Run(Initial(false), [Input(true, 100), Input(true, 105), Input(true, 110), Input(true, 115)]).results
            == [SinglePress, LowPassFiltering, LowPassFiltering, SingleHold]
  {
  }

  /** A fresh switch ignores a first call that comes within the chatter time
      of the clock's zero, because the receipt time starts at zero. */
  lemma FirstCallBoundary(isToggle: bool, isHigh: bool, now: uint32)
    ensures Signal(Initial(isToggle), isHigh, now).result == LowPassFiltering <==> now <= 10
  {
  }

  /** An accepted call moves the switch by one transition and records `now`. */
  lemma SignalAccepts(c: Context, isHigh: bool, now: uint32, next: State, startTime: uint32)
    requires Elapsed(now, c.receiptTime) > c.chatterTime
    requires Step(c.state, isHigh, now, c.startTime, c.longPressTime, c.doublePressTime)
             == StepResult(next, startTime)
    ensures Signal(c, isHigh, now)
            == Reply(c.(state := next, startTime := startTime, receiptTime := now), GetStateEnum(next))
  {
  }

  /** Unfolds a run by its first call. */
  lemma RunCons(c: Context, x: Input, rest: seq<Input>)
    ensures var s := Signal(c, x.isHigh, x.now);
            Run(c, [x] + rest) == Trace(Run(s.ctx, rest).ctx, [s.result] + Run(s.ctx, rest).results)
  {
  }

  /** Toggle mode: high, low, high, low from a fresh toggle switch report
      Rising, On, Falling, Off, and the switch is back in ToggleOff. */
  lemma ToggleCycle(t1: uint32, t2: uint32, t3: uint32, t4: uint32)
    requires Elapsed(t1, 0) > 10 && Elapsed(t2, t1) > 10 && Elapsed(t3, t2) > 10 && Elapsed(t4, t3) > 10
    ensures var r := Run(Initial(true), [Input(true, t1), Input(false, t2), Input(true, t3), Input(false, t4)]);
            r.results == [ToggleRising, ToggleOn, ToggleFalling, ToggleOff]
            && r.ctx.state == ToggleOffState
  {
    var c0 := Initial(true);
    var c1 := c0.(state := ToggleRisingState, receiptTime := t1);
    var c2 := c1.(state := ToggleOnState, receiptTime := t2);
    var c3 := c2.(state := ToggleFallingState, receiptTime := t3);
    var c4 := c3.(state := ToggleOffState, receiptTime := t4);
    SignalAccepts(c0, true, t1, ToggleRisingState, 0);
    SignalAccepts(c1, false, t2, ToggleOnState, 0);
    SignalAccepts(c2, true, t3, ToggleFallingState, 0);
    SignalAccepts(c3, false, t4, ToggleOffState, 0);
    RunCons(c3, Input(false, t4), []);
    RunCons(c2, Input(true, t3), [Input(false, t4)]);
    RunCons(c1, Input(false, t2), [Input(true, t3), Input(false, t4)]);
    RunCons(c0, Input(true, t1), [Input(false, t2), Input(true, t3), Input(false, t4)]);
  }

  /** A single click: press and release report SinglePress and SingleRelease;
      a further low reading starts the double-press window (DoubleIdring), and
      a low reading more than 200 ms later ends it (Idring). */
  lemma SingleClick(t1: uint32, t2: uint32, t3: uint32, t4: uint32)
    requires Elapsed(t1, 0) > 10 && Elapsed(t2, t1) > 10 && Elapsed(t3, t2) > 10
    requires Elapsed(t4, t3) > 200
    ensures Run(Initial(false), [Input(true, t1), Input(false, t2), Input(false, t3), Input(false, t4)]).results
            == [SinglePress, SingleRelease, DoubleIdring, Idring]
  {
    var c0 := Initial(false);
    var c1 := c0.(state := SinglePressState, receiptTime := t1);
    var c2 := c1.(state := SingleReleaseState, receiptTime := t2);
    var c3 := c2.(state := DoubleIdringState, receiptTime := t3, startTime := t3);
    var c4 := c3.(state := IdringState, receiptTime := t4);
    SignalAccepts(c0, true, t1, SinglePressState, 0);
    SignalAccepts(c1, false, t2, SingleReleaseState, 0);
    SignalAccepts(c2, false, t3, DoubleIdringState, t3);
    SignalAccepts(c3, false, t4, IdringState, t3);
    RunCons(c3, Input(false, t4), []);
    RunCons(c2, Input(false, t3), [Input(false, t4)]);
    RunCons(c1, Input(false, t2), [Input(false, t3), Input(false, t4)]);
    RunCons(c0, Input(true, t1), [Input(false, t2), Input(false, t3), Input(false, t4)]);
  }

  /** A long press: holding high for more than 500 ms after SingleHold began
      reports LongPress; releasing reports LongRelease and then Idring. */
  lemma LongPressGesture(t1: uint32, t2: uint32, t3: uint32, t4: uint32, t5: uint32)
    requires Elapsed(t1, 0) > 10 && Elapsed(t2, t1) > 10 && Elapsed(t4, t3) > 10 && Elapsed(t5, t4) > 10
    requires Elapsed(t3, t2) > 500
    ensures Run(Initial(false),
                [Input(true, t1), Input(true, t2), Input(true, t3), Input(false, t4), Input(false, t5)]).results
            == [SinglePress, SingleHold, LongPress, LongRelease, Idring]
  {
    var c0 := Initial(false);
    var c1 := c0.(state := SinglePressState, receiptTime := t1);
    var c2 := c1.(state := SingleHoldState, receiptTime := t2, startTime := t2);
    var c3 := c2.(state := LongPressState, receiptTime := t3);
    var c4 := c3.(state := LongReleaseState, receiptTime := t4);
    var c5 := c4.(state := IdringState, receiptTime := t5);
    SignalAccepts(c0, true, t1, SinglePressState, 0);
    SignalAccepts(c1, true, t2, SingleHoldState, t2);
    SignalAccepts(c2, true, t3, LongPressState, t2);
    SignalAccepts(c3, false, t4, LongReleaseState, t2);
    SignalAccepts(c4, false, t5, IdringState, t2);
    RunCons(c4, Input(false, t5), []);
    RunCons(c3, Input(false, t4), [Input(false, t5)]);
    RunCons(c2, Input(true, t3), [Input(false, t4), Input(false, t5)]);
    RunCons(c1, Input(true, t2), [Input(true, t3), Input(false, t4), Input(false, t5)]);
    RunCons(c0, Input(true, t1), [Input(true, t2), Input(true, t3), Input(false, t4), Input(false, t5)]);
  }

  /** A double click: press, release, press, release report SinglePress,
      SingleRelease, DoublePress, DoubleRelease, and one more low reading
      returns to Idring. No timing condition besides the filter is involved. */
  lemma DoubleClick(t1: uint32, t2: uint32, t3: uint32, t4: uint32, t5: uint32)
    requires Elapsed(t1, 0) > 10 && Elapsed(t2, t1) > 10 && Elapsed(t3, t2) > 10
    requires Elapsed(t4, t3) > 10 && Elapsed(t5, t4) > 10
    ensures Run(Initial(false),
                [Input(true, t1), Input(false, t2), Input(true, t3), Input(false, t4), Input(false, t5)]).results
            == [SinglePress, SingleRelease, DoublePress, DoubleRelease, Idring]
  {
    var c0 := Initial(false);
    var c1 := c0.(state := SinglePressState, receiptTime := t1);
    var c2 := c1.(state := SingleReleaseState, receiptTime := t2);
    var c3 := c2.(state := DoublePressState, receiptTime := t3);
    var c4 := c3.(state := DoubleReleaseState, receiptTime := t4);
    var c5 := c4.(state := IdringState, receiptTime := t5);
    SignalAccepts(c0, true, t1, SinglePressState, 0);
    SignalAccepts(c1, false, t2, SingleReleaseState, 0);
    SignalAccepts(c2, true, t3, DoublePressState, 0);
    SignalAccepts(c3, false, t4, DoubleReleaseState, 0);
    SignalAccepts(c4, false, t5, IdringState, 0);
    RunCons(c4, Input(false, t5), []);
    RunCons(c3, Input(false, t4), [Input(false, t5)]);
    RunCons(c2, Input(true, t3), [Input(false, t4), Input(false, t5)]);
    RunCons(c1, Input(false, t2), [Input(true, t3), Input(false, t4), Input(false, t5)]);
    RunCons(c0, Input(true, t1), [Input(false, t2), Input(true, t3), Input(false, t4), Input(false, t5)]);
  }

  /** A long-press threshold set while the switch is in SingleHold decides the
      very next high call: it gives LongPress exactly when that call comes
      strictly more than the new threshold after the hold began. */
  method HoldUsesNewThreshold(sw: TnSwitch, t: uint32, now: uint32) returns (r: TnSwitchState)
    requires sw.tnState == SingleHoldState
    requires Elapsed(now, sw.receiptTime) > sw.chatterTime
    modifies sw
    ensures r == LongPress <==> Elapsed(now, old(sw.startTime)) > t
    ensures r != LongPress ==> r == SingleHold
  {
    sw.SetLongPressTime(t);
    r := sw.GiveSignal(true, now);
  }

  /** A caller of the object: a threshold changed in the middle of a hold
      applies to the next comparison and does not restart the hold. */
  method ThresholdChangeMidHold()
  {
    var sw := new TnSwitch(false);
    var r := sw.GiveSignal(true, 100);
    assert r == SinglePress;
    r := sw.GiveSignal(true, 200);
    assert r == SingleHold && sw.startTime == 200;
    r := sw.GiveSignal(true, 600);
    assert r == SingleHold;
    sw.SetLongPressTime(300);
    assert sw.tnState == SingleHoldState && sw.startTime == 200;
    r := sw.GiveSignal(true, 650);
    assert r == LongPress;
  }
}
