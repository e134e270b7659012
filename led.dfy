/**
 * The status LED: a sequencer over constant patterns, advanced by a periodic
 * tick (`nextCycle`). Each pattern step holds its value for ticks[step] + 1
 * calls. Pin writes are recorded in a ghost log.
 */
module Led {
  import opened Common

  /** The output values of a mode's pattern; LED_SOLID has none. */
  function Values(mode: LEDMode): (v: seq<bool>)
    ensures |v| == Length(mode)
  {
    match mode
    case LedSolid => []
    case LedFlash => [true, false]
    case LedFlashFast => [true, false]
    case LedFlashPair => [true, false, true, false, true, false]
  }

  /** The hold counts of a mode's pattern. */
  function Ticks(mode: LEDMode): (t: seq<nat>)
    ensures |t| == Length(mode)
  {
    match mode
    case LedSolid => []
    case LedFlash => [4, 4]
    case LedFlashFast => [2, 2]
    case LedFlashPair => [1, 1, 1, 1, 1, 7]
  }

  /** The pattern length, the `maxCycleNo` of `nextCycle`: 0 for LED_SOLID. */
  function Length(mode: LEDMode): (n: nat)
    ensures mode == LedSolid <==> n == 0
  {
    match mode
    case LedSolid => 0
    case LedFlash => 2
    case LedFlashFast => 2
    case LedFlashPair => 6
  }

  /** Value view of the LED. */
  datatype Led = Led(mode: LEDMode, state: bool, cycleNo: int, ticks: nat)

  /** The LED after one call, with the levels written to the pin. */
  datatype LedStep = LedStep(led: Led, writes: seq<bool>)

  /**
   * A consistent sequencer state: a step inside the pattern (or -1 right
   * after `setMode`, with nothing left to hold), its hold count at most the
   * table's; in LED_SOLID, step 0 or -1 with nothing to hold.
   */
  ghost predicate Ready(l: Led)
  {
    -1 <= l.cycleNo &&
    (l.mode == LedSolid ==> l.cycleNo <= 0 && l.ticks == 0) &&
    (l.mode != LedSolid ==> l.cycleNo < Length(l.mode) &&
                            (l.cycleNo == -1 ==> l.ticks == 0) &&
                            (l.cycleNo >= 0 ==> l.ticks <= Ticks(l.mode)[l.cycleNo]))
  }

  /** The invariant between public calls: Ready, and the step is never -1. */
  ghost predicate Valid(l: Led)
  {
    Ready(l) && l.cycleNo >= 0
  }

  /** A level is written exactly when it differs from the current one. */
  ghost predicate WritesOnChange(before: Led, st: LedStep)
  {
    st.writes == if st.led.state != before.state then [st.led.state] else []
  }

  /** `init(state, mode)`: store both and write the level. */
  function InitStep(state: bool, mode: LEDMode): (st: LedStep)
    ensures Valid(st.led) && st.led.state == state && st.led.mode == mode && st.writes == [state]
  {
    LedStep(Led(mode, state, 0, 0), [state])
  }

  /** `setState`: only in LED_SOLID, and only a different level, changes the output. */
  function SetStateStep(l: Led, newState: bool): (st: LedStep)
    ensures st.led.mode == l.mode && st.led.cycleNo == l.cycleNo && st.led.ticks == l.ticks
    ensures st.led.state == (if l.mode == LedSolid then newState else l.state)
    ensures WritesOnChange(l, st)
    ensures Valid(l) ==> Valid(st.led)
  {
    if l.mode == LedSolid && newState != l.state then LedStep(l.(state := newState), [newState])
    else LedStep(l, [])
  }

  /**
   * `_applyCycle`: at a step of 0 or more, a flashing mode shows that step's
   * pattern value; LED_SOLID and a negative step keep the level.
   */
  function ApplyCycleStep(l: Led): (st: LedStep)
    requires l.mode != LedSolid && l.cycleNo >= 0 ==> l.cycleNo < Length(l.mode)
    ensures st.led.mode == l.mode && st.led.cycleNo == l.cycleNo && st.led.ticks == l.ticks
    ensures l.mode != LedSolid && l.cycleNo >= 0 ==> st.led.state == Values(l.mode)[l.cycleNo]
    ensures l.mode == LedSolid || l.cycleNo < 0 ==> st.led.state == l.state
    ensures WritesOnChange(l, st)
  {
    var newState := if l.cycleNo >= 0 && l.mode != LedSolid then Values(l.mode)[l.cycleNo] else l.state;
    if newState != l.state then LedStep(l.(state := newState), [newState]) else LedStep(l, [])
  }

  /**
   * `nextCycle`: with nothing left to hold, move to the next step (back to 0
   * after the last), load its hold count and apply its value; otherwise
   * count one tick down. The step + 1 is compared as an unsigned number, so
   * a negative sum also resets to step 0.
   */
  function NextCycleStep(l: Led): (st: LedStep)
    ensures st.led.mode == l.mode
    ensures WritesOnChange(l, st)
    ensures l.ticks > 0 ==> st == LedStep(l.(ticks := l.ticks - 1), [])
    ensures l.ticks == 0 && l.mode != LedSolid ==>
      st.led.cycleNo == (if 0 <= l.cycleNo + 1 < Length(l.mode) then l.cycleNo + 1 else 0) &&
      st.led.ticks == Ticks(l.mode)[st.led.cycleNo] &&
      st.led.state == Values(l.mode)[st.led.cycleNo]
    // LED_SOLID never changes the output
    ensures l.mode == LedSolid ==> st.writes == []
    ensures l.mode == LedSolid && l.ticks == 0 ==> st.led == l.(cycleNo := 0)
  {
    if l.ticks == 0 then
      var maxCycleNo := Length(l.mode);
      var next := l.cycleNo + 1;
      var newCycleNo := if next < 0 || next >= maxCycleNo then 0 else next;
      var ticks := if l.mode != LedSolid then Ticks(l.mode)[newCycleNo] else l.ticks;
      ApplyCycleStep(l.(cycleNo := newCycleNo, ticks := ticks))
    else LedStep(l.(ticks := l.ticks - 1), [])
  }

  /** A consistent state stays consistent under `nextCycle`, and the step is never -1 afterwards. */
  lemma NextCycleKeepsReady(l: Led)
    requires Ready(l)
    ensures Valid(NextCycleStep(l).led)
  {
  }

  /** `setMode`: the same mode changes nothing; a new mode restarts its pattern at step 0 at once. */
  function SetModeStep(l: Led, newMode: LEDMode): (st: LedStep)
    ensures st.led.mode == newMode
    ensures newMode != l.mode || Valid(l) ==> Valid(st.led)
    ensures WritesOnChange(l, st)
    ensures newMode == l.mode ==> st == LedStep(l, [])
    ensures newMode != l.mode && newMode != LedSolid ==>
      st.led == Led(newMode, Values(newMode)[0], 0, Ticks(newMode)[0])
    ensures newMode != l.mode && newMode == LedSolid ==> st.led == Led(LedSolid, l.state, 0, 0)
  {
    if newMode != l.mode then NextCycleStep(l.(mode := newMode, cycleNo := -1, ticks := 0))
    else LedStep(l, [])
  }

  /** `k` calls of `nextCycle`. */
  function Iterate(l: Led, k: nat): (r: Led)
    ensures r.mode == l.mode
    decreases k
  {
    if k == 0 then l else Iterate(NextCycleStep(l).led, k - 1)
  }

  /** Calls of `nextCycle` from a consistent state only reach consistent states. */
  lemma {:induction false} IterateReady(l: Led, k: nat)
    requires Ready(l)
    ensures Ready(Iterate(l, k))
    ensures k > 0 ==> Valid(Iterate(l, k))
    decreases k
  {
    if k > 0 {
      NextCycleKeepsReady(l);
      IterateReady(NextCycleStep(l).led, k - 1);
    }
  }

  lemma {:induction false} IterateAdds(l: Led, a: nat, b: nat)
    ensures Iterate(l, a + b) == Iterate(Iterate(l, a), b)
    decreases a
  {
    if a > 0 {
      IterateAdds(NextCycleStep(l).led, a - 1, b);
    }
  }

  /** Two runs of calls, the second starting where the first ends, make one run. */
  lemma IterateChain(l: Led, a: nat, b: nat, n: nat, m: Led, r: Led)
    requires Iterate(l, a) == m && Iterate(m, b) == r && n == a + b
    ensures Iterate(l, n) == r
  {
    IterateAdds(l, a, b);
  }

  /** While a step is held, each call only counts down: after k <= ticks calls nothing but the count has moved. */
  lemma {:induction false} HoldCountsDown(l: Led, k: nat)
    requires k <= l.ticks
    ensures Iterate(l, k) == l.(ticks := l.ticks - k)
    decreases k
  {
    if k > 0 {
      HoldCountsDown(l.(ticks := l.ticks - 1), k - 1);
    }
  }

  /** The last of ticks + 1 calls is the one that leaves the held step. */
  lemma {:induction false} HoldSpan(l: Led)
    ensures Iterate(l, l.ticks + 1) == NextCycleStep(l.(ticks := 0)).led
    decreases l.ticks
  {
    var r := NextCycleStep(l).led;
    assert Iterate(l, l.ticks + 1) == Iterate(r, l.ticks);
    if l.ticks > 0 {
      assert r == l.(ticks := l.ticks - 1);
      HoldSpan(r);
      assert r.(ticks := 0) == l.(ticks := 0);
    }
  }

  /**
   * Each step spans ticks + 1 calls: from a step with `ticks` left to hold,
   * the (ticks + 1)-th call moves to the next step of the pattern, loads its
   * hold count and shows its value.
   */
  lemma StepSpan(l: Led)
    requires l.mode != LedSolid && 0 <= l.cycleNo < Length(l.mode)
    ensures var n := if l.cycleNo + 1 == Length(l.mode) then 0 else l.cycleNo + 1;
      Iterate(l, l.ticks + 1) == Led(l.mode, Values(l.mode)[n], n, Ticks(l.mode)[n])
  {
    HoldSpan(l);
  }

  /** The start of a pattern step, as `nextCycle` leaves it. */
  function StepStart(mode: LEDMode, c: nat): (l: Led)
    requires mode != LedSolid && c < Length(mode)
  {
    Led(mode, Values(mode)[c], c, Ticks(mode)[c])
  }

  /** The number of `nextCycle` calls in one full pattern: the sum of ticks + 1 over its steps. */
  function Period(mode: LEDMode): nat
  {
    match mode
    case LedSolid => 1
    case LedFlash => 10
    case LedFlashFast => 6
    case LedFlashPair => 18
  }

  /** From the start of step c, one step later is the start of the next step. */
  lemma NextStepStart(mode: LEDMode, c: nat)
    requires mode != LedSolid && c < Length(mode)
    ensures Iterate(StepStart(mode, c), Ticks(mode)[c] + 1) == StepStart(mode, if c + 1 == Length(mode) then 0 else c + 1)
  {
    StepSpan(StepStart(mode, c));
  }

  /** Inside the pattern, one step later is the start of the following step. */
  lemma InnerStepStart(mode: LEDMode, c: nat)
    requires mode != LedSolid && c + 1 < Length(mode)
    ensures Iterate(StepStart(mode, c), Ticks(mode)[c] + 1) == StepStart(mode, c + 1)
  {
    NextStepStart(mode, c);
  }

  /** After the calls of the first c steps, the pattern is at the start of step c. */
  lemma {:induction false} PrefixSpan(mode: LEDMode, c: nat)
    requires mode != LedSolid && c < Length(mode)
    ensures Iterate(StepStart(mode, 0), SpanUpTo(mode, c)) == StepStart(mode, c)
  {
    if c > 0 {
      var before := SpanUpTo(mode, c - 1);
      var hold := Ticks(mode)[c - 1] + 1;
      PrefixSpan(mode, c - 1);
      InnerStepStart(mode, c - 1);
      IterateChain(StepStart(mode, 0), before, hold, SpanUpTo(mode, c), StepStart(mode, c - 1), StepStart(mode, c));
    }
  }

  /**
   * Every flashing pattern is periodic: from the start of step 0, after
   * Period(mode) calls the LED is back at the start of step 0.
   */
  lemma PatternRepeats(mode: LEDMode)
    requires mode != LedSolid
    ensures Iterate(StepStart(mode, 0), Period(mode)) == StepStart(mode, 0)
  {
    var last := Length(mode) - 1;
    var before := SpanUpTo(mode, last);
    var hold := Ticks(mode)[last] + 1;
    PrefixSpan(mode, last);
    NextStepStart(mode, last);
    assert before + hold == Period(mode) by {
      match mode
      case LedFlash => assert SpanUpTo(mode, 1) == 5;
      case LedFlashFast => assert SpanUpTo(mode, 1) == 3;
      case LedFlashPair =>
        assert SpanUpTo(mode, 1) == 2 && SpanUpTo(mode, 2) == 4 && SpanUpTo(mode, 3) == 6;
        assert SpanUpTo(mode, 4) == 8 && SpanUpTo(mode, 5) == 10;
    }
    IterateChain(StepStart(mode, 0), before, hold, Period(mode), StepStart(mode, last), StepStart(mode, 0));
  }

  /** The calls spent on the first c steps of a pattern. */
  function SpanUpTo(mode: LEDMode, c: nat): nat
    requires c <= Length(mode)
  {
    if c == 0 then 0 else SpanUpTo(mode, c - 1) + Ticks(mode)[c - 1] + 1
  }

  /** The LED as a heap object. */
  class BotLED {
    var mode: LEDMode
    var state: bool
    var cycleNo: int
    var cycleTicksRemaining: nat
    /** Every level written to the pin, oldest first. */
    ghost var writes: seq<bool>

    function Snapshot(): Led
      reads this
    {
      Led(mode, state, cycleNo, cycleTicksRemaining)
    }

    /** The constructor followed by `init(state, mode)`. */
    constructor (state: bool, mode: LEDMode)
      ensures Snapshot() == InitStep(state, mode).led && writes == InitStep(state, mode).writes
    {
      cycleNo := 0;
      cycleTicksRemaining := 0;
      this.mode := mode;
      this.state := state;
      writes := [state];
    }

    method SetState(newState: bool)
      modifies this`state, this`writes
      ensures var st := SetStateStep(old(Snapshot()), newState);
        Snapshot() == st.led && writes == old(writes) + st.writes
    {
      if mode == LedSolid && newState != state {
        state := newState;
        writes := writes + [state];
      }
    }

    /** `getState`. */
    function GetState(): (s: bool)
      reads this
      ensures s == Snapshot().state
    {
      state
    }

    method SetMode(newMode: LEDMode)
      modifies this
      ensures var st := SetModeStep(old(Snapshot()), newMode);
        Snapshot() == st.led && writes == old(writes) + st.writes
    {
      if newMode != mode {
        mode := newMode;
        cycleNo := -1;
        cycleTicksRemaining := 0;
        NextCycle();
      }
    }

    method NextCycle()
      modifies this`cycleNo, this`cycleTicksRemaining, this`state, this`writes
      ensures var st := NextCycleStep(old(Snapshot()));
        Snapshot() == st.led && writes == old(writes) + st.writes
    {
      if cycleTicksRemaining <= 0 {
        var maxCycleNo := Length(mode);
        var newCycleNo := cycleNo + 1;
        if newCycleNo < 0 || newCycleNo >= maxCycleNo {
          newCycleNo := 0;
        }
        cycleNo := newCycleNo;
        if mode != LedSolid {
          cycleTicksRemaining := Ticks(mode)[cycleNo];
        }
        ApplyCycle();
      } else {
        cycleTicksRemaining := cycleTicksRemaining - 1;
      }
    }

    method ApplyCycle()
      requires mode != LedSolid && cycleNo >= 0 ==> cycleNo < Length(mode)
      modifies this`state, this`writes
      ensures var st := ApplyCycleStep(old(Snapshot()));
        Snapshot() == st.led && writes == old(writes) + st.writes
    {
      var newState := state;
      if cycleNo >= 0 && mode != LedSolid {
        newState := Values(mode)[cycleNo];
      }
      if newState != state {
        state := newState;
        writes := writes + [state];
      }
    }
  }
}
