/**
 * The front-panel button: debouncing of the raw reading and classification
 * of a release by how long the button was held. The raw reading is a
 * parameter of `Run`.
 */
module Button {
  import opened Common

  /** BTN_DEBOUNCE_DELAY. */
  const DEBOUNCE_DELAY: nat := 25
  /** BTN_PRESS_DURATION. */
  const PRESS_DURATION: nat := 1000
  /** BTN_RESET_WIFI_DURATION. */
  const RESET_WIFI_DURATION: nat := 3000

  /**
   * BTN_REGISTER_REMOTE_DURATION and BTN_FACTORY_RESET_DURATION: positive,
   * values and order between them not part of this model.
   */
  datatype Durations = Durations(registerRemote: nat, factoryReset: nat)

  /** Value view of the button: committed level, last raw level, debounce stamp, press start. */
  datatype Button = Button(state: bool, lastState: bool, lastDebounceTime: nat, downStartTime: nat)

  /** The button after one call, with the press types it reported. */
  datatype ButtonStep = ButtonStep(button: Button, events: seq<ButtonPressType>)

  function Initial(): (b: Button)
    ensures !b.state && !b.lastState && b.lastDebounceTime == 0 && b.downStartTime == 0
  {
    Button(false, false, 0, 0)
  }

  /**
   * The type of a release after a hold of `duration` ms, tried in the order
   * of `_handleStateChange`; a hold that fits none of them reports nothing.
   */
  function Classify(duration: nat, d: Durations): (t: Option<ButtonPressType>)
    ensures t == Some(Simple) <==> duration < PRESS_DURATION
    ensures t == Some(RegisterRemote) <==> PRESS_DURATION <= duration && duration > d.registerRemote
    ensures t == Some(ResetWifi) <==>
      PRESS_DURATION <= duration && duration <= d.registerRemote && duration > RESET_WIFI_DURATION
    ensures t == None <==>
      PRESS_DURATION <= duration && duration <= d.registerRemote && duration <= RESET_WIFI_DURATION
    ensures t != Some(DisableWifi) && t != Some(FactoryReset)
  {
    if duration < PRESS_DURATION then Some(Simple)
    else if duration > d.registerRemote then Some(RegisterRemote)
    else if duration > RESET_WIFI_DURATION then Some(ResetWifi)
    else None
  }

  /** `_handleStateChange`: commit the level; a press starts the hold timer, a release classifies the hold. */
  function StateChangeStep(b: Button, newState: bool, now: nat, duration: nat, d: Durations): (st: ButtonStep)
    ensures st.button.state == newState && st.button.lastState == b.lastState
    ensures st.button.lastDebounceTime == b.lastDebounceTime
    ensures newState ==> st.button.downStartTime == now && st.events == []
    ensures !newState ==>
      st.button.downStartTime == 0 &&
      st.events == (if Classify(duration, d).Some? then [Classify(duration, d).value] else [])
  {
    if newState then ButtonStep(b.(state := true, downStartTime := now), [])
    else
      var t := Classify(duration, d);
      ButtonStep(b.(state := false, downStartTime := 0), if t.Some? then [t.value] else [])
  }

  /** The reading is stable: more than the debounce delay since the last raw change. */
  predicate Stable(debounceTime: nat, now: nat)
  {
    now >= debounceTime && now - debounceTime > DEBOUNCE_DELAY
  }

  /** One call of `run` with the raw `reading`. */
  function RunStep(b: Button, now: nat, reading: bool, d: Durations): (st: ButtonStep)
    requires now >= b.lastDebounceTime && now >= b.downStartTime
    // every call ends with the raw reading remembered
    ensures st.button.lastState == reading
    // a raw change restarts the debounce timer, and so never commits in the same call
    ensures reading != b.lastState ==> st == ButtonStep(b.(lastState := reading, lastDebounceTime := now), [])
    ensures reading == b.lastState ==> st.button.lastDebounceTime == b.lastDebounceTime
    // a level change is committed exactly when it is stable and differs from the committed level
    ensures st.button.state != b.state <==>
      reading == b.lastState && Stable(b.lastDebounceTime, now) && reading != b.state
    // a committed press starts the hold timer and reports nothing
    ensures st.button.state && !b.state ==> st.button.downStartTime == now && st.events == []
    // a committed release classifies the time since the press started
    ensures !st.button.state && b.state ==>
      st.button.downStartTime == 0 &&
      st.events == (if Classify(now - b.downStartTime, d).Some? then [Classify(now - b.downStartTime, d).value] else [])
    // while held and committed, a factory reset is reported on every call past its duration
    ensures st.button.state == b.state ==>
      st.button.downStartTime == b.downStartTime &&
      st.events == (if reading && reading == b.lastState && reading == b.state &&
                       Stable(b.lastDebounceTime, now) && now - b.lastDebounceTime > d.factoryReset
                    then [FactoryReset] else [])
  {
    var debounceTime := if reading != b.lastState then now else b.lastDebounceTime;
    var b1 := b.(lastDebounceTime := debounceTime);
    var st :=
      if now - debounceTime > DEBOUNCE_DELAY then
        if reading != b1.state then
          StateChangeStep(b1, reading, now, if reading then 0 else now - b1.downStartTime, d)
        else if reading && now - debounceTime > d.factoryReset then ButtonStep(b1, [FactoryReset])
        else ButtonStep(b1, [])
      else ButtonStep(b1, []);
    st.(button := st.button.(lastState := reading))
  }

  /**
   * A complete press: starting released and settled, the button goes down at
   * `t0`, is committed at `t1`, goes up at `t2` and is committed released at
   * `t3`. The release is classified by the hold from `t1` to `t3`.
   */
  lemma PressAndReleaseClassifies(b: Button, t0: nat, t1: nat, t2: nat, t3: nat, d: Durations)
    requires !b.state && !b.lastState && b.lastDebounceTime <= t0 && b.downStartTime <= t0
    requires t1 > t0 + DEBOUNCE_DELAY && t2 >= t1 && t3 > t2 + DEBOUNCE_DELAY
    ensures var s0 := RunStep(b, t0, true, d);
            var s1 := RunStep(s0.button, t1, true, d);
            var s2 := RunStep(s1.button, t2, false, d);
            var s3 := RunStep(s2.button, t3, false, d);
            s0.events + s1.events + s2.events + s3.events ==
              (if Classify(t3 - t1, d).Some? then [Classify(t3 - t1, d).value] else []) &&
            !s3.button.state && s3.button.downStartTime == 0
  {
    var s0 := RunStep(b, t0, true, d);
    assert s0.button == Button(false, true, t0, b.downStartTime) && s0.events == [];
    var s1 := RunStep(s0.button, t1, true, d);
    assert s1.button == Button(true, true, t0, t1) && s1.events == [];
    var s2 := RunStep(s1.button, t2, false, d);
    assert s2.button == Button(true, false, t2, t1) && s2.events == [];
  }

  /**
   * The factory reset repeats: a button held down and committed reports it
   * on every call past the duration, not once.
   */
  lemma {:induction false} FactoryResetRepeats(b: Button, times: seq<nat>, d: Durations)
    requires b.state && b.lastState && b.downStartTime <= b.lastDebounceTime
    requires forall i :: 0 <= i < |times| ==> times[i] > b.lastDebounceTime + DEBOUNCE_DELAY &&
                                              times[i] > b.lastDebounceTime + d.factoryReset
    ensures HeldEvents(b, times, d) == seq(|times|, _ => FactoryReset)
    decreases |times|
  {
    if times != [] {
      var st := RunStep(b, times[0], true, d);
      assert st.button == b && st.events == [FactoryReset];
      FactoryResetRepeats(b, times[1..], d);
    }
  }

  /** The events of calling `run` at each of `times` with the button held down. */
  function HeldEvents(b: Button, times: seq<nat>, d: Durations): seq<ButtonPressType>
    decreases |times|
  {
    if times == [] || times[0] < b.lastDebounceTime || times[0] < b.downStartTime then []
    else
      var st := RunStep(b, times[0], true, d);
      st.events + HeldEvents(st.button, times[1..], d)
  }

  /** The button as a heap object. */
  class BotButton {
    var state: bool
    var lastState: bool
    var lastDebounceTime: nat
    var downStartTime: nat
    const durations: Durations
    /** Every `onPress` type reported, oldest first. */
    ghost var events: seq<ButtonPressType>

    function Snapshot(): Button
      reads this
    {
      Button(state, lastState, lastDebounceTime, downStartTime)
    }

    /** The constructor; `init` only configures the pin. */
    constructor (durations: Durations)
      requires durations.registerRemote > 0 && durations.factoryReset > 0
      ensures Snapshot() == Initial() && events == [] && this.durations == durations
    {
      this.durations := durations;
      state := false;
      lastState := false;
      lastDebounceTime := 0;
      downStartTime := 0;
      events := [];
    }

    /** `run`, with the raw level read from the pin at `now`. */
    method Run(now: nat, reading: bool)
      requires now >= lastDebounceTime && now >= downStartTime
      modifies this
      ensures var st := RunStep(old(Snapshot()), now, reading, durations);
        Snapshot() == st.button && events == old(events) + st.events
    {
      if reading != lastState {
        lastDebounceTime := now;
      }
      if now - lastDebounceTime > DEBOUNCE_DELAY {
        if reading != state {
          HandleStateChange(reading, now, if reading then 0 else now - downStartTime);
        } else if reading && now - lastDebounceTime > durations.factoryReset {
          events := events + [FactoryReset];
        }
      }
      lastState := reading;
    }

    method HandleStateChange(newState: bool, now: nat, duration: nat)
      modifies this`state, this`downStartTime, this`events
      ensures var st := StateChangeStep(old(Snapshot()), newState, now, duration, durations);
        Snapshot() == st.button && events == old(events) + st.events
    {
      state := newState;
      if newState {
        downStartTime := now;
      } else {
        downStartTime := 0;
        var t := Classify(duration, durations);
        if t.Some? {
          events := events + [t.value];
        }
      }
    }
  }
}
