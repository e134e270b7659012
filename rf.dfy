/**
 * The RF remote receiver. In normal mode a received code that matches one of
 * the five stored slots is a button press; in registering mode consecutive
 * identical codes are counted and, past a threshold, handed to the
 * configuration for registration.
 *
 * Two revisions exist: the sketch revision reports a press once and
 * synthesises a release after a quiet interval (`timedRelease`), the
 * garage_bot revision reports every matching reception as a press and never
 * a release.
 */
module RfReceiver {
  import opened Common
  import BotFs

  /** The message raised when registering mode is entered with all slots in use. */
  const FULL_MESSAGE: string := "The maximum of 5x remotes have already been registered. The deviec must me factory reset before more remotes can be registered."

  /**
   * Per-instance parameters: which revision, RF_REMOTE_BUTTON_PRESS_SEPERAION
   * and REMOTE_CONSECUTIVE_CODES_FOR_REGISTRATION (values not part of this model).
   */
  datatype Settings = Settings(timedRelease: bool, separation: nat, threshold: nat)

  /**
   * Value view of the receiver. The last code starts at 0, the value a
   * global receiver object's uninitialised field holds.
   */
  datatype Receiver = Receiver(mode: RFReceiverMode, buttonPressed: bool, lastButtonDown: nat,
                               lastCode: int, count: nat)

  /** The callbacks the receiver raises, in order. */
  datatype RfEvent = ButtonPress(down: bool) | ModeChanged(mode: RFReceiverMode) | Error(message: string)

  /**
   * The receiver after one call: its events, the code it asks the
   * configuration to register (if any), and whether it consumed the pending
   * reception.
   */
  datatype RfStep = RfStep(receiver: Receiver, events: seq<RfEvent>, register: Option<int>, consumed: bool)

  function Initial(): (r: Receiver)
    ensures r.mode == Normal && !r.buttonPressed && r.lastCode == 0 && r.count == 0
  {
    Receiver(Normal, false, 0, 0, 0)
  }

  /** The release of the sketch revision is due: pressed, and strictly past the quiet interval. */
  predicate ReleaseDue(r: Receiver, now: nat, s: Settings)
  {
    s.timedRelease && r.buttonPressed && now > r.lastButtonDown + s.separation
  }

  /** One reception in registering mode: count a repeat, restart on a new code, register past the threshold. */
  function PairStep(r: Receiver, code: int, threshold: nat): (s: RfStep)
    ensures s.receiver.lastCode == code
    ensures r.lastCode == code ==> s.receiver.count == r.count + 1
    ensures r.lastCode != code ==> s.receiver.count == 0
    ensures s.register == Some(code) <==> s.receiver.count >= threshold
    ensures s.register.Some? ==> s.register == Some(code)
    ensures s.events == [] && s.consumed
    ensures s.receiver.mode == r.mode && s.receiver.buttonPressed == r.buttonPressed
    ensures s.receiver.lastButtonDown == r.lastButtonDown
  {
    var count := if r.lastCode == code then r.count + 1 else 0;
    RfStep(r.(lastCode := code, count := count), [], if count >= threshold then Some(code) else None, true)
  }

  /** One call of `run`, given the pending reception (if any) and the five stored slots. */
  function RunStep(r: Receiver, now: nat, received: Option<int>, codes: seq<int>, s: Settings): (st: RfStep)
    requires |codes| == BotFs.MAX_RF_CODES
    // the synthesised release: nothing else happens and the reception stays pending
    ensures ReleaseDue(r, now, s) ==>
      st == RfStep(r.(buttonPressed := false, lastButtonDown := 0), [ButtonPress(false)], None, false)
    // a pending reception is consumed exactly once; none means nothing happens
    ensures !ReleaseDue(r, now, s) ==> st.consumed == received.Some?
    ensures !ReleaseDue(r, now, s) && received == None ==> st == RfStep(r, [], None, false)
    // normal mode: a press iff the code is in one of the five slots; the pairing counter is untouched
    ensures !ReleaseDue(r, now, s) && received.Some? && r.mode == Normal ==>
      st.register == None && st.receiver.lastCode == r.lastCode && st.receiver.count == r.count &&
      (received.value !in codes ==> st == RfStep(r, [], None, true)) &&
      (received.value in codes && s.timedRelease ==>
        st.receiver == r.(buttonPressed := true, lastButtonDown := now) &&
        st.events == (if r.buttonPressed then [] else [ButtonPress(true)])) &&
      (received.value in codes && !s.timedRelease ==> st == RfStep(r, [ButtonPress(true)], None, true))
    // registering mode: never a press, only the pairing counter moves
    ensures !ReleaseDue(r, now, s) && received.Some? && r.mode == Registering ==>
      st == PairStep(r, received.value, s.threshold)
    ensures st.receiver.mode == r.mode
  {
    if ReleaseDue(r, now, s) then
      RfStep(r.(buttonPressed := false, lastButtonDown := 0), [ButtonPress(false)], None, false)
    else match received
      case None => RfStep(r, [], None, false)
      case Some(code) =>
        if r.mode == Normal then
          if code in codes then
            if s.timedRelease then
              RfStep(r.(buttonPressed := true, lastButtonDown := now),
                     if r.buttonPressed then [] else [ButtonPress(true)], None, true)
            else RfStep(r, [ButtonPress(true)], None, true)
          else RfStep(r, [], None, true)
        else PairStep(r, code, s.threshold)
  }

  /**
   * `setMode`: the mode is always stored; a change notifies, and entering
   * registering mode with five or more stored codes raises the error first
   * (the mode still switches).
   */
  function SetModeStep(r: Receiver, newMode: RFReceiverMode, storedCount: nat): (st: RfStep)
    ensures st.receiver == r.(mode := newMode)
    ensures newMode == r.mode ==> st.events == []
    ensures newMode != r.mode ==> |st.events| >= 1 && st.events[|st.events| - 1] == ModeChanged(newMode)
    ensures Error(FULL_MESSAGE) in st.events <==>
      newMode != r.mode && newMode == Registering && storedCount >= BotFs.MAX_RF_CODES
    // at most the one error, then the one mode change, and nothing else
    ensures |st.events| ==
      (if newMode == r.mode then 0
       else if newMode == Registering && storedCount >= BotFs.MAX_RF_CODES then 2 else 1)
    ensures st.register == None && !st.consumed
  {
    if newMode != r.mode then
      RfStep(r.(mode := newMode),
             (if newMode == Registering && storedCount >= BotFs.MAX_RF_CODES then [Error(FULL_MESSAGE)] else [])
               + [ModeChanged(newMode)],
             None, false)
    else RfStep(r.(mode := newMode), [], None, false)
  }

  /** `n` copies of `code`. */
  function Repeat(code: int, n: nat): (s: seq<int>)
    ensures |s| == n && forall i :: 0 <= i < n ==> s[i] == code
  {
    seq(n, _ => code)
  }

  /** The pairing counter over a sequence of receptions in registering mode, with every registration request. */
  function PairRun(r: Receiver, received: seq<int>, threshold: nat): (Receiver, seq<int>)
    decreases |received|
  {
    if received == [] then (r, [])
    else
      var first := PairStep(r, received[0], threshold);
      var rest := PairRun(first.receiver, received[1..], threshold);
      (rest.0, (if first.register.Some? then [received[0]] else []) + rest.1)
  }

  /**
   * Continuing a run of `code` that has already been counted `m` times: after
   * `n` more copies the counter is `m + n` and one registration is requested
   * for each copy whose updated counter reaches the threshold.
   */
  lemma {:induction false} PairRunContinues(r: Receiver, code: int, m: nat, n: nat, threshold: nat)
    requires r.lastCode == code && r.count == m
    ensures PairRun(r, Repeat(code, n), threshold).0.count == m + n
    ensures PairRun(r, Repeat(code, n), threshold).0.lastCode == (if n == 0 then r.lastCode else code)
    ensures PairRun(r, Repeat(code, n), threshold).1 ==
      Repeat(code, if threshold <= m + 1 then n else if m + n >= threshold then m + n - threshold + 1 else 0)
    decreases n
  {
    if n > 0 {
      var first := PairStep(r, code, threshold);
      assert Repeat(code, n)[1..] == Repeat(code, n - 1);
      PairRunContinues(first.receiver, code, m + 1, n - 1, threshold);
      var k := if threshold <= m + 2 then n - 1 else if m + n >= threshold then m + n - threshold else 0;
      if m + 1 >= threshold {
        assert [code] + Repeat(code, k) == Repeat(code, k + 1);
      }
    }
  }

  /**
   * Pairing needs threshold + 1 identical consecutive codes: a fresh run of
   * `n` copies ends with counter n - 1 and requests a registration for each
   * copy after the first `threshold`, so none when n <= threshold.
   */
  lemma {:induction false} FreshRunRegistersAfterThreshold(r: Receiver, code: int, n: nat, threshold: nat)
    requires r.lastCode != code && n >= 1 && threshold >= 1
    ensures PairRun(r, Repeat(code, n), threshold).0.lastCode == code
    ensures PairRun(r, Repeat(code, n), threshold).0.count == n - 1
    ensures PairRun(r, Repeat(code, n), threshold).1 == Repeat(code, if n > threshold then n - threshold else 0)
  {
    var first := PairStep(r, code, threshold);
    assert first.register == None;
    assert Repeat(code, n)[1..] == Repeat(code, n - 1);
    PairRunContinues(first.receiver, code, 0, n - 1, threshold);
  }

  /** A different code in between restarts the count, so an interrupted run never accumulates. */
  lemma DifferentCodeResetsCount(r: Receiver, a: int, b: int, threshold: nat)
    requires a != b && r.lastCode == a
    ensures PairStep(r, b, threshold).receiver.count == 0
    ensures threshold >= 1 ==> PairStep(r, b, threshold).register == None
  {
  }

  /**
   * Run lengths 9, 10 and 11 of one code with a threshold of 10: only the
   * run of 11 registers, once.
   */
  lemma RunLengthTable(r: Receiver, code: int)
    requires r.lastCode != code
    ensures PairRun(r, Repeat(code, 9), 10).1 == []
    ensures PairRun(r, Repeat(code, 10), 10).1 == []
    ensures PairRun(r, Repeat(code, 11), 10).1 == [code]
  {
    FreshRunRegistersAfterThreshold(r, code, 9, 10);
    FreshRunRegistersAfterThreshold(r, code, 10, 10);
    FreshRunRegistersAfterThreshold(r, code, 11, 10);
    assert Repeat(code, 1) == [code];
  }

  /**
   * The slot-matching loop of `run`: 1 + the LAST slot holding `code`, or 0
   * when no slot does. The stored count is not consulted.
   */
  method MatchingCode(codes: array<int>, code: int) returns (matching: nat)
    requires codes.Length == BotFs.MAX_RF_CODES
    ensures matching <= BotFs.MAX_RF_CODES
    ensures matching == 0 <==> code !in codes[..]
    ensures matching > 0 ==> codes[matching - 1] == code
    ensures forall j :: matching <= j < BotFs.MAX_RF_CODES ==> codes[j] != code
  {
    matching := 0;
    var i := 1;
    while i <= BotFs.MAX_RF_CODES
      invariant 1 <= i <= BotFs.MAX_RF_CODES + 1
      invariant matching < i
      invariant matching > 0 ==> codes[matching - 1] == code
      invariant forall j :: matching <= j < i - 1 ==> codes[j] != code
      invariant matching == 0 <==> code !in codes[..i - 1]
    {
      if codes[i - 1] == code {
        matching := i;
      }
      i := i + 1;
    }
    assert codes[..i - 1] == codes[..];
  }

  /** The receiver as a heap object; `config` is the global configuration it reads and registers into. */
  class RFReceiver {
    var mode: RFReceiverMode
    var buttonPressed: bool
    var lastButtonDown: nat
    var lastCodeReceived: int
    var receivedCodeCount: nat
    const settings: Settings
    const config: BotFs.Config
    /** Every callback raised, oldest first. */
    ghost var events: seq<RfEvent>

    function Snapshot(): Receiver
      reads this
    {
      Receiver(mode, buttonPressed, lastButtonDown, lastCodeReceived, receivedCodeCount)
    }

    /** The constructor followed by `init`. */
    constructor (config: BotFs.Config, settings: Settings)
      requires settings.separation > 0 && settings.threshold > 0
      ensures Snapshot() == Initial() && events == []
      ensures this.config == config && this.settings == settings
    {
      this.config := config;
      this.settings := settings;
      mode := Normal;
      buttonPressed := false;
      lastButtonDown := 0;
      lastCodeReceived := 0;
      receivedCodeCount := 0;
      events := [];
    }

    /** `run`; `received` is what the RF demodulator has pending, `consumed` whether it was taken. */
    method Run(now: nat, received: Option<int>) returns (consumed: bool)
      requires config.Valid()
      modifies this, config`storedRfCodeCount, config.rfCodes, config`saves, config`rebootRequested
      ensures config.Valid()
      ensures var st := RunStep(old(Snapshot()), now, received, old(config.rfCodes[..]), settings);
        Snapshot() == st.receiver && events == old(events) + st.events && consumed == st.consumed &&
        config.Codes() == (if st.register.Some? then BotFs.RegisterCode(old(config.Codes()), st.register.value)
                           else old(config.Codes()))
    // a registration into a store that is not full saves and reboots; every other call leaves both alone
    ensures var st := RunStep(old(Snapshot()), now, received, old(config.rfCodes[..]), settings);
      var stored := st.register.Some? && old(config.storedRfCodeCount) < BotFs.MAX_RF_CODES;
      config.saves == old(config.saves) + (if stored then 1 else 0) &&
      config.rebootRequested == (stored || old(config.rebootRequested))
    {
      if settings.timedRelease && buttonPressed && now > lastButtonDown + settings.separation {
        buttonPressed := false;
        lastButtonDown := 0;
        events := events + [ButtonPress(false)];
        return false;
      }
      consumed := false;
      if received.Some? {
        var receivedCode := received.value;
        if mode == Normal {
          var matchingCode := MatchingCode(config.rfCodes, receivedCode);
          if matchingCode > 0 {
            if settings.timedRelease {
              HandleButtonPressed(now);
            } else {
              events := events + [ButtonPress(true)];
            }
          }
        } else if mode == Registering {
          if receivedCode == lastCodeReceived {
            receivedCodeCount := receivedCodeCount + 1;
          } else {
            receivedCodeCount := 0;
          }
          lastCodeReceived := receivedCode;
          if receivedCodeCount >= settings.threshold {
            config.RegisterRFCode(receivedCode);
          }
        }
        consumed := true;
      }
    }

    /** `_handleButtonPressed`: report a press only on the not-pressed to pressed edge; always refresh the time. */
    method HandleButtonPressed(now: nat)
      modifies this`buttonPressed, this`lastButtonDown, this`events
      ensures buttonPressed && lastButtonDown == now
      ensures events == old(events) + (if old(buttonPressed) then [] else [ButtonPress(true)])
    {
      var oldButtonPressed := buttonPressed;
      buttonPressed := true;
      lastButtonDown := now;
      if !oldButtonPressed {
        events := events + [ButtonPress(true)];
      }
    }

    method SetMode(newMode: RFReceiverMode)
      modifies this`mode, this`events
      ensures var st := SetModeStep(old(Snapshot()), newMode, config.storedRfCodeCount);
        Snapshot() == st.receiver && events == old(events) + st.events
    {
      var oldMode := mode;
      mode := newMode;
      if mode != oldMode {
        if newMode == Registering && config.storedRfCodeCount >= BotFs.MAX_RF_CODES {
          events := events + [Error(FULL_MESSAGE)];
        }
        events := events + [ModeChanged(mode)];
      }
    }
  }
}
