/**
 * The remote repeater: a relay that "holds down" the button of the original
 * garage remote for a fixed time. A repeated activation extends the window
 * without toggling the relay again.
 */
module Repeater {

  /** REMOTE_REPEATER_DURATION_MS: how long the relay stays closed, in milliseconds. */
  const DURATION_MS: nat := 1000

  /** Value view of the repeater: activation flag, start of the window, relay pin level. */
  datatype Relay = Relay(activated: bool, startTime: nat, pinHigh: bool)

  /** The relay after one call, with the `onChange` notifications the call raised. */
  datatype RelayStep = RelayStep(relay: Relay, changes: seq<bool>)

  /** The relay pin is driven exactly when the repeater is activated. */
  predicate PinMatches(r: Relay)
  {
    r.pinHigh == r.activated
  }

  /** The state the repeater starts in: inactive, no window, pin low. */
  function Initial(): (r: Relay)
    ensures !r.activated && r.startTime == 0 && PinMatches(r)
  {
    Relay(false, 0, false)
  }

  /** `activate`: always (re)start the window at `now`; raise the pin and notify only when it was idle. */
  function ActivateStep(r: Relay, now: nat): (s: RelayStep)
    ensures s.relay.activated && s.relay.startTime == now
    ensures s.changes == [true] <==> !r.activated
    ensures r.activated ==> s.changes == [] && s.relay.pinHigh == r.pinHigh
    ensures PinMatches(r) ==> PinMatches(s.relay)
  {
    if r.activated then RelayStep(Relay(true, now, r.pinHigh), [])
    else RelayStep(Relay(true, now, true), [true])
  }

  /** `run`: switch off once `now` is strictly past the end of the window. */
  function RunStep(r: Relay, now: nat): (s: RelayStep)
    ensures !r.activated ==> s == RelayStep(r, [])
    ensures s.changes == [false] <==> r.activated && now > r.startTime + DURATION_MS
    ensures s.changes != [false] ==> s == RelayStep(r, [])
    ensures s.changes == [false] ==> s.relay == Relay(false, 0, false)
    ensures PinMatches(r) ==> PinMatches(s.relay)
  {
    if r.activated && now > r.startTime + DURATION_MS then RelayStep(Relay(false, 0, false), [false])
    else RelayStep(r, [])
  }

  /**
   * Two activations inside one window give one `true` notification, and the
   * relay only drops (with one `false`) once the window measured from the
   * SECOND activation has passed.
   */
  lemma ReactivationExtendsWindow(first: nat, second: nat, check: nat)
    requires first <= second <= check
    ensures var a := ActivateStep(Initial(), first);
            var b := ActivateStep(a.relay, second);
            var c := RunStep(b.relay, check);
            a.changes + b.changes + c.changes
              == (if check > second + DURATION_MS then [true, false] else [true])
            && c.relay.activated == (check <= second + DURATION_MS)
  {
  }

  /** The relay pulse as a heap object, as the firmware keeps it. */
  class RemoteRepeater {
    var activated: bool
    var startTime: nat
    var pinHigh: bool
    /** Every value passed to `onChange`, oldest first. */
    ghost var changes: seq<bool>

    function Snapshot(): Relay
      reads this
    {
      Relay(activated, startTime, pinHigh)
    }

    constructor ()
      ensures Snapshot() == Initial() && changes == []
    {
      activated := false;
      startTime := 0;
      pinHigh := false;
      changes := [];
    }

    method Activate(now: nat)
      modifies this
      ensures Snapshot() == ActivateStep(old(Snapshot()), now).relay
      ensures changes == old(changes) + ActivateStep(old(Snapshot()), now).changes
    {
      var oldActivated := activated;
      activated := true;
      startTime := now;
      if !oldActivated {
        pinHigh := true;
        changes := changes + [true];
      }
    }

    method Run(now: nat)
      modifies this
      ensures Snapshot() == RunStep(old(Snapshot()), now).relay
      ensures changes == old(changes) + RunStep(old(Snapshot()), now).changes
    {
      if activated && now > startTime + DURATION_MS {
        activated := false;
        startTime := 0;
        pinHigh := false;
        changes := changes + [false];
      }
    }
  }
}
