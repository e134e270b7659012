/**
 * The door state engine. It fuses the top and bottom sensor states into a
 * door state, lets activate/open/close commands override that state with an
 * "assumed" one, and expires the assumption after a fixed time. An assumption
 * timestamp of 0 means "no assumption".
 */
module Door {
  import opened Common
  import Repeater

  /** Value view of the engine: door state, last stored sensor pair, assumption timestamp. */
  datatype Door = Door(state: DoorState, top: SensorDetectionState, bottom: SensorDetectionState, assumedAt: nat)

  /** The engine after one call, the `onStateChange` notifications it raised, and whether it pulsed the repeater. */
  datatype DoorStep = DoorStep(door: Door, notified: seq<DoorState>, pulse: bool)

  /** Both sensors agree on a definite reading. */
  predicate Resolved(top: SensorDetectionState, bottom: SensorDetectionState)
  {
    top == bottom && top != SensorUnknown
  }

  /** A notification is raised exactly when the door state value changes, and it carries the new value. */
  predicate NotifiesOnChange(d: Door, s: DoorStep)
  {
    s.notified == if s.door.state != d.state then [s.door.state] else []
  }

  /** The state the engine starts in after `init`. */
  function Initial(): (d: Door)
    ensures d.state == Unknown && d.assumedAt == 0
    ensures !Resolved(d.top, d.bottom)
  {
    Door(Unknown, SensorUnknown, SensorUnknown, 0)
  }

  /**
   * Sensor fusion (`_calculateDoorStateFromSensors`): both clear means open,
   * both blocked means closed, and a mixed or unknown pair turns a terminal
   * state into the matching transitional one and keeps everything else.
   */
  function Fuse(top: SensorDetectionState, bottom: SensorDetectionState, current: DoorState): (r: DoorState)
    ensures r == Open <==> top == SensorNotDetected && bottom == SensorNotDetected
    ensures r == Closed <==> top == SensorDetected && bottom == SensorDetected
    ensures r == Unknown <==> !Resolved(top, bottom) && current == Unknown
    ensures r == Closing <==> !Resolved(top, bottom) && (current == Open || current == Closing)
    ensures r == Opening <==> !Resolved(top, bottom) && (current == Closed || current == Opening)
  {
    if top == SensorNotDetected && bottom == SensorNotDetected then Open
    else if top == SensorDetected && bottom == SensorDetected then Closed
    else if current != Unknown then
      (if current == Open then Closing else if current == Closed then Opening else current)
    else current
  }

  /** `setAssumedDoorState`: adopt a different state and stamp the time; assuming the current state changes nothing. */
  function AssumeStep(d: Door, target: DoorState, now: nat): (s: DoorStep)
    ensures s.door.state == target && !s.pulse
    ensures s.door.top == d.top && s.door.bottom == d.bottom
    ensures d.state == target ==> s.door == d
    ensures d.state != target ==> s.door.assumedAt == now
    ensures NotifiesOnChange(d, s)
  {
    if d.state != target then DoorStep(d.(state := target, assumedAt := now), [target], false)
    else DoorStep(d, [], false)
  }

  /** `clearAssumedDoorState`: drop the assumption and recompute from the stored sensor pair. */
  function ClearStep(d: Door): (s: DoorStep)
    ensures s.door.assumedAt == 0 && !s.pulse
    ensures s.door.top == d.top && s.door.bottom == d.bottom
    ensures s.door.state == Fuse(d.top, d.bottom, d.state)
    ensures NotifiesOnChange(d, s)
  {
    var fused := Fuse(d.top, d.bottom, d.state);
    DoorStep(d.(state := fused, assumedAt := 0), if fused != d.state then [fused] else [], false)
  }

  /**
   * `activate`: always pulse the repeater; a door that is open or opening is
   * assumed to be closing, one that is closed or closing to be opening, and
   * an unknown door falls back to the sensors.
   */
  function ActivateStep(d: Door, now: nat): (s: DoorStep)
    ensures s.pulse
    ensures s.door.top == d.top && s.door.bottom == d.bottom
    ensures d.state == Open || d.state == Opening ==> s.door.state == Closing
    ensures d.state == Closed || d.state == Closing ==> s.door.state == Opening
    ensures d.state == Unknown ==> s.door.assumedAt == 0 && s.door.state == Fuse(d.top, d.bottom, Unknown)
    // an assumed direction is stamped with the call's time, from which `run` counts its expiry
    ensures d.state != Unknown ==> s.door.assumedAt == now
    ensures NotifiesOnChange(d, s)
  {
    var s := match d.state
      case Opening => AssumeStep(d, Closing, now)
      case Open => AssumeStep(d, Closing, now)
      case Closing => AssumeStep(d, Opening, now)
      case Closed => AssumeStep(d, Opening, now)
      case Unknown => ClearStep(d);
    s.(pulse := true)
  }

  /** `open`: ignored when the door is open or opening; otherwise pulse and assume opening. */
  function OpenStep(d: Door, now: nat): (s: DoorStep)
    ensures s.pulse <==> d.state != Open && d.state != Opening
    ensures !s.pulse ==> s == DoorStep(d, [], false)
    ensures s.pulse ==> s.door.state == Opening && s.door.assumedAt == now
    ensures s.door.top == d.top && s.door.bottom == d.bottom
    ensures NotifiesOnChange(d, s)
  {
    if d.state != Open && d.state != Opening then AssumeStep(d, Opening, now).(pulse := true)
    else DoorStep(d, [], false)
  }

  /** `close`: ignored when the door is closed or closing; otherwise pulse and assume closing. */
  function CloseStep(d: Door, now: nat): (s: DoorStep)
    ensures s.pulse <==> d.state != Closed && d.state != Closing
    ensures !s.pulse ==> s == DoorStep(d, [], false)
    ensures s.pulse ==> s.door.state == Closing && s.door.assumedAt == now
    ensures s.door.top == d.top && s.door.bottom == d.bottom
    ensures NotifiesOnChange(d, s)
  {
    if d.state != Closed && d.state != Closing then AssumeStep(d, Closing, now).(pulse := true)
    else DoorStep(d, [], false)
  }

  /** `run`: clear the assumption once its timestamp is set and strictly older than `expiry`. */
  function RunStep(d: Door, now: nat, expiry: nat): (s: DoorStep)
    ensures !s.pulse
    ensures s.door.top == d.top && s.door.bottom == d.bottom
    ensures d.assumedAt > 0 && d.assumedAt + expiry < now ==> s == ClearStep(d)
    ensures !(d.assumedAt > 0 && d.assumedAt + expiry < now) ==> s == DoorStep(d, [], false)
    ensures NotifiesOnChange(d, s)
  {
    if d.assumedAt > 0 && d.assumedAt + expiry < now then ClearStep(d)
    else DoorStep(d, [], false)
  }

  /**
   * `setSensorStates`: ignore a repeated pair; otherwise store it and, only
   * when no assumption is active, recompute the door state from it.
   */
  function SetSensorStatesStep(d: Door, top: SensorDetectionState, bottom: SensorDetectionState): (s: DoorStep)
    ensures !s.pulse && s.door.assumedAt == d.assumedAt
    ensures top == d.top && bottom == d.bottom ==> s == DoorStep(d, [], false)
    ensures s.door.top == top && s.door.bottom == bottom
    ensures d.assumedAt != 0 ==> s.door.state == d.state
    ensures (top != d.top || bottom != d.bottom) && d.assumedAt == 0 ==> s.door.state == Fuse(top, bottom, d.state)
    ensures NotifiesOnChange(d, s)
  {
    if top != d.top || bottom != d.bottom then
      var stored := d.(top := top, bottom := bottom);
      if stored.assumedAt == 0 then
        var fused := Fuse(top, bottom, d.state);
        DoorStep(stored.(state := fused), if fused != d.state then [fused] else [], false)
      else DoorStep(stored, [], false)
    else DoorStep(d, [], false)
  }

  /** `getDoorStateAsString`: the four known states by name, anything else as "UNKNOWN". */
  function DoorStateName(state: DoorState): (name: string)
    ensures name == "UNKNOWN" <==> state == Unknown
    ensures |name| >= 4
  {
    match state
    case Open => "OPEN"
    case Closing => "CLOSING"
    case Closed => "CLOSED"
    case Opening => "OPENING"
    case Unknown => "UNKNOWN"
  }

  /** Distinct states get distinct names, so a client can decode the name back. */
  lemma DoorStateNameInjective(a: DoorState, b: DoorState)
    requires DoorStateName(a) == DoorStateName(b)
    ensures a == b
  {
  }

  /** Every call the firmware's loop and event handlers make on the engine. */
  datatype Command =
    | SetSensors(top: SensorDetectionState, bottom: SensorDetectionState)
    | ActivateCmd(now: nat)
    | OpenCmd(now: nat)
    | CloseCmd(now: nat)
    | RunCmd(now: nat)

  function Apply(d: Door, c: Command, expiry: nat): (s: DoorStep)
    ensures NotifiesOnChange(d, s)
  {
    match c
    case SetSensors(top, bottom) => SetSensorStatesStep(d, top, bottom)
    case ActivateCmd(now) => ActivateStep(d, now)
    case OpenCmd(now) => OpenStep(d, now)
    case CloseCmd(now) => CloseStep(d, now)
    case RunCmd(now) => RunStep(d, now, expiry)
  }

  /** The engine after a sequence of calls, with all notifications and whether any call pulsed. */
  function Exec(d: Door, cmds: seq<Command>, expiry: nat): DoorStep
    decreases |cmds|
  {
    if cmds == [] then DoorStep(d, [], false)
    else
      var first := Apply(d, cmds[0], expiry);
      var rest := Exec(first.door, cmds[1..], expiry);
      DoorStep(rest.door, first.notified + rest.notified, first.pulse || rest.pulse)
  }

  /**
   * The notifications of a run form a chain of changes: the first differs
   * from the starting state, each differs from the one before it, the last
   * is the final state, and with no notification the final state is the
   * starting state.
   */
  ghost predicate ChangeChain(start: DoorState, s: DoorStep)
  {
    (s.notified != [] ==> s.notified[0] != start)
    && (forall i, j :: 0 <= i && j == i + 1 && j < |s.notified| ==> s.notified[i] != s.notified[j])
    && (s.notified == [] ==> s.door.state == start)
    && (s.notified != [] ==> s.notified[|s.notified| - 1] == s.door.state)
  }

  /** A call that notifies only on change, followed by a chain from where it left the state, is a chain. */
  lemma ChainPrepend(d: Door, first: DoorStep, rest: DoorStep, all: DoorStep)
    requires NotifiesOnChange(d, first) && ChangeChain(first.door.state, rest)
    requires all.notified == first.notified + rest.notified && all.door == rest.door
    ensures ChangeChain(d.state, all)
  {
    if first.notified == [] {
      assert all.notified == rest.notified;
    } else {
      forall i, j | 0 <= i && j == i + 1 && j < |all.notified|
        ensures all.notified[i] != all.notified[j]
      {
        if i > 0 {
          assert all.notified[i] == rest.notified[i - 1] && all.notified[j] == rest.notified[j - 1];
        }
      }
      assert rest.notified != [] ==> all.notified[|all.notified| - 1] == rest.notified[|rest.notified| - 1];
    }
  }

  /** Over any sequence of calls, `onStateChange` fires only on a real change of the state value. */
  lemma {:induction false} ExecNotifiesOnlyChanges(d: Door, cmds: seq<Command>, expiry: nat)
    ensures ChangeChain(d.state, Exec(d, cmds, expiry))
    decreases |cmds|
  {
    if cmds != [] {
      var first := Apply(d, cmds[0], expiry);
      var rest := Exec(first.door, cmds[1..], expiry);
      ExecNotifiesOnlyChanges(first.door, cmds[1..], expiry);
      ChainPrepend(d, first, rest, Exec(d, cmds, expiry));
    }
  }

  /**
   * Once an assumption expires with a mixed sensor pair, the assumed direction
   * stays: fusion of a mixed pair keeps a transitional state.
   */
  lemma ExpiredAssumptionKeepsDirection(d: Door, now: nat, expiry: nat)
    requires d.state == Closing || d.state == Opening
    requires !Resolved(d.top, d.bottom)
    requires d.assumedAt > 0 && d.assumedAt + expiry < now
    ensures RunStep(d, now, expiry) == DoorStep(d.(assumedAt := 0), [], false)
  {
  }

  /** Repeated activation before the sensors settle toggles the assumed direction. */
  lemma ActivateTwiceToggles(d: Door, t1: nat, t2: nat)
    requires d.state == Open
    ensures ActivateStep(d, t1).door.state == Closing
    ensures ActivateStep(ActivateStep(d, t1).door, t2).door.state == Opening
  {
  }

  /** The engine as a heap object, updated in place as the firmware does. */
  class DoorControl {
    var doorState: DoorState
    var topSensor: SensorDetectionState
    var bottomSensor: SensorDetectionState
    var assumedDoorStateSetTime: nat
    /** ASSUMED_DOOR_STATE_EXPIRY, whose value is not part of this model. */
    const expiry: nat
    const repeater: Repeater.RemoteRepeater
    /** Every value passed to `onStateChange`, oldest first. */
    ghost var notified: seq<DoorState>

    function Snapshot(): Door
      reads this
    {
      Door(doorState, topSensor, bottomSensor, assumedDoorStateSetTime)
    }

    /** The constructor followed by `init`. */
    constructor (repeater: Repeater.RemoteRepeater, expiry: nat)
      requires expiry > 0
      ensures Snapshot() == Initial() && notified == []
      ensures this.repeater == repeater && this.expiry == expiry
    {
      this.repeater := repeater;
      this.expiry := expiry;
      doorState := Unknown;
      topSensor := SensorUnknown;
      bottomSensor := SensorUnknown;
      assumedDoorStateSetTime := 0;
      notified := [];
    }

    /** Apply the fusion rule in place; `oldDoorState` is the state before the recomputation. */
    method CalculateDoorStateFromSensors(oldDoorState: DoorState)
      requires oldDoorState == doorState
      modifies this`doorState
      ensures doorState == Fuse(topSensor, bottomSensor, oldDoorState)
    {
      if topSensor == SensorNotDetected && bottomSensor == SensorNotDetected {
        doorState := DoorState.Open;
      } else if topSensor == SensorDetected && bottomSensor == SensorDetected {
        doorState := Closed;
      } else if oldDoorState != Unknown {
        if doorState == DoorState.Open {
          doorState := Closing;
        } else if doorState == Closed {
          doorState := Opening;
        }
      }
    }

    method SetAssumedDoorState(assumed: DoorState, now: nat)
      modifies this`doorState, this`assumedDoorStateSetTime, this`notified
      ensures Snapshot() == AssumeStep(old(Snapshot()), assumed, now).door
      ensures notified == old(notified) + AssumeStep(old(Snapshot()), assumed, now).notified
    {
      if doorState != assumed {
        doorState := assumed;
        assumedDoorStateSetTime := now;
        notified := notified + [doorState];
      }
    }

    method ClearAssumedDoorState()
      modifies this`doorState, this`assumedDoorStateSetTime, this`notified
      ensures Snapshot() == ClearStep(old(Snapshot())).door
      ensures notified == old(notified) + ClearStep(old(Snapshot())).notified
    {
      assumedDoorStateSetTime := 0;
      var oldDoorState := doorState;
      CalculateDoorStateFromSensors(oldDoorState);
      if oldDoorState != doorState {
        notified := notified + [doorState];
      }
    }

    method Activate(now: nat)
      modifies this, repeater
      ensures Snapshot() == ActivateStep(old(Snapshot()), now).door
      ensures notified == old(notified) + ActivateStep(old(Snapshot()), now).notified
      ensures repeater.Snapshot() == Repeater.ActivateStep(old(repeater.Snapshot()), now).relay
      ensures repeater.changes == old(repeater.changes) + Repeater.ActivateStep(old(repeater.Snapshot()), now).changes
    {
      repeater.Activate(now);
      if doorState == Opening {
        SetAssumedDoorState(Closing, now);
      } else if doorState == DoorState.Open {
        SetAssumedDoorState(Closing, now);
      } else if doorState == Closing {
        SetAssumedDoorState(Opening, now);
      } else if doorState == Closed {
        SetAssumedDoorState(Opening, now);
      } else {
        ClearAssumedDoorState();
      }
    }

    method Open(now: nat)
      modifies this, repeater
      ensures Snapshot() == OpenStep(old(Snapshot()), now).door
      ensures notified == old(notified) + OpenStep(old(Snapshot()), now).notified
      ensures OpenStep(old(Snapshot()), now).pulse ==>
        repeater.Snapshot() == Repeater.ActivateStep(old(repeater.Snapshot()), now).relay &&
        repeater.changes == old(repeater.changes) + Repeater.ActivateStep(old(repeater.Snapshot()), now).changes
      ensures !OpenStep(old(Snapshot()), now).pulse ==>
        repeater.Snapshot() == old(repeater.Snapshot()) && repeater.changes == old(repeater.changes)
    {
      if doorState != DoorState.Open && doorState != Opening {
        repeater.Activate(now);
        SetAssumedDoorState(Opening, now);
      }
    }

    method Close(now: nat)
      modifies this, repeater
      ensures Snapshot() == CloseStep(old(Snapshot()), now).door
      ensures notified == old(notified) + CloseStep(old(Snapshot()), now).notified
      ensures CloseStep(old(Snapshot()), now).pulse ==>
        repeater.Snapshot() == Repeater.ActivateStep(old(repeater.Snapshot()), now).relay &&
        repeater.changes == old(repeater.changes) + Repeater.ActivateStep(old(repeater.Snapshot()), now).changes
      ensures !CloseStep(old(Snapshot()), now).pulse ==>
        repeater.Snapshot() == old(repeater.Snapshot()) && repeater.changes == old(repeater.changes)
    {
      if doorState != Closed && doorState != Closing {
        repeater.Activate(now);
        SetAssumedDoorState(Closing, now);
      }
    }

    method Run(now: nat)
      modifies this`doorState, this`assumedDoorStateSetTime, this`notified
      ensures Snapshot() == RunStep(old(Snapshot()), now, expiry).door
      ensures notified == old(notified) + RunStep(old(Snapshot()), now, expiry).notified
    {
      if assumedDoorStateSetTime > 0 && assumedDoorStateSetTime + expiry < now {
        ClearAssumedDoorState();
      }
    }

    method SetSensorStates(top: SensorDetectionState, bottom: SensorDetectionState)
      modifies this`doorState, this`topSensor, this`bottomSensor, this`notified
      ensures Snapshot() == SetSensorStatesStep(old(Snapshot()), top, bottom).door
      ensures notified == old(notified) + SetSensorStatesStep(old(Snapshot()), top, bottom).notified
    {
      if top != topSensor || bottom != bottomSensor {
        topSensor := top;
        bottomSensor := bottom;
        if assumedDoorStateSetTime == 0 {
          var oldDoorState := doorState;
          CalculateDoorStateFromSensors(oldDoorState);
          if oldDoorState != doorState {
            notified := notified + [doorState];
          }
        }
      }
    }

    /** `getDoorStateAsString` on the current state. */
    function DoorStateAsString(): (name: string)
      reads this
      ensures name == "UNKNOWN" <==> doorState == Unknown
    {
      DoorStateName(doorState)
    }
  }
}
