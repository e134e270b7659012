/**
 * The MQTT client's own bookkeeping: the ordered validation of the broker
 * settings in `init`, the state/error pair it reports, and the reconnect
 * throttle in `run`. The broker library is outside the model: whether it is
 * connected, whether a connect succeeds and the state it reports (already
 * mapped to the firmware's enumeration) are parameters.
 */
module Mqtt {
  import opened Common
  import BotFs

  /** The firmware's MQTT states. */
  datatype MqttState =
    | Disconnected | ConnectionTimeout | ConnectionLost | ConnectFailed | ConnectBadProtocol
    | ConnectBadClientId | ConnectUnavailable | ConnectBadCredentials | ConnectUnauthorized
    | Connected | ConfigError | Disabled

  /** The smallest interval, exclusive, between two reconnect attempts, in ms. */
  const RECONNECT_INTERVAL: nat := 5000
  /** The first port number rejected at the top of the range. */
  const PORT_LIMIT: nat := 65535

  const NO_ADDRESS: string := "No MQTT Broker Address configured."
  const BAD_PORT: string := "Invalid MQTT Broker Port configured."
  const NO_DEVICE_ID: string := "No MQTT Device ID configured."
  const NO_TOPIC: string := "No MQTT Topic configured."
  const NO_STATE_TOPIC: string := "No MQTT State Topic configured."

  /** The configuration fields `init` checks. */
  datatype Settings = Settings(brokerAddress: string, brokerPort: nat, deviceId: string,
                               topic: string, stateTopic: string)

  function SettingsOf(config: BotFs.Config): Settings
    reads config
  {
    Settings(config.mqttBrokerAddress, config.mqttBrokerPort, config.mqttDeviceId,
             config.mqttCommandTopic, config.mqttStateTopic)
  }

  predicate PortValid(port: nat)
  {
    0 < port < PORT_LIMIT
  }

  /**
   * The checks of `init`, in order; the message of the first that fails,
   * or None when all pass.
   */
  function ConfigurationError(s: Settings): (e: Option<string>)
    ensures e == None <==>
      s.brokerAddress != "" && PortValid(s.brokerPort) && s.deviceId != "" && s.topic != "" && s.stateTopic != ""
    ensures e == Some(NO_ADDRESS) <==> s.brokerAddress == ""
    ensures e == Some(BAD_PORT) <==> s.brokerAddress != "" && !PortValid(s.brokerPort)
    ensures e == Some(NO_DEVICE_ID) <==> s.brokerAddress != "" && PortValid(s.brokerPort) && s.deviceId == ""
    ensures e == Some(NO_TOPIC) <==>
      s.brokerAddress != "" && PortValid(s.brokerPort) && s.deviceId != "" && s.topic == ""
    ensures e == Some(NO_STATE_TOPIC) <==>
      s.brokerAddress != "" && PortValid(s.brokerPort) && s.deviceId != "" && s.topic != "" && s.stateTopic == ""
  {
    if s.brokerAddress == "" then Some(NO_ADDRESS)
    else if s.brokerPort <= 0 || s.brokerPort >= PORT_LIMIT then Some(BAD_PORT)
    else if s.deviceId == "" then Some(NO_DEVICE_ID)
    else if s.topic == "" then Some(NO_TOPIC)
    else if s.stateTopic == "" then Some(NO_STATE_TOPIC)
    else None
  }

  /** The default configuration has no broker address, so it is refused with that message. */
  lemma DefaultSettingsNeedAddress(address: string)
    ensures ConfigurationError(Settings("", 1833, "Garage_Bot", "garage/door", "garage/door/state")) == Some(NO_ADDRESS)
    ensures address != "" ==>
      ConfigurationError(Settings(address, 1833, "Garage_Bot", "garage/door", "garage/door/state")) == None
  {
  }

  /** The check runs in order: a setting fixed after an earlier failure does not change the message. */
  lemma FirstFailureWins(s: Settings, port: nat)
    requires s.brokerAddress == ""
    ensures ConfigurationError(s.(brokerPort := port)) == Some(NO_ADDRESS)
  {
  }

  /** An `onStateChange` notification. */
  datatype Notification = Notification(state: MqttState, error: string)

  /** Value view of the client. */
  datatype Client = Client(state: MqttState, error: string, lastReconnectAttempt: nat)

  /** The client after one call: its notifications and how many connects it attempted. */
  datatype MqttStep = MqttStep(client: Client, notified: seq<Notification>, connects: nat)

  /** `setMQTTState`: overwrite both and notify, even when nothing changed. */
  function SetStateStep(c: Client, state: MqttState, error: string): (st: MqttStep)
    ensures st.client.state == state && st.client.error == error
    ensures st.client.lastReconnectAttempt == c.lastReconnectAttempt
    ensures st.notified == [Notification(state, error)] && st.connects == 0
  {
    MqttStep(c.(state := state, error := error), [Notification(state, error)], 0)
  }

  /**
   * `init`: report DISCONNECTED with no error, then either the first
   * configuration error or, with valid settings, one connect attempt.
   */
  function InitStep(c: Client, s: Settings): (st: MqttStep)
    ensures |st.notified| >= 1 && st.notified[0] == Notification(Disconnected, "")
    ensures ConfigurationError(s).Some? ==>
      st.client.state == ConfigError && st.client.error == ConfigurationError(s).value &&
      st.notified == [Notification(Disconnected, ""), Notification(ConfigError, ConfigurationError(s).value)] &&
      st.connects == 0
    ensures ConfigurationError(s) == None ==>
      st.client.state == Disconnected && st.client.error == "" &&
      st.notified == [Notification(Disconnected, "")] && st.connects == 1
    ensures st.client.lastReconnectAttempt == c.lastReconnectAttempt
  {
    var first := SetStateStep(c, Disconnected, "");
    match ConfigurationError(s)
    case Some(message) =>
      var second := SetStateStep(first.client, ConfigError, message);
      MqttStep(second.client, first.notified + second.notified, 0)
    case None => MqttStep(first.client, first.notified, 1)
  }

  /**
   * `run`: while disconnected, a reconnect is attempted only when more than
   * 5000 ms have passed since the last attempt; the attempt stamps the time,
   * a success clears the stamp, and the library's state is reported. While
   * connected, a state the library reports differently is reported.
   */
  function RunStep(c: Client, now: nat, connected: bool, connectSucceeds: bool, libraryState: MqttState): (st: MqttStep)
    requires now >= c.lastReconnectAttempt
    ensures !connected && now - c.lastReconnectAttempt > RECONNECT_INTERVAL ==>
      st.connects == 1 &&
      st.client == Client(libraryState, "", if connectSucceeds then 0 else now) &&
      st.notified == [Notification(libraryState, "")]
    ensures !connected && now - c.lastReconnectAttempt <= RECONNECT_INTERVAL ==> st == MqttStep(c, [], 0)
    ensures connected ==> st.connects == 0 && st.client.lastReconnectAttempt == c.lastReconnectAttempt
    ensures connected && libraryState != c.state ==>
      st.client == c.(state := libraryState, error := "") && st.notified == [Notification(libraryState, "")]
    ensures connected && libraryState == c.state ==> st == MqttStep(c, [], 0)
  {
    if !connected then
      if now - c.lastReconnectAttempt > RECONNECT_INTERVAL then
        var stamped := c.(lastReconnectAttempt := now);
        var attempted := if connectSucceeds then stamped.(lastReconnectAttempt := 0) else stamped;
        var st := SetStateStep(attempted, libraryState, "");
        MqttStep(st.client, st.notified, 1)
      else MqttStep(c, [], 0)
    else if libraryState != c.state then SetStateStep(c, libraryState, "")
    else MqttStep(c, [], 0)
  }

  /** A run of calls while disconnected, each paired with whether its connect would succeed. */
  function Attempts(c: Client, times: seq<nat>, succeeds: bool, state: MqttState): (n: nat)
    decreases |times|
  {
    if times == [] || times[0] < c.lastReconnectAttempt then 0
    else
      var st := RunStep(c, times[0], false, succeeds, state);
      st.connects + Attempts(st.client, times[1..], succeeds, state)
  }

  /**
   * The throttle: while failing to connect, calls at increasing times less
   * than 5000 ms apart after an attempt make no further attempt until the
   * interval has passed.
   */
  lemma {:induction false} ThrottleBlocksWithinInterval(c: Client, times: seq<nat>, state: MqttState)
    requires forall i :: 0 <= i < |times| ==> c.lastReconnectAttempt <= times[i] <= c.lastReconnectAttempt + RECONNECT_INTERVAL
    ensures Attempts(c, times, false, state) == 0
    decreases |times|
  {
    if times != [] {
      assert RunStep(c, times[0], false, false, state).client == c;
      ThrottleBlocksWithinInterval(c, times[1..], state);
    }
  }

  /** The client as a heap object. */
  class MQTTClient {
    var mqttState: MqttState
    var error: string
    var lastReconnectAttempt: nat
    /** Every `onStateChange` notification, oldest first. */
    ghost var notified: seq<Notification>
    /** How many times a broker connect has been attempted. */
    ghost var connects: nat

    function Snapshot(): Client
      reads this
    {
      Client(mqttState, error, lastReconnectAttempt)
    }

    /**
     * The client is a global object, so before `init` its state holds the
     * zero-initialised enumerator, CONNECTION_TIMEOUT, with an empty error
     * and no reconnect stamp.
     */
    constructor ()
      ensures Snapshot() == Client(ConnectionTimeout, "", 0) && notified == [] && connects == 0
    {
      mqttState := ConnectionTimeout;
      error := "";
      lastReconnectAttempt := 0;
      notified := [];
      connects := 0;
    }

    /** `init`, reading the broker settings from the configuration. */
    method Init(config: BotFs.Config)
      modifies this
      ensures var st := InitStep(old(Snapshot()), SettingsOf(config));
        Snapshot() == st.client && notified == old(notified) + st.notified && connects == old(connects) + st.connects
    {
      SetMQTTState(Disconnected, "");
      if config.mqttBrokerAddress == "" {
        SetMQTTState(ConfigError, NO_ADDRESS);
      } else if config.mqttBrokerPort <= 0 || config.mqttBrokerPort >= PORT_LIMIT {
        SetMQTTState(ConfigError, BAD_PORT);
      } else if config.mqttDeviceId == "" {
        SetMQTTState(ConfigError, NO_DEVICE_ID);
      } else if config.mqttCommandTopic == "" {
        SetMQTTState(ConfigError, NO_TOPIC);
      } else if config.mqttStateTopic == "" {
        SetMQTTState(ConfigError, NO_STATE_TOPIC);
      } else {
        connects := connects + 1;
      }
    }

    method SetMQTTState(newState: MqttState, newError: string)
      modifies this`mqttState, this`error, this`notified
      ensures var st := SetStateStep(old(Snapshot()), newState, newError);
        Snapshot() == st.client && notified == old(notified) + st.notified
    {
      mqttState := newState;
      error := newError;
      notified := notified + [Notification(mqttState, error)];
    }

    /** `getMQTTState`. */
    function GetMQTTState(): (s: MqttState)
      reads this
      ensures s == Snapshot().state
    {
      mqttState
    }

    /** `getMQTTError`. */
    function GetMQTTError(): (e: string)
      reads this
      ensures e == Snapshot().error
    {
      error
    }

    method Run(now: nat, connected: bool, connectSucceeds: bool, libraryState: MqttState)
      requires now >= lastReconnectAttempt
      modifies this
      ensures var st := RunStep(old(Snapshot()), now, connected, connectSucceeds, libraryState);
        Snapshot() == st.client && notified == old(notified) + st.notified && connects == old(connects) + st.connects
    {
      if !connected {
        if now - lastReconnectAttempt > RECONNECT_INTERVAL {
          lastReconnectAttempt := now;
          connects := connects + 1;
          if connectSucceeds {
            lastReconnectAttempt := 0;
          }
          SetMQTTState(libraryState, "");
        }
      } else {
        if libraryState != mqttState {
          SetMQTTState(libraryState, "");
        }
      }
    }
  }
}
