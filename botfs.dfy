/**
 * The configuration setters of BotFS. Only their effect on the configuration
 * fields is modelled; writing the configuration file and rebooting are
 * recorded in two ghost fields.
 */
module BotFs {

  /** The number of RF code slots in the configuration. */
  const MAX_RF_CODES: nat := 5

  /** The registered-code part of the configuration: the stored count and the five slots. */
  datatype CodeStore = CodeStore(count: nat, codes: seq<int>)

  /**
   * `registerRFCode`: a full store (count of 5 or more) is left as it is;
   * otherwise the count rises by one and the code lands in the slot the old
   * count points at, every other slot kept.
   */
  function RegisterCode(store: CodeStore, code: int): (r: CodeStore)
    requires |store.codes| == MAX_RF_CODES
    ensures |r.codes| == MAX_RF_CODES
    ensures store.count >= MAX_RF_CODES ==> r == store
    ensures store.count < MAX_RF_CODES ==>
      r.count == store.count + 1 && r.codes[store.count] == code &&
      forall i :: 0 <= i < MAX_RF_CODES && i != store.count ==> r.codes[i] == store.codes[i]
    ensures store.count <= MAX_RF_CODES ==> r.count <= MAX_RF_CODES
  {
    if store.count >= MAX_RF_CODES then store
    else CodeStore(store.count + 1, store.codes[store.count := code])
  }

  /** Registering into a store that is not yet full always changes it, so a success is observable. */
  lemma RegisterCodeTakesEffect(store: CodeStore, code: int)
    requires |store.codes| == MAX_RF_CODES && store.count < MAX_RF_CODES
    ensures RegisterCode(store, code) != store
    ensures code in RegisterCode(store, code).codes
  {
    assert RegisterCode(store, code).codes[store.count] == code;
  }

  /** The global configuration record, updated in place by the setters. */
  class Config {
    var mdnsName: string
    var deviceName: string
    var wifiEnabled: bool
    var wifiSsid: string
    var wifiPassword: string
    var ipAddress: string
    var mqttEnabled: bool
    var mqttBrokerAddress: string
    var mqttBrokerPort: nat
    var mqttDeviceId: string
    var mqttUsername: string
    var mqttPassword: string
    var mqttCommandTopic: string
    var mqttStateTopic: string
    var storedRfCodeCount: nat
    const rfCodes: array<int>
    var topIrSensorThreshold: int
    var bottomIrSensorThreshold: int
    /** How many times `saveConfig` has been requested. */
    ghost var saves: nat
    /** Whether a reboot has been requested. */
    ghost var rebootRequested: bool

    ghost predicate Valid()
      reads this
    {
      rfCodes.Length == MAX_RF_CODES
    }

    function Codes(): (store: CodeStore)
      reads this, rfCodes
      requires Valid()
      ensures |store.codes| == MAX_RF_CODES
    {
      CodeStore(storedRfCodeCount, rfCodes[..])
    }

    /**
     * The configuration as loaded at start-up: the string defaults of the
     * Config struct, and the flags, codes and thresholds that were stored.
     */
    constructor (wifiEnabled: bool, mqttEnabled: bool, storedCount: nat, codes: seq<int>, topThreshold: int, bottomThreshold: int)
      requires |codes| == MAX_RF_CODES
      ensures Valid() && fresh(rfCodes)
      ensures Codes() == CodeStore(storedCount, codes)
      ensures this.wifiEnabled == wifiEnabled && this.mqttEnabled == mqttEnabled
      ensures topIrSensorThreshold == topThreshold && bottomIrSensorThreshold == bottomThreshold
      ensures wifiSsid == "" && wifiPassword == "" && ipAddress == "" && mqttBrokerPort == 1833
      ensures saves == 0 && !rebootRequested
    {
      mdnsName := "garagebot";
      deviceName := "GarageBot";
      this.wifiEnabled := wifiEnabled;
      wifiSsid := "";
      wifiPassword := "";
      ipAddress := "";
      this.mqttEnabled := mqttEnabled;
      mqttBrokerAddress := "";
      mqttBrokerPort := 1833;
      mqttDeviceId := "Garage_Bot";
      mqttUsername := "";
      mqttPassword := "";
      mqttCommandTopic := "garage/door";
      mqttStateTopic := "garage/door/state";
      storedRfCodeCount := storedCount;
      rfCodes := new int[MAX_RF_CODES](i requires 0 <= i < MAX_RF_CODES => codes[i]);
      topIrSensorThreshold := topThreshold;
      bottomIrSensorThreshold := bottomThreshold;
      saves := 0;
      rebootRequested := false;
    }

    /** `registerRFCode`; a successful registration saves and then reboots. */
    method RegisterRFCode(newCode: int)
      requires Valid()
      modifies this`storedRfCodeCount, rfCodes, this`saves, this`rebootRequested
      ensures Valid()
      ensures Codes() == RegisterCode(old(Codes()), newCode)
      ensures old(storedRfCodeCount) >= MAX_RF_CODES ==> saves == old(saves) && rebootRequested == old(rebootRequested)
      ensures old(storedRfCodeCount) < MAX_RF_CODES ==> saves == old(saves) + 1 && rebootRequested
    {
      if storedRfCodeCount >= MAX_RF_CODES {
        return;
      }
      storedRfCodeCount := storedRfCodeCount + 1;
      rfCodes[storedRfCodeCount - 1] := newCode;
      saves := saves + 1;
      rebootRequested := true;
    }

    /** `setIRSensorThreshold`: "TOP" and "BOTTOM" select a field, any other name none; it always saves. */
    method SetIRSensorThreshold(sensorType: string, newThreshold: int)
      modifies this`topIrSensorThreshold, this`bottomIrSensorThreshold, this`saves
      ensures sensorType == "TOP" ==> topIrSensorThreshold == newThreshold && bottomIrSensorThreshold == old(bottomIrSensorThreshold)
      ensures sensorType == "BOTTOM" ==> bottomIrSensorThreshold == newThreshold && topIrSensorThreshold == old(topIrSensorThreshold)
      ensures sensorType != "TOP" && sensorType != "BOTTOM" ==>
        topIrSensorThreshold == old(topIrSensorThreshold) && bottomIrSensorThreshold == old(bottomIrSensorThreshold)
      ensures saves == old(saves) + 1
    {
      if sensorType == "TOP" {
        topIrSensorThreshold := newThreshold;
      } else if sensorType == "BOTTOM" {
        bottomIrSensorThreshold := newThreshold;
      }
      saves := saves + 1;
    }

    /** `resetWiFiConfig(enableWiFi)` of the sketch revision: set the flag, clear the credentials, save, reboot. */
    method ResetWiFiConfig(enableWiFi: bool)
      modifies this`wifiEnabled, this`wifiSsid, this`wifiPassword, this`saves, this`rebootRequested
      ensures wifiEnabled == enableWiFi && wifiSsid == "" && wifiPassword == ""
      ensures saves == old(saves) + 1 && rebootRequested
    {
      wifiEnabled := enableWiFi;
      wifiSsid := "";
      wifiPassword := "";
      saves := saves + 1;
      rebootRequested := true;
    }

    /**
     * `resetWiFiConfig()` of the garage_bot revision: clear the credentials
     * and the IP address and save, without a reboot and without touching the
     * WiFi flag.
     */
    method ResetWiFiConfigNoReboot()
      modifies this`wifiSsid, this`wifiPassword, this`ipAddress, this`saves
      ensures wifiSsid == "" && wifiPassword == "" && ipAddress == ""
      ensures saves == old(saves) + 1
    {
      wifiSsid := "";
      wifiPassword := "";
      ipAddress := "";
      saves := saves + 1;
    }

    /** `setWiFiSettings`: store the credentials verbatim, save, reboot. */
    method SetWiFiSettings(newSsid: string, newPassword: string)
      modifies this`wifiSsid, this`wifiPassword, this`saves, this`rebootRequested
      ensures wifiSsid == newSsid && wifiPassword == newPassword
      ensures saves == old(saves) + 1 && rebootRequested
    {
      wifiSsid := newSsid;
      wifiPassword := newPassword;
      saves := saves + 1;
      rebootRequested := true;
    }

    /** `setGeneralConfig`: store the network and MQTT settings verbatim, save, reboot. */
    method SetGeneralConfig(newMdnsName: string, newDeviceName: string, newMqttEnabled: bool,
                            newBrokerAddress: string, newBrokerPort: nat, newDeviceId: string,
                            newUsername: string, newPassword: string, newCommandTopic: string,
                            newStateTopic: string)
      modifies this`mdnsName, this`deviceName, this`mqttEnabled, this`mqttBrokerAddress,
               this`mqttBrokerPort, this`mqttDeviceId, this`mqttUsername, this`mqttPassword,
               this`mqttCommandTopic, this`mqttStateTopic, this`saves, this`rebootRequested
      ensures mdnsName == newMdnsName && deviceName == newDeviceName && mqttEnabled == newMqttEnabled
      ensures mqttBrokerAddress == newBrokerAddress && mqttBrokerPort == newBrokerPort
      ensures mqttDeviceId == newDeviceId && mqttUsername == newUsername && mqttPassword == newPassword
      ensures mqttCommandTopic == newCommandTopic && mqttStateTopic == newStateTopic
      ensures saves == old(saves) + 1 && rebootRequested
    {
      mdnsName := newMdnsName;
      deviceName := newDeviceName;
      mqttEnabled := newMqttEnabled;
      mqttBrokerAddress := newBrokerAddress;
      mqttBrokerPort := newBrokerPort;
      mqttDeviceId := newDeviceId;
      mqttUsername := newUsername;
      mqttPassword := newPassword;
      mqttCommandTopic := newCommandTopic;
      mqttStateTopic := newStateTopic;
      saves := saves + 1;
      rebootRequested := true;
    }
  }
}
