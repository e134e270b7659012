/** Shared enumerations of the garage-door controller firmware and a small Option type. */
module Common {

  datatype Option<T> = None | Some(value: T)

  /** The five door states; the numbering of the firmware enum is irrelevant here. */
  datatype DoorState = Unknown | Open | Closing | Closed | Opening

  /** Per-sensor tri-state detection result. */
  datatype SensorDetectionState = SensorUnknown | SensorNotDetected | SensorDetected

  /** The two modes of the RF remote receiver. */
  datatype RFReceiverMode = Normal | Registering

  /** The categories a front-panel button event can carry. */
  datatype ButtonPressType = Simple | RegisterRemote | ResetWifi | DisableWifi | FactoryReset

  /** The buttons a web or MQTT client can "press". */
  datatype VirtualButtonType = ActivateButton | OpenButton | CloseButton

  /** The display modes of a front-panel LED. */
  datatype LEDMode = LedSolid | LedFlash | LedFlashFast | LedFlashPair
}
