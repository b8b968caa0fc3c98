/**
 * The byte constants of the WakeupTech protocol that the E26 support code
 * relies on: the selectors and sensor sub-codes of incoming notifications and
 * the three constant outgoing templates.
 */
module WakeupTechConstants {
  import opened JavaBytes

  // Selectors of incoming notifications (byte 4 of the raw buffer).
  const ReceiveBatteryLevel: byte := 0x91
  const ReceiveDeviceInfo: byte := 0x92
  const ReceiveStepsData: byte := 0xF9
  const ReceiveLocatePhone: byte := 0x7d
  const ReceiveSensorData: byte := 0x31
  const ReceiveAllVitals: byte := 0x32

  // Sub-codes of sensor reports (byte 5 of the raw buffer, selector 0x31).
  const ReceiveHeartRateTimed: byte := 0x09
  const ReceiveHeartRateRealtime: byte := 0x0a
  const ReceiveBloodOxygenTimed: byte := 0x11
  const ReceiveBloodOxygenRealtime: byte := 0x12
  const ReceiveBloodPressureTimed: byte := 0x21
  const ReceiveBloodPressureRealtime: byte := 0x22

  // Constant outgoing frames.
  const CmdFindBracelet: seq<byte> := [0xab, 0x00, 0x03, 0xff, 0x71, 0x80]
  const CmdClockMode12Hour: seq<byte> := [0xab, 0x00, 0x04, 0xff, 0x7c, 0x80, 0x01]
  const CmdClockMode24Hour: seq<byte> := [0xab, 0x00, 0x04, 0xff, 0x7c, 0x80, 0x00]

  /** The selectors the notification handler has a case for. */
  const DispatchedSelectors: set<byte> :=
    {ReceiveDeviceInfo, ReceiveBatteryLevel, ReceiveSensorData, ReceiveLocatePhone, ReceiveAllVitals}

  /** The sensor sub-codes the notification handler has a case for. */
  const SensorSubCodes: set<byte> :=
    {ReceiveHeartRateTimed, ReceiveHeartRateRealtime, ReceiveBloodOxygenTimed,
     ReceiveBloodOxygenRealtime, ReceiveBloodPressureTimed, ReceiveBloodPressureRealtime}

  /** Five distinct dispatched selectors; the steps-data selector is not one of them. */
  lemma SelectorsDistinct()
    ensures |DispatchedSelectors| == 5
    ensures ReceiveStepsData !in DispatchedSelectors
  {
  }
}
