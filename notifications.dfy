/**
 * The incoming-notification classifier of the E26 support code.
 *
 * The handler copies the buffer from offset 4 (the header-less body) before it
 * checks for an empty buffer, dispatches on the first body byte (raw byte 4)
 * and, for sensor reports, on the second (raw byte 5), but reads every value at
 * an offset of the raw buffer.  Each index it reads out of range throws, so the
 * classifier returns either the reading the handler took or the fault it hit.
 */
module Notifications {
  import opened JavaBytes
  import opened Wrappers
  import opened WakeupTechConstants

  datatype Sensor = HeartRate | BloodOxygen | BloodPressure

  /** The firmware version as two integers: major and minor mod 100. */
  datatype Version = Version(major: int, minor: int)

  /** What the handler read from one notification. */
  datatype Reading =
    | FirmwareVersion(version: Version)
    | BatteryLevel(level: int)
    | Pulse(realtime: bool, bpm: int)
    | Oxygen(realtime: bool, percent: int)
    | Pressure(realtime: bool, systolic: int, diastolic: int)
    | LocatePhone(flag: int)
    | AllVitals(heartRate: int, bloodOxygen: int, systolic: int, diastolic: int)
    | UnhandledSensor(code: byte)
    | Unhandled(selector: byte)

  /** Why the handler throws: the header copy fails, or a raw offset is out of range. */
  datatype Fault = SliceBeyondEnd | IndexOutOfBounds(index: nat)

  datatype Outcome = Handled(reading: Reading) | Thrown(fault: Fault)

  /** The sub-code a sensor report carries. */
  function ReportCode(s: Sensor, realtime: bool): byte {
    match s
    case HeartRate => if realtime then ReceiveHeartRateRealtime else ReceiveHeartRateTimed
    case BloodOxygen => if realtime then ReceiveBloodOxygenRealtime else ReceiveBloodOxygenTimed
    case BloodPressure => if realtime then ReceiveBloodPressureRealtime else ReceiveBloodPressureTimed
  }

  /**
   * Each realtime sub-code is its timed sub-code plus one, and the six sub-codes
   * are pairwise distinct: a sub-code names one sensor and one mode.
   */
  lemma ReportCodesDistinct(s: Sensor, rs: bool, t: Sensor, rt: bool)
    ensures ReportCode(s, true) == ReportCode(s, false) + 1
    ensures ReportCode(s, rs) in SensorSubCodes
    ensures ReportCode(s, rs) == ReportCode(t, rt) ==> s == t && rs == rt
  {
  }

  /** The first of `offsets`, read in order, that is not an index of `data`. */
  function FirstUnreadable(data: seq<byte>, offsets: seq<nat>): (r: Option<nat>)
    ensures r.None? <==> forall k :: 0 <= k < |offsets| ==> offsets[k] < |data|
    ensures r.Some? ==> exists k :: 0 <= k < |offsets| && offsets[k] == r.value && |data| <= r.value &&
                          forall j :: 0 <= j < k ==> offsets[j] < |data|
  {
    if offsets == [] then None
    else if |data| <= offsets[0] then Some(offsets[0])
    else
      var r := FirstUnreadable(data, offsets[1..]);
      assert r.Some? ==> exists k :: 1 <= k < |offsets| && offsets[k] == r.value && |data| <= r.value &&
                            forall j :: 0 <= j < k ==> offsets[j] < |data| by {
        if r.Some? {
          var k :| 0 <= k < |offsets| - 1 && offsets[1..][k] == r.value && |data| <= r.value &&
                   forall j :: 0 <= j < k ==> offsets[1..][j] < |data|;
          assert offsets[k + 1] == r.value;
        }
      }
      r
  }

  /** The fault raised when reading `offsets` of `data` in order, if any. */
  function Check(data: seq<byte>, offsets: seq<nat>): (fault: Option<Fault>)
    ensures fault.None? <==> forall k :: 0 <= k < |offsets| ==> offsets[k] < |data|
  {
    match FirstUnreadable(data, offsets)
    case Some(i) => Some(IndexOutOfBounds(i))
    case None => None
  }

  /** The handler's treatment of one raw buffer. */
  function Classify(data: seq<byte>): (o: Outcome)
    ensures o == Thrown(SliceBeyondEnd) <==> |data| < 4
    ensures o.Thrown? && o.fault.IndexOutOfBounds? ==> o.fault.index >= |data|
    ensures o.Handled? ==> |data| >= 5
    ensures |data| >= 5 && data[4] !in DispatchedSelectors ==> o == Handled(Unhandled(data[4]))
  {
    if |data| < 4 then Thrown(SliceBeyondEnd)
    else if |data| == 4 then Thrown(IndexOutOfBounds(4))
    else
      var selector := data[4];
      if selector == ReceiveDeviceInfo then
        (match Check(data, [6, 7])
         case Some(f) => Thrown(f)
         case None =>
           assert [6, 7][1] < |data|;
           Handled(FirmwareVersion(Version(data[6], data[7] % 100))))
      else if selector == ReceiveBatteryLevel then
        (match Check(data, [7, 6])
         case Some(f) => Thrown(f)
         case None =>
           assert [7, 6][0] < |data|;
           Handled(BatteryLevel(Signed(data[7]))))
      else if selector == ReceiveSensorData then
        (match Check(data, [5])
         case Some(f) => Thrown(f)
         case None =>
           assert [5][0] < |data|;
           ClassifySensor(data))
      else if selector == ReceiveLocatePhone then
        (match Check(data, [6])
         case Some(f) => Thrown(f)
         case None =>
           assert [6][0] < |data|;
           Handled(LocatePhone(Signed(data[6]))))
      else if selector == ReceiveAllVitals then
        (match Check(data, [7, 8, 9, 10, 6])
         case Some(f) => Thrown(f)
         case None =>
           assert [7, 8, 9, 10, 6][3] < |data|;
           Handled(AllVitals(Signed(data[7]), Signed(data[8]), Signed(data[9]), Signed(data[10]))))
      else Handled(Unhandled(selector))
  }

  /** The second-level dispatch on the sensor sub-code (raw byte 5). */
  function ClassifySensor(data: seq<byte>): (o: Outcome)
    requires |data| >= 6 && data[4] == ReceiveSensorData
    ensures o.Thrown? ==> o.fault == IndexOutOfBounds(|data|)
    ensures data[5] !in SensorSubCodes ==> o == Handled(UnhandledSensor(data[5]))
    ensures data[5] in SensorSubCodes && o.Handled? ==> SensorOf(o.reading).Some?
  {
    var code := data[5];
    if code == ReceiveHeartRateTimed || code == ReceiveHeartRateRealtime then
      (match Check(data, [6])
       case Some(f) => Thrown(f)
       case None =>
         assert [6][0] < |data|;
         Handled(Pulse(code == ReceiveHeartRateRealtime, Signed(data[6]))))
    else if code == ReceiveBloodOxygenTimed || code == ReceiveBloodOxygenRealtime then
      (match Check(data, [6])
       case Some(f) => Thrown(f)
       case None =>
         assert [6][0] < |data|;
         Handled(Oxygen(code == ReceiveBloodOxygenRealtime, Signed(data[6]))))
    else if code == ReceiveBloodPressureTimed || code == ReceiveBloodPressureRealtime then
      (match Check(data, [6, 7])
       case Some(f) => Thrown(f)
       case None =>
         assert [6, 7][1] < |data|;
         Handled(Pressure(code == ReceiveBloodPressureRealtime, Signed(data[6]), Signed(data[7]))))
    else Handled(UnhandledSensor(code))
  }

  /** The sensor a reading reports, if it is a single-sensor reading. */
  function SensorOf(r: Reading): Option<Sensor> {
    match r
    case Pulse(_, _) => Some(HeartRate)
    case Oxygen(_, _) => Some(BloodOxygen)
    case Pressure(_, _, _) => Some(BloodPressure)
    case _ => None
  }

  /**
   * The shortest buffer the handler takes without throwing, by selector and
   * sub-code: the header, then the highest raw offset the branch reads.
   */
  function RequiredLength(data: seq<byte>): nat {
    if |data| < 5 then 5
    else if data[4] == ReceiveDeviceInfo || data[4] == ReceiveBatteryLevel then 8
    else if data[4] == ReceiveLocatePhone then 7
    else if data[4] == ReceiveAllVitals then 11
    else if data[4] != ReceiveSensorData then 5
    else if |data| < 6 then 6
    else if data[5] in {ReceiveHeartRateTimed, ReceiveHeartRateRealtime,
                        ReceiveBloodOxygenTimed, ReceiveBloodOxygenRealtime} then 7
    else if data[5] in {ReceiveBloodPressureTimed, ReceiveBloodPressureRealtime} then 8
    else 6
  }

  /**
   * The handler returns exactly when the buffer is long enough for the branch
   * it takes; otherwise it throws, and an index fault names a raw offset that
   * is really out of range.  Buffers shorter than four bytes (the empty buffer
   * included) fail in the header copy, before the length-0 guard is reached.
   */
  lemma {:induction false} ClassifyHandledIff(data: seq<byte>)
    ensures Classify(data).Handled? <==> |data| >= RequiredLength(data)
    ensures Classify(data) == Thrown(SliceBeyondEnd) <==> |data| < 4
    ensures Classify(data).Thrown? && Classify(data).fault.IndexOutOfBounds? ==>
              |data| <= Classify(data).fault.index < RequiredLength(data)
  {
    if |data| >= 5 {
      var sel := data[4];
      if sel == ReceiveDeviceInfo {
        FaultInRange(data, [6, 7]);
        assert Check(data, [6, 7]).None? ==> [6, 7][1] < |data|;
      } else if sel == ReceiveBatteryLevel {
        FaultInRange(data, [7, 6]);
      } else if sel == ReceiveSensorData {
        FaultInRange(data, [5]);
        if |data| >= 6 {
          FaultInRange(data, [6]);
          FaultInRange(data, [6, 7]);
        }
      } else if sel == ReceiveLocatePhone {
        FaultInRange(data, [6]);
      } else if sel == ReceiveAllVitals {
        FaultInRange(data, [7, 8, 9, 10, 6]);
        assert Check(data, [7, 8, 9, 10, 6]).None? ==> [7, 8, 9, 10, 6][3] < |data|;
      }
    }
  }

  /** An index fault from `Check` lies between the buffer's end and the highest offset read. */
  lemma FaultInRange(data: seq<byte>, offsets: seq<nat>)
    ensures Check(data, offsets).Some? ==>
              Check(data, offsets).value.IndexOutOfBounds? &&
              |data| <= Check(data, offsets).value.index &&
              exists k :: 0 <= k < |offsets| && offsets[k] == Check(data, offsets).value.index
  {
  }

  /** A buffer of eleven bytes or more never makes the handler throw. */
  lemma LongBuffersHandled(data: seq<byte>)
    requires |data| >= 11
    ensures Classify(data).Handled?
  {
    ClassifyHandledIff(data);
  }

  /**
   * Dispatch keys: a selector without a case, the steps-data selector among
   * them, and a sensor sub-code without a case are returned as unhandled.
   */
  lemma UnknownCodesUnhandled(data: seq<byte>)
    requires |data| >= 5
    ensures data[4] !in DispatchedSelectors ==> Classify(data) == Handled(Unhandled(data[4]))
    ensures data[4] == ReceiveStepsData ==> Classify(data) == Handled(Unhandled(ReceiveStepsData))
    ensures data[4] == ReceiveSensorData && |data| >= 6 && data[5] !in SensorSubCodes ==>
              Classify(data) == Handled(UnhandledSensor(data[5]))
  {
  }

  /**
   * Field offsets: every value is read from the raw buffer, two bytes past the
   * selector; the firmware bytes unsigned, every other value sign-extended.
   */
  lemma ReadsRawOffsets(data: seq<byte>)
    requires |data| >= 5
    ensures data[4] == ReceiveDeviceInfo && |data| >= 8 ==>
              Classify(data) == Handled(FirmwareVersion(Version(data[6], data[7] % 100)))
    ensures data[4] == ReceiveBatteryLevel && |data| >= 8 ==>
              Classify(data) == Handled(BatteryLevel(Signed(data[7])))
    ensures data[4] == ReceiveLocatePhone && |data| >= 7 ==>
              Classify(data) == Handled(LocatePhone(Signed(data[6])))
    ensures data[4] == ReceiveAllVitals && |data| >= 11 ==>
              Classify(data) == Handled(AllVitals(Signed(data[7]), Signed(data[8]), Signed(data[9]), Signed(data[10])))
  {
  }

  /**
   * A sensor report is classified by its sub-code alone: the sub-code of
   * sensor `s` in mode `realtime` yields a reading of `s` in that mode, whose
   * values are the signed raw bytes 6 (and 7 for blood pressure).
   */
  lemma SensorReport(data: seq<byte>, s: Sensor, realtime: bool)
    requires |data| >= (if s == BloodPressure then 8 else 7)
    requires data[4] == ReceiveSensorData && data[5] == ReportCode(s, realtime)
    ensures Classify(data).Handled? && SensorOf(Classify(data).reading) == Some(s)
    ensures s == HeartRate ==> Classify(data).reading == Pulse(realtime, Signed(data[6]))
    ensures s == BloodOxygen ==> Classify(data).reading == Oxygen(realtime, Signed(data[6]))
    ensures s == BloodPressure ==> Classify(data).reading == Pressure(realtime, Signed(data[6]), Signed(data[7]))
  {
  }

  /**
   * Sample buffers: battery level 87; sub-code 0x09 with 72 is a timed pulse
   * reading; all vitals 70/98/120/80; the unknown selector 0x55 is unhandled.
   */
  lemma SampleNotifications()
    ensures Classify([0xab, 0x00, 0x05, 0xff, 0x91, 0x00, 0x00, 87]) == Handled(BatteryLevel(87))
    ensures Classify([0xab, 0x00, 0x04, 0xff, 0x31, 0x09, 72]) == Handled(Pulse(false, 72))
    ensures Classify([0xab, 0x00, 0x08, 0xff, 0x32, 0x00, 0x00, 70, 98, 120, 80]) ==
              Handled(AllVitals(70, 98, 120, 80))
    ensures Classify([0xab, 0x00, 0x02, 0xff, 0x55]) == Handled(Unhandled(0x55))
    ensures Classify([]) == Thrown(SliceBeyondEnd)
  {
  }
}
