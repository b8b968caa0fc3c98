/**
 * The E26 support code: the command sequences it appends to a transaction and
 * the state it keeps across incoming notifications.
 *
 * Inputs the source reads from its environment (the wall clock, the user's
 * profile, the alarm list, the preference key that changed) are parameters.
 */
module E26 {
  import opened JavaBytes
  import opened Wrappers
  import opened WakeupTechConstants
  import opened Frames
  import opened Notifications
  import opened Transactions

  datatype DeviceState = NotInitialized | Initializing | Initialized

  /** The events handed to the application's event handler. */
  datatype DeviceEvent = VersionInfo(version: Version) | BatteryInfo(level: int)

  /** Wall-clock fields as the calendar gives them; `month` is zero-based. */
  datatype DateTime = DateTime(year: int, month: int, day: int, hour: int, minute: int, second: int)

  /** The ranges the calendar keeps its fields in. */
  predicate CalendarRange(t: DateTime) {
    0 <= t.month < 12 && 1 <= t.day <= 31 && 0 <= t.hour < 24 && 0 <= t.minute < 60 && 0 <= t.second < 60
  }

  /** The user profile: four values already held as bytes, and the step goal as an `int`. */
  datatype UserPrefs = UserPrefs(unit: byte, age: byte, height: byte, weight: byte, goal: int)

  datatype Alarm = Alarm(enabled: bool, hour: int, minute: int)

  /** The preference keys the configuration handler recognises, and every other key. */
  datatype ConfigKey =
    | MeasurementSystem | UserHeightCm | UserYearOfBirth | UserWeightKg | UserStepsGoal
    /** Any key other than the five above; `name` is never one of their strings. */
    | OtherKey(name: string)

  /** The date frame: calendar month plus one, each field narrowed to a byte. */
  function DateCommand(t: DateTime): (c: Command)
    ensures c.SetDateTime?
    ensures CalendarRange(t) ==>
              c == SetDateTime(t.month + 1, t.day, t.hour, t.minute, t.second) && 1 <= c.month <= 12
  {
    SetDateTime(ByteCast(t.month + 1), ByteCast(t.day), ByteCast(t.hour), ByteCast(t.minute), ByteCast(t.second))
  }

  /** The prefs frame: the step goal is narrowed by a cast, not range-checked. */
  function PrefsCommand(p: UserPrefs): (c: Command)
    ensures c.SetUserPrefs?
    ensures c.age == p.age && c.height == p.height && c.weight == p.weight && c.unit == p.unit
    ensures (p.goal - c.goal) % 256 == 0
    ensures 0 <= p.goal < 256 ==> c.goal == p.goal
  {
    SetUserPrefs(p.age, p.height, p.weight, p.unit, ByteCast(p.goal))
  }

  /** The frame for the alarm at zero-based position `i` of the list. */
  function AlarmCommand(i: nat, a: Alarm): (c: Command)
    ensures c.SetAlarm? && c.enabled == a.enabled
    ensures i < 255 ==> c.slot == i + 1
    ensures i == 255 ==> c.slot == 0
    ensures 0 <= a.hour < 24 && 0 <= a.minute < 60 ==> c.hour == a.hour && c.minute == a.minute
  {
    SetAlarm(ByteCast(i + 1), a.enabled, ByteCast(a.hour), ByteCast(a.minute))
  }

  /** The sub-code the single-shot test of `s` switches. */
  function TestCode(s: Sensor): byte {
    match s
    case HeartRate => 0x09
    case BloodOxygen => 0x11
    case BloodPressure => 0x21
  }

  /** How long the queue is held between enabling and disabling a single-shot test. */
  function TestDuration(s: Sensor): nat {
    match s
    case HeartRate => 40000
    case BloodOxygen => 40000
    case BloodPressure => 60000
  }

  /** Date, user prefs, then the 12-hour clock mode, all on the control characteristic. */
  function SettingsOps(t: DateTime, p: UserPrefs): (ops: seq<Op>)
    ensures |ops| == 3 && WritesFramed(ops)
    ensures forall i :: 0 <= i < |ops| ==> ops[i].Write? && ops[i].channel == Control
  {
    [Op.Write(Control, Encode(DateCommand(t))),
     Op.Write(Control, Encode(PrefsCommand(p))),
     Op.Write(Control, CmdClockMode12Hour)]
  }

  function InitOps(t: DateTime, p: UserPrefs): (ops: seq<Op>)
    ensures |ops| == 4 && ops[0] == Op.Notify(Measure, true) && WritesFramed(ops)
  {
    [Op.Notify(Measure, true)] + SettingsOps(t, p)
  }

  /** One alarm frame per alarm, in list order. */
  function AlarmOps(alarms: seq<Alarm>): seq<Op>
    decreases |alarms|
  {
    if alarms == [] then []
    else
      var n := |alarms| - 1;
      AlarmOps(alarms[..n]) + [Op.Write(Control, Encode(AlarmCommand(n, alarms[n])))]
  }

  function TimedTestOps(s: Sensor): (ops: seq<Op>)
    ensures |ops| == 3 && ops[1] == Op.Wait(TestDuration(s)) && WritesFramed(ops)
  {
    [Op.Write(Control, Encode(SensorSwitch(TestCode(s), true))),
     Op.Wait(TestDuration(s)),
     Op.Write(Control, Encode(SensorSwitch(TestCode(s), false)))]
  }

  function RealtimeHeartRateOps(enable: bool): (ops: seq<Op>)
    ensures |ops| == 1 && WritesFramed(ops)
  {
    [Op.Write(Control, Encode(SensorSwitch(0x09, enable)))]
  }

  function ConfigOps(key: ConfigKey, p: UserPrefs): (ops: seq<Op>)
    ensures |ops| <= 1 && WritesFramed(ops)
  {
    if key.OtherKey? then [] else [Op.Write(Control, Encode(PrefsCommand(p)))]
  }

  function FindMeOps(): (ops: seq<Op>)
    ensures |ops| == 1 && WritesFramed(ops)
  {
    [Op.Write(Control, CmdFindBracelet)]
  }

  /** The events the notification handler passes on for one outcome. */
  function EventsOf(o: Outcome): (sent: seq<DeviceEvent>)
    ensures |sent| <= 1
    ensures sent != [] <==> o.Handled? && (o.reading.FirmwareVersion? || o.reading.BatteryLevel?)
  {
    match o
    case Handled(FirmwareVersion(v)) => [VersionInfo(v)]
    case Handled(BatteryLevel(l)) => [BatteryInfo(l)]
    case _ => []
  }

  /** The version carried by the most recent version event. */
  function LastVersion(events: seq<DeviceEvent>): Option<Version> {
    if events == [] then None
    else if events[|events| - 1].VersionInfo? then Some(events[|events| - 1].version)
    else LastVersion(events[..|events| - 1])
  }

  /** The level carried by the most recent battery event. */
  function LastBattery(events: seq<DeviceEvent>): Option<int> {
    if events == [] then None
    else if events[|events| - 1].BatteryInfo? then Some(events[|events| - 1].level)
    else LastBattery(events[..|events| - 1])
  }

  /** Appending one event updates the record of the matching kind and only that one. */
  lemma LastEventsAppend(events: seq<DeviceEvent>, e: DeviceEvent)
    ensures LastVersion(events + [e]) == if e.VersionInfo? then Some(e.version) else LastVersion(events)
    ensures LastBattery(events + [e]) == if e.BatteryInfo? then Some(e.level) else LastBattery(events)
  {
    assert (events + [e])[..|events|] == events;
  }

  /** Every frame written carries the protocol preamble and a correct length byte. */
  predicate WritesFramed(ops: seq<Op>) {
    forall i :: 0 <= i < |ops| && ops[i].Write? ==> Framed(ops[i].frame)
  }

  /**
   * The date frame has fourteen bytes: the fixed header `AB 00 0B FF 93 80`,
   * the year bytes `00 07 E1` whatever the year, then month (calendar month
   * plus one), day, hour, minute and second.
   */
  lemma DateFrameLayout(t: DateTime)
    requires CalendarRange(t)
    ensures var f := Encode(DateCommand(t));
      |f| == 14 && f[..9] == [0xab, 0x00, 0x0b, 0xff, 0x93, 0x80, 0x00, 0x07, 0xe1] &&
      f[9..] == [t.month + 1, t.day, t.hour, t.minute, t.second] &&
      1 <= f[9] <= 12 &&
      Parse(f) == Some(SetDateTime(t.month + 1, t.day, t.hour, t.minute, t.second))
    ensures forall year :: Encode(DateCommand(t.(year := year))) == Encode(DateCommand(t))
  {
    ParseEncode(DateCommand(t));
  }

  /**
   * The prefs frame has twenty bytes: `AB 00 11 FF 74 80 47`, then age,
   * height, weight, unit and the step goal mod 256, then the constant tail.
   */
  lemma PrefsFrameLayout(p: UserPrefs)
    ensures var f := Encode(PrefsCommand(p));
      |f| == 20 && f[..7] == [0xab, 0x00, 0x11, 0xff, 0x74, 0x80, 0x47] &&
      f[7..12] == [p.age, p.height, p.weight, p.unit, p.goal % 256] &&
      f[12..] == [0x5a, 0x82, 0x3c, 0x5a, 0x3c, 0x64, 0x5d, 0x64] &&
      Parse(f) == Some(PrefsCommand(p))
  {
    ParseEncode(PrefsCommand(p));
  }

  /** A step goal of 10000 goes on the wire as 0x10: the cast keeps only the low byte. */
  lemma StepGoalTruncated(p: UserPrefs)
    requires p.goal == 10000
    ensures Encode(PrefsCommand(p))[11] == 0x10
  {
  }

  /**
   * Initialisation subscribes to the measure characteristic, then writes the
   * date, the user prefs and the 12-hour clock mode on the control one.
   */
  lemma InitSequence(t: DateTime, p: UserPrefs)
    ensures var ops := InitOps(t, p);
      |ops| == 4 && ops[0] == Op.Notify(Measure, true) &&
      (forall i :: 1 <= i < 4 ==> ops[i].Write? && ops[i].channel == Control) &&
      Parse(ops[1].frame) == Some(DateCommand(t)) &&
      Parse(ops[2].frame) == Some(PrefsCommand(p)) &&
      Parse(ops[3].frame) == Some(ClockMode(true))
  {
    ParseEncode(DateCommand(t));
    ParseEncode(PrefsCommand(p));
    TemplateLayout();
  }

  /** The alarm ops hold one write per alarm, the `k`-th built from alarm `k` at position `k`. */
  lemma {:induction false} AlarmOpsAt(alarms: seq<Alarm>, k: nat)
    requires k < |alarms|
    ensures |AlarmOps(alarms)| == |alarms|
    ensures AlarmOps(alarms)[k] == Op.Write(Control, Encode(AlarmCommand(k, alarms[k])))
  {
    var n := |alarms| - 1;
    AlarmOpsLength(alarms[..n]);
    if k < n {
      AlarmOpsAt(alarms[..n], k);
    }
  }

  lemma {:induction false} AlarmOpsLength(alarms: seq<Alarm>)
    ensures |AlarmOps(alarms)| == |alarms|
  {
    if alarms != [] {
      AlarmOpsLength(alarms[..|alarms| - 1]);
    }
  }

  /**
   * The `k`-th alarm frame is `AB 00 08 FF 73 80 (k+1) en hour min 80`, with
   * the slot number narrowed to a byte: the 256th alarm goes out as slot 0.
   */
  lemma AlarmFrameLayout(alarms: seq<Alarm>, k: nat)
    requires k < |alarms|
    ensures |AlarmOps(alarms)| == |alarms|
    ensures var op := AlarmOps(alarms)[k];
      op.Write? && op.channel == Control &&
      op.frame == [0xab, 0x00, 0x08, 0xff, 0x73, 0x80, (k + 1) % 256, if alarms[k].enabled then 1 else 0,
                   alarms[k].hour % 256, alarms[k].minute % 256, 0x80] &&
      Parse(op.frame) == Some(SetAlarm((k + 1) % 256, alarms[k].enabled, alarms[k].hour % 256, alarms[k].minute % 256))
    ensures k < 255 ==> AlarmOps(alarms)[k].frame[6] == k + 1
    ensures k == 255 ==> AlarmOps(alarms)[k].frame[6] == 0
  {
    AlarmOpsAt(alarms, k);
    var c := AlarmCommand(k, alarms[k]);
    ParseEncode(c);
    assert c == SetAlarm((k + 1) % 256, alarms[k].enabled, alarms[k].hour % 256, alarms[k].minute % 256);
  }

  /** Every alarm frame is framed. */
  lemma {:induction false} AlarmOpsFramed(alarms: seq<Alarm>)
    ensures WritesFramed(AlarmOps(alarms))
  {
    if alarms != [] {
      var n := |alarms| - 1;
      AlarmOpsFramed(alarms[..n]);
      var prefix := AlarmOps(alarms[..n]);
      var last := Op.Write(Control, Encode(AlarmCommand(n, alarms[n])));
      assert AlarmOps(alarms) == prefix + [last];
      forall i | 0 <= i < |prefix| + 1 && (prefix + [last])[i].Write?
        ensures Framed((prefix + [last])[i].frame)
      {
        if i < |prefix| {
          assert (prefix + [last])[i] == prefix[i];
        }
      }
    }
  }

  /**
   * A single-shot test writes the enable frame `AB 00 04 FF 31 s 01`, holds
   * the queue for 40 s (heart rate, blood oxygen) or 60 s (blood pressure),
   * then writes the same frame ending in `00`; `s` is the sensor's timed
   * report sub-code.
   */
  lemma TimedTestShape(s: Sensor)
    ensures var ops := TimedTestOps(s);
      |ops| == 3 && ops[0].Write? && ops[2].Write? &&
      ops[0].channel == Control && ops[2].channel == Control &&
      ops[0].frame == [0xab, 0x00, 0x04, 0xff, 0x31, TestCode(s), 0x01] &&
      ops[1] == Op.Wait(TestDuration(s)) &&
      ops[2].frame == ops[0].frame[..6] + [0x00] &&
      Parse(ops[0].frame) == Some(SensorSwitch(ReportCode(s, false), true)) &&
      Parse(ops[2].frame) == Some(SensorSwitch(ReportCode(s, false), false))
    ensures TestDuration(s) == if s == BloodPressure then 60000 else 40000
  {
    ParseEncode(SensorSwitch(TestCode(s), true));
    ParseEncode(SensorSwitch(TestCode(s), false));
  }

  /**
   * The realtime heart-rate switch writes `AB 00 04 FF 31 09 <0|1>`: it uses
   * the timed heart-rate sub-code, not the realtime one.
   */
  lemma RealtimeUsesTimedCode(enable: bool)
    ensures var ops := RealtimeHeartRateOps(enable);
      |ops| == 1 && ops[0].Write? && ops[0].channel == Control &&
      ops[0].frame == [0xab, 0x00, 0x04, 0xff, 0x31, 0x09, if enable then 1 else 0] &&
      Parse(ops[0].frame) == Some(SensorSwitch(ReportCode(HeartRate, false), enable)) &&
      ops[0].frame[5] != ReportCode(HeartRate, true)
    ensures RealtimeHeartRateOps(enable)[0].frame == TimedTestOps(HeartRate)[if enable then 0 else 2].frame
  {
    ParseEncode(SensorSwitch(ReportCode(HeartRate, false), enable));
  }

  /**
   * Each of the five profile keys re-sends exactly one full prefs frame;
   * any other key sends nothing.
   */
  lemma ConfigResync(key: ConfigKey, p: UserPrefs)
    ensures |ConfigOps(key, p)| == if key.OtherKey? then 0 else 1
    ensures !key.OtherKey? ==>
              ConfigOps(key, p)[0].Write? && ConfigOps(key, p)[0].channel == Control &&
              |ConfigOps(key, p)[0].frame| == 20 &&
              Parse(ConfigOps(key, p)[0].frame) == Some(PrefsCommand(p))
  {
    ParseEncode(PrefsCommand(p));
  }

  /** Every frame the support code writes starts `AB 00 <len> FF` with `<len>` the length minus three. */
  lemma SequencesFramed(t: DateTime, p: UserPrefs, alarms: seq<Alarm>, s: Sensor, enable: bool, key: ConfigKey)
    ensures WritesFramed(InitOps(t, p))
    ensures WritesFramed(AlarmOps(alarms))
    ensures WritesFramed(TimedTestOps(s))
    ensures WritesFramed(RealtimeHeartRateOps(enable))
    ensures WritesFramed(ConfigOps(key, p))
    ensures WritesFramed(FindMeOps())
  {
    TemplateLayout();
    AlarmOpsFramed(alarms);
  }

  /**
   * Only device-info and battery notifications of at least eight bytes reach
   * the event handler; sensor, locate-phone and all-vitals readings do not.
   */
  lemma HandlerEvents(data: seq<byte>)
    ensures EventsOf(Classify(data)) != [] <==>
              |data| >= 8 && (data[4] == ReceiveDeviceInfo || data[4] == ReceiveBatteryLevel)
    ensures |data| >= 8 && data[4] == ReceiveDeviceInfo ==>
              EventsOf(Classify(data)) == [VersionInfo(Version(data[6], data[7] % 100))]
    ensures |data| >= 8 && data[4] == ReceiveBatteryLevel ==>
              EventsOf(Classify(data)) == [BatteryInfo(Signed(data[7]))]
  {
    ClassifyHandledIff(data);
    if |data| >= 5 {
      ReadsRawOffsets(data);
    }
  }

  class E26Support {
    /** The device state, and the states announced to the application, in order. */
    var state: DeviceState
    var published: seq<DeviceState>
    /** The fields of the reused version and battery event objects. */
    var fwVersion: Option<Version>
    var batteryLevel: Option<int>
    /** The events handed to the application, in order. */
    var events: seq<DeviceEvent>

    /** The event objects' fields hold what was last sent; the state is the last one announced. */
    ghost predicate Valid()
      reads this
    {
      fwVersion == LastVersion(events) && batteryLevel == LastBattery(events) &&
      (published != [] ==> state == published[|published| - 1])
    }

    constructor ()
      ensures Valid()
      ensures state == NotInitialized && published == [] && events == []
    {
      state := NotInitialized;
      published := [];
      fwVersion := None;
      batteryLevel := None;
      events := [];
    }

    /** Subscribe to the measure characteristic, sync settings, and announce the two states. */
    method InitializeDevice(tx: Transaction, now: DateTime, prefs: UserPrefs)
      requires Valid()
      modifies this, tx
      ensures Valid()
      ensures tx.ops == old(tx.ops) + InitOps(now, prefs)
      ensures state == Initialized
      ensures published == old(published) + [Initializing, Initialized]
      ensures events == old(events) && fwVersion == old(fwVersion) && batteryLevel == old(batteryLevel)
    {
      state := Initializing;
      published := published + [Initializing];
      tx.Notify(Measure, true);
      SyncSettings(tx, now, prefs);
      state := Initialized;
      published := published + [Initialized];
    }

    /** Classify one notification; version and battery readings update their event and are sent on. */
    method OnCharacteristicChanged(data: seq<byte>) returns (o: Outcome)
      requires Valid()
      modifies this
      ensures Valid()
      ensures o == Classify(data)
      ensures events == old(events) + EventsOf(o)
      ensures state == old(state) && published == old(published)
    {
      o := Classify(data);
      SendEvents(o);
    }

    /** Record what the handler read in the event objects and hand the events on. */
    method SendEvents(o: Outcome)
      requires Valid()
      modifies this
      ensures Valid()
      ensures events == old(events) + EventsOf(o)
      ensures state == old(state) && published == old(published)
    {
      match o
      case Handled(FirmwareVersion(v)) =>
        LastEventsAppend(events, VersionInfo(v));
        fwVersion := Some(v);
        events := events + [VersionInfo(v)];
      case Handled(BatteryLevel(l)) =>
        LastEventsAppend(events, BatteryInfo(l));
        batteryLevel := Some(l);
        events := events + [BatteryInfo(l)];
      case _ =>
    }

    method SyncDateAndTime(tx: Transaction, now: DateTime)
      modifies tx
      ensures tx.ops == old(tx.ops) + [Op.Write(Control, Encode(DateCommand(now)))]
    {
      tx.Write(Control, Encode(DateCommand(now)));
    }

    method SyncUserPrefs(tx: Transaction, prefs: UserPrefs)
      modifies tx
      ensures tx.ops == old(tx.ops) + [Op.Write(Control, Encode(PrefsCommand(prefs)))]
    {
      tx.Write(Control, Encode(PrefsCommand(prefs)));
    }

    method SyncSettings(tx: Transaction, now: DateTime, prefs: UserPrefs)
      modifies tx
      ensures tx.ops == old(tx.ops) + SettingsOps(now, prefs)
    {
      SyncDateAndTime(tx, now);
      SyncUserPrefs(tx, prefs);
      tx.Write(Control, CmdClockMode12Hour);
    }

    /** One frame per alarm, numbered from one in list order, with no cap on the count. */
    method OnSetAlarms(tx: Transaction, alarms: seq<Alarm>)
      modifies tx
      ensures tx.ops == old(tx.ops) + AlarmOps(alarms)
    {
      var i := 0;
      while i < |alarms|
        invariant 0 <= i <= |alarms|
        invariant tx.ops == old(tx.ops) + AlarmOps(alarms[..i])
      {
        var a := alarms[i];
        if a.enabled {
          tx.Write(Control, Encode(SetAlarm(ByteCast(i + 1), true, ByteCast(a.hour), ByteCast(a.minute))));
        } else {
          tx.Write(Control, Encode(SetAlarm(ByteCast(i + 1), false, ByteCast(a.hour), ByteCast(a.minute))));
        }
        assert alarms[..i + 1][..i] == alarms[..i];
        i := i + 1;
      }
      assert alarms[..i] == alarms;
    }

    method OnSetTime(tx: Transaction, now: DateTime)
      modifies tx
      ensures tx.ops == old(tx.ops) + [Op.Write(Control, Encode(DateCommand(now)))]
    {
      SyncDateAndTime(tx, now);
    }

    /** Enable the single-shot test of `s`, hold the queue, then disable it. */
    method RunTimedTest(tx: Transaction, s: Sensor)
      modifies tx
      ensures tx.ops == old(tx.ops) + TimedTestOps(s)
    {
      tx.Write(Control, Encode(SensorSwitch(TestCode(s), true)));
      tx.Wait(TestDuration(s));
      tx.Write(Control, Encode(SensorSwitch(TestCode(s), false)));
    }

    method OnHeartRateTest(tx: Transaction)
      modifies tx
      ensures tx.ops == old(tx.ops) + TimedTestOps(HeartRate)
    {
      RunTimedTest(tx, HeartRate);
    }

    method OnBloodOxygenTest(tx: Transaction)
      modifies tx
      ensures tx.ops == old(tx.ops) + TimedTestOps(BloodOxygen)
    {
      RunTimedTest(tx, BloodOxygen);
    }

    /** The blood-pressure single-shot test. */
    method OnTestNewFunction(tx: Transaction)
      modifies tx
      ensures tx.ops == old(tx.ops) + TimedTestOps(BloodPressure)
    {
      RunTimedTest(tx, BloodPressure);
    }

    method OnEnableRealtimeHeartRateMeasurement(tx: Transaction, enable: bool)
      modifies tx
      ensures tx.ops == old(tx.ops) + RealtimeHeartRateOps(enable)
    {
      var enabled: byte := if enable then 1 else 0;
      tx.Write(Control, [0xab, 0x00, 0x04, 0xff, 0x31, 0x09, enabled]);
    }

    /** A change to one of the five profile keys re-sends the whole prefs frame. */
    method OnSendConfiguration(tx: Transaction, key: ConfigKey, prefs: UserPrefs)
      modifies tx
      ensures tx.ops == old(tx.ops) + ConfigOps(key, prefs)
    {
      match key
      case MeasurementSystem => SyncUserPrefs(tx, prefs);
      case UserHeightCm => SyncUserPrefs(tx, prefs);
      case UserYearOfBirth => SyncUserPrefs(tx, prefs);
      case UserWeightKg => SyncUserPrefs(tx, prefs);
      case UserStepsGoal => SyncUserPrefs(tx, prefs);
      case OtherKey(_) =>
    }

    method OnFindDevice(tx: Transaction, start: bool)
      modifies tx
      ensures tx.ops == old(tx.ops) + FindMeOps()
    {
      SetFindMe(tx, start);
    }

    /** Writes the find-bracelet frame; the requested on/off flag is ignored. */
    method SetFindMe(tx: Transaction, on: bool)
      modifies tx
      ensures tx.ops == old(tx.ops) + FindMeOps()
    {
      tx.Write(Control, CmdFindBracelet);
    }
  }
}
