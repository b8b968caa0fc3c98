# WakeupTech E26 band: frame codec and command sequencer

This project models the part of Gadgetbridge's WakeupTech E26 support that
speaks the band's private framed byte protocol. It has three parts:

- **Outgoing frames** (`frames.dfy`, `e26_support.dfy`). Every frame the host
  writes starts `AB 00 <len> FF`. Byte 2 is the frame length minus three. Then
  come a selector byte, `0x80` or a sensor sub-code, and positional payload
  bytes. `Frames.Command` names the six frame kinds: date/time, user prefs,
  alarm, sensor switch, find bracelet and clock mode. `Frames.Encode` lays a
  command out byte for byte. `Frames.Parse` reads a frame back; it exists to
  prove that each frame carries exactly its command.
- **Incoming notifications** (`notifications.dfy`). `Notifications.Classify`
  follows `onCharacteristicChanged`. It switches on raw byte 4 and, for sensor
  reports (`0x31`), on raw byte 5. Values are read at offsets of the raw
  buffer. Each read beyond the end throws, so the result is either the
  `Reading` taken or the `Fault` hit.
- **Command sequences** (`e26_support.dfy`). `Transactions.Transaction` is the
  op log the support code appends to: `Notify`, `Write` and `Wait`. The class
  `E26.E26Support` holds the device state and the states announced to the
  application. It also holds the reused version and battery event objects and
  the events handed on. Each of its methods states the ops it appends as a
  function of its inputs (`InitOps`, `AlarmOps`, `TimedTestOps`, ...). The
  lemmas beside those functions decode each appended frame.

Java's `byte` is modelled as its unsigned bit pattern (`JavaBytes.byte`,
0..255). `JavaBytes.ByteCast` is the narrowing cast `(byte) x`, and
`JavaBytes.Signed` is Java's sign-extending widening.

Behaviour of the code that the model keeps as written:

- A buffer shorter than 4 bytes, the empty buffer included, fails in the header
  copy from offset 4. The `data.length == 0`
  guard comes after that copy, so it never returns cleanly. A 4-byte buffer
  fails when it reads the first body byte. The model returns `Thrown(...)` for
  both rather than "no event".
- Sub-code `0x09` is the *timed* heart-rate code; `0x0a` is the realtime one.
  The realtime heart-rate switch still writes `0x09`.
- Out-of-range slot values are not rejected. They are narrowed by Java's cast:
  the step goal keeps its low byte, and alarm slot 256 goes out as 0.
- The prefs frame ends in eight constant bytes, `5A 82 3C 5A 3C 64 5D 64`.
- The year bytes of the date frame are always `07 E1` (2017).
- Only device-info and battery notifications reach the event handler. Sensor
  and locate-phone readings are only shown to the user. The all-vitals values
  (raw bytes 7..10) are read and thrown away; its message shows raw byte 6.
  The battery charge status byte is read but not used.
- An unknown selector or sub-code is `Unhandled` / `UnhandledSensor`, and the
  handler still returns normally.

## Model

| member | source | states |
|---|---|---|
| JavaBytes.ByteCast | app/src/main/java/nodomain/freeyourgadget/gadgetbridge/service/devices/wakeuptech/E26Support.java:183-187 | `(byte) x` is the byte congruent to x mod 256; values already in 0..255 pass through unchanged |
| JavaBytes.Signed | app/src/main/java/nodomain/freeyourgadget/gadgetbridge/service/devices/wakeuptech/E26Support.java:163 | widening a byte gives a value in -128..127 that casts back to the same byte, equal to the byte exactly when it is below 128 |
| WakeupTechConstants.SelectorsDistinct | app/src/main/java/nodomain/freeyourgadget/gadgetbridge/devices/wakeuptech/wakeuptechConstants.java:27-43 | the five dispatched selectors are pairwise distinct, and the steps-data selector 0xF9 is not among them |
| Frames.Encode | app/src/main/java/nodomain/freeyourgadget/gadgetbridge/service/devices/wakeuptech/E26Support.java:188-262 | every outgoing frame (the date, prefs and alarm literals here, the sensor switches at 349-350 and 367, the constant templates) starts `AB 00 <len> FF` with `<len>` equal to its length minus three |
| Frames.Parse | app/src/main/java/nodomain/freeyourgadget/gadgetbridge/service/devices/wakeuptech/E26Support.java:188-367 | reads back every layout the code writes (date, prefs, alarm, sensor switch, and the find-bracelet and clock-mode templates): a frame that Parse accepts is exactly the encoding of the command it returns |
| Frames.ParseEncode | app/src/main/java/nodomain/freeyourgadget/gadgetbridge/service/devices/wakeuptech/E26Support.java:188-367 | reading back the encoding of any command gives that command: every slot lands in its own position |
| Frames.EncodeInjective | app/src/main/java/nodomain/freeyourgadget/gadgetbridge/service/devices/wakeuptech/E26Support.java:262 | distinct commands are written as distinct frames |
| Frames.TemplateLayout | app/src/main/java/nodomain/freeyourgadget/gadgetbridge/devices/wakeuptech/wakeuptechConstants.java:46-48 | find-bracelet is `AB 00 03 FF 71 80`; the 12h and 24h clock frames have 7 bytes, agree on bytes 0..5 and hold 01 and 00 at index 6; all three are framed |
| Notifications.ReportCodesDistinct | app/src/main/java/nodomain/freeyourgadget/gadgetbridge/devices/wakeuptech/wakeuptechConstants.java:34-41 | each realtime sub-code is its timed sub-code plus one, and the six sub-codes are pairwise distinct, so a sub-code names one sensor and one mode |
| Notifications.FirstUnreadable | app/src/main/java/nodomain/freeyourgadget/gadgetbridge/service/devices/wakeuptech/E26Support.java:116-171 | reading offsets in order fails at the first offset beyond the buffer, and fails at all exactly when some offset is beyond it |
| Notifications.Check | app/src/main/java/nodomain/freeyourgadget/gadgetbridge/service/devices/wakeuptech/E26Support.java:114-171 | a branch's reads raise no fault exactly when every offset it reads lies inside the buffer |
| Notifications.ClassifyHandledIff | app/src/main/java/nodomain/freeyourgadget/gadgetbridge/service/devices/wakeuptech/E26Support.java:109-114 | the handler returns exactly when the buffer reaches the length its branch needs; buffers under 4 bytes, the empty one included, fail in the header copy; an index fault names an offset really beyond the buffer |
| Notifications.LongBuffersHandled | app/src/main/java/nodomain/freeyourgadget/gadgetbridge/service/devices/wakeuptech/E26Support.java:167-171 | a buffer of 11 bytes or more never makes the handler throw |
| Notifications.UnknownCodesUnhandled | app/src/main/java/nodomain/freeyourgadget/gadgetbridge/service/devices/wakeuptech/E26Support.java:157-177 | an undispatched selector (steps data 0xF9 included) or an unknown sensor sub-code is returned as unhandled, with no fault |
| Notifications.ReadsRawOffsets | app/src/main/java/nodomain/freeyourgadget/gadgetbridge/service/devices/wakeuptech/E26Support.java:115-171 | firmware is unsigned byte 6 and byte 7 mod 100; battery is signed byte 7; locate-phone is signed byte 6; all vitals are signed bytes 7..10; all offsets are of the raw buffer |
| Notifications.SensorReport | app/src/main/java/nodomain/freeyourgadget/gadgetbridge/service/devices/wakeuptech/E26Support.java:130-161 | a sensor report of at least 7 bytes (8 for blood pressure) with the sub-code of sensor s in a given mode yields a reading of s in that mode, valued from signed byte 6 (and byte 7 for blood pressure) |
| Notifications.SampleNotifications | app/src/main/java/nodomain/freeyourgadget/gadgetbridge/service/devices/wakeuptech/E26Support.java:114-178 | sample buffers: battery 87; sub-code 0x09 with 72 is a timed pulse; vitals 70/98/120/80; selector 0x55 unhandled; the empty buffer faults |
| Notifications.Classify | app/src/main/java/nodomain/freeyourgadget/gadgetbridge/service/devices/wakeuptech/E26Support.java:109-178 | only buffers under 4 bytes fail in the header copy; every index fault names an offset beyond the buffer; a returned reading needs at least 5 bytes; an undispatched selector is unhandled |
| Notifications.ClassifySensor | app/src/main/java/nodomain/freeyourgadget/gadgetbridge/service/devices/wakeuptech/E26Support.java:130-161 | a sensor report faults only at the buffer's first missing byte; an unknown sub-code is unhandled; a known sub-code that is read yields a reading of its sensor |
| E26.DateCommand | app/src/main/java/nodomain/freeyourgadget/gadgetbridge/service/devices/wakeuptech/E26Support.java:183-188 | within calendar ranges the date slots are month index + 1 (1..12), day, hour, minute and second, unchanged by the byte casts |
| E26.PrefsCommand | app/src/main/java/nodomain/freeyourgadget/gadgetbridge/service/devices/wakeuptech/E26Support.java:193-209 | age, height, weight and unit go out verbatim; the step goal goes out congruent mod 256, unchanged only when it is below 256 |
| E26.AlarmCommand | app/src/main/java/nodomain/freeyourgadget/gadgetbridge/service/devices/wakeuptech/E26Support.java:253-262 | the slot is position + 1, wrapping to 0 at the 256th alarm; the enabled flag is kept; in-range hour and minute go out unchanged |
| E26.SettingsOps | app/src/main/java/nodomain/freeyourgadget/gadgetbridge/service/devices/wakeuptech/E26Support.java:215-222 | three framed writes, all on Control |
| E26.InitOps | app/src/main/java/nodomain/freeyourgadget/gadgetbridge/service/devices/wakeuptech/E26Support.java:88-90 | four ops, the first subscribing to Measure, every write framed |
| E26.TimedTestOps | app/src/main/java/nodomain/freeyourgadget/gadgetbridge/service/devices/wakeuptech/E26Support.java:352-354 | three ops with the sensor's wait in the middle, every write framed |
| E26.RealtimeHeartRateOps | app/src/main/java/nodomain/freeyourgadget/gadgetbridge/service/devices/wakeuptech/E26Support.java:367-369 | one framed write |
| E26.ConfigOps | app/src/main/java/nodomain/freeyourgadget/gadgetbridge/service/devices/wakeuptech/E26Support.java:382-398 | at most one op, every write framed |
| E26.FindMeOps | app/src/main/java/nodomain/freeyourgadget/gadgetbridge/service/devices/wakeuptech/E26Support.java:494-497 | one framed write |
| E26.EventsOf | app/src/main/java/nodomain/freeyourgadget/gadgetbridge/service/devices/wakeuptech/E26Support.java:115-129 | at most one event, and one exactly for a firmware-version or battery reading |
| E26.DateFrameLayout | app/src/main/java/nodomain/freeyourgadget/gadgetbridge/service/devices/wakeuptech/E26Support.java:181-190 | the date frame has 14 bytes: `AB 00 0B FF 93 80 00 07 E1`, then month index + 1 (1..12), day, hour, minute and second; the year does not affect it |
| E26.PrefsFrameLayout | app/src/main/java/nodomain/freeyourgadget/gadgetbridge/service/devices/wakeuptech/E26Support.java:192-213 | the prefs frame has 20 bytes: `AB 00 11 FF 74 80 47`, age, height, weight, unit, goal mod 256, then `5A 82 3C 5A 3C 64 5D 64` |
| E26.StepGoalTruncated | app/src/main/java/nodomain/freeyourgadget/gadgetbridge/service/devices/wakeuptech/E26Support.java:197 | a step goal of 10000 goes on the wire as 0x10: the cast truncates and does not range-check |
| E26.InitSequence | app/src/main/java/nodomain/freeyourgadget/gadgetbridge/service/devices/wakeuptech/E26Support.java:215-222 | initialisation appends exactly four ops: subscribe to Measure, then on Control the date frame, the prefs frame and 12-hour clock mode |
| E26.AlarmOpsAt | app/src/main/java/nodomain/freeyourgadget/gadgetbridge/service/devices/wakeuptech/E26Support.java:250-265 | one write per alarm with no cap on the count; the k-th write is built from alarm k at list position k |
| E26.AlarmOpsLength | app/src/main/java/nodomain/freeyourgadget/gadgetbridge/service/devices/wakeuptech/E26Support.java:250 | the number of alarm frames equals the number of alarms |
| E26.AlarmFrameLayout | app/src/main/java/nodomain/freeyourgadget/gadgetbridge/service/devices/wakeuptech/E26Support.java:249-264 | the k-th frame is `AB 00 08 FF 73 80 (k+1) en hour min 80` with en 1 or 0; slot k+1 is narrowed to a byte, so the 256th alarm gets slot 0 |
| E26.AlarmOpsFramed | app/src/main/java/nodomain/freeyourgadget/gadgetbridge/service/devices/wakeuptech/E26Support.java:256-262 | every alarm frame carries the preamble and a correct length byte |
| E26.TimedTestShape | app/src/main/java/nodomain/freeyourgadget/gadgetbridge/service/devices/wakeuptech/E26Support.java:349-354 | a single-shot test appends enable `AB 00 04 FF 31 s 01`, Wait(d), then the same frame ending 00; s is the timed report sub-code; d is 40000 (heart rate, blood oxygen) or 60000 (blood pressure) |
| E26.RealtimeUsesTimedCode | app/src/main/java/nodomain/freeyourgadget/gadgetbridge/service/devices/wakeuptech/E26Support.java:366-369 | the realtime heart-rate switch writes `AB 00 04 FF 31 09 <1/0>`, the same frames as the heart-rate test's enable/disable, and not the realtime sub-code 0x0a |
| E26.ConfigResync | app/src/main/java/nodomain/freeyourgadget/gadgetbridge/service/devices/wakeuptech/E26Support.java:382-398 | each of the five profile keys re-sends exactly one full 20-byte prefs frame; any other key sends nothing |
| E26.SequencesFramed | app/src/main/java/nodomain/freeyourgadget/gadgetbridge/service/devices/wakeuptech/E26Support.java:77-497 | every frame written by initialisation, alarms, tests, realtime heart rate, configuration and find-device is framed |
| E26.HandlerEvents | app/src/main/java/nodomain/freeyourgadget/gadgetbridge/service/devices/wakeuptech/E26Support.java:115-129 | an event is sent exactly for device-info and battery notifications of at least 8 bytes, carrying the firmware version or the signed level |
| E26.LastEventsAppend | app/src/main/java/nodomain/freeyourgadget/gadgetbridge/service/devices/wakeuptech/E26Support.java:120-125 | sending a version or battery event updates only the record of its own kind |
| E26.E26Support.InitializeDevice | app/src/main/java/nodomain/freeyourgadget/gadgetbridge/service/devices/wakeuptech/E26Support.java:77-98 | appends InitOps; state becomes Initialized; Initializing then Initialized are announced; the event records are untouched |
| E26.E26Support.OnCharacteristicChanged | app/src/main/java/nodomain/freeyourgadget/gadgetbridge/service/devices/wakeuptech/E26Support.java:100-179 | returns the classification and appends its events; the event fields keep matching the last event of each kind |
| E26.E26Support.SendEvents | app/src/main/java/nodomain/freeyourgadget/gadgetbridge/service/devices/wakeuptech/E26Support.java:119-127 | version and battery readings overwrite the reused event's field and are handed on; nothing else changes |
| E26.E26Support.SyncDateAndTime | app/src/main/java/nodomain/freeyourgadget/gadgetbridge/service/devices/wakeuptech/E26Support.java:181-190 | appends one Control write of the date frame |
| E26.E26Support.SyncUserPrefs | app/src/main/java/nodomain/freeyourgadget/gadgetbridge/service/devices/wakeuptech/E26Support.java:192-213 | appends one Control write of the prefs frame |
| E26.E26Support.SyncSettings | app/src/main/java/nodomain/freeyourgadget/gadgetbridge/service/devices/wakeuptech/E26Support.java:215-222 | appends the date, prefs and 12-hour clock writes in that order |
| E26.E26Support.OnSetAlarms | app/src/main/java/nodomain/freeyourgadget/gadgetbridge/service/devices/wakeuptech/E26Support.java:242-270 | appends AlarmOps(alarms): one frame per alarm in list order |
| E26.E26Support.OnSetTime | app/src/main/java/nodomain/freeyourgadget/gadgetbridge/service/devices/wakeuptech/E26Support.java:272-281 | appends the date frame |
| E26.E26Support.RunTimedTest | app/src/main/java/nodomain/freeyourgadget/gadgetbridge/service/devices/wakeuptech/E26Support.java:352-354 | appends enable, wait, disable for the sensor |
| E26.E26Support.OnHeartRateTest | app/src/main/java/nodomain/freeyourgadget/gadgetbridge/service/devices/wakeuptech/E26Support.java:346-360 | appends the heart-rate test ops (0x09, 40 s) |
| E26.E26Support.OnBloodOxygenTest | app/src/main/java/nodomain/freeyourgadget/gadgetbridge/service/devices/wakeuptech/E26Support.java:448-462 | appends the blood-oxygen test ops (0x11, 40 s) |
| E26.E26Support.OnTestNewFunction | app/src/main/java/nodomain/freeyourgadget/gadgetbridge/service/devices/wakeuptech/E26Support.java:472-487 | appends the blood-pressure test ops (0x21, 60 s) |
| E26.E26Support.OnEnableRealtimeHeartRateMeasurement | app/src/main/java/nodomain/freeyourgadget/gadgetbridge/service/devices/wakeuptech/E26Support.java:362-375 | appends the one 0x31 0x09 switch frame ending in 1 or 0 |
| E26.E26Support.OnSendConfiguration | app/src/main/java/nodomain/freeyourgadget/gadgetbridge/service/devices/wakeuptech/E26Support.java:377-403 | appends ConfigOps: the full prefs frame for a profile key, nothing otherwise |
| E26.E26Support.OnFindDevice | app/src/main/java/nodomain/freeyourgadget/gadgetbridge/service/devices/wakeuptech/E26Support.java:405-416 | appends the find-bracelet frame whether `start` is true or false |
| E26.E26Support.SetFindMe | app/src/main/java/nodomain/freeyourgadget/gadgetbridge/service/devices/wakeuptech/E26Support.java:494-497 | appends the find-bracelet frame; `state` is ignored |

## Left out

- Bluetooth plumbing is not modelled: characteristic lookup, the GATT callback, `performInitialized`, `performConnected`, `queue`, `super.onCharacteristicChanged` and the UUIDs. Characteristics are the `Channel` tag, and a transaction is its op log.
- `performInitialized` may prepend its own initialisation or throw `IOException`. Every operation here receives the transaction it returned, and the catch paths are not modelled.
- Toasts and logging are not modelled, including the default branches' print of `data[0]`. That print cannot fail, because the buffer has at least 5 bytes there.
- The firmware string is float formatting (`String.valueOf(float)`). The model carries the integers (major, minor mod 100) instead.
- The wall clock (`Calendar`), the profile values read through the device coordinator and each alarm's calendar are inputs. They are passed in as `DateTime`, `UserPrefs` and `Alarm`.
- The preference keys are string constants defined outside these files. They are modelled as the `ConfigKey` datatype, with `OtherKey` for every other string.
- The real 40 s / 60 s delay is not modelled; only the `Wait(ms)` op is recorded.
- The commented-out imperial conversion is not modelled. It is dead code and uses floating point.
- Not modelled: the empty override stubs, `onReturnAllVitals`, `showNotification`, `useAutoConnect` and the unused `CMD_SET_*`, `CMD_GET_*`, `CMD_ACTION_*` and `ICON_*` constants. None of them has logic.
- The `DebugType` enum is not part of this model.
- E26.E26Support.OnCharacteristicChanged: the version and battery events are the same two objects every time, so an event already handed on sees later updates to them. The model logs event values and does not capture that aliasing.
- E26.E26Support.InitializeDevice: the announcements are modelled as a log of states. Characteristic fields assigned during initialisation are not modelled, so neither is a write issued before they are set.
