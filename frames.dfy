/**
 * Outgoing frames of the E26 band.
 *
 * Every frame the host writes starts with the preamble `AB 00 <len> FF`, where
 * `<len>` is the frame length minus three, followed by a command selector, then
 * `0x80` or a sensor sub-code, then positional payload bytes.  `Command` names
 * each frame the support code writes, `Encode` lays it out byte for byte, and
 * `Parse` is the reference reading of a frame, used to state that every frame
 * carries exactly the command it was built from.
 */
module Frames {
  import opened JavaBytes
  import opened Wrappers
  import opened WakeupTechConstants

  /** The preamble and length byte every outgoing frame carries. */
  predicate Framed(f: seq<byte>) {
    |f| >= 5 && f[0] == 0xab && f[1] == 0x00 && f[2] == |f| - 3 && f[3] == 0xff
  }

  /** The outgoing commands; every slot holds the byte that goes on the wire. */
  datatype Command =
    | SetDateTime(month: byte, day: byte, hour: byte, minute: byte, second: byte)
    | SetUserPrefs(age: byte, height: byte, weight: byte, unit: byte, goal: byte)
    | SetAlarm(slot: byte, enabled: bool, hour: byte, minute: byte)
    | SensorSwitch(code: byte, on: bool)
    | FindBracelet
    | ClockMode(twelveHour: bool)

  /** The year slot of the date frame is fixed at 0x07E1. */
  const FixedYear: seq<byte> := [0x07, 0xe1]
  /** The step length written in the prefs frame (metric only). */
  const StepLength: byte := 0x47
  /** The eight constant trailing bytes of the prefs frame, of unknown meaning. */
  const PrefsTail: seq<byte> := [0x5a, 0x82, 0x3c, 0x5a, 0x3c, 0x64, 0x5d, 0x64]
  /** The alarm type byte: one-time alarm. */
  const AlarmType: byte := 0x80

  function Flag(b: bool): (r: byte)
    ensures r <= 1 && (r == 1 <==> b)
  {
    if b then 1 else 0
  }

  /** The bytes written for `c`. */
  function Encode(c: Command): (f: seq<byte>)
    ensures Framed(f)
  {
    match c
    case SetDateTime(mo, d, h, mi, s) =>
      [0xab, 0x00, 0x0b, 0xff, 0x93, 0x80, 0x00] + FixedYear + [mo, d, h, mi, s]
    case SetUserPrefs(a, h, w, u, g) =>
      [0xab, 0x00, 0x11, 0xff, 0x74, 0x80, StepLength, a, h, w, u, g] + PrefsTail
    case SetAlarm(n, en, h, m) =>
      [0xab, 0x00, 0x08, 0xff, 0x73, 0x80, n, Flag(en), h, m, AlarmType]
    case SensorSwitch(code, on) =>
      [0xab, 0x00, 0x04, 0xff, 0x31, code, Flag(on)]
    case FindBracelet =>
      CmdFindBracelet
    case ClockMode(twelve) =>
      if twelve then CmdClockMode12Hour else CmdClockMode24Hour
  }

  /** The command a frame carries, if it is one of the frames above. */
  function Parse(f: seq<byte>): (c: Option<Command>)
    ensures c.Some? ==> Encode(c.value) == f
  {
    if !Framed(f) then None
    else if f[4] == 0x93 && |f| == 14 && f[5] == 0x80 && f[6] == 0x00 && f[7..9] == FixedYear then
      assert f == [0xab, 0x00, 0x0b, 0xff, 0x93, 0x80, 0x00] + FixedYear + f[9..];
      Some(SetDateTime(f[9], f[10], f[11], f[12], f[13]))
    else if f[4] == 0x74 && |f| == 20 && f[5] == 0x80 && f[6] == StepLength && f[12..] == PrefsTail then
      assert f == f[..12] + PrefsTail;
      Some(SetUserPrefs(f[7], f[8], f[9], f[10], f[11]))
    else if f[4] == 0x73 && |f| == 11 && f[5] == 0x80 && f[7] <= 1 && f[10] == AlarmType then
      Some(SetAlarm(f[6], f[7] == 1, f[8], f[9]))
    else if f[4] == 0x31 && |f| == 7 && f[6] <= 1 then
      Some(SensorSwitch(f[5], f[6] == 1))
    else if f[4] == 0x71 && |f| == 6 && f[5] == 0x80 then
      Some(FindBracelet)
    else if f[4] == 0x7c && |f| == 7 && f[5] == 0x80 && f[6] <= 1 then
      Some(ClockMode(f[6] == 1))
    else None
  }

  /** Reading a frame back gives the command it was built from. */
  lemma ParseEncode(c: Command)
    ensures Parse(Encode(c)) == Some(c)
  {
    var f := Encode(c);
    match c
    case SetDateTime(mo, d, h, mi, s) =>
      assert f[7..9] == FixedYear;
    case SetUserPrefs(a, h, w, u, g) =>
      assert f[12..] == PrefsTail;
    case _ =>
  }

  /** Distinct commands are written as distinct frames. */
  lemma EncodeInjective(c: Command, d: Command)
    requires Encode(c) == Encode(d)
    ensures c == d
  {
    ParseEncode(c);
    ParseEncode(d);
  }

  /**
   * The constant templates: find-device is `AB 00 03 FF 71 80`; the two
   * clock-mode frames have seven bytes and differ only in the flag at index 6.
   */
  lemma TemplateLayout()
    ensures Framed(CmdFindBracelet) && Framed(CmdClockMode12Hour) && Framed(CmdClockMode24Hour)
    ensures Parse(CmdFindBracelet) == Some(FindBracelet)
    ensures Parse(CmdClockMode12Hour) == Some(ClockMode(true))
    ensures Parse(CmdClockMode24Hour) == Some(ClockMode(false))
    ensures |CmdClockMode12Hour| == |CmdClockMode24Hour| == 7
    ensures forall i :: 0 <= i < 6 ==> CmdClockMode12Hour[i] == CmdClockMode24Hour[i]
    ensures CmdClockMode12Hour[6] == 0x01 && CmdClockMode24Hour[6] == 0x00
  {
    ParseEncode(FindBracelet);
    ParseEncode(ClockMode(true));
    ParseEncode(ClockMode(false));
  }
}
