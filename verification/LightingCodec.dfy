/** Global lighting settings as the keyboard stores and reports them: seven bytes, not all
    of which the writer would produce. */
module LightingCodec {
  import opened Wrappers
  import opened SettingsCodec

  const LED_READ: Byte := 0x87
  const LED_WRITE: Byte := 0x07

  type Rgb = (Byte, Byte, Byte)

  const WHITE: Rgb := (255, 255, 255)
  const WHITE_WIRE: Rgb := (250, 255, 250)

  datatype Setting = Setting(
    effect: Byte, value: Option<Byte>, speed: Option<Byte>, option: Option<Byte>, rgb: Option<Rgb>, dazzle: bool)

  // ------------------------------------------------------------ the effect catalog

  predicate HasEffect(id: Byte) {
    id <= 22
  }

  predicate HasValue(id: Byte) {
    id != 0 && id != 21
  }

  predicate HasSpeed(id: Byte) {
    (2 <= id <= 12) || (14 <= id <= 19)
  }

  /** Effects with a color also have the rainbow ("dazzle") variant. */
  predicate HasColor(id: Byte) {
    id != 0 && id != 3 && id != 13 && id != 21
  }

  function OptionCount(id: Byte): nat {
    match id
    case 4 => 4
    case 7 => 2
    case 11 => 2
    case 12 => 2
    case 13 => 3
    case 15 => 2
    case 20 => 3
    case 22 => 3
    case _ => 0
  }

  predicate Music(id: Byte) {
    id == 20 || id == 22
  }

  predicate ValidSetting(s: Setting) {
    && HasEffect(s.effect)
    && (s.value.Some? <==> HasValue(s.effect)) && (s.value.Some? ==> s.value.value <= 4)
    && (s.speed.Some? <==> HasSpeed(s.effect)) && (s.speed.Some? ==> s.speed.value <= 4)
    && (if OptionCount(s.effect) == 0 then s.option.None? else s.option.Some? && s.option.value < OptionCount(s.effect))
    && (s.rgb.Some? <==> HasColor(s.effect)) && (s.dazzle ==> HasColor(s.effect))
  }

  // ------------------------------------------------------------ writing

  function ColorMode(s: Setting): Byte {
    if s.effect == 13 then 0
    else if Music(s.effect) then if s.dazzle then 0 else 4
    else if s.dazzle then 8
    else 7
  }

  function WireRgb(s: Setting): Rgb {
    if s.effect == 13 then (0, 200, 200)
    else if s.rgb.None? then (0, 0, 0)
    else if s.rgb.value == WHITE then WHITE_WIRE
    else s.rgb.value
  }

  /** Bytes one to seven of the setter. */
  function SettingBytes(s: Setting): (bytes: seq<Byte>)
    requires ValidSetting(s)
    ensures |bytes| == 7
  {
    var color := WireRgb(s);
    [s.effect,
     4 - (if s.speed.Some? then s.speed.value else 0),
     if s.effect == 21 then 4 else if s.value.Some? then s.value.value else 0,
     16 * (if s.option.Some? then s.option.value else 0) + ColorMode(s),
     color.0, color.1, color.2]
  }

  function SetterFor(s: Setting): (report: Reply)
    requires ValidSetting(s)
    ensures report[1..8] == SettingBytes(s)
  {
    [LED_WRITE] + SettingBytes(s) + seq(56, i => 0)
  }

  // ------------------------------------------------------------ reading

  const COMMON: seq<Rgb> := [(255, 0, 0), (255, 128, 0), (255, 255, 0), (0, 255, 0), (0, 255, 255), (0, 0, 255), (255, 0, 255)]

  function Dazzles(id: Byte, low: Byte): Option<bool> {
    if (id == 3 || id == 13) && low == 0 then Some(false)
    else if Music(id) && low == 0 then Some(true)
    else if Music(id) && low == 4 then Some(false)
    else if low == 8 && HasColor(id) then Some(true)
    else if low == 7 then Some(false)
    else if low <= 6 && HasColor(id) then Some(false)
    else None
  }

  function ReadRgb(raw: Reply, low: Byte): Rgb {
    var shown := (raw[5], raw[6], raw[7]);
    if !Music(raw[1]) && low <= 6 then COMMON[low]
    else if shown == WHITE_WIRE then WHITE
    else shown
  }

  /** The setting a reply shows, when none of its bits would be lost. */
  function Recognized(raw: Reply): (s: Option<Setting>)
    ensures s.Some? ==> ValidSetting(s.value)
  {
    var id, high, low := raw[1], raw[4] / 16, raw[4] % 16;
    if !HasEffect(id) || (if OptionCount(id) == 0 then high != 0 else high >= OptionCount(id)) then None
    else
      var dazzle := Dazzles(id, low);
      if dazzle.None? then None
      else
        var s := Setting(id, if HasValue(id) then Some(raw[3]) else None,
                         if HasSpeed(id) && raw[2] <= 4 then Some(4 - raw[2]) else None,
                         if OptionCount(id) == 0 then None else Some(high),
                         if HasColor(id) then Some(ReadRgb(raw, low)) else None, dazzle.value);
        if ValidSetting(s) then Some(s) else None
  }

  /** A reply whose setting bytes the writer itself would produce. */
  predicate Canonical(raw: Reply) {
    Recognized(raw).Some? && SettingBytes(Recognized(raw).value) == raw[1..8]
  }

  /** Whatever this writer wrote is read back as something it would write again. */
  lemma {:induction false} WrittenIsCanonical(s: Setting, raw: Reply)
    requires ValidSetting(s) && raw[1..8] == SettingBytes(s)
    ensures Canonical(raw)
  {
    var bytes := raw[1..8];
    assert raw[1] == bytes[0] && raw[2] == bytes[1] && raw[3] == bytes[2] && raw[4] == bytes[3];
    assert raw[5] == bytes[4] && raw[6] == bytes[5] && raw[7] == bytes[6];
    var option := if s.option.Some? then s.option.value else 0;
    SplitOption(option, ColorMode(s));
    assert raw[4] / 16 == option && raw[4] % 16 == ColorMode(s);
  }

  /** The setting that the keyboard shows of a written one: only a color that happens to be the
      writer's spelling of white is taken for white. */
  function ReadAs(s: Setting): Setting {
    if s.rgb == Some(WHITE_WIRE) then s.(rgb := Some(WHITE)) else s
  }

  /** Every valid setting is read back as it was written, that one color apart; so reading
      undoes writing if and only if the color is not that one. */
  lemma {:induction false} WrittenIsRead(s: Setting, raw: Reply)
    requires ValidSetting(s) && raw[1..8] == SettingBytes(s)
    ensures Recognized(raw) == Some(ReadAs(s))
    ensures Recognized(raw) == Some(s) <==> s.rgb != Some(WHITE_WIRE)
  {
    var bytes := raw[1..8];
    assert raw[1] == bytes[0] && raw[2] == bytes[1] && raw[3] == bytes[2] && raw[4] == bytes[3];
    assert raw[5] == bytes[4] && raw[6] == bytes[5] && raw[7] == bytes[6];
    var option := if s.option.Some? then s.option.value else 0;
    SplitOption(option, ColorMode(s));
    assert raw[4] / 16 == option && raw[4] % 16 == ColorMode(s);
  }

  lemma {:induction false} SplitOption(option: nat, mode: nat)
    requires mode < 16
    ensures (16 * option + mode) / 16 == option && (16 * option + mode) % 16 == mode
  {
  }

  /** A recognized preset color is stored as a palette index that the writer never uses: the
      reply is recognized, yet writing its setting back changes its bytes. */
  lemma {:induction false} PaletteColorIsNotCanonical()
    ensures var raw: Reply := [LED_READ, 1, 4, 4, 0, 7, 8, 9] + seq(56, i => 0);
      Recognized(raw) == Some(Setting(1, Some(4), None, None, Some((255, 0, 0)), false)) && !Canonical(raw)
  {
    var raw: Reply := [LED_READ, 1, 4, 4, 0, 7, 8, 9] + seq(56, i => 0);
    assert raw[1..8][3] == 0 && SettingBytes(Setting(1, Some(4), None, None, Some((255, 0, 0)), false))[3] == 7;
  }
}
