/** The four scalar-settings replies, and the plan of a one-field change: the settings it
    aims for, the report that sets them and the report that takes the change back. */
module SettingsCodec {
  import opened Wrappers

  type Byte = b: int | 0 <= b < 0x100
  type U16 = n: int | 0 <= n < 0x1_0000

  const REPORT_LEN: nat := 64
  const DEBOUNCE_READ: Byte := 0x91
  const AUTO_OS_READ: Byte := 0x97
  const SLEEP_READ: Byte := 0x92
  const OPTIONS_READ: Byte := 0x86

  type Reply = r: seq<Byte> | |r| == REPORT_LEN witness seq(REPORT_LEN, i => 0)

  datatype Settings = Settings(debounce: Reply, autoOs: Reply, sleep: Reply, options: Reply)

  /** Seconds before Bluetooth sleep, radio sleep, Bluetooth deep sleep, radio deep sleep. */
  datatype SleepTimers = SleepTimers(bluetooth: U16, radio: U16, bluetoothDeep: U16, radioDeep: U16)

  datatype Change =
    | Debounce(value: Byte)
    | AutoOs(on: bool)
    | Sleep(timers: SleepTimers)
    | Backlight(enabled: bool)

  datatype ChangePlan = ChangePlan(target: Settings, report: Reply, restore: Reply)

  predicate ValidSettings(s: Settings) {
    && s.debounce[0] == DEBOUNCE_READ
    && s.autoOs[0] == AUTO_OS_READ
    && s.sleep[0] == SLEEP_READ
    && s.options[0] == OPTIONS_READ
  }

  /** All four replies decode exactly when each carries its own opcode. */
  function DecodeSettings(replies: seq<Reply>): (s: Option<Settings>)
    ensures s.Some? ==> ValidSettings(s.value)
  {
    if |replies| != 4 then None
    else
      var s := Settings(replies[0], replies[1], replies[2], replies[3]);
      if ValidSettings(s) then Some(s) else None
  }

  function LittleEndian(low: Byte, high: Byte): (n: U16)
    ensures n % 256 == low && n / 256 == high
  {
    low as int + 256 * (high as int)
  }

  function SleepSeconds(sleep: Reply): SleepTimers {
    SleepTimers(LittleEndian(sleep[1], sleep[2]), LittleEndian(sleep[3], sleep[4]),
                LittleEndian(sleep[5], sleep[6]), LittleEndian(sleep[7], sleep[8]))
  }

  function SleepBytes(t: SleepTimers): (r: seq<Byte>)
    ensures |r| == 8
  {
    [t.bluetooth % 256, t.bluetooth / 256, t.radio % 256, t.radio / 256,
     t.bluetoothDeep % 256, t.bluetoothDeep / 256, t.radioDeep % 256, t.radioDeep / 256]
  }

  predicate BacklightOffBit(flags: Byte) {
    flags / 16 % 2 == 1
  }

  predicate BacklightEnabled(s: Settings) {
    !BacklightOffBit(s.options[2]) && s.options[4] == 0
  }

  predicate ValidTimer(seconds: U16, minimum: nat) {
    seconds == 0 || (minimum <= seconds <= 3600 && seconds % 60 == 0)
  }

  predicate ValidTimers(t: SleepTimers) {
    ValidTimer(t.bluetooth, 60) && ValidTimer(t.radio, 60)
    && ValidTimer(t.bluetoothDeep, 600) && ValidTimer(t.radioDeep, 600)
  }

  /** Whether the portable projection of these settings offers editing at all. */
  predicate Editable(s: Settings) {
    1 <= s.debounce[2] <= 10 && s.autoOs[1] <= 1 && ValidTimers(SleepSeconds(s.sleep))
  }

  /** Whether the projected settings show the requested field at the requested value. */
  predicate Shows(s: Settings, change: Change) {
    Editable(s) &&
    match change
    case Debounce(value) => s.debounce[2] == value
    case AutoOs(on) => (s.autoOs[1] != 0) == on
    case Sleep(timers) => SleepSeconds(s.sleep) == timers
    case Backlight(enabled) => BacklightEnabled(s) == enabled
  }

  function HeaderSum(report: seq<Byte>): nat
    requires |report| >= 7
  {
    report[0] as int + report[1] as int + report[2] as int + report[3] as int
    + report[4] as int + report[5] as int + report[6] as int
  }

  function WithChecksum(report: Reply): (r: Reply)
    ensures forall i :: 0 <= i < REPORT_LEN && i != 7 ==> r[i] == report[i]
  {
    report[7 := 255 - HeaderSum(report) % 256]
  }

  const ZEROES: Reply := seq(REPORT_LEN, i => 0)

  /** The report that sets one field from nothing but its value. */
  function WriteReport(change: Change): (r: Option<Reply>)
  {
    match change
    case Debounce(value) =>
      if 1 <= value <= 10 then Some(WithChecksum(ZEROES[0 := 0x11][2 := value])) else None
    case AutoOs(on) => Some(WithChecksum(ZEROES[0 := 0x17][1 := if on then 1 else 0]))
    case Sleep(timers) =>
      if ValidTimers(timers)
      then Some(WithChecksum([0x12, 0, 0, 0, 0, 0, 0, 0] + SleepBytes(timers) + seq(48, i => 0)))
      else None
    case Backlight(_) => None
  }

  /** The options setter resends the whole reply, so unknown bytes survive it. */
  function BacklightReport(options: Reply): Reply {
    WithChecksum(options[0 := 0x06])
  }

  function WithBacklight(s: Settings, enabled: bool): (t: Settings)
    ensures t == s.(options := t.options)
  {
    var flags := s.options[2];
    if enabled then
      s.(options := s.options[2 := if BacklightOffBit(flags) then flags - 16 else flags][4 := 0])
    else
      s.(options := s.options[2 := if BacklightOffBit(flags) then flags else flags + 16])
  }

  /** Both directions of a change, or nothing when either cannot be encoded. */
  function PlanChange(s: Settings, change: Change): (plan: Option<ChangePlan>)
  {
    match change
    case Debounce(value) =>
      Pair(s.(debounce := s.debounce[2 := value]), WriteReport(change), WriteReport(Debounce(s.debounce[2])))
    case AutoOs(on) =>
      if s.autoOs[1] > 1 then None
      else Pair(s.(autoOs := s.autoOs[1 := if on then 1 else 0]), WriteReport(change), WriteReport(AutoOs(s.autoOs[1] != 0)))
    case Sleep(timers) =>
      Pair(s.(sleep := WithSleep(s.sleep, SleepBytes(timers))), WriteReport(change), WriteReport(Sleep(SleepSeconds(s.sleep))))
    case Backlight(enabled) =>
      var target := WithBacklight(s, enabled);
      Some(ChangePlan(target, BacklightReport(target.options), BacklightReport(s.options)))
  }

  function Pair(target: Settings, report: Option<Reply>, restore: Option<Reply>): Option<ChangePlan> {
    if report.Some? && restore.Some? then Some(ChangePlan(target, report.value, restore.value)) else None
  }

  /** The timer is off or set to a whole number of minutes, no fewer than `least` and no more
      than sixty. */
  ghost predicate OffOrMinutes(seconds: nat, least: nat) {
    seconds == 0 || exists m: nat :: least <= m <= 60 && seconds == Minutes(m)
  }

  function Minutes(m: nat): nat {
    60 * m
  }

  ghost predicate WholeMinutes(t: SleepTimers) {
    && OffOrMinutes(t.bluetooth, 1) && OffOrMinutes(t.radio, 1)
    && OffOrMinutes(t.bluetoothDeep, 10) && OffOrMinutes(t.radioDeep, 10)
  }

  lemma {:induction false} TimerIsMinutes(seconds: U16, least: nat)
    ensures ValidTimer(seconds, 60 * least) <==> OffOrMinutes(seconds, least)
  {
    if seconds % 60 == 0 { assert seconds == Minutes(seconds / 60); }
  }

  lemma {:induction false} TimersAreWholeMinutes(t: SleepTimers)
    ensures ValidTimers(t) <==> WholeMinutes(t)
  {
    hide ValidTimer, OffOrMinutes;
    TimerIsMinutes(t.bluetooth, 1);
    TimerIsMinutes(t.radio, 1);
    TimerIsMinutes(t.bluetoothDeep, 10);
    TimerIsMinutes(t.radioDeep, 10);
  }

  /** A change is planned exactly if both it and its undoing can be written: the value asked for
      and the one that is there are in the range of their setter. */
  lemma {:induction false} PlansExactly(s: Settings, change: Change)
    ensures PlanChange(s, change).Some? <==>
      match change
      case Debounce(value) => 1 <= value <= 10 && 1 <= s.debounce[2] <= 10
      case AutoOs(_) => s.autoOs[1] == 0 || s.autoOs[1] == 1
      case Sleep(timers) => WholeMinutes(timers) && WholeMinutes(SleepSeconds(s.sleep))
      case Backlight(_) => true
  {
    TimersAreWholeMinutes(SleepSeconds(s.sleep));
    if change.Sleep? { TimersAreWholeMinutes(change.timers); }
  }

  /** The settings after a setter report has landed. */
  function LandSetting(s: Settings, report: Reply): (after: Settings)
  {
    match report[0]
    case 0x11 => s.(debounce := s.debounce[2 := report[2]])
    case 0x17 => s.(autoOs := s.autoOs[1 := report[1]])
    case 0x12 => s.(sleep := WithSleep(s.sleep, report[8..16]))
    case 0x06 => s.(options := report[0 := OPTIONS_READ][7 := s.options[7]])
    case _ => s
  }

  ghost predicate Reversible(s: Settings, plan: ChangePlan) {
    && ValidSettings(plan.target)
    && LandSetting(s, plan.report) == plan.target
    && LandSetting(plan.target, plan.restore) == s
    && LandSetting(plan.target, plan.report) == plan.target
    && LandSetting(s, plan.restore) == s
  }

  lemma {:induction false} SleepReportBytes(timers: SleepTimers)
    requires ValidTimers(timers)
    ensures var report := WriteReport(Sleep(timers)).value;
      report[0] == 0x12 && report[8..16] == SleepBytes(timers)
  {
    var plain: Reply := [0x12, 0, 0, 0, 0, 0, 0, 0] + SleepBytes(timers) + seq(48, i => 0);
    var report := WithChecksum(plain);
    assert WriteReport(Sleep(timers)) == Some(report);
    forall i | 0 <= i < 8
      ensures report[8..16][i] == SleepBytes(timers)[i]
    {
      assert report[8 + i] == plain[8 + i];
    }
  }

  function WithSleep(sleep: Reply, bytes: seq<Byte>): (r: Reply)
    requires |bytes| == 8
    ensures r[1..9] == bytes && r[..1] == sleep[..1] && r[9..] == sleep[9..]
  {
    sleep[..1] + bytes + sleep[9..]
  }

  lemma {:induction false} SleepChangeIsReversible(s: Settings, timers: SleepTimers)
    requires ValidSettings(s) && PlanChange(s, Sleep(timers)).Some?
    ensures Reversible(s, PlanChange(s, Sleep(timers)).value)
  {
    var original := s.sleep[1..9];
    SleepReportBytes(timers);
    SleepReportBytes(SleepSeconds(s.sleep));
    assert SleepBytes(SleepSeconds(s.sleep)) == original;
    assert WithSleep(s.sleep, original) == s.sleep;
    assert WithSleep(WithSleep(s.sleep, SleepBytes(timers)), original) == s.sleep;
    assert WithSleep(WithSleep(s.sleep, SleepBytes(timers)), SleepBytes(timers)) == WithSleep(s.sleep, SleepBytes(timers));
  }

  lemma {:induction false} BacklightChangeIsReversible(s: Settings, enabled: bool)
    requires ValidSettings(s)
    ensures Reversible(s, PlanChange(s, Backlight(enabled)).value)
  {
    var plan := PlanChange(s, Backlight(enabled)).value;
    assert LandSetting(s, plan.report).options == plan.target.options;
    assert LandSetting(plan.target, plan.restore).options == s.options;
    assert LandSetting(plan.target, plan.report).options == plan.target.options;
    assert LandSetting(s, plan.restore).options == s.options;
  }

  /** A planned change reaches its target from either side, and the recovery
      report reaches the original from either side of the change. */
  lemma {:induction false} PlannedChangeIsReversible(s: Settings, change: Change)
    requires ValidSettings(s) && PlanChange(s, change).Some?
    ensures Reversible(s, PlanChange(s, change).value)
  {
    var plan := PlanChange(s, change).value;
    match change
    case Debounce(value) =>
      assert plan.target.debounce[2 := s.debounce[2]] == s.debounce;
      assert s.debounce[2 := s.debounce[2]] == s.debounce;
    case AutoOs(on) =>
      assert plan.target.autoOs[1 := s.autoOs[1]] == s.autoOs;
      assert s.autoOs[1 := s.autoOs[1]] == s.autoOs;
    case Sleep(timers) => SleepChangeIsReversible(s, timers);
    case Backlight(enabled) => BacklightChangeIsReversible(s, enabled);
  }

  lemma {:induction false} SleepBytesRead(sleep: Reply, timers: SleepTimers)
    ensures SleepSeconds(WithSleep(sleep, SleepBytes(timers))) == timers
  {
    var written := WithSleep(sleep, SleepBytes(timers));
    assert forall i :: 0 <= i < 8 ==> written[1 + i] == written[1..9][i];
  }

  lemma {:induction false} BacklightShows(s: Settings, enabled: bool)
    ensures BacklightEnabled(WithBacklight(s, enabled)) == enabled
  {
  }

  /** The settings a planned change aims for do show the requested field. */
  lemma {:induction false} PlannedChangeShows(s: Settings, change: Change)
    requires ValidSettings(s) && Editable(s) && PlanChange(s, change).Some?
    ensures Shows(PlanChange(s, change).value.target, change)
  {
    hide WithBacklight, WithSleep, SleepSeconds, BacklightReport, WithChecksum;
    match change
    case Sleep(timers) => SleepBytesRead(s.sleep, timers);
    case Backlight(enabled) => BacklightShows(s, enabled);
    case _ =>
  }
}
