/** The browser's device transaction planner as a state machine on values. Each step names
    one effect; `Advance` takes the effect's outcome and decides the next step. A Rust
    panic (`unreachable!`, `expect`, an index out of bounds) is the step `Panic`. */
module BrowserPlanner {
  import opened Wrappers
  import opened SettingsCodec
  import opened MacroCodec
  import opened Nia87

  // ------------------------------------------------------------ requests and results

  /** One requested binding; `raw` is absent when the action has no stageable wire form. */
  datatype KeyChange = KeyChange(fn: bool, slot: nat, raw: Option<Binding>)

  /** A command together with the native before-image its `expected` value decodes to. */
  datatype Request =
    | ReadKeymap
    | ReadLighting
    | ReadSettings
    | ReadArchive
    | ReadPicture
    | ReadMacro(slot: string)
    | ReadCatalog(slots: seq<string>)
    | ApplyKeymap(expected: Keymaps, changes: seq<KeyChange>)
    | ApplyMacro(slot: string, revision: MacroImage, desired: Program)
    | ApplyLighting(original: Reply, setter: Option<Reply>)
    | ApplySettings(current: Settings, edit: Change)
    | ApplyPicture(colors: Picture, desiredColors: Option<Picture>)

  datatype FeatureResult<+S> = Read(read: Option<S>) | Apply(applied: Result<S, Recovery>)

  datatype Configuration = Configuration(
    keymaps: Keymaps, lighting: Reply, settings: Settings, picture: Picture, macros: seq<MacroImage>)

  datatype Completion =
    | KeymapDone(keymap: FeatureResult<Keymaps>)
    | MacroDone(slot: string, image: FeatureResult<MacroImage>)
    | LightingDone(lighting: FeatureResult<Reply>)
    | PictureDone(picture: FeatureResult<Picture>)
    | SettingsDone(settings: FeatureResult<Settings>)
    | ArchiveDone(archive: FeatureResult<Configuration>)
    | CatalogDone(catalog: Option<seq<(string, MacroImage)>>)

  // ------------------------------------------------------------ steps and plans

  datatype Tag =
    | Version | Profile | Base | Function
    | LightingReply | PictureContext | PicturePages | MacroPages
    | SettingReply(opcode: Byte)

  /** What a backup preserves: the image that was on the device and the intended one. */
  datatype Record =
    | KeymapRecord(keysBefore: Keymaps, keysTarget: Keymaps)
    | MacroRecord(slot: string, macroBefore: MacroImage, macroTarget: MacroImage)
    | LightingRecord(lightBefore: Reply, lightTarget: Reply)
    | SettingsRecord(settingsBefore: Settings, settingsTarget: Settings)
    | PictureRecord(colorsBefore: Picture, colorsTarget: Picture)

  datatype Step =
    | Backup(record: Record)
    | Exchange(request: ReadRequest, tag: Tag)
    | Write(report: WriteReport, beforeMs: nat, afterMs: nat)
    | Complete(payload: Completion)
    | Panic

  datatype Replies = Replies(
    version: Option<Reply>, profile: Option<Reply>,
    base: seq<Reply>, fn: seq<Reply>,
    lighting: Option<Reply>, context: Option<Reply>, picture: seq<Reply>,
    macroPages: seq<Reply>, settings: seq<Reply>)

  const NO_REPLIES := Replies(None, None, [], [], None, None, [], [], [])

  datatype KeyStage = KeyMain | ObserveFn | RestoreFn | ObserveBase | RestoreBase | KeyVerify
  datatype Stage = Main | Restore | Verify
  datatype ArchiveStage = OnKeymap | OnLighting | OnSettings | OnPicture | OnMacro(number: Byte)

  datatype Capture = Capture(
    keymaps: Option<Keymaps>, lighting: Option<Reply>, settings: Option<Settings>,
    picture: Option<Picture>, macros: seq<MacroImage>)

  datatype Plan =
    | ReadingKeymap
    | ReadingLighting
    | ReadingSettings
    | ReadingArchive(archiveStage: ArchiveStage, capture: Capture)
    | ReadingPicture
    | ReadingMacro(readSlot: string)
    | ReadingCatalog(slots: seq<string>, next: nat, results: seq<(string, MacroImage)>)
    | ApplyingKeymap(keysBefore: Keymaps, keysTarget: Keymaps, keyStage: KeyStage)
    | ApplyingMacro(slot: string, number: Byte, macroBefore: MacroImage, macroTarget: MacroImage, stage: Stage)
    | ApplyingLighting(submittedLight: Reply)
    | ApplyingSettings(settings: ChangePlan, settingsBefore: Settings, edit: Change, stage: Stage)
    | ApplyingPicture(submittedColors: Picture)
    | Terminal

  /** An effect's outcome. A failed write says whether its setter may have been sent. */
  datatype Response = Done(value: Option<seq<Byte>>) | Error(attempted: bool)

  // ------------------------------------------------------------ codec-level planning

  const FN_SYSTEM_SLOTS: set<nat> :=
    {0, 1, 7, 13, 19, 25, 79, 85, 86, 16, 22, 28, 34, 76, 82, 17, 59, 71, 77, 83, 89}

  predicate KeyWritable(fn: bool, slot: nat) {
    slot < 94 && slot !in {6, 11, 29, 35, 47, 59} && (fn ==> slot !in FN_SYSTEM_SLOTS)
  }

  function SetKey(k: Keymaps, fn: bool, slot: nat, raw: Binding): Keymaps
    requires slot < MATRIX_SLOTS
  {
    if fn then k.(fn := k.fn[slot := raw]) else k.(base := k.base[slot := raw])
  }

  /** The complete keymaps a list of changes asks for, each position at most once. */
  function Draft(k: Keymaps, changes: seq<KeyChange>, seen: set<(bool, nat)>): (target: Option<Keymaps>)
    decreases |changes|
  {
    if changes == [] then Some(k)
    else
      var change := changes[0];
      if !KeyWritable(change.fn, change.slot) || (change.fn, change.slot) in seen || change.raw.None? then None
      else Draft(SetKey(k, change.fn, change.slot, change.raw.value), changes[1..], seen + {(change.fn, change.slot)})
  }

  /** The identity every planned transaction was validated against. */
  predicate Portable(k: Keymaps) {
    k.firmware == FIRMWARE && k.profile == 0
  }

  /** Setters for the slots below `WRITABLE_SLOTS`, from `slot` up, where two maps differ. */
  function KeyWrites(source: Matrix, goal: Matrix, fn: bool, index: Byte, slot: nat): (writes: seq<Step>)
    requires slot <= WRITABLE_SLOTS
    decreases WRITABLE_SLOTS - slot
  {
    if slot == WRITABLE_SLOTS then []
    else
      (if source[slot] != goal[slot] then [Write(SingleKey(fn, index, slot, goal[slot]), 0, 1000)] else [])
      + KeyWrites(source, goal, fn, index, slot + 1)
  }

  /** Restoration rewrites the slots that an observation, or failing that the attempted
      map, shows away from the original; it is refused when a reserved slot differs. */
  function RestoreWrites(observed: Option<Matrix>, attempted: Matrix, original: Matrix, fn: bool, index: Byte)
    : (writes: Option<seq<Step>>)
  {
    if attempted[WRITABLE_SLOTS..] != original[WRITABLE_SLOTS..]
       || (observed.Some? && observed.value[WRITABLE_SLOTS..] != original[WRITABLE_SLOTS..])
    then None
    else Some(KeyWrites(if observed.Some? then observed.value else attempted, original, fn, index, 0))
  }

  function MacroWrites(reports: seq<WriteReport>, page: nat): (writes: seq<Step>)
    requires page <= |reports|
    decreases |reports| - page
  {
    if page == |reports| then []
    else [Write(reports[page], 0, if page == 4 then 2030 else 30)] + MacroWrites(reports, page + 1)
  }

  function PictureWrites(colors: Picture, page: nat): (writes: seq<Step>)
    requires page <= PICTURE_WRITE_PAGES
    decreases PICTURE_WRITE_PAGES - page
  {
    if page == PICTURE_WRITE_PAGES then []
    else
      var start := page * MACRO_PAGE_DATA;
      [Write(PicturePage(page, colors[start..if page == 6 then PICTURE_LEN else start + MACRO_PAGE_DATA]), 20, 0)]
      + PictureWrites(colors, page + 1)
  }

  /** A lighting setter leaves the opcode and everything after byte seven alone. */
  function Submitted(original: Reply, setter: Reply): Reply {
    Splice(original, 1, setter[1..8])
  }

  // ------------------------------------------------------------ read scripts

  const IDENTITY_READS: seq<Step> :=
    [Exchange(ReadRequest(0x80, 0, 0), Version), Exchange(ReadRequest(0x85, 0, 0), Profile)]

  function BaseReads(index: Byte, page: nat): (script: seq<Step>)
    requires page <= MATRIX_PAGES
    ensures forall s | s in script :: s.Exchange?
  {
    seq(MATRIX_PAGES - page, i requires 0 <= i < MATRIX_PAGES - page => Exchange(ReadRequest(0x89, index, page + i), Base))
  }

  function FunctionReads(page: nat): (script: seq<Step>)
    requires page <= MATRIX_PAGES
    ensures forall s | s in script :: s.Exchange?
  {
    seq(MATRIX_PAGES - page, i requires 0 <= i < MATRIX_PAGES - page => Exchange(ReadRequest(0x90, 0, page + i), Function))
  }

  function MacroReads(number: Byte, page: nat): (script: seq<Step>)
    requires page <= MACRO_PAGES
    ensures forall s | s in script :: s.Exchange?
  {
    seq(MACRO_PAGES - page, i requires 0 <= i < MACRO_PAGES - page => Exchange(ReadRequest(0x8b, number, page + i), MacroPages))
  }

  function PictureReads(page: nat): (script: seq<Step>)
    requires page <= PICTURE_PAGES
    ensures forall s | s in script :: s.Exchange?
  {
    seq(PICTURE_PAGES - page, i requires 0 <= i < PICTURE_PAGES - page => Exchange(ReadRequest(0x8c, 0, page + i), PicturePages))
  }

  const SETTING_OPCODES: seq<Byte> := [DEBOUNCE_READ, AUTO_OS_READ, SLEEP_READ, OPTIONS_READ]

  function SettingReads(from: nat): (script: seq<Step>)
    requires from <= 4
    ensures forall s | s in script :: s.Exchange?
  {
    seq(4 - from, i requires 0 <= i < 4 - from =>
      Exchange(ReadRequest(SETTING_OPCODES[from + i], 0, 0), SettingReply(SETTING_OPCODES[from + i])))
  }

  // ------------------------------------------------------------ decoding replies

  function KeymapSnapshot(r: Replies): (k: Option<Keymaps>)
  {
    if r.version.None? || r.profile.None? then None
    else
      var base, fn := MatrixFromPages(r.base), MatrixFromPages(r.fn);
      if base.None? || fn.None? then None
      else Some(Keymaps(LittleEndian(r.version.value[1], r.version.value[2]), r.profile.value[1], base.value, fn.value))
  }

  function MacroBytes(r: Replies): (image: Option<MacroImage>)
  {
    if |r.macroPages| != MACRO_PAGES then None
    else Some(Joined(r.macroPages))
  }

  function PictureColors(r: Replies): (colors: Option<Picture>)
  {
    if |r.picture| != PICTURE_PAGES then None
    else Some(Joined(r.picture))
  }

  /** The identity and size checks an archive must pass before it is written out. */
  predicate Archivable(c: Configuration) {
    Portable(c.keymaps) && |c.macros| == MACRO_SLOTS && c.lighting[0] == LED_READ_COMMAND && ValidSettings(c.settings)
  }

  // ------------------------------------------------------------ the machine

  datatype Operation = Operation(
    request: Request, plan: Plan, queue: seq<Step>, current: Step, replies: Replies,
    setterAttempted: bool, mayYield: bool)

  function Push(op: Operation, steps: seq<Step>): Operation {
    op.(queue := op.queue + steps)
  }

  function Finish(op: Operation, payload: Completion): Operation {
    op.(plan := Terminal, queue := [Complete(payload)])
  }

  function FailurePayload(request: Request, recovery: Recovery): Completion {
    match request
    case ReadKeymap | ApplyKeymap(_, _) => KeymapDone(Apply(Failure(recovery)))
    case ApplyMacro(slot, _, _) => MacroDone(slot, Apply(Failure(recovery)))
    case ReadLighting | ApplyLighting(_, _) => LightingDone(Apply(Failure(recovery)))
    case ReadPicture | ApplyPicture(_, _) => PictureDone(Apply(Failure(recovery)))
    case ReadSettings | ApplySettings(_, _) => SettingsDone(Apply(Failure(recovery)))
    case _ => CatalogDone(None)
  }

  function Failed(op: Operation, recovery: Recovery): Operation {
    Finish(op, FailurePayload(op.request, recovery))
  }

  function ReadFailurePayload(request: Request): Completion {
    match request
    case ReadKeymap | ApplyKeymap(_, _) => KeymapDone(Read(None))
    case ReadMacro(slot) => MacroDone(slot, Read(None))
    case ReadLighting | ApplyLighting(_, _) => LightingDone(Read(None))
    case ReadPicture | ApplyPicture(_, _) => PictureDone(Read(None))
    case ReadSettings | ApplySettings(_, _) => SettingsDone(Read(None))
    case ReadArchive => ArchiveDone(Read(None))
    case _ => CatalogDone(None)
  }

  function ReadFailed(op: Operation): Operation {
    Finish(op, ReadFailurePayload(op.request))
  }

  function StartRead(op: Operation, steps: seq<Step>): Operation {
    Push(op.(replies := NO_REPLIES), steps)
  }

  function KeymapRead(op: Operation): Operation {
    StartRead(op, IDENTITY_READS)
  }

  function LightingRead(op: Operation, tag: Tag): Operation {
    StartRead(op, [Exchange(ReadRequest(LED_READ_COMMAND, 0, 0), tag)])
  }

  function MacroRead(op: Operation, number: Byte): Operation {
    if number < MACRO_SLOTS then StartRead(op, MacroReads(number, 0)) else ReadFailed(op.(replies := NO_REPLIES))
  }

  // -- starting each request

  function StartKeymap(op: Operation, before: Keymaps, changes: seq<KeyChange>): Operation {
    var target := Draft(before, changes, {});
    if target.None? || !Portable(before) then Failed(op, NotAttempted)
    else if before == target.value then Finish(op, KeymapDone(Apply(Success(before))))
    else
      KeymapRead(Push(op.(plan := ApplyingKeymap(before, target.value, KeyMain)),
                      [Backup(KeymapRecord(before, target.value))]
                      + KeyWrites(before.base, target.value.base, false, before.profile, 0)
                      + KeyWrites(before.fn, target.value.fn, true, 0, 0)))
  }

  function StartMacro(op: Operation, slot: string, before: MacroImage, desired: Program): Operation {
    var number, target := SlotNumber(slot), Encode(desired);
    if number.None? || Decode(before).None? || target.None? then Failed(op, NotAttempted)
    else if before == target.value then Finish(op, MacroDone(slot, Apply(Success(before))))
    else
      var reports := MacroWriteReports(number.value, target.value);
      if reports.None? then Failed(op, NotAttempted)
      else
        MacroRead(Push(op.(plan := ApplyingMacro(slot, number.value, before, target.value, Main)),
                       [Backup(MacroRecord(slot, before, target.value))] + MacroWrites(reports.value, 0)),
                  number.value)
  }

  function StartLighting(op: Operation, original: Reply, setter: Option<Reply>): Operation {
    if setter.None? then Failed(op, NotAttempted)
    else if original[1..8] == setter.value[1..8] then Finish(op, LightingDone(Apply(Success(original))))
    else
      var submitted := Submitted(original, setter.value);
      Push(op.(plan := ApplyingLighting(submitted)),
           [Backup(LightingRecord(original, submitted)), Write(Lighting(setter.value), 0, 500)])
  }

  function StartSettings(op: Operation, before: Settings, edit: Change): Operation {
    var plan := PlanChange(before, edit);
    if !Editable(before) || plan.None? then Failed(op, NotAttempted)
    else if before == plan.value.target then Finish(op, SettingsDone(Apply(Success(before))))
    else
      StartRead(Push(op.(plan := ApplyingSettings(plan.value, before, edit, Main)),
                     [Backup(SettingsRecord(before, plan.value.target)), Write(Setting(plan.value.report), 0, 500)]),
                SettingReads(0))
  }

  function StartPicture(op: Operation, original: Picture, target: Option<Picture>): Operation {
    if target.None? then Failed(op, NotAttempted)
    else if original == target.value then Finish(op, PictureDone(Apply(Success(original))))
    else Push(op.(plan := ApplyingPicture(target.value)),
              [Backup(PictureRecord(original, target.value))] + PictureWrites(target.value, 0))
  }

  function Begin(op: Operation): Operation {
    match op.request
    case ReadKeymap => KeymapRead(op.(plan := ReadingKeymap))
    case ReadLighting => LightingRead(op.(plan := ReadingLighting), LightingReply)
    case ReadSettings => StartRead(op.(plan := ReadingSettings), SettingReads(0))
    case ReadArchive => KeymapRead(op.(plan := ReadingArchive(OnKeymap, Capture(None, None, None, None, []))))
    case ReadPicture => LightingRead(op.(plan := ReadingPicture), PictureContext)
    case ReadMacro(slot) =>
      var number := SlotNumber(slot);
      if number.None? then ReadFailed(op) else MacroRead(op.(plan := ReadingMacro(slot)), number.value)
    case ReadCatalog(slots) =>
      if exists slot | slot in slots :: SlotNumber(slot).None? then ReadFailed(op)
      else if slots == [] then Finish(op, CatalogDone(Some([])))
      else MacroRead(op.(plan := ReadingCatalog(slots, 0, [])), SlotNumber(slots[0]).value)
    case ApplyKeymap(expected, changes) => StartKeymap(op, expected, changes)
    case ApplyMacro(slot, revision, desired) => StartMacro(op, slot, revision, desired)
    case ApplyLighting(original, setter) => StartLighting(op, original, setter)
    case ApplySettings(current, edit) => StartSettings(op, current, edit)
    case ApplyPicture(colors, desired) => StartPicture(op, colors, desired)
  }

  // -- keymap stages

  function BeginKeyRecovery(op: Operation, before: Keymaps, target: Keymaps): Operation {
    KeymapRead(op.(queue := [], plan := ApplyingKeymap(before, target, ObserveFn)))
  }

  /** Restoration of one map is complete: observe the next one, or verify both. */
  function KeysRestored(op: Operation, before: Keymaps, target: Keymaps, stage: KeyStage): Operation {
    KeymapRead(op.(plan := ApplyingKeymap(before, target, stage)))
  }

  function KeysObserved(op: Operation, before: Keymaps, target: Keymaps, stage: KeyStage): Operation {
    var onFn := stage == ObserveFn;
    var actual := KeymapSnapshot(op.replies);
    var observed := if actual.None? then None else Some(if onFn then actual.value.fn else actual.value.base);
    var writes :=
      if onFn then RestoreWrites(observed, target.fn, before.fn, true, 0)
      else RestoreWrites(observed, target.base, before.base, false, before.profile);
    if writes.None? then Failed(op, Unverified)
    else
      var next := Push(op.(plan := ApplyingKeymap(before, target, if onFn then RestoreFn else RestoreBase)), writes.value);
      if next.queue == [] then KeysRestored(next, before, target, if onFn then ObserveBase else KeyVerify) else next
  }

  function KeymapStageDone(op: Operation, before: Keymaps, target: Keymaps, stage: KeyStage): Operation {
    match stage
    case KeyMain =>
      if KeymapSnapshot(op.replies) == Some(target) && Portable(target)
      then Finish(op, KeymapDone(Apply(Success(target))))
      else BeginKeyRecovery(op, before, target)
    case ObserveFn | ObserveBase => KeysObserved(op, before, target, stage)
    case RestoreFn => KeysRestored(op, before, target, ObserveBase)
    case RestoreBase => KeysRestored(op, before, target, KeyVerify)
    case KeyVerify =>
      var actual := KeymapSnapshot(op.replies);
      Failed(op, if actual == Some(before) then Verified else if actual.Some? then Recovery.Failed else Unverified)
  }

  // -- macro and settings stages

  function BeginMacroRecovery(op: Operation, slot: string, number: Byte, before: MacroImage, target: MacroImage): Operation {
    var reports := MacroWriteReports(number, before);
    if reports.None? then Failed(op.(queue := []), Unverified)
    else op.(queue := MacroWrites(reports.value, 0), plan := ApplyingMacro(slot, number, before, target, Restore))
  }

  function MacroStageDone(op: Operation, slot: string, number: Byte, before: MacroImage, target: MacroImage, stage: Stage): Operation {
    match stage
    case Main =>
      if MacroBytes(op.replies) == Some(target) && SlotNumber(slot).Some?
      then Finish(op, MacroDone(slot, Apply(Success(target))))
      else BeginMacroRecovery(op, slot, number, before, target)
    case Restore => MacroRead(op.(plan := ApplyingMacro(slot, number, before, target, Verify)), number)
    case Verify =>
      var actual := MacroBytes(op.replies);
      Failed(op, if actual == Some(before) then Verified else if actual.Some? then Recovery.Failed else Unverified)
  }

  function BeginSettingsRecovery(op: Operation, plan: ChangePlan, before: Settings, edit: Change): Operation {
    op.(queue := [Write(Setting(plan.restore), 0, 500)], plan := ApplyingSettings(plan, before, edit, Restore))
  }

  function SettingsStageDone(op: Operation, plan: ChangePlan, before: Settings, edit: Change, stage: Stage): Operation {
    match stage
    case Main =>
      if DecodeSettings(op.replies.settings) == Some(plan.target) && Shows(plan.target, edit)
      then Finish(op, SettingsDone(Apply(Success(plan.target))))
      else BeginSettingsRecovery(op, plan, before, edit)
    case Restore => StartRead(op.(plan := ApplyingSettings(plan, before, edit, Verify)), SettingReads(0))
    case Verify =>
      var actual := DecodeSettings(op.replies.settings);
      Failed(op, if actual == Some(before) then Verified else if actual.Some? then Recovery.Failed else Unverified)
  }

  // -- archive and catalog stages; an absent result is a panic

  function ArchiveStageDone(op: Operation, stage: ArchiveStage, capture: Capture): Option<Operation> {
    match stage
    case OnKeymap =>
      var keymaps := KeymapSnapshot(op.replies);
      if keymaps.Some? && Portable(keymaps.value)
      then Some(LightingRead(op.(plan := ReadingArchive(OnLighting, capture.(keymaps := keymaps))), LightingReply))
      else Some(ReadFailed(op))
    case OnLighting =>
      if op.replies.lighting.Some?
      then Some(StartRead(op.(plan := ReadingArchive(OnSettings, capture.(lighting := op.replies.lighting))), SettingReads(0)))
      else Some(ReadFailed(op))
    case OnSettings =>
      var settings := DecodeSettings(op.replies.settings);
      if settings.Some?
      then Some(StartRead(op.(plan := ReadingArchive(OnPicture, capture.(settings := settings))), PictureReads(0)))
      else Some(ReadFailed(op))
    case OnPicture =>
      var picture := PictureColors(op.replies);
      if picture.Some?
      then Some(MacroRead(op.(plan := ReadingArchive(OnMacro(0), capture.(picture := picture))), 0))
      else Some(ReadFailed(op))
    case OnMacro(number) =>
      var image := MacroBytes(op.replies);
      if image.None? then Some(ReadFailed(op))
      else
        var next := capture.(macros := capture.macros + [image.value]);
        if number < 49 then Some(MacroRead(op.(plan := ReadingArchive(OnMacro(number + 1), next)), number + 1))
        else if next.keymaps.None? || next.lighting.None? || next.settings.None? || next.picture.None? then None
        else
          var config := Configuration(next.keymaps.value, next.lighting.value, next.settings.value, next.picture.value, next.macros);
          Some(if Archivable(config) then Finish(op, ArchiveDone(Read(Some(config)))) else ReadFailed(op))
  }

  function CatalogSlotDone(op: Operation, slots: seq<string>, next: nat, results: seq<(string, MacroImage)>): Option<Operation> {
    var image := MacroBytes(op.replies);
    if image.None? then Some(ReadFailed(op))
    else if next >= |slots| then None
    else if SlotNumber(slots[next]).None? then Some(ReadFailed(op))
    else
      var all := results + [(slots[next], image.value)];
      if next + 1 == |slots| then Some(Finish(op, CatalogDone(Some(all))))
      else if SlotNumber(slots[next + 1]).None? then None
      else Some(MacroRead(op.(plan := ReadingCatalog(slots, next + 1, all), mayYield := true), SlotNumber(slots[next + 1]).value))
  }

  function SequenceDone(op: Operation): Option<Operation> {
    match op.plan
    case ReadingKeymap =>
      var k := KeymapSnapshot(op.replies);
      Some(if k.Some? && Portable(k.value) then Finish(op, KeymapDone(Read(k))) else ReadFailed(op))
    case ReadingLighting =>
      Some(if op.replies.lighting.Some? then Finish(op, LightingDone(Read(op.replies.lighting))) else ReadFailed(op))
    case ReadingSettings =>
      var s := DecodeSettings(op.replies.settings);
      Some(if s.Some? then Finish(op, SettingsDone(Read(s))) else ReadFailed(op))
    case ReadingArchive(stage, capture) => ArchiveStageDone(op, stage, capture)
    case ReadingPicture =>
      var colors := PictureColors(op.replies);
      Some(if op.replies.context.Some? && colors.Some? then Finish(op, PictureDone(Read(colors))) else ReadFailed(op))
    case ReadingMacro(slot) =>
      var image := MacroBytes(op.replies);
      Some(if image.Some? && SlotNumber(slot).Some? then Finish(op, MacroDone(slot, Read(image))) else ReadFailed(op))
    case ReadingCatalog(slots, next, results) => CatalogSlotDone(op, slots, next, results)
    case ApplyingKeymap(before, target, stage) => Some(KeymapStageDone(op, before, target, stage))
    case ApplyingMacro(slot, number, before, target, stage) => Some(MacroStageDone(op, slot, number, before, target, stage))
    case ApplyingSettings(plan, before, edit, stage) => Some(SettingsStageDone(op, plan, before, edit, stage))
    case ApplyingLighting(submitted) => Some(Finish(op, LightingDone(Apply(Success(submitted)))))
    case ApplyingPicture(submitted) => Some(Finish(op, PictureDone(Apply(Success(submitted)))))
    case Terminal => None
  }

  // -- failures

  function FailStep(op: Operation): Option<Operation> {
    if op.current.Backup? then Some(Failed(op, NotAttempted))
    else
      match op.plan
      case ApplyingLighting(_) | ApplyingPicture(_) => Some(Failed(op, Unverified))
      case ApplyingKeymap(before, target, stage) =>
        if stage == KeyMain then Some(BeginKeyRecovery(op, before, target))
        else if stage == ObserveFn || stage == ObserveBase then SequenceDone(op.(queue := []))
        else Some(Failed(op, Unverified))
      case ApplyingMacro(slot, number, before, target, stage) =>
        Some(if stage == Main then BeginMacroRecovery(op, slot, number, before, target) else Failed(op, Unverified))
      case ApplyingSettings(plan, before, edit, stage) =>
        Some(if stage == Main then BeginSettingsRecovery(op, plan, before, edit) else Failed(op, Unverified))
      case _ => Some(ReadFailed(op))
  }

  function EffectError(op: Operation, attempted: bool): Option<Operation> {
    if op.current.Write? then
      var tried := op.(setterAttempted := op.setterAttempted || attempted);
      if !tried.setterAttempted then Some(Failed(tried, NotAttempted)) else FailStep(tried)
    else FailStep(op)
  }

  // -- replies

  /** The replies after one more, or nothing when its opcode is not the requested one. */
  function Store(r: Replies, tag: Tag, reply: Reply): Option<Replies> {
    match tag
    case Version => if reply[0] != 0x80 then None else Some(r.(version := Some(reply)))
    case Profile => if reply[0] != 0x85 then None else Some(r.(profile := Some(reply)))
    case Base => Some(r.(base := r.base + [reply]))
    case Function => Some(r.(fn := r.fn + [reply]))
    case LightingReply => if reply[0] != LED_READ_COMMAND then None else Some(r.(lighting := Some(reply)))
    case PictureContext => if reply[0] != LED_READ_COMMAND then None else Some(r.(context := Some(reply)))
    case PicturePages => Some(r.(picture := r.picture + [reply]))
    case MacroPages => Some(r.(macroPages := r.macroPages + [reply]))
    case SettingReply(opcode) => if reply[0] != opcode then None else Some(r.(settings := r.settings + [reply]))
  }

  /** Identity and context replies say which pages to ask for next. */
  function FollowUp(tag: Tag, reply: Reply): (script: seq<Step>)
    ensures forall s | s in script :: s.Exchange?
  {
    match tag
    case Profile => BaseReads(reply[1], 0) + FunctionReads(0)
    case PictureContext => PictureReads(0)
    case _ => []
  }

  function AcceptReply(op: Operation, tag: Tag, bytes: seq<Byte>): Option<Operation> {
    if |bytes| != REPORT_LEN then None
    else
      var replies := Store(op.replies, tag, bytes);
      if replies.None? then None else Some(Push(op.(replies := replies.value), FollowUp(tag, bytes)))
  }

  // -- driving

  function Next(op: Operation): Operation {
    if op.queue != [] then op.(current := op.queue[0], queue := op.queue[1..])
    else
      var done := SequenceDone(op);
      if done.None? || done.value.queue == [] then op.(current := Panic)
      else done.value.(current := done.value.queue[0], queue := done.value.queue[1..])
  }

  /** Applies one outcome to the current step, before the next step is chosen. */
  function Respond(op: Operation, response: Response): Option<Operation> {
    match response
    case Error(attempted) => EffectError(op, attempted)
    case Done(value) =>
      match op.current
      case Backup(_) => if value.Some? then FailStep(op) else Some(op)
      case Write(_, _, _) =>
        var tried := op.(setterAttempted := true);
        if value.Some? then FailStep(tried) else Some(tried)
      case Exchange(_, tag) =>
        if value.None? then FailStep(op)
        else
          var accepted := AcceptReply(op, tag, value.value);
          if accepted.None? then FailStep(op) else accepted
      case _ => None
  }

  function Advance(op: Operation, response: Response): Operation {
    if op.current.Complete? || op.current.Panic? then op
    else
      var answered := Respond(op.(mayYield := false), response);
      if answered.None? then op.(current := Panic) else Next(answered.value)
  }

  function Start(request: Request): Operation {
    Next(Begin(Operation(request, Terminal, [], Complete(CatalogDone(None)), NO_REPLIES, false, false)))
  }

  /** The operation after a whole sequence of effect outcomes. */
  function Run(op: Operation, responses: seq<Response>): Operation
    decreases |responses|
  {
    if responses == [] then op else Run(Advance(op, responses[0]), responses[1..])
  }
}
