/** Reads never change the keyboard, and a successful read, catalog or archive capture is
    exactly what the keyboard holds. */
module ReadVerdicts {
  import opened Wrappers
  import opened SettingsCodec
  import opened MacroCodec
  import opened Nia87
  import opened BrowserPlanner
  import opened BrowserTermination
  import opened BrowserWorld

  // ------------------------------------------------------------ faithful scripts

  predicate LightingReading(seen: Option<Reply>, script: seq<Step>, tag: Tag, lighting: Reply) {
    if seen.None? then script == [Exchange(ReadRequest(LED_READ_COMMAND, 0, 0), tag)]
    else seen == Some(lighting) && script == []
  }

  // ------------------------------------------------------------ what a plan has read

  ghost predicate CatalogSoFar(slots: seq<string>, results: seq<(string, MacroImage)>, d: Device)
    requires |d.macros| == MACRO_SLOTS
  {
    && |results| <= |slots|
    && forall i :: 0 <= i < |results| ==>
      SlotNumber(slots[i]).Some? && results[i] == (slots[i], d.macros[SlotNumber(slots[i]).value])
  }

  ghost predicate CaptureSoFar(stage: ArchiveStage, c: Capture, d: Device) {
    && (!stage.OnKeymap? ==> c.keymaps == Some(d.keymaps) && Portable(d.keymaps))
    && (!stage.OnKeymap? && !stage.OnLighting? ==> c.lighting == Some(d.lighting))
    && (stage.OnPicture? || stage.OnMacro? ==> c.settings == Some(d.settings))
    && (stage.OnMacro? ==> c.picture == Some(d.picture) && stage.number < |d.macros| && c.macros == d.macros[..stage.number])
    && (!stage.OnMacro? ==> c.macros == [])
  }

  ghost predicate ScriptHolds(plan: Plan, r: Replies, script: seq<Step>, d: Device)
    requires |d.macros| == MACRO_SLOTS
  {
    match plan
    case ReadingKeymap => KeymapReading(r, script, d.keymaps)
    case ReadingLighting => LightingReading(r.lighting, script, LightingReply, d.lighting)
    case ReadingSettings => SettingsReading(r, script, d.settings)
    case ReadingPicture =>
      if r.context.None? then r.picture == [] && LightingReading(r.context, script, PictureContext, d.lighting)
      else PictureReading(r, script, d.picture)
    case ReadingMacro(slot) =>
      SlotNumber(slot).Some? && MacroReading(r, script, SlotNumber(slot).value, d.macros[SlotNumber(slot).value])
    case ReadingCatalog(slots, next, results) =>
      && next < |slots| && |results| == next && CatalogSoFar(slots, results, d)
      && (forall s | s in slots :: SlotNumber(s).Some?)
      && MacroReading(r, script, SlotNumber(slots[next]).value, d.macros[SlotNumber(slots[next]).value])
    case ReadingArchive(stage, capture) =>
      && CaptureSoFar(stage, capture, d)
      && (match stage
          case OnKeymap => KeymapReading(r, script, d.keymaps)
          case OnLighting => LightingReading(r.lighting, script, LightingReply, d.lighting)
          case OnSettings => SettingsReading(r, script, d.settings)
          case OnPicture => PictureReading(r, script, d.picture)
          case OnMacro(number) => MacroReading(r, script, number, d.macros[number]))
    case _ => false
  }

  // ------------------------------------------------------------ true results

  function WholeConfiguration(d: Device): Configuration {
    Configuration(d.keymaps, d.lighting, d.settings, d.picture, d.macros)
  }

  /** The result a read of `request` must report, if it reports any. */
  ghost predicate TrueResult(request: Request, payload: Completion, d: Device)
    requires |d.macros| == MACRO_SLOTS
  {
    payload == ReadFailurePayload(request) || FullResult(request, payload, d)
  }

  ghost predicate FullResult(request: Request, payload: Completion, d: Device)
    requires |d.macros| == MACRO_SLOTS
  {
    match request
    case ReadKeymap => payload == KeymapDone(Read(Some(d.keymaps)))
    case ReadLighting => payload == LightingDone(Read(Some(d.lighting)))
    case ReadSettings => payload == SettingsDone(Read(Some(d.settings)))
    case ReadPicture => payload == PictureDone(Read(Some(d.picture)))
    case ReadMacro(slot) => SlotNumber(slot).Some? && payload == MacroDone(slot, Read(Some(d.macros[SlotNumber(slot).value])))
    case ReadCatalog(slots) =>
      && payload.CatalogDone? && payload.catalog.Some? && |payload.catalog.value| == |slots|
      && CatalogSoFar(slots, payload.catalog.value, d)
    case ReadArchive => payload == ArchiveDone(Read(Some(WholeConfiguration(d))))
    case _ => false
  }

  ghost predicate PlanFor(plan: Plan, request: Request) {
    match request
    case ReadKeymap => plan.ReadingKeymap?
    case ReadLighting => plan.ReadingLighting?
    case ReadSettings => plan.ReadingSettings?
    case ReadPicture => plan.ReadingPicture?
    case ReadArchive => plan.ReadingArchive?
    case ReadMacro(slot) => plan == ReadingMacro(slot)
    case ReadCatalog(slots) => plan.ReadingCatalog? && plan.slots == slots
    case _ => false
  }

  ghost predicate Poised(op: Operation, d: Device) {
    && WellFormed(d) && !IsApply(op.request)
    && if op.plan.Terminal? then
         |op.queue| == 1 && op.queue[0].Complete? && TrueResult(op.request, op.queue[0].payload, d)
       else PlanFor(op.plan, op.request) && ScriptHolds(op.plan, op.replies, op.queue, d)
  }

  ghost predicate Inv(w: World, d: Device) {
    && w.device == d && WellFormed(d) && !IsApply(w.op.request) && !w.attempted
    && if w.op.current.Complete? then w.op.plan.Terminal? && TrueResult(w.op.request, w.op.current.payload, d)
       else w.op.current.Exchange? && !w.op.plan.Terminal? && Poised(Shown(w.op), d)
  }

  /** Nothing has failed so far. */
  ghost predicate Unhindered(op: Operation, d: Device) {
    && |d.macros| == MACRO_SLOTS
    && (op.plan.Terminal? ==> op.queue != [] && op.queue[0].Complete? && FullResult(op.request, op.queue[0].payload, d))
  }

  // ------------------------------------------------------------ finishing a script

  ghost predicate Continues(op: Operation, done: Option<Operation>, d: Device) {
    done.Some? && done.value.queue != [] && Poised(done.value, d) && done.value.request == op.request
  }

  lemma {:induction false} CatalogContinues(op: Operation, d: Device)
    requires Poised(op, d) && op.plan.ReadingCatalog? && op.queue == []
    ensures var done := CatalogSlotDone(op, op.plan.slots, op.plan.next, op.plan.results);
      Continues(op, done, d) && Unhindered(done.value, d)
  {
    hide MacroBytes, SlotNumber, MacroReads, KeymapReading, PictureReading, SettingsReading;
    var slots, next, results := op.plan.slots, op.plan.next, op.plan.results;
    assert slots[next] in slots;
    MacroReadingDone(op.replies, SlotNumber(slots[next]).value, d.macros[SlotNumber(slots[next]).value]);
    if next + 1 < |slots| {
      assert slots[next + 1] in slots;
      var script := MacroReads(SlotNumber(slots[next + 1]).value, 0);
      assert [] + script == script;
      MacroReadsCost(SlotNumber(slots[next + 1]).value);
    }
  }

  lemma {:induction false} SettingsScriptBegins(s: Settings)
    ensures SettingsReading(NO_REPLIES, [] + SettingReads(0), s) && SettingReads(0) != []
  {
    assert [] + SettingReads(0) == SettingReads(0);
  }

  lemma {:induction false} PictureScriptBegins(colors: Picture)
    ensures PictureReading(NO_REPLIES, [] + PictureReads(0), colors) && PictureReads(0) != []
  {
    assert [] + PictureReads(0) == PictureReads(0);
  }

  lemma {:induction false} LightingCaptured(op: Operation, lighting: Reply)
    requires op.plan.ReadingArchive? && op.queue == [] && op.replies.lighting == Some(lighting)
    ensures ArchiveStageDone(op, OnLighting, op.plan.capture)
            == Some(StartRead(op.(plan := ReadingArchive(OnSettings, op.plan.capture.(lighting := Some(lighting)))), SettingReads(0)))
  {
    hide SettingReads, MacroRead, PictureReads;
  }

  lemma {:induction false} ArchiveLightingContinues(op: Operation, d: Device)
    requires Poised(op, d) && op.plan.ReadingArchive? && op.plan.archiveStage.OnLighting? && op.queue == []
    ensures var done := ArchiveStageDone(op, op.plan.archiveStage, op.plan.capture);
      Continues(op, done, d) && Unhindered(done.value, d)
  {
    hide SettingReads, ArchiveStageDone, KeymapReading, MacroReading, PictureReading, SettingsReading, Archivable, TrueResult;
    LightingCaptured(op, d.lighting);
    SettingsScriptBegins(d.settings);
  }

  lemma {:induction false} SettingsCaptured(op: Operation, s: Settings)
    requires op.plan.ReadingArchive? && op.queue == [] && DecodeSettings(op.replies.settings) == Some(s)
    ensures ArchiveStageDone(op, OnSettings, op.plan.capture)
            == Some(StartRead(op.(plan := ReadingArchive(OnPicture, op.plan.capture.(settings := Some(s)))), PictureReads(0)))
  {
    hide DecodeSettings, PictureReads, SettingReads, MacroRead;
  }

  lemma {:induction false} ArchiveSettingsContinues(op: Operation, d: Device)
    requires Poised(op, d) && op.plan.ReadingArchive? && op.plan.archiveStage.OnSettings? && op.queue == []
    ensures var done := ArchiveStageDone(op, op.plan.archiveStage, op.plan.capture);
      Continues(op, done, d) && Unhindered(done.value, d)
  {
    hide PictureReads, ArchiveStageDone, KeymapReading, MacroReading, SettingsReading, PictureReading, Archivable, TrueResult;
    SettingsReadingDone(op.replies, d.settings);
    SettingsCaptured(op, d.settings);
    PictureScriptBegins(d.picture);
  }

  lemma {:induction false} ArchiveKeymapContinues(op: Operation, d: Device)
    requires Poised(op, d) && op.plan.ReadingArchive? && op.plan.archiveStage.OnKeymap? && op.queue == []
    ensures var done := ArchiveStageDone(op, op.plan.archiveStage, op.plan.capture);
      Continues(op, done, d) && (Portable(d.keymaps) ==> Unhindered(done.value, d))
  {
    hide KeymapSnapshot, MacroBytes, PictureColors, DecodeSettings, KeymapReading, MacroReading, PictureReading, SettingsReading,
      Archivable, MacroRead, FullResult;
    KeymapReadingDone(op.replies, [], d.keymaps);
  }

  lemma {:induction false} ArchivePictureContinues(op: Operation, d: Device)
    requires Poised(op, d) && op.plan.ReadingArchive? && op.plan.archiveStage.OnPicture? && op.queue == []
    ensures var done := ArchiveStageDone(op, op.plan.archiveStage, op.plan.capture);
      Continues(op, done, d) && Unhindered(done.value, d)
  {
    hide KeymapSnapshot, MacroBytes, PictureColors, DecodeSettings, KeymapReading, PictureReading, SettingsReading,
      Archivable, MacroReads, FullResult;
    PictureReadingDone(op.replies, d.picture);
    assert [] + MacroReads(0, 0) == MacroReads(0, 0);
    MacroReadsCost(0);
  }

  lemma {:induction false} ArchiveContinues(op: Operation, d: Device)
    requires Poised(op, d) && op.plan.ReadingArchive? && op.queue == []
    ensures var done := ArchiveStageDone(op, op.plan.archiveStage, op.plan.capture);
      Continues(op, done, d) && (Portable(d.keymaps) ==> Unhindered(done.value, d))
  {
    hide ArchiveStageDone, Poised, ScriptHolds, Unhindered;
    match op.plan.archiveStage {
      case OnKeymap => ArchiveKeymapContinues(op, d);
      case OnLighting => ArchiveLightingContinues(op, d);
      case OnSettings => ArchiveSettingsContinues(op, d);
      case OnPicture => ArchivePictureContinues(op, d);
      case OnMacro(number) => ArchiveMacroContinues(op, d, number);
    }
  }

  lemma {:induction false} ArchiveMacroContinues(op: Operation, d: Device, number: Byte)
    requires Poised(op, d) && op.plan.ReadingArchive? && op.plan.archiveStage == OnMacro(number) && op.queue == []
    ensures var done := ArchiveStageDone(op, op.plan.archiveStage, op.plan.capture);
      Continues(op, done, d) && Unhindered(done.value, d)
  {
    hide MacroBytes, MacroReads, KeymapSnapshot, PictureColors, DecodeSettings, KeymapReading, PictureReading, SettingsReading,
      MatrixPages, BaseReads, FunctionReads, SettingReads, PictureReads;
    MacroReadingDone(op.replies, number, d.macros[number]);
    assert d.macros[..number] + [d.macros[number]] == d.macros[..number + 1];
    if number < 49 {
      assert [] + MacroReads(number + 1, 0) == MacroReads(number + 1, 0);
      MacroReadsCost(number + 1);
    } else {
      assert d.macros[..50] == d.macros;
    }
  }

  lemma {:induction false} ScriptDone(op: Operation, d: Device)
    requires Poised(op, d) && !op.plan.Terminal? && op.queue == []
    ensures Continues(op, SequenceDone(op), d) && (Portable(d.keymaps) ==> Unhindered(SequenceDone(op).value, d))
  {
    hide KeymapSnapshot, MacroBytes, PictureColors, DecodeSettings, SlotNumber, CatalogSlotDone, ArchiveStageDone;
    match op.request
    case ReadKeymap => KeymapReadingDone(op.replies, [], d.keymaps);
    case ReadLighting =>
    case ReadSettings => SettingsReadingDone(op.replies, d.settings);
    case ReadPicture => if op.replies.context.Some? { PictureReadingDone(op.replies, d.picture); }
    case ReadMacro(slot) => MacroReadingDone(op.replies, SlotNumber(slot).value, d.macros[SlotNumber(slot).value]);
    case ReadCatalog(_) => CatalogContinues(op, d);
    case ReadArchive => ArchiveContinues(op, d);
  }

  // ------------------------------------------------------------ one reply

  lemma {:induction false} ScriptStep(op: Operation, script: seq<Step>, d: Device, reply: Reply)
    requires WellFormed(d) && PlanFor(op.plan, op.request) && ScriptHolds(op.plan, op.replies, script, d) && script != []
    ensures script[0].Exchange?
    ensures ReplyTo(d, script[0].request) == Some(reply) ==>
      var stored := Store(op.replies, script[0].tag, reply);
      stored.Some? && ScriptHolds(op.plan, stored.value, script[1..] + FollowUp(script[0].tag, reply), d)
  {
    hide MacroReading, PictureReading, SettingsReading, KeymapReading, ReplyTo, BaseReads, FunctionReads;
    assert script[1..] + [] == script[1..];
    match op.plan
    case ReadingKeymap => KeymapReadingStep(op.replies, script, d, reply);
    case ReadingLighting => LightingStep(op.replies, script, LightingReply, d, reply);
    case ReadingSettings => SettingsReadingStep(op.replies, script, d, reply);
    case ReadingPicture =>
      if op.replies.context.None? { LightingStep(op.replies, script, PictureContext, d, reply); }
      else { PictureReadingStep(op.replies, script, d, reply); }
    case ReadingMacro(slot) => MacroReadingStep(op.replies, script, SlotNumber(slot).value, d, reply);
    case ReadingCatalog(slots, next, _) =>
      assert slots[next] in slots;
      MacroReadingStep(op.replies, script, SlotNumber(slots[next]).value, d, reply);
    case ReadingArchive(stage, _) =>
      match stage
      case OnKeymap => KeymapReadingStep(op.replies, script, d, reply);
      case OnLighting => LightingStep(op.replies, script, LightingReply, d, reply);
      case OnSettings => SettingsReadingStep(op.replies, script, d, reply);
      case OnPicture => PictureReadingStep(op.replies, script, d, reply);
      case OnMacro(number) => MacroReadingStep(op.replies, script, number, d, reply);
  }

  lemma {:induction false} LightingStep(r: Replies, script: seq<Step>, tag: Tag, d: Device, reply: Reply)
    requires WellFormed(d) && (tag.LightingReply? || tag.PictureContext?)
    requires LightingReading(if tag.LightingReply? then r.lighting else r.context, script, tag, d.lighting) && script != []
    ensures script[0].Exchange? && script[0].tag == tag && script[1..] == []
    ensures ReplyTo(d, script[0].request) == Some(reply) ==>
      && reply == d.lighting
      && Store(r, tag, reply) == Some(if tag.LightingReply? then r.(lighting := Some(reply)) else r.(context := Some(reply)))
      && script[1..] + FollowUp(tag, reply) == if tag.LightingReply? then [] else PictureReads(0)
    ensures tag.PictureContext? && r.picture == [] ==> PictureReading(r.(context := Some(reply)), PictureReads(0), d.picture)
  {
    assert [] + PictureReads(0) == PictureReads(0);
  }

  // ------------------------------------------------------------ whole runs

  lemma {:induction false} FailReads(op: Operation, d: Device)
    requires WellFormed(d) && PlanFor(op.plan, op.request) && !op.current.Backup?
    ensures FailStep(op) == Some(ReadFailed(op)) && Poised(ReadFailed(op), d) && ReadFailed(op).queue != []
  {
  }

  lemma {:induction false} NextPoised(op: Operation, d: Device)
    requires Poised(op, d)
    ensures Inv(World(Next(op), d, false), d) && Next(op).request == op.request
    ensures Portable(d.keymaps) && Unhindered(op, d) ==> Unhindered(Shown(Next(op)), d)
  {
    hide ScriptHolds, SequenceDone, TrueResult, FullResult;
    if op.queue == [] {
      ScriptDone(op, d);
    }
    var loaded := if op.queue != [] then op else SequenceDone(op).value;
    assert [loaded.queue[0]] + loaded.queue[1..] == loaded.queue;
    if !loaded.plan.Terminal? {
      ScriptStep(loaded, loaded.queue, d, ZEROES);
    }
  }

  lemma {:induction false} TurnKeeps(w: World, e: Effect, d: Device)
    requires Inv(w, d) && Honest(d, w.op.current, e)
    ensures Inv(Turn(w, e), d) && Turn(w, e).op.request == w.op.request
    ensures Portable(d.keymaps) && Smooth(w.op.current, e) && Unhindered(Shown(w.op), d) ==> Unhindered(Shown(Turn(w, e).op), d)
  {
    hide ScriptHolds, Next, FailStep, TrueResult, FullResult;
    if !w.op.current.Complete? {
      var op := w.op.(mayYield := false);
      var pending := Shown(w.op).queue;
      assert pending[0] == op.current && pending[1..] == op.queue;
      FailReads(op, d);
      var response := e.response;
      var mid := Respond(op, response);
      if response.Done? && response.value.Some? && |response.value.value| == REPORT_LEN {
        ScriptStep(op, pending, d, response.value.value);
      }
      assert mid.Some? && Poised(mid.value, d);
      NextPoised(mid.value, d);
    }
  }

  lemma {:induction false} PlayKeeps(w: World, effects: seq<Effect>, d: Device)
    requires Inv(w, d) && HonestPlay(w, effects)
    ensures Inv(Play(w, effects), d) && Play(w, effects).op.request == w.op.request
    ensures Portable(d.keymaps) && SmoothPlay(w, effects) && Unhindered(Shown(w.op), d) ==> Unhindered(Shown(Play(w, effects).op), d)
    decreases |effects|
  {
    hide Turn, Unhindered;
    if effects != [] {
      TurnKeeps(w, effects[0], d);
      PlayKeeps(Turn(w, effects[0]), effects[1..], d);
    }
  }

  ghost predicate KnownSlots(request: Request) {
    && (request.ReadMacro? ==> SlotNumber(request.slot).Some?)
    && (request.ReadCatalog? ==> forall s | s in request.slots :: SlotNumber(s).Some?)
  }

  lemma {:induction false} BeginPoised(request: Request, d: Device)
    requires WellFormed(d) && !IsApply(request)
    ensures var op := Begin(Operation(request, Terminal, [], Complete(CatalogDone(None)), NO_REPLIES, false, false));
      && Poised(op, d) && op.request == request
      && (KnownSlots(request) ==> Unhindered(op, d))
  {
    hide SlotNumber, BaseReads, FunctionReads, PictureReads, MatrixPages, Unhindered, ScriptHolds, MacroRead, Poised;
    match request
    case ReadKeymap | ReadArchive | ReadSettings | ReadLighting | ReadPicture => PlainBeginPoised(request, d);
    case ReadMacro(_) | ReadCatalog(_) => MacroBeginPoised(request, d);
  }

  lemma {:induction false} PlainBeginPoised(request: Request, d: Device)
    requires WellFormed(d) && !IsApply(request) && !request.ReadMacro? && !request.ReadCatalog?
    ensures var op := Begin(Operation(request, Terminal, [], Complete(CatalogDone(None)), NO_REPLIES, false, false));
      Poised(op, d) && op.request == request && Unhindered(op, d)
  {
    hide SlotNumber, BaseReads, FunctionReads, PictureReads, MatrixPages, FullResult, MacroRead, MacroReading, SettingReads;
    match request
    case ReadKeymap | ReadArchive => assert [] + IDENTITY_READS == IDENTITY_READS;
    case ReadSettings => assert [] + SettingReads(0) == SettingReads(0);
    case ReadLighting | ReadPicture =>
  }

  lemma {:induction false} MacroBeginPoised(request: Request, d: Device)
    requires WellFormed(d) && (request.ReadMacro? || request.ReadCatalog?)
    ensures var op := Begin(Operation(request, Terminal, [], Complete(CatalogDone(None)), NO_REPLIES, false, false));
      && Poised(op, d) && op.request == request
      && (KnownSlots(request) ==> Unhindered(op, d))
  {
    hide SlotNumber, BaseReads, FunctionReads, PictureReads, MatrixPages, KeymapReading, PictureReading, SettingsReading;
    match request
    case ReadMacro(slot) =>
      if SlotNumber(slot).Some? { assert [] + MacroReads(SlotNumber(slot).value, 0) == MacroReads(SlotNumber(slot).value, 0); }
    case ReadCatalog(slots) =>
      if slots != [] && SlotNumber(slots[0]).Some? {
        assert slots[0] in slots;
        assert [] + MacroReads(SlotNumber(slots[0]).value, 0) == MacroReads(SlotNumber(slots[0]).value, 0);
      }
  }

  /** Every read leaves the keyboard alone and reports its content or nothing; when all
      its effects succeed it does report it, for a catalog every slot and for an archive
      every section. */
  lemma {:induction false} ReadsAreTrue(request: Request, d: Device, effects: seq<Effect>)
    requires WellFormed(d) && !IsApply(request) && HonestPlay(Opening(request, d), effects)
    ensures var w := Play(Opening(request, d), effects);
      && w.device == d && !w.attempted
      && (w.op.current.Complete? ==> TrueResult(request, w.op.current.payload, d))
      && (KnownSlots(request) && Portable(d.keymaps) && SmoothPlay(Opening(request, d), effects)
          && |effects| >= Limit(request) ==>
            w.op.current.Complete? && FullResult(request, w.op.current.payload, d))
  {
    hide Begin, Next, SlotNumber, TrueResult, FullResult;
    BeginPoised(request, d);
    NextPoised(Begin(Operation(request, Terminal, [], Complete(CatalogDone(None)), NO_REPLIES, false, false)), d);
    PlayKeeps(Opening(request, d), effects, d);
    if |effects| >= Limit(request) {
      LongPlayCompletes(request, d, effects);
    }
  }
}
