/** The planner in the form it runs in: one object whose plan, queue, current step and
    replies are overwritten in place. Every method computes the transition of the same
    name in `BrowserPlanner`, so what is proved of those transitions holds of the object. */
module BrowserObject {
  import opened Wrappers
  import opened SettingsCodec
  import opened MacroCodec
  import opened Nia87
  import opened BrowserPlanner
  import opened BrowserTermination

  class BrowserOperation {
    const request: Request
    var plan: Plan
    var queue: seq<Step>
    var current: Step
    var replies: Replies
    var setterAttempted: bool
    var mayYield: bool

    function State(): Operation
      reads this
    {
      Operation(request, plan, queue, current, replies, setterAttempted, mayYield)
    }

    constructor (request: Request)
      ensures State() == BrowserPlanner.Start(request)
      ensures Valid(State()) && Measure(State()) <= Limit(request)
    {
      this.request := request;
      plan, queue, current, replies := Terminal, [], Complete(CatalogDone(None)), NO_REPLIES;
      setterAttempted, mayYield := false, false;
      new;
      hide Begin, Valid, Loaded, Measure, Weight, Limit;
      RequestBegun(State());
      StartIsValid(request);
      Start();
      Next();
    }

    // -------------------------------------------------------- queueing effects

    method SendBackup(record: Record)
      modifies this`queue
      ensures queue == old(queue) + [Backup(record)]
    {
      queue := queue + [Backup(record)];
    }

    method Ask(request: ReadRequest, tag: Tag)
      modifies this`queue
      ensures queue == old(queue) + [Exchange(request, tag)]
    {
      queue := queue + [Exchange(request, tag)];
    }

    method Send(report: WriteReport, beforeMs: nat, afterMs: nat)
      modifies this`queue
      ensures queue == old(queue) + [Write(report, beforeMs, afterMs)]
    {
      queue := queue + [Write(report, beforeMs, afterMs)];
    }

    method Finish(payload: Completion)
      modifies this`plan, this`queue
      ensures State() == BrowserPlanner.Finish(old(State()), payload)
    {
      plan := Terminal;
      queue := [];
      queue := queue + [Complete(payload)];
    }

    method Failed(recovery: Recovery)
      modifies this`plan, this`queue
      ensures State() == BrowserPlanner.Failed(old(State()), recovery)
    {
      Finish(FailurePayload(request, recovery));
    }

    method ReadFailed()
      modifies this`plan, this`queue
      ensures State() == BrowserPlanner.ReadFailed(old(State()))
    {
      Finish(ReadFailurePayload(request));
    }

    method KeymapRead()
      modifies this`queue, this`replies
      ensures State() == BrowserPlanner.KeymapRead(old(State()))
    {
      replies := NO_REPLIES;
      Ask(ReadRequest(0x80, 0, 0), Version);
      Ask(ReadRequest(0x85, 0, 0), Profile);
    }

    method LightingRead(tag: Tag)
      modifies this`queue, this`replies
      ensures State() == BrowserPlanner.LightingRead(old(State()), tag)
    {
      replies := NO_REPLIES;
      Ask(ReadRequest(LED_READ_COMMAND, 0, 0), tag);
    }

    method PicturePagesRead()
      modifies this`queue
      ensures queue == old(queue) + PictureReads(0)
    {
      for page := 0 to PICTURE_PAGES
        invariant queue == old(queue) + PictureReads(0)[..page]
      {
        Ask(ReadRequest(0x8c, 0, page), PicturePages);
      }
    }

    method MacroRead(number: Byte)
      modifies this`plan, this`queue, this`replies
      ensures State() == BrowserPlanner.MacroRead(old(State()), number)
    {
      replies := NO_REPLIES;
      if number >= MACRO_SLOTS {
        ReadFailed();
        return;
      }
      for page := 0 to MACRO_PAGES
        invariant queue == old(queue) + MacroReads(number, 0)[..page]
        invariant plan == old(plan) && replies == NO_REPLIES
      {
        Ask(ReadRequest(0x8b, number, page), MacroPages);
      }
    }

    method SettingsRead()
      modifies this`queue, this`replies
      ensures State() == StartRead(old(State()), SettingReads(0))
    {
      replies := NO_REPLIES;
      for i := 0 to 4
        invariant queue == old(queue) + SettingReads(0)[..i] && replies == NO_REPLIES
      {
        Ask(ReadRequest(SETTING_OPCODES[i], 0, 0), SettingReply(SETTING_OPCODES[i]));
      }
    }

    static lemma {:induction false} KeyWritesEnd(source: Matrix, goal: Matrix, fn: bool, index: Byte)
      ensures KeyWrites(source, goal, fn, index, WRITABLE_SLOTS) == []
    {
    }

    static lemma {:induction false} KeyWritesStep(sent: seq<Step>, source: Matrix, goal: Matrix, fn: bool, index: Byte, slot: nat)
      requires slot < WRITABLE_SLOTS
      ensures var rest := KeyWrites(source, goal, fn, index, slot + 1);
        sent + KeyWrites(source, goal, fn, index, slot)
        == (if source[slot] != goal[slot] then sent + [Write(SingleKey(fn, index, slot, goal[slot]), 0, 1000)] else sent) + rest
    {
      var rest := KeyWrites(source, goal, fn, index, slot + 1);
      hide KeyWrites;
      var write := Write(SingleKey(fn, index, slot, goal[slot]), 0, 1000);
      assert sent + ([write] + rest) == (sent + [write]) + rest;
      assert sent + ([] + rest) == sent + rest;
      KeyWritesUnfold(source, goal, fn, index, slot);
    }

    static lemma {:induction false} KeyWritesUnfold(source: Matrix, goal: Matrix, fn: bool, index: Byte, slot: nat)
      requires slot < WRITABLE_SLOTS
      ensures KeyWrites(source, goal, fn, index, slot)
        == (if source[slot] != goal[slot] then [Write(SingleKey(fn, index, slot, goal[slot]), 0, 1000)] else [])
           + KeyWrites(source, goal, fn, index, slot + 1)
    {
    }

    method QueueKeyWrites(source: Matrix, goal: Matrix, fn: bool, index: Byte)
      modifies this`queue
      ensures queue == old(queue) + KeyWrites(source, goal, fn, index, 0)
    {
      hide KeyWrites;
      KeyWritesEnd(source, goal, fn, index);
      for slot := 0 to WRITABLE_SLOTS
        invariant queue + KeyWrites(source, goal, fn, index, slot) == old(queue) + KeyWrites(source, goal, fn, index, 0)
      {
        KeyWritesStep(queue, source, goal, fn, index, slot);
        if source[slot] != goal[slot] {
          Send(SingleKey(fn, index, slot, goal[slot]), 0, 1000);
        }
      }
    }

    method QueueMacroWrites(reports: seq<WriteReport>)
      modifies this`queue
      ensures queue == old(queue) + MacroWrites(reports, 0)
    {
      for page := 0 to |reports|
        invariant queue + MacroWrites(reports, page) == old(queue) + MacroWrites(reports, 0)
      {
        Send(reports[page], 0, if page == 4 then 2030 else 30);
      }
    }

    method QueuePictureWrites(colors: Picture)
      modifies this`queue
      ensures queue == old(queue) + PictureWrites(colors, 0)
    {
      for page := 0 to PICTURE_WRITE_PAGES
        invariant queue + PictureWrites(colors, page) == old(queue) + PictureWrites(colors, 0)
      {
        var start := page * MACRO_PAGE_DATA;
        var report := PicturePage(page, colors[start..if page == 6 then PICTURE_LEN else start + MACRO_PAGE_DATA]);
        ghost var rest := PictureWrites(colors, page + 1);
        assert queue + ([Write(report, 20, 0)] + rest) == queue + [Write(report, 20, 0)] + rest;
        Send(report, 20, 0);
      }
    }

    // -------------------------------------------------------- starting

    method StartKeymap(before: Keymaps, changes: seq<KeyChange>)
      modifies this`plan, this`queue, this`replies
      ensures State() == BrowserPlanner.StartKeymap(old(State()), before, changes)
    {
      hide Draft, KeyWrites;
      var target := Draft(before, changes, {});
      if target.None? || !Portable(before) {
        Failed(NotAttempted);
        return;
      }
      if before == target.value {
        Finish(KeymapDone(Apply(Success(before))));
        return;
      }
      SendBackup(KeymapRecord(before, target.value));
      QueueKeyWrites(before.base, target.value.base, false, before.profile);
      QueueKeyWrites(before.fn, target.value.fn, true, 0);
      plan := ApplyingKeymap(before, target.value, KeyMain);
      KeymapRead();
    }

    method StartMacro(slot: string, before: MacroImage, desired: Program)
      modifies this`plan, this`queue, this`replies
      ensures State() == BrowserPlanner.StartMacro(old(State()), slot, before, desired)
    {
      hide Encode, Decode, MacroWrites, MacroReads;
      var number, target := SlotNumber(slot), Encode(desired);
      if number.None? || Decode(before).None? || target.None? {
        Failed(NotAttempted);
        return;
      }
      if before == target.value {
        Finish(MacroDone(slot, Apply(Success(before))));
        return;
      }
      var reports := MacroWriteReports(number.value, target.value);
      if reports.None? {
        Failed(NotAttempted);
        return;
      }
      SendBackup(MacroRecord(slot, before, target.value));
      QueueMacroWrites(reports.value);
      plan := ApplyingMacro(slot, number.value, before, target.value, Main);
      MacroRead(number.value);
    }

    method StartLighting(original: Reply, setter: Option<Reply>)
      modifies this`plan, this`queue
      ensures State() == BrowserPlanner.StartLighting(old(State()), original, setter)
    {
      if setter.None? {
        Failed(NotAttempted);
        return;
      }
      if original[1..8] == setter.value[1..8] {
        Finish(LightingDone(Apply(Success(original))));
        return;
      }
      var submitted := Submitted(original, setter.value);
      SendBackup(LightingRecord(original, submitted));
      Send(WriteReport.Lighting(setter.value), 0, 500);
      plan := ApplyingLighting(submitted);
    }

    method StartSettings(before: Settings, edit: Change)
      modifies this`plan, this`queue, this`replies
      ensures State() == BrowserPlanner.StartSettings(old(State()), before, edit)
    {
      hide PlanChange, Editable, SettingReads;
      var planned := PlanChange(before, edit);
      if !Editable(before) || planned.None? {
        Failed(NotAttempted);
        return;
      }
      if before == planned.value.target {
        Finish(SettingsDone(Apply(Success(before))));
        return;
      }
      SendBackup(SettingsRecord(before, planned.value.target));
      Send(WriteReport.Setting(planned.value.report), 0, 500);
      plan := ApplyingSettings(planned.value, before, edit, Main);
      SettingsRead();
    }

    method StartPicture(original: Picture, target: Option<Picture>)
      modifies this`plan, this`queue
      ensures State() == BrowserPlanner.StartPicture(old(State()), original, target)
    {
      hide PictureWrites;
      if target.None? {
        Failed(NotAttempted);
        return;
      }
      if original == target.value {
        Finish(PictureDone(Apply(Success(original))));
        return;
      }
      SendBackup(PictureRecord(original, target.value));
      QueuePictureWrites(target.value);
      plan := ApplyingPicture(target.value);
    }

    method Start()
      modifies this`plan, this`queue, this`replies
      ensures State() == Begin(old(State()))
    {
      hide BrowserPlanner.StartKeymap, BrowserPlanner.StartMacro, BrowserPlanner.StartLighting, BrowserPlanner.StartSettings,
        BrowserPlanner.StartPicture, BrowserPlanner.KeymapRead, SettingReads, MacroReads;
      match request {
        case ReadKeymap =>
          plan := ReadingKeymap;
          KeymapRead();
        case ReadLighting =>
          plan := ReadingLighting;
          LightingRead(LightingReply);
        case ReadSettings =>
          plan := ReadingSettings;
          SettingsRead();
        case ReadArchive =>
          plan := ReadingArchive(OnKeymap, Capture(None, None, None, None, []));
          KeymapRead();
        case ReadPicture =>
          plan := ReadingPicture;
          LightingRead(PictureContext);
        case ReadMacro(slot) =>
          var number := SlotNumber(slot);
          if number.None? {
            ReadFailed();
          } else {
            plan := ReadingMacro(slot);
            MacroRead(number.value);
          }
        case ReadCatalog(slots) =>
          if exists slot | slot in slots :: SlotNumber(slot).None? {
            ReadFailed();
          } else if slots == [] {
            Finish(CatalogDone(Some([])));
          } else {
            plan := ReadingCatalog(slots, 0, []);
            assert slots[0] in slots;
            MacroRead(SlotNumber(slots[0]).value);
          }
        case ApplyKeymap(expected, changes) => StartKeymap(expected, changes);
        case ApplyMacro(slot, revision, desired) => StartMacro(slot, revision, desired);
        case ApplyLighting(original, setter) => StartLighting(original, setter);
        case ApplySettings(settings, edit) => StartSettings(settings, edit);
        case ApplyPicture(colors, desired) => StartPicture(colors, desired);
      }
    }

    // -------------------------------------------------------- stages

    method BeginKeyRecovery(before: Keymaps, target: Keymaps)
      modifies this`plan, this`queue, this`replies
      ensures State() == BrowserPlanner.BeginKeyRecovery(old(State()), before, target)
    {
      queue := [];
      plan := ApplyingKeymap(before, target, ObserveFn);
      KeymapRead();
    }

    method KeysObserved(before: Keymaps, target: Keymaps, stage: KeyStage)
      modifies this`plan, this`queue, this`replies
      ensures State() == BrowserPlanner.KeysObserved(old(State()), before, target, stage)
    {
      hide KeymapSnapshot, KeyWrites;
      var actual := KeymapSnapshot(replies);
      var onFn := stage == ObserveFn;
      var observed := if actual.None? then None else Some(if onFn then actual.value.fn else actual.value.base);
      var attempted, original := if onFn then target.fn else target.base, if onFn then before.fn else before.base;
      var index := if onFn then 0 else before.profile;
      if attempted[WRITABLE_SLOTS..] != original[WRITABLE_SLOTS..]
         || (observed.Some? && observed.value[WRITABLE_SLOTS..] != original[WRITABLE_SLOTS..]) {
        Failed(Unverified);
        return;
      }
      QueueKeyWrites(if observed.Some? then observed.value else attempted, original, onFn, index);
      plan := ApplyingKeymap(before, target, if onFn then RestoreFn else RestoreBase);
      if queue == [] {
        plan := ApplyingKeymap(before, target, if onFn then ObserveBase else KeyVerify);
        KeymapRead();
      }
    }

    method KeymapStageDone(before: Keymaps, target: Keymaps, stage: KeyStage)
      modifies this`plan, this`queue, this`replies
      ensures State() == BrowserPlanner.KeymapStageDone(old(State()), before, target, stage)
    {
      hide KeymapSnapshot, BrowserPlanner.KeysObserved;
      match stage {
        case KeyMain =>
          var actual := KeymapSnapshot(replies);
          if actual == Some(target) && Portable(target) {
            Finish(KeymapDone(Apply(Success(target))));
          } else {
            BeginKeyRecovery(before, target);
          }
        case ObserveFn | ObserveBase => KeysObserved(before, target, stage);
        case RestoreFn =>
          plan := ApplyingKeymap(before, target, ObserveBase);
          KeymapRead();
        case RestoreBase =>
          plan := ApplyingKeymap(before, target, KeyVerify);
          KeymapRead();
        case KeyVerify =>
          var actual := KeymapSnapshot(replies);
          Failed(if actual == Some(before) then Verified else if actual.Some? then Recovery.Failed else Unverified);
      }
    }

    method BeginMacroRecovery(slot: string, number: Byte, before: MacroImage, target: MacroImage)
      modifies this`plan, this`queue
      ensures State() == BrowserPlanner.BeginMacroRecovery(old(State()), slot, number, before, target)
    {
      queue := [];
      var reports := MacroWriteReports(number, before);
      if reports.None? {
        Failed(Unverified);
        return;
      }
      QueueMacroWrites(reports.value);
      plan := ApplyingMacro(slot, number, before, target, Restore);
    }

    method MacroStageDone(slot: string, number: Byte, before: MacroImage, target: MacroImage, stage: Stage)
      modifies this`plan, this`queue, this`replies
      ensures State() == BrowserPlanner.MacroStageDone(old(State()), slot, number, before, target, stage)
    {
      hide MacroBytes, BrowserPlanner.BeginMacroRecovery, MacroReads;
      var actual := MacroBytes(replies);
      match stage {
        case Main =>
          if actual == Some(target) && SlotNumber(slot).Some? {
            Finish(MacroDone(slot, Apply(Success(target))));
          } else {
            BeginMacroRecovery(slot, number, before, target);
          }
        case Restore =>
          plan := ApplyingMacro(slot, number, before, target, Verify);
          MacroRead(number);
        case Verify =>
          Failed(if actual == Some(before) then Verified else if actual.Some? then Recovery.Failed else Unverified);
      }
    }

    method BeginSettingsRecovery(change: ChangePlan, before: Settings, edit: Change)
      modifies this`plan, this`queue
      ensures State() == BrowserPlanner.BeginSettingsRecovery(old(State()), change, before, edit)
    {
      queue := [];
      Send(WriteReport.Setting(change.restore), 0, 500);
      plan := ApplyingSettings(change, before, edit, Restore);
    }

    method SettingsStageDone(change: ChangePlan, before: Settings, edit: Change, stage: Stage)
      modifies this`plan, this`queue, this`replies
      ensures State() == BrowserPlanner.SettingsStageDone(old(State()), change, before, edit, stage)
    {
      hide DecodeSettings, Shows, SettingReads;
      var actual := DecodeSettings(replies.settings);
      match stage {
        case Main =>
          if actual == Some(change.target) && Shows(change.target, edit) {
            Finish(SettingsDone(Apply(Success(change.target))));
          } else {
            BeginSettingsRecovery(change, before, edit);
          }
        case Restore =>
          plan := ApplyingSettings(change, before, edit, Verify);
          SettingsRead();
        case Verify =>
          Failed(if actual == Some(before) then Verified else if actual.Some? then Recovery.Failed else Unverified);
      }
    }

    method ArchiveStageDone(stage: ArchiveStage, capture: Capture)
      requires BrowserPlanner.ArchiveStageDone(State(), stage, capture).Some?
      modifies this`plan, this`queue, this`replies
      ensures State() == BrowserPlanner.ArchiveStageDone(old(State()), stage, capture).value
    {
      hide KeymapSnapshot, DecodeSettings, PictureColors, MacroBytes, Archivable, SettingReads, MacroReads, PictureReads;
      match stage {
        case OnKeymap =>
          var keymaps := KeymapSnapshot(replies);
          if keymaps.Some? && Portable(keymaps.value) {
            plan := ReadingArchive(OnLighting, capture.(keymaps := keymaps));
            LightingRead(LightingReply);
          } else {
            ReadFailed();
          }
        case OnLighting =>
          if replies.lighting.Some? {
            plan := ReadingArchive(OnSettings, capture.(lighting := replies.lighting));
            SettingsRead();
          } else {
            ReadFailed();
          }
        case OnSettings =>
          var settings := DecodeSettings(replies.settings);
          if settings.Some? {
            plan := ReadingArchive(OnPicture, capture.(settings := settings));
            replies := NO_REPLIES;
            PicturePagesRead();
          } else {
            ReadFailed();
          }
        case OnPicture =>
          var picture := PictureColors(replies);
          if picture.Some? {
            plan := ReadingArchive(OnMacro(0), capture.(picture := picture));
            MacroRead(0);
          } else {
            ReadFailed();
          }
        case OnMacro(number) =>
          var image := MacroBytes(replies);
          if image.None? {
            ReadFailed();
          } else {
            var next := capture.(macros := capture.macros + [image.value]);
            if number < 49 {
              plan := ReadingArchive(OnMacro(number + 1), next);
              MacroRead(number + 1);
            } else {
              var config := Configuration(next.keymaps.value, next.lighting.value, next.settings.value, next.picture.value, next.macros);
              if Archivable(config) { Finish(ArchiveDone(Read(Some(config)))); } else { ReadFailed(); }
            }
          }
      }
    }

    method CatalogSlotDone(slots: seq<string>, next: nat, results: seq<(string, MacroImage)>)
      requires BrowserPlanner.CatalogSlotDone(State(), slots, next, results).Some?
      modifies this`plan, this`queue, this`replies, this`mayYield
      ensures State() == BrowserPlanner.CatalogSlotDone(old(State()), slots, next, results).value
    {
      hide MacroBytes, SlotNumber, MacroReads;
      var image := MacroBytes(replies);
      if image.None? {
        ReadFailed();
      } else if SlotNumber(slots[next]).None? {
        ReadFailed();
      } else {
        var all := results + [(slots[next], image.value)];
        if next + 1 == |slots| {
          Finish(CatalogDone(Some(all)));
        } else {
          plan := ReadingCatalog(slots, next + 1, all);
          MacroRead(SlotNumber(slots[next + 1]).value);
          mayYield := true;
        }
      }
    }

    method SequenceDone()
      requires BrowserPlanner.SequenceDone(State()).Some?
      modifies this`plan, this`queue, this`replies, this`mayYield
      ensures State() == BrowserPlanner.SequenceDone(old(State())).value
    {
      hide KeymapSnapshot, MacroBytes, DecodeSettings, PictureColors, BrowserPlanner.ArchiveStageDone, BrowserPlanner.CatalogSlotDone,
           BrowserPlanner.KeymapStageDone, BrowserPlanner.MacroStageDone, BrowserPlanner.SettingsStageDone;
      match plan {
        case ReadingKeymap =>
          var k := KeymapSnapshot(replies);
          if k.Some? && Portable(k.value) { Finish(KeymapDone(Read(k))); } else { ReadFailed(); }
        case ReadingLighting =>
          if replies.lighting.Some? { Finish(LightingDone(Read(replies.lighting))); } else { ReadFailed(); }
        case ReadingSettings =>
          var s := DecodeSettings(replies.settings);
          if s.Some? { Finish(SettingsDone(Read(s))); } else { ReadFailed(); }
        case ReadingArchive(stage, capture) => ArchiveStageDone(stage, capture);
        case ReadingPicture =>
          var colors := PictureColors(replies);
          if replies.context.Some? && colors.Some? { Finish(PictureDone(Read(colors))); } else { ReadFailed(); }
        case ReadingMacro(slot) =>
          var image := MacroBytes(replies);
          if image.Some? && SlotNumber(slot).Some? { Finish(MacroDone(slot, Read(image))); } else { ReadFailed(); }
        case ReadingCatalog(slots, next, results) => CatalogSlotDone(slots, next, results);
        case ApplyingKeymap(before, target, stage) => KeymapStageDone(before, target, stage);
        case ApplyingMacro(slot, number, before, target, stage) => MacroStageDone(slot, number, before, target, stage);
        case ApplyingSettings(change, before, edit, stage) => SettingsStageDone(change, before, edit, stage);
        case ApplyingLighting(submitted) => Finish(LightingDone(Apply(Success(submitted))));
        case ApplyingPicture(submitted) => Finish(PictureDone(Apply(Success(submitted))));
        case Terminal => assert false;
      }
    }

    // -------------------------------------------------------- effect outcomes

    method FailStep()
      requires BrowserPlanner.FailStep(State()).Some?
      modifies this`plan, this`queue, this`replies, this`mayYield
      ensures State() == BrowserPlanner.FailStep(old(State())).value
    {
      hide BrowserPlanner.SequenceDone, BrowserPlanner.BeginMacroRecovery;
      if current.Backup? {
        Failed(NotAttempted);
        return;
      }
      match plan {
        case ApplyingLighting(_) | ApplyingPicture(_) => Failed(Unverified);
        case ApplyingKeymap(before, target, stage) =>
          if stage == KeyMain {
            BeginKeyRecovery(before, target);
          } else if stage == ObserveFn || stage == ObserveBase {
            queue := [];
            SequenceDone();
          } else {
            Failed(Unverified);
          }
        case ApplyingMacro(slot, number, before, target, stage) =>
          if stage == Main { BeginMacroRecovery(slot, number, before, target); } else { Failed(Unverified); }
        case ApplyingSettings(change, before, edit, stage) =>
          if stage == Main { BeginSettingsRecovery(change, before, edit); } else { Failed(Unverified); }
        case _ => ReadFailed();
      }
    }

    method EffectError(attempted: bool)
      requires BrowserPlanner.EffectError(State(), attempted).Some?
      modifies this`plan, this`queue, this`replies, this`mayYield, this`setterAttempted
      ensures State() == BrowserPlanner.EffectError(old(State()), attempted).value
    {
      hide BrowserPlanner.FailStep;
      if current.Write? {
        setterAttempted := setterAttempted || attempted;
        if !setterAttempted {
          Failed(NotAttempted);
          return;
        }
      }
      FailStep();
    }

    /** False when the reply is not the one that was asked for. */
    method AcceptReply(tag: Tag, bytes: seq<Byte>) returns (accepted: bool)
      modifies this`queue, this`replies
      ensures accepted <==> BrowserPlanner.AcceptReply(old(State()), tag, bytes).Some?
      ensures State() == if accepted then BrowserPlanner.AcceptReply(old(State()), tag, bytes).value else old(State())
    {
      if |bytes| != REPORT_LEN {
        return false;
      }
      var reply: Reply := bytes;
      var stored := Store(replies, tag, reply);
      if stored.None? {
        return false;
      }
      replies := stored.value;
      match tag {
        case Profile =>
          var index := reply[1];
          for page := 0 to MATRIX_PAGES
            invariant queue == old(queue) + BaseReads(index, 0)[..page] && replies == stored.value
          {
            Ask(ReadRequest(0x89, index, page), Base);
          }
          for page := 0 to MATRIX_PAGES
            invariant queue == old(queue) + BaseReads(index, 0) + FunctionReads(0)[..page] && replies == stored.value
          {
            Ask(ReadRequest(0x90, 0, page), Function);
          }
          assert queue == old(queue) + FollowUp(tag, reply);
        case PictureContext => PicturePagesRead();
        case _ =>
      }
      return true;
    }

    method Next()
      requires queue != [] || Loaded(State())
      modifies this
      ensures State() == BrowserPlanner.Next(old(State()))
    {
      hide BrowserPlanner.SequenceDone;
      if queue == [] {
        SequenceDoneWithin(State());
        SequenceDone();
      }
      current, queue := queue[0], queue[1..];
    }

    /** Takes the outcome of the step shown and moves to the next one. From a valid state
        it ends in a valid state, strictly closer to completion, and never in `Panic`. */
    method Advance(response: Response)
      requires Valid(State())
      modifies this
      ensures State() == BrowserPlanner.Advance(old(State()), response)
      ensures Valid(State()) && (!Finished(old(State())) ==> Measure(State()) < Measure(old(State())))
    {
      hide Valid, Measure, Loaded, BrowserPlanner.FailStep, BrowserPlanner.AcceptReply, BrowserPlanner.Next, BrowserPlanner.EffectError;
      AdvanceShortens(State(), response);
      if current.Complete? || current.Panic? {
        return;
      }
      QuietResponse(State(), response);
      mayYield := false;
      match response {
        case Error(attempted) => EffectError(attempted);
        case Done(value) =>
          match current {
            case Backup(_) =>
              if value.Some? { FailStep(); }
            case Write(_, _, _) =>
              setterAttempted := true;
              if value.Some? { FailStep(); }
            case Exchange(_, tag) =>
              if value.None? {
                FailStep();
              } else {
                var accepted := AcceptReply(tag, value.value);
                if !accepted { FailStep(); }
              }
          }
      }
      Next();
    }
  }
}
