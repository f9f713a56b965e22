/** What a transaction backs up before its first setter: the very bytes the keyboard holds
    then, and the ones a success will have put in their place. */
module BrowserBackups {
  import opened Wrappers
  import opened SettingsCodec
  import opened MacroCodec
  import opened Nia87
  import opened BrowserPlanner
  import opened BrowserTermination
  import opened BrowserWorld
  import K = KeymapVerdicts
  import I = ImageVerdicts
  import T = TransportVerdicts

  /** The request was planned against what the keyboard holds. */
  predicate Expects(request: Request, d: Device)
    requires |d.macros| == MACRO_SLOTS
  {
    match request
    case ApplyKeymap(expected, _) => d.keymaps == expected
    case ApplyMacro(slot, revision, _) => SlotNumber(slot).Some? ==> d.macros[SlotNumber(slot).value] == revision
    case ApplyLighting(original, _) => d.lighting == original
    case ApplySettings(current, _) => d.settings == current && ValidSettings(current)
    case ApplyPicture(colors, _) => d.picture == colors
    case _ => true
  }

  /** The keyboard holds the recorded image. */
  predicate Preserves(record: Record, d: Device) {
    match record
    case KeymapRecord(before, _) => d.keymaps == before
    case MacroRecord(slot, before, _) =>
      SlotNumber(slot).Some? && SlotNumber(slot).value < |d.macros| && d.macros[SlotNumber(slot).value] == before
    case LightingRecord(before, _) => d.lighting == before
    case SettingsRecord(before, _) => d.settings == before
    case PictureRecord(before, _) => d.picture == before
  }

  /** `now` is `d` with the recorded target in place of the recorded image. */
  predicate Replaces(record: Record, d: Device, now: Device) {
    match record
    case KeymapRecord(_, target) => now == d.(keymaps := target)
    case MacroRecord(slot, _, target) =>
      SlotNumber(slot).Some? && SlotNumber(slot).value < |d.macros| && now == d.(macros := d.macros[SlotNumber(slot).value := target])
    case LightingRecord(_, target) => now == d.(lighting := target)
    case SettingsRecord(_, target) => now == d.(settings := target)
    case PictureRecord(_, target) => now == d.(picture := target)
  }

  /** The completion that reports the recorded target. */
  function Reported(record: Record): Completion {
    match record
    case KeymapRecord(_, target) => KeymapDone(Apply(Success(target)))
    case MacroRecord(slot, _, target) => MacroDone(slot, Apply(Success(target)))
    case LightingRecord(_, target) => LightingDone(Apply(Success(target)))
    case SettingsRecord(_, target) => SettingsDone(Apply(Success(target)))
    case PictureRecord(_, target) => PictureDone(Apply(Success(target)))
  }

  predicate Succeeded(payload: Completion) {
    match payload
    case KeymapDone(result) => result.Apply? && result.applied.Success?
    case MacroDone(_, result) => result.Apply? && result.applied.Success?
    case LightingDone(result) => result.Apply? && result.applied.Success?
    case SettingsDone(result) => result.Apply? && result.applied.Success?
    case PictureDone(result) => result.Apply? && result.applied.Success?
    case _ => false
  }

  predicate Verified(payload: Completion) {
    match payload
    case KeymapDone(result) => result == Apply(Failure(Recovery.Verified))
    case MacroDone(_, result) => result == Apply(Failure(Recovery.Verified))
    case LightingDone(result) => result == Apply(Failure(Recovery.Verified))
    case SettingsDone(result) => result == Apply(Failure(Recovery.Verified))
    case PictureDone(result) => result == Apply(Failure(Recovery.Verified))
    case _ => false
  }

  // ------------------------------------------------------------ the record of each request

  /** A backup names the image it was planned against and the one the request asks for. */
  predicate Names(request: Request, record: Record) {
    match request
    case ApplyKeymap(expected, changes) =>
      var target := Draft(expected, changes, {});
      target.Some? && Portable(expected) && record == KeymapRecord(expected, target.value)
    case ApplyMacro(slot, revision, desired) =>
      SlotNumber(slot).Some? && Decode(revision).Some? && Encode(desired).Some? && record == MacroRecord(slot, revision, Encode(desired).value)
    case ApplyLighting(original, setter) =>
      setter.Some? && record == LightingRecord(original, original[..1] + setter.value[1..8] + original[8..])
    case ApplySettings(current, edit) =>
      Editable(current) && PlanChange(current, edit).Some? && record == SettingsRecord(current, PlanChange(current, edit).value.target)
    case ApplyPicture(colors, desired) => desired.Some? && record == PictureRecord(colors, desired.value)
    case _ => false
  }

  lemma {:induction false} OpeningNames(request: Request)
    requires Start(request).current.Backup?
    ensures Names(request, Start(request).current.record)
  {
    hide Draft, KeyWrites, Decode, Encode, SlotNumber, MacroWriteReports, MacroReads, PlanChange, Editable;
    var op := Operation(request, Terminal, [], Complete(CatalogDone(None)), NO_REPLIES, false, false);
    StartIsValid(request);
    if IsApply(request) {
      ApplyBegun(op);
      assert Start(request).current == Begin(op).queue[0];
      FirstNames(op);
    }
  }

  lemma {:induction false} FirstNames(op: Operation)
    requires op.queue == [] && IsApply(op.request) && Begin(op).queue != [] && Begin(op).queue[0].Backup?
    ensures Names(op.request, Begin(op).queue[0].record)
  {
    hide Draft, KeyWrites, Decode, Encode, SlotNumber, MacroWrites, MacroWriteReports, MacroReads, SettingReads, PictureWrites,
      PlanChange, Editable;
    match op.request
    case ApplyKeymap(_, _) => FirstOfKeymap(op);
    case ApplyMacro(_, _, _) => FirstOfMacro(op);
    case ApplyLighting(_, _) =>
    case ApplySettings(_, _) =>
    case ApplyPicture(_, _) =>
  }

  lemma {:induction false} FirstOfKeymap(op: Operation)
    requires op.queue == [] && op.request.ApplyKeymap? && Begin(op).queue != [] && Begin(op).queue[0].Backup?
    ensures Names(op.request, Begin(op).queue[0].record)
  {
    hide Draft, KeyWrites;
  }

  lemma {:induction false} FirstOfMacro(op: Operation)
    requires op.queue == [] && op.request.ApplyMacro? && Begin(op).queue != [] && Begin(op).queue[0].Backup?
    ensures Names(op.request, Begin(op).queue[0].record)
  {
    hide Decode, Encode, SlotNumber, MacroWrites, MacroWriteReports, MacroReads;
  }

  // ------------------------------------------------------------ whole plays

  lemma {:induction false} BackupOnlyFirst(w: World, effects: seq<Effect>)
    requires Valid(w.op) && !w.op.current.Backup?
    ensures !Play(w, effects).op.current.Backup?
    decreases |effects|
  {
    if effects != [] {
      BackupComesFirst(w.op, effects[0].response);
      AdvanceShortens(w.op, effects[0].response);
      BackupOnlyFirst(Turn(w, effects[0]), effects[1..]);
    }
  }

  lemma {:induction false} BackupIsOpening(request: Request, d: Device, effects: seq<Effect>)
    requires Play(Opening(request, d), effects).op.current.Backup?
    ensures Play(Opening(request, d), effects) == Opening(request, d)
  {
    hide Start;
    StartIsValid(request);
    var opening := Opening(request, d);
    if effects != [] {
      BackupComesFirst(opening.op, effects[0].response);
      AdvanceShortens(opening.op, effects[0].response);
      if !Finished(opening.op) { BackupOnlyFirst(Turn(opening, effects[0]), effects[1..]); } else { PlayFinished(opening, effects); }
    }
  }

  /** Whenever a backup is shown, its before-image is what the keyboard holds at that moment,
      and no setter has been sent. */
  lemma {:induction false} BackupsPreserve(request: Request, d: Device, effects: seq<Effect>)
    requires |d.macros| == MACRO_SLOTS && Expects(request, d)
    ensures var w := Play(Opening(request, d), effects);
      w.op.current.Backup? ==> Preserves(w.op.current.record, w.device) && w.device == d && !w.attempted
  {
    hide Play, Start, SlotNumber, Draft, Encode, Decode, PlanChange, Editable, ValidSettings;
    if Play(Opening(request, d), effects).op.current.Backup? {
      BackupIsOpening(request, d, effects);
      OpeningNames(request);
    }
  }

  /** What a transaction that began with this backup comes to, against any keyboard that keeps
      what it acknowledges: a success reports the recorded target and has put exactly that in
      place of the recorded image; after a verified recovery the recorded image is back and
      nothing else has changed. */
  lemma {:induction false} RecordsAreKept(request: Request, d: Device, effects: seq<Effect>)
    requires |d.macros| == MACRO_SLOTS && Expects(request, d) && Start(request).current.Backup?
    requires HonestPlay(Opening(request, d), effects)
    ensures var w, record := Play(Opening(request, d), effects), Start(request).current.record;
      w.op.current.Complete? ==>
        && (Succeeded(w.op.current.payload) ==> w.op.current.payload == Reported(record) && Replaces(record, d, w.device))
        && (Verified(w.op.current.payload) ==> w.device == d && Preserves(record, w.device))
  {
    hide Play, HonestPlay, Start, SlotNumber, Draft, Encode, Decode, PlanChange, Editable, ValidSettings;
    OpeningNames(request);
    match request
    case ApplyKeymap(expected, changes) => K.KeymapVerdictIsTrue(expected, changes, d, effects);
    case ApplyMacro(slot, revision, desired) => I.MacroVerdictIsTrue(slot, revision, desired, d, effects);
    case ApplySettings(_, edit) => I.SettingsVerdictIsTrue(edit, d, effects);
    case ApplyLighting(original, setter) => LightingIsKept(original, setter, d, effects);
    case ApplyPicture(_, desired) => T.PictureVerdictIsTrue(desired, d, effects);
  }

  lemma {:induction false} LightingIsKept(original: Reply, setter: Option<Reply>, d: Device, effects: seq<Effect>)
    requires |d.macros| == MACRO_SLOTS && d.lighting == original && setter.Some?
    requires HonestPlay(Opening(ApplyLighting(original, setter), d), effects)
    ensures var w := Play(Opening(ApplyLighting(original, setter), d), effects);
      var target := original[..1] + setter.value[1..8] + original[8..];
      w.op.current.Complete? ==>
        && (Succeeded(w.op.current.payload) ==>
              w.op.current.payload == LightingDone(Apply(Success(target))) && w.device == d.(lighting := target))
        && !Verified(w.op.current.payload)
  {
    hide Play, HonestPlay, Start;
    T.LightingVerdictIsTrue(setter, d, effects);
  }

  // ------------------------------------------------------------ how setters are paced

  /** A setter and the milliseconds the keyboard is left alone before and after it. */
  predicate Paced(step: Step, beforeMs: nat, afterMs: nat) {
    step.Write? && step.beforeMs == beforeMs && step.afterMs == afterMs
  }

  /** A key setter is given a second. */
  lemma {:induction false} KeyWritesArePaced(source: Matrix, goal: Matrix, fn: bool, index: Byte, slot: nat)
    requires slot <= WRITABLE_SLOTS
    ensures forall s | s in KeyWrites(source, goal, fn, index, slot) ::
      Paced(s, 0, 1000) && s.report.SingleKey? && s.report.fn == fn && s.report.index == index
    decreases WRITABLE_SLOTS - slot
  {
    if slot < WRITABLE_SLOTS { KeyWritesArePaced(source, goal, fn, index, slot + 1); }
  }

  /** A macro page is given 30 ms, and two seconds more when it is the fifth, which the keyboard
      stores. */
  lemma {:induction false} MacroWritesArePaced(reports: seq<WriteReport>, page: nat)
    requires page <= |reports|
    ensures var writes := MacroWrites(reports, page);
      && |writes| == |reports| - page
      && forall i :: 0 <= i < |writes| ==> Paced(writes[i], 0, if page + i == 4 then 2030 else 30) && writes[i].report == reports[page + i]
    decreases |reports| - page
  {
    if page < |reports| { MacroWritesArePaced(reports, page + 1); }
  }

  /** A picture page waits 20 ms first. */
  lemma {:induction false} PictureWritesArePaced(colors: Picture, page: nat)
    requires page <= PICTURE_WRITE_PAGES
    ensures var writes := PictureWrites(colors, page);
      && |writes| == PICTURE_WRITE_PAGES - page
      && forall i :: 0 <= i < |writes| ==> Paced(writes[i], 20, 0) && writes[i].report.PicturePage? && writes[i].report.page == page + i
    decreases PICTURE_WRITE_PAGES - page
  {
    if page < PICTURE_WRITE_PAGES { PictureWritesArePaced(colors, page + 1); }
  }
}
