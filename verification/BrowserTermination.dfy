/** Whatever the effects answer, a browser operation reaches its one completion within a
    bound fixed by the request, never panics, and never sends a setter before its backup. */
module BrowserTermination {
  import opened Wrappers
  import opened SettingsCodec
  import opened MacroCodec
  import opened Nia87
  import opened BrowserPlanner

  // ------------------------------------------------------------ the termination measure

  /** Advances a step can still cause by itself: an identity or context reply asks for
      sixteen or six further pages. */
  function Cost(step: Step): nat {
    match step
    case Exchange(_, Profile) => 17
    case Exchange(_, PictureContext) => 7
    case _ => 1
  }

  function QueueCost(queue: seq<Step>): nat {
    if queue == [] then 0 else Cost(queue[0]) + QueueCost(queue[1..])
  }

  /** Advances that later stages of a plan can still cause, completion included. */
  function Bound(plan: Plan): nat {
    match plan
    case Terminal => 0
    case ReadingArchive(stage, _) =>
      (match stage
       case OnKeymap => 212
       case OnLighting => 211
       case OnSettings => 207
       case OnPicture => 201
       case OnMacro(number) => if number < 49 then 1 + 4 * (49 - number) else 1)
    case ReadingCatalog(slots, next, _) => if next < |slots| then 1 + 4 * (|slots| - 1 - next) else 1
    case ApplyingKeymap(_, _, stage) =>
      (match stage
       case KeyMain => 307
       case ObserveFn => 289
       case RestoreFn => 163
       case ObserveBase => 145
       case RestoreBase => 19
       case KeyVerify => 1)
    case ApplyingMacro(_, _, _, _, stage) => if stage == Main then 10 else if stage == Restore then 5 else 1
    case ApplyingSettings(_, _, _, stage) => if stage == Main then 6 else if stage == Restore then 5 else 1
    case _ => 1
  }

  function Weight(op: Operation): nat {
    QueueCost(op.queue) + Bound(op.plan)
  }

  predicate Finished(op: Operation) {
    op.current.Complete? || op.current.Panic?
  }

  function Measure(op: Operation): nat {
    if Finished(op) then 0 else Cost(op.current) + Weight(op)
  }

  lemma {:induction false} QueueCostAppend(a: seq<Step>, b: seq<Step>)
    ensures QueueCost(a + b) == QueueCost(a) + QueueCost(b)
    decreases |a|
  {
    if a == [] {
      assert a + b == b;
    } else {
      QueueCostAppend(a[1..], b);
      assert (a + b)[1..] == a[1..] + b;
    }
  }

  lemma {:induction false} PlainQueueCost(queue: seq<Step>)
    requires forall s | s in queue :: Cost(s) == 1
    ensures QueueCost(queue) == |queue|
    decreases |queue|
  {
    if queue != [] {
      PlainQueueCost(queue[1..]);
    }
  }

  lemma {:induction false} KeyWritesCost(source: Matrix, goal: Matrix, fn: bool, index: Byte, slot: nat)
    requires slot <= WRITABLE_SLOTS
    ensures var writes := KeyWrites(source, goal, fn, index, slot);
      |writes| <= WRITABLE_SLOTS - slot && QueueCost(writes) == |writes| && forall s | s in writes :: s.Write?
    decreases WRITABLE_SLOTS - slot
  {
    if slot < WRITABLE_SLOTS {
      KeyWritesCost(source, goal, fn, index, slot + 1);
      PlainQueueCost(KeyWrites(source, goal, fn, index, slot));
    }
  }

  lemma {:induction false} MacroWritesCost(reports: seq<WriteReport>)
    requires |reports| == MACRO_WRITE_PAGES
    ensures var writes := MacroWrites(reports, 0);
      |writes| == 5 && QueueCost(writes) == 5
      && forall i :: 0 <= i < 5 ==> writes[i] == Write(reports[i], 0, if i == 4 then 2030 else 30)
  {
    assert MacroWrites(reports, 4) == [Write(reports[4], 0, 2030)];
    assert MacroWrites(reports, 3) == [Write(reports[3], 0, 30), Write(reports[4], 0, 2030)];
    assert MacroWrites(reports, 2) == [Write(reports[2], 0, 30)] + MacroWrites(reports, 3);
    assert MacroWrites(reports, 1) == [Write(reports[1], 0, 30)] + MacroWrites(reports, 2);
    PlainQueueCost(MacroWrites(reports, 0));
  }

  lemma {:induction false} PictureWritesCost(colors: Picture, page: nat)
    requires page <= PICTURE_WRITE_PAGES
    ensures var writes := PictureWrites(colors, page);
      |writes| == 7 - page && QueueCost(writes) == 7 - page && forall s | s in writes :: s.Write?
    decreases PICTURE_WRITE_PAGES - page
  {
    if page < PICTURE_WRITE_PAGES {
      PictureWritesCost(colors, page + 1);
      PlainQueueCost(PictureWrites(colors, page));
    }
  }

  lemma {:induction false} IdentityReadsCost()
    ensures QueueCost(IDENTITY_READS) == 18
  {
    assert IDENTITY_READS[1..] == [Exchange(ReadRequest(0x85, 0, 0), Profile)];
    assert QueueCost(IDENTITY_READS[1..]) == 17 + QueueCost(IDENTITY_READS[1..][1..]);
  }

  lemma {:induction false} MatrixReadsCost(index: Byte)
    ensures QueueCost(BaseReads(index, 0) + FunctionReads(0)) == 16
  {
    PlainQueueCost(BaseReads(index, 0) + FunctionReads(0));
  }

  lemma {:induction false} PictureReadsCost()
    ensures QueueCost(PictureReads(0)) == 6
  {
    PlainQueueCost(PictureReads(0));
  }

  lemma {:induction false} SettingReadsCost()
    ensures QueueCost(SettingReads(0)) == 4
  {
    PlainQueueCost(SettingReads(0));
  }

  lemma {:induction false} MacroReadsCost(number: Byte)
    ensures QueueCost(MacroReads(number, 0)) == 4
  {
    PlainQueueCost(MacroReads(number, 0));
  }

  // ------------------------------------------------------------ the safety invariant

  predicate IsApply(request: Request) {
    request.ApplyKeymap? || request.ApplyMacro? || request.ApplyLighting? || request.ApplySettings? || request.ApplyPicture?
  }

  predicate Applying(plan: Plan) {
    plan.ApplyingKeymap? || plan.ApplyingMacro? || plan.ApplyingLighting? || plan.ApplyingSettings? || plan.ApplyingPicture?
  }

  predicate Captured(stage: ArchiveStage, c: Capture) {
    && (!stage.OnKeymap? ==> c.keymaps.Some?)
    && (!stage.OnKeymap? && !stage.OnLighting? ==> c.lighting.Some?)
    && (stage.OnPicture? || stage.OnMacro? ==> c.settings.Some?)
    && (stage.OnMacro? ==> c.picture.Some? && stage.number <= 49)
  }

  ghost predicate PlanOk(plan: Plan) {
    match plan
    case ReadingCatalog(slots, next, _) => next < |slots| && forall s | s in slots :: SlotNumber(s).Some?
    case ReadingArchive(stage, capture) => Captured(stage, capture)
    case _ => true
  }

  predicate EffectFor(plan: Plan, step: Step) {
    step.Exchange? || (step.Write? && Applying(plan))
  }

  /** The operation between two steps: either its completion alone is queued, or only
      effects of the current plan are. */
  ghost predicate Loaded(op: Operation) {
    if op.plan.Terminal? then |op.queue| == 1 && op.queue[0].Complete?
    else
      && PlanOk(op.plan)
      && (Applying(op.plan) ==> IsApply(op.request))
      && forall s | s in op.queue :: EffectFor(op.plan, s)
  }

  /** The operation as its caller sees it: completed, or showing an effect of its plan. */
  ghost predicate Valid(op: Operation) {
    if op.current.Complete? then op.plan.Terminal?
    else
      && !op.plan.Terminal? && Loaded(op)
      && (EffectFor(op.plan, op.current) || (op.current.Backup? && Applying(op.plan)))
  }

  /** `op` came out of a stage whose remaining bound was `bound`. */
  ghost predicate Within(op: Operation, before: Operation, bound: nat) {
    Loaded(op) && Weight(op) <= bound && op.request == before.request && (Applying(op.plan) ==> Applying(before.plan))
  }

  lemma {:induction false} FinishedWithin(op: Operation, payload: Completion, bound: nat)
    requires bound >= 1
    ensures Within(Finish(op, payload), op, bound)
  {
    assert QueueCost([Complete(payload)]) == 1 + QueueCost([Complete(payload)][1..]);
  }

  lemma {:induction false} StartReadWithin(op: Operation, steps: seq<Step>, bound: nat)
    requires !op.plan.Terminal? && Loaded(op)
    requires forall s | s in steps :: s.Exchange?
    requires Weight(op) + QueueCost(steps) <= bound
    ensures Within(StartRead(op, steps), op, bound) && (StartRead(op, steps).queue == [] ==> steps == [])
    ensures StartRead(op, steps).plan == op.plan && StartRead(op, steps).setterAttempted == op.setterAttempted
  {
    QueueCostAppend(op.queue, steps);
  }

  lemma {:induction false} KeysRestoredWithin(op: Operation, before: Keymaps, target: Keymaps, stage: KeyStage, bound: nat)
    requires op.queue == [] && IsApply(op.request) && Applying(op.plan)
    requires 18 + Bound(ApplyingKeymap(before, target, stage)) <= bound
    ensures Within(KeysRestored(op, before, target, stage), op, bound)
    ensures KeysRestored(op, before, target, stage).queue != []
  {
    IdentityReadsCost();
    StartReadWithin(op.(plan := ApplyingKeymap(before, target, stage)), IDENTITY_READS, bound);
  }

  lemma {:induction false} KeymapStageWithin(op: Operation, before: Keymaps, target: Keymaps, stage: KeyStage)
    requires op.plan == ApplyingKeymap(before, target, stage) && IsApply(op.request) && op.queue == []
    ensures Within(KeymapStageDone(op, before, target, stage), op, Bound(op.plan))
    ensures KeymapStageDone(op, before, target, stage).queue != []
  {
    match stage
    case KeyMain =>
      FinishedWithin(op, KeymapDone(Apply(Success(target))), Bound(op.plan));
      KeysRestoredWithin(op, before, target, ObserveFn, Bound(op.plan));
    case RestoreFn => KeysRestoredWithin(op, before, target, ObserveBase, Bound(op.plan));
    case RestoreBase => KeysRestoredWithin(op, before, target, KeyVerify, Bound(op.plan));
    case KeyVerify =>
      FinishedWithin(op, FailurePayload(op.request, Verified), 1);
      FinishedWithin(op, FailurePayload(op.request, Recovery.Failed), 1);
      FinishedWithin(op, FailurePayload(op.request, Unverified), 1);
    case ObserveFn | ObserveBase => KeysObservedWithin(op, before, target, stage);
  }

  lemma {:induction false} KeysObservedWithin(op: Operation, before: Keymaps, target: Keymaps, stage: KeyStage)
    requires stage == ObserveFn || stage == ObserveBase
    requires op.plan == ApplyingKeymap(before, target, stage) && IsApply(op.request) && op.queue == []
    ensures Within(KeysObserved(op, before, target, stage), op, Bound(op.plan))
    ensures KeysObserved(op, before, target, stage).queue != []
  {
    hide KeymapSnapshot, KeyWrites, QueueCost, KeysRestored;
    var onFn := stage == ObserveFn;
    var actual := KeymapSnapshot(op.replies);
    var observed := if actual.None? then None else Some(if onFn then actual.value.fn else actual.value.base);
    var attempted, original := if onFn then target.fn else target.base, if onFn then before.fn else before.base;
    var writes := RestoreWrites(observed, attempted, original, onFn, if onFn then 0 else before.profile);
    if writes.None? {
      FinishedWithin(op, FailurePayload(op.request, Unverified), Bound(op.plan));
    } else {
      KeyWritesCost(if observed.Some? then observed.value else attempted, original, onFn, if onFn then 0 else before.profile, 0);
      assert [] + writes.value == writes.value;
      if writes.value == [] {
        var next := Push(op.(plan := ApplyingKeymap(before, target, if onFn then RestoreFn else RestoreBase)), []);
        KeysRestoredWithin(next, before, target, if onFn then ObserveBase else KeyVerify, Bound(op.plan));
      }
    }
  }

  lemma {:induction false} BeginMacroRecoveryWithin(op: Operation, slot: string, number: Byte, before: MacroImage, target: MacroImage)
    requires IsApply(op.request) && Applying(op.plan)
    ensures Within(BeginMacroRecovery(op, slot, number, before, target), op, 10)
    ensures BeginMacroRecovery(op, slot, number, before, target).queue != []
  {
    var reports := MacroWriteReports(number, before);
    if reports.None? {
      FinishedWithin(op.(queue := []), FailurePayload(op.request, Unverified), 10);
    } else {
      MacroWritesCost(reports.value);
    }
  }

  lemma {:induction false} MacroReadWithin(op: Operation, number: Byte, bound: nat)
    requires !op.plan.Terminal? && Loaded(op) && op.queue == []
    requires Bound(op.plan) + 4 <= bound
    ensures Within(MacroRead(op, number), op, bound)
    ensures MacroRead(op, number).queue != []
  {
    MacroReadsCost(number);
    if number < MACRO_SLOTS {
      StartReadWithin(op, MacroReads(number, 0), bound);
    } else {
      FinishedWithin(op.(replies := NO_REPLIES), ReadFailurePayload(op.request), bound);
    }
  }

  lemma {:induction false} MacroStageWithin(op: Operation, slot: string, number: Byte, before: MacroImage, target: MacroImage, stage: Stage)
    requires op.plan == ApplyingMacro(slot, number, before, target, stage) && IsApply(op.request) && op.queue == []
    ensures Within(MacroStageDone(op, slot, number, before, target, stage), op, Bound(op.plan))
    ensures MacroStageDone(op, slot, number, before, target, stage).queue != []
  {
    FinishedWithin(op, MacroDone(slot, Apply(Success(target))), Bound(op.plan));
    FinishedWithin(op, FailurePayload(op.request, Verified), Bound(op.plan));
    FinishedWithin(op, FailurePayload(op.request, Recovery.Failed), Bound(op.plan));
    FinishedWithin(op, FailurePayload(op.request, Unverified), Bound(op.plan));
    match stage
    case Main => BeginMacroRecoveryWithin(op, slot, number, before, target);
    case Restore => MacroReadWithin(op.(plan := ApplyingMacro(slot, number, before, target, Verify)), number, 5);
    case Verify =>
  }

  lemma {:induction false} BeginSettingsRecoveryWithin(op: Operation, plan: ChangePlan, before: Settings, edit: Change)
    requires IsApply(op.request) && Applying(op.plan)
    ensures Within(BeginSettingsRecovery(op, plan, before, edit), op, 6)
  {
    var queue := [Write(Setting(plan.restore), 0, 500)];
    assert QueueCost(queue) == 1 + QueueCost(queue[1..]);
  }

  lemma {:induction false} SettingsStageWithin(op: Operation, plan: ChangePlan, before: Settings, edit: Change, stage: Stage)
    requires op.plan == ApplyingSettings(plan, before, edit, stage) && IsApply(op.request) && op.queue == []
    ensures Within(SettingsStageDone(op, plan, before, edit, stage), op, Bound(op.plan))
    ensures SettingsStageDone(op, plan, before, edit, stage).queue != []
  {
    hide DecodeSettings, Shows, SettingReads;
    FinishedWithin(op, SettingsDone(Apply(Success(plan.target))), Bound(op.plan));
    FinishedWithin(op, FailurePayload(op.request, Verified), Bound(op.plan));
    FinishedWithin(op, FailurePayload(op.request, Recovery.Failed), Bound(op.plan));
    FinishedWithin(op, FailurePayload(op.request, Unverified), Bound(op.plan));
    SettingReadsCost();
    match stage
    case Main => BeginSettingsRecoveryWithin(op, plan, before, edit);
    case Restore => StartReadWithin(op.(plan := ApplyingSettings(plan, before, edit, Verify)), SettingReads(0), 5);
    case Verify =>
  }

  lemma {:induction false} ArchiveKeymapWithin(op: Operation, capture: Capture)
    requires op.plan == ReadingArchive(OnKeymap, capture) && op.queue == []
    ensures var done := ArchiveStageDone(op, OnKeymap, capture);
      done.Some? && done.value.queue != [] && Within(done.value, op, Bound(op.plan))
  {
    hide KeymapSnapshot;
    FinishedWithin(op, ReadFailurePayload(op.request), Bound(op.plan));
    var script := [Exchange(ReadRequest(LED_READ_COMMAND, 0, 0), LightingReply)];
    PlainQueueCost(script);
    var keymaps := KeymapSnapshot(op.replies);
    if keymaps.Some? {
      StartReadWithin(op.(plan := ReadingArchive(OnLighting, capture.(keymaps := keymaps))), script, 212);
    }
  }

  lemma {:induction false} ArchiveScalarsWithin(op: Operation, stage: ArchiveStage, capture: Capture)
    requires stage.OnLighting? || stage.OnSettings?
    requires op.plan == ReadingArchive(stage, capture) && Captured(stage, capture) && op.queue == []
    ensures var done := ArchiveStageDone(op, stage, capture);
      done.Some? && done.value.queue != [] && Within(done.value, op, Bound(op.plan))
  {
    hide DecodeSettings, PictureReads, SettingReads;
    FinishedWithin(op, ReadFailurePayload(op.request), Bound(op.plan));
    SettingReadsCost();
    PictureReadsCost();
    if stage.OnLighting? {
      if op.replies.lighting.Some? {
        StartReadWithin(op.(plan := ReadingArchive(OnSettings, capture.(lighting := op.replies.lighting))), SettingReads(0), 211);
      }
    } else {
      var settings := DecodeSettings(op.replies.settings);
      if settings.Some? {
        StartReadWithin(op.(plan := ReadingArchive(OnPicture, capture.(settings := settings))), PictureReads(0), 207);
      }
    }
  }

  lemma {:induction false} ArchivePagesWithin(op: Operation, stage: ArchiveStage, capture: Capture)
    requires stage.OnPicture? || stage.OnMacro?
    requires op.plan == ReadingArchive(stage, capture) && Captured(stage, capture) && op.queue == []
    ensures var done := ArchiveStageDone(op, stage, capture);
      done.Some? && done.value.queue != [] && Within(done.value, op, Bound(op.plan))
  {
    hide MacroBytes, PictureColors, Archivable, MacroRead;
    FinishedWithin(op, ReadFailurePayload(op.request), Bound(op.plan));
    match stage
    case OnPicture =>
      var picture := PictureColors(op.replies);
      if picture.Some? {
        MacroReadWithin(op.(plan := ReadingArchive(OnMacro(0), capture.(picture := picture))), 0, 201);
      }
    case OnMacro(number) =>
      var image := MacroBytes(op.replies);
      if image.Some? {
        var next := capture.(macros := capture.macros + [image.value]);
        if number < 49 {
          MacroReadWithin(op.(plan := ReadingArchive(OnMacro(number + 1), next)), number + 1, Bound(op.plan));
        } else {
          var config := Configuration(next.keymaps.value, next.lighting.value, next.settings.value, next.picture.value, next.macros);
          FinishedWithin(op, ArchiveDone(Read(Some(config))), 1);
        }
      }
  }

  lemma {:induction false} ArchiveStageWithin(op: Operation, stage: ArchiveStage, capture: Capture)
    requires op.plan == ReadingArchive(stage, capture) && Captured(stage, capture) && op.queue == []
    ensures var done := ArchiveStageDone(op, stage, capture);
      done.Some? && done.value.queue != [] && Within(done.value, op, Bound(op.plan))
  {
    hide ArchiveStageDone;
    match stage
    case OnKeymap => ArchiveKeymapWithin(op, capture);
    case OnLighting | OnSettings => ArchiveScalarsWithin(op, stage, capture);
    case OnPicture | OnMacro(_) => ArchivePagesWithin(op, stage, capture);
  }

  lemma {:induction false} CatalogSlotWithin(op: Operation, slots: seq<string>, next: nat, results: seq<(string, MacroImage)>)
    requires op.plan == ReadingCatalog(slots, next, results) && PlanOk(op.plan) && op.queue == []
    ensures var done := CatalogSlotDone(op, slots, next, results);
      done.Some? && done.value.queue != [] && Within(done.value, op, Bound(op.plan))
  {
    hide MacroBytes, SlotNumber, MacroReads, MacroRead;
    FinishedWithin(op, ReadFailurePayload(op.request), Bound(op.plan));
    var image := MacroBytes(op.replies);
    if image.Some? {
      var all := results + [(slots[next], image.value)];
      if next + 1 == |slots| {
        FinishedWithin(op, CatalogDone(Some(all)), Bound(op.plan));
      } else {
        assert slots[next + 1] in slots;
        MacroReadWithin(op.(plan := ReadingCatalog(slots, next + 1, all), mayYield := true),
                        SlotNumber(slots[next + 1]).value, Bound(op.plan));
      }
    }
  }

  /** Finishing a sequence never panics and always yields another step. */
  lemma {:induction false} SequenceDoneWithin(op: Operation)
    requires !op.plan.Terminal? && Loaded(op) && op.queue == []
    ensures var done := SequenceDone(op);
      done.Some? && done.value.queue != [] && Within(done.value, op, Bound(op.plan))
  {
    match op.plan
    case ReadingArchive(stage, capture) => ArchiveStageWithin(op, stage, capture);
    case ReadingCatalog(slots, next, results) => CatalogSlotWithin(op, slots, next, results);
    case ApplyingKeymap(before, target, stage) => KeymapStageWithin(op, before, target, stage);
    case ApplyingMacro(slot, number, before, target, stage) => MacroStageWithin(op, slot, number, before, target, stage);
    case ApplyingSettings(plan, before, edit, stage) => SettingsStageWithin(op, plan, before, edit, stage);
    case ReadingKeymap | ReadingLighting | ReadingSettings | ReadingPicture | ReadingMacro(_)
         | ApplyingLighting(_) | ApplyingPicture(_) =>
      FinishedWithin(op, SequenceDone(op).value.queue[0].payload, 1);
    case Terminal => assert false;
  }

  /** A failed effect stays within what the current stage still had to spend. */
  lemma {:induction false} FailStepWithin(op: Operation)
    requires !op.plan.Terminal? && Loaded(op)
    ensures FailStep(op).Some? && Within(FailStep(op).value, op, Bound(op.plan))
  {
    FinishedWithin(op, FailurePayload(op.request, NotAttempted), Bound(op.plan));
    FinishedWithin(op, FailurePayload(op.request, Unverified), Bound(op.plan));
    FinishedWithin(op, ReadFailurePayload(op.request), Bound(op.plan));
    if !op.current.Backup? {
      match op.plan
      case ApplyingKeymap(before, target, stage) =>
        if stage == KeyMain {
          KeysRestoredWithin(op.(queue := []), before, target, ObserveFn, Bound(op.plan));
        } else if stage == ObserveFn || stage == ObserveBase {
          SequenceDoneWithin(op.(queue := []));
        }
      case ApplyingMacro(slot, number, before, target, stage) =>
        if stage == Main {
          BeginMacroRecoveryWithin(op, slot, number, before, target);
        }
      case ApplyingSettings(plan, before, edit, stage) =>
        if stage == Main {
          BeginSettingsRecoveryWithin(op, plan, before, edit);
        }
      case _ =>
    }
  }

  lemma {:induction false} AcceptedWithin(op: Operation, tag: Tag, bytes: seq<Byte>)
    requires !op.plan.Terminal? && Loaded(op) && AcceptReply(op, tag, bytes).Some?
    ensures Within(AcceptReply(op, tag, bytes).value, op, Weight(op) + Cost(Exchange(ReadRequest(0, 0, 0), tag)) - 1)
  {
    hide Store, BaseReads, FunctionReads, PictureReads;
    MatrixReadsCost(bytes[1]);
    PictureReadsCost();
    QueueCostAppend(op.queue, FollowUp(tag, bytes));
    assert QueueCost([]) == 0;
  }

  lemma {:induction false} RespondWithin(op: Operation, response: Response)
    requires Valid(op) && !Finished(op)
    ensures Respond(op, response).Some?
    ensures Within(Respond(op, response).value, op, Measure(op) - 1)
  {
    hide FailStep, AcceptReply;
    var tried := op.(setterAttempted := true);
    FailStepWithin(op);
    FailStepWithin(tried);
    match response
    case Error(attempted) =>
      var noted := op.(setterAttempted := op.setterAttempted || attempted);
      FinishedWithin(noted, FailurePayload(op.request, NotAttempted), Bound(op.plan));
      FailStepWithin(noted);
    case Done(value) =>
      if op.current.Exchange? && value.Some? && AcceptReply(op, op.current.tag, value.value).Some? {
        AcceptedWithin(op, op.current.tag, value.value);
      }
  }

  /** What the response leaves, once the yield flag is cleared, is ready for its next step. */
  lemma {:induction false} QuietResponse(op: Operation, response: Response)
    requires Valid(op) && !Finished(op)
    ensures var answered := Respond(op.(mayYield := false), response);
      answered.Some? && Loaded(answered.value)
  {
    hide Respond;
    RespondWithin(op.(mayYield := false), response);
  }

  lemma {:induction false} NextWithin(op: Operation)
    requires Loaded(op)
    ensures Valid(Next(op)) && Measure(Next(op)) <= Weight(op)
    ensures Next(op).request == op.request && (Applying(Next(op).plan) ==> Applying(op.plan))
    ensures !Next(op).current.Backup?
  {
    if op.queue == [] {
      SequenceDoneWithin(op);
    }
    var loaded := if op.queue != [] then op else SequenceDone(op).value;
    assert forall s | s in loaded.queue[1..] :: s in loaded.queue;
    assert loaded.queue[0] in loaded.queue;
  }

  /** Each response strictly shortens what is left; none of them panics. */
  lemma {:induction false} AdvanceShortens(op: Operation, response: Response)
    requires Valid(op)
    ensures var after := Advance(op, response);
      Valid(after) && after.request == op.request && (!Finished(op) ==> Measure(after) < Measure(op))
  {
    if !Finished(op) {
      RespondWithin(op.(mayYield := false), response);
      NextWithin(Respond(op.(mayYield := false), response).value);
    }
  }

  // ------------------------------------------------------------ starting

  /** The most advances a request can need. */
  function Limit(request: Request): nat {
    match request
    case ReadArchive => 230
    case ReadCatalog(slots) => 4 * |slots| + 1
    case ReadKeymap => 19
    case ReadPicture => 8
    case ReadLighting => 2
    case ReadSettings => 5
    case ReadMacro(_) => 5
    case ApplyKeymap(_, _) => 578
    case ApplyMacro(_, _, _) => 20
    case ApplySettings(_, _) => 12
    case ApplyLighting(_, _) => 3
    case ApplyPicture(_, _) => 9
  }

  /** A freshly begun operation: loaded, or loaded behind a first backup step. */
  ghost predicate Begun(op: Operation, origin: Operation, limit: nat) {
    && op.request == origin.request && op.setterAttempted == origin.setterAttempted
    && op.queue != [] && Weight(op) <= limit
    && (Applying(op.plan) ==> op.queue[0].Backup?)
    && (Loaded(op) || (op.queue[0].Backup? && Applying(op.plan) && Loaded(op.(queue := op.queue[1..]))))
  }

  lemma {:induction false} BehindBackupCost(record: Record, writes: seq<Step>, script: seq<Step>)
    ensures QueueCost([Backup(record)] + writes + script) == 1 + QueueCost(writes) + QueueCost(script)
    ensures QueueCost(writes + script) == QueueCost(writes) + QueueCost(script)
  {
    QueueCostAppend([Backup(record)] + writes, script);
    QueueCostAppend([Backup(record)], writes);
    QueueCostAppend(writes, script);
    assert QueueCost([Backup(record)]) == 1 + QueueCost([Backup(record)][1..]);
  }

  lemma {:induction false} BegunBehindBackup(op: Operation, record: Record, writes: seq<Step>, script: seq<Step>, origin: Operation, limit: nat)
    requires Applying(op.plan) && IsApply(op.request)
    requires op.request == origin.request && op.setterAttempted == origin.setterAttempted
    requires op.queue == [Backup(record)] + writes + script
    requires forall s | s in writes :: s.Write?
    requires forall s | s in script :: s.Exchange?
    requires 1 + QueueCost(writes) + QueueCost(script) + Bound(op.plan) <= limit
    ensures Begun(op, origin, limit)
  {
    hide QueueCost;
    BehindBackupCost(record, writes, script);
    assert op.queue[1..] == writes + script;
  }

  lemma {:induction false} FinishedBegun(op: Operation, payload: Completion, limit: nat)
    requires limit >= 1
    ensures Begun(Finish(op, payload), op, limit)
  {
    FinishedWithin(op, payload, limit);
  }

  lemma {:induction false} KeymapBegun(op: Operation, before: Keymaps, changes: seq<KeyChange>)
    requires op.queue == [] && IsApply(op.request)
    ensures Begun(StartKeymap(op, before, changes), op, 578)
  {
    hide Draft, KeyWrites, QueueCost, Begun;
    var target := Draft(before, changes, {});
    FinishedBegun(op, FailurePayload(op.request, NotAttempted), 578);
    FinishedBegun(op, KeymapDone(Apply(Success(before))), 578);
    if target.Some? && Portable(before) && before != target.value {
      var base := KeyWrites(before.base, target.value.base, false, before.profile, 0);
      var fn := KeyWrites(before.fn, target.value.fn, true, 0, 0);
      KeyWritesCost(before.base, target.value.base, false, before.profile, 0);
      KeyWritesCost(before.fn, target.value.fn, true, 0, 0);
      QueueCostAppend(base, fn);
      IdentityReadsCost();
      var record := KeymapRecord(before, target.value);
      var begun := StartKeymap(op, before, changes);
      assert begun.queue == [Backup(record)] + (base + fn) + IDENTITY_READS;
      BegunBehindBackup(begun, record, base + fn, IDENTITY_READS, op, 578);
    }
  }

  lemma {:induction false} MacroBegun(op: Operation, slot: string, before: MacroImage, desired: Program)
    requires op.queue == [] && IsApply(op.request)
    ensures Begun(StartMacro(op, slot, before, desired), op, 20)
  {
    hide Encode, Decode, MacroWrites, SlotNumber, MacroReads, MacroWriteReports;
    FinishedWithin(op, FailurePayload(op.request, NotAttempted), 20);
    FinishedWithin(op, MacroDone(slot, Apply(Success(before))), 20);
    var number, target := SlotNumber(slot), Encode(desired);
    if number.Some? && target.Some? {
      var reports := MacroWriteReports(number.value, target.value);
      if reports.Some? && before != target.value && Decode(before).Some? {
        MacroWritesCost(reports.value);
        MacroReadsCost(number.value);
        var writes, script := MacroWrites(reports.value, 0), MacroReads(number.value, 0);
        var begun := StartMacro(op, slot, before, desired);
        var record := MacroRecord(slot, before, target.value);
        assert begun.queue == [Backup(record)] + writes + script;
        BegunBehindBackup(begun, record, writes, script, op, 20);
      }
    }
  }

  lemma {:induction false} LightingBegun(op: Operation, original: Reply, setter: Option<Reply>)
    requires op.queue == [] && IsApply(op.request)
    ensures Begun(StartLighting(op, original, setter), op, 3)
  {
    hide Submitted;
    FinishedWithin(op, FailurePayload(op.request, NotAttempted), 3);
    FinishedWithin(op, LightingDone(Apply(Success(original))), 3);
    if setter.Some? && original[1..8] != setter.value[1..8] {
      var begun := StartLighting(op, original, setter);
      var record, writes := begun.queue[0].record, [Write(Lighting(setter.value), 0, 500)];
      PlainQueueCost(writes);
      assert begun.queue == [Backup(record)] + writes + [];
      BegunBehindBackup(begun, record, writes, [], op, 3);
    }
  }

  lemma {:induction false} SettingsBegun(op: Operation, before: Settings, edit: Change)
    requires op.queue == [] && IsApply(op.request)
    ensures Begun(StartSettings(op, before, edit), op, 12)
  {
    hide PlanChange, Editable, SettingReads;
    FinishedWithin(op, FailurePayload(op.request, NotAttempted), 12);
    FinishedWithin(op, SettingsDone(Apply(Success(before))), 12);
    var plan := PlanChange(before, edit);
    if plan.Some? {
      PlannedSettingsBegun(op, before, edit, plan.value);
    }
  }

  lemma {:induction false} PlannedSettingsBegun(op: Operation, before: Settings, edit: Change, plan: ChangePlan)
    requires op.queue == [] && IsApply(op.request)
    ensures Begun(StartRead(Push(op.(plan := ApplyingSettings(plan, before, edit, Main)),
                                 [Backup(SettingsRecord(before, plan.target)), Write(Setting(plan.report), 0, 500)]),
                            SettingReads(0)), op, 12)
  {
    hide SettingReads;
    var record, writes := SettingsRecord(before, plan.target), [Write(Setting(plan.report), 0, 500)];
    PlainQueueCost(writes);
    SettingReadsCost();
    var begun := StartRead(Push(op.(plan := ApplyingSettings(plan, before, edit, Main)), [Backup(record)] + writes), SettingReads(0));
    assert [Backup(record)] + writes == [Backup(record), Write(Setting(plan.report), 0, 500)];
    BegunBehindBackup(begun, record, writes, SettingReads(0), op, 12);
  }

  lemma {:induction false} PictureBegun(op: Operation, original: Picture, target: Option<Picture>)
    requires op.queue == [] && IsApply(op.request)
    ensures Begun(StartPicture(op, original, target), op, 9)
  {
    hide PictureWrites;
    FinishedWithin(op, FailurePayload(op.request, NotAttempted), 9);
    FinishedWithin(op, PictureDone(Apply(Success(original))), 9);
    if target.Some? && original != target.value {
      var begun := StartPicture(op, original, target);
      var record, writes := begun.queue[0].record, PictureWrites(target.value, 0);
      PictureWritesCost(target.value, 0);
      assert begun.queue == [Backup(record)] + writes + [];
      BegunBehindBackup(begun, record, writes, [], op, 9);
    }
  }

  lemma {:induction false} ApplyBegun(op: Operation)
    requires op.queue == [] && IsApply(op.request)
    ensures Begun(Begin(op), op, Limit(op.request))
  {
    hide StartKeymap, StartMacro, StartLighting, StartSettings, StartPicture;
    match op.request
    case ApplyKeymap(expected, changes) => KeymapBegun(op, expected, changes);
    case ApplyMacro(slot, revision, desired) => MacroBegun(op, slot, revision, desired);
    case ApplyLighting(original, setter) => LightingBegun(op, original, setter);
    case ApplySettings(current, edit) => SettingsBegun(op, current, edit);
    case ApplyPicture(colors, desired) => PictureBegun(op, colors, desired);
  }

  lemma {:induction false} LightingReadCost()
    ensures QueueCost([Exchange(ReadRequest(LED_READ_COMMAND, 0, 0), LightingReply)]) == 1
    ensures QueueCost([Exchange(ReadRequest(LED_READ_COMMAND, 0, 0), PictureContext)]) == 7
  {
    var context := [Exchange(ReadRequest(LED_READ_COMMAND, 0, 0), PictureContext)];
    PlainQueueCost([Exchange(ReadRequest(LED_READ_COMMAND, 0, 0), LightingReply)]);
    assert QueueCost(context) == 7 + QueueCost(context[1..]);
  }

  lemma {:induction false} NothingQueued()
    ensures QueueCost([]) == 0
  {
  }

  lemma {:induction false} SimpleReadBegun(op: Operation)
    requires op.queue == [] && !IsApply(op.request)
    requires !op.request.ReadMacro? && !op.request.ReadCatalog?
    ensures Begun(Begin(op), op, Limit(op.request))
  {
    hide SettingReads, QueueCost, StartRead;
    IdentityReadsCost();
    SettingReadsCost();
    LightingReadCost();
    var light := [Exchange(ReadRequest(LED_READ_COMMAND, 0, 0), LightingReply)];
    var context := [Exchange(ReadRequest(LED_READ_COMMAND, 0, 0), PictureContext)];
    NothingQueued();
    match op.request
    case ReadKeymap => StartReadWithin(op.(plan := ReadingKeymap), IDENTITY_READS, 19);
    case ReadArchive =>
      StartReadWithin(op.(plan := ReadingArchive(OnKeymap, Capture(None, None, None, None, []))), IDENTITY_READS, 230);
    case ReadSettings => StartReadWithin(op.(plan := ReadingSettings), SettingReads(0), 5);
    case ReadLighting => StartReadWithin(op.(plan := ReadingLighting), light, 2);
    case ReadPicture => StartReadWithin(op.(plan := ReadingPicture), context, 8);
  }

  lemma {:induction false} MacroReadBegun(op: Operation)
    requires op.queue == [] && (op.request.ReadMacro? || op.request.ReadCatalog?)
    ensures Begun(Begin(op), op, Limit(op.request))
  {
    hide SlotNumber, MacroReads;
    var limit := Limit(op.request);
    FinishedWithin(op, ReadFailurePayload(op.request), limit);
    match op.request
    case ReadMacro(slot) =>
      if SlotNumber(slot).Some? {
        MacroReadWithin(op.(plan := ReadingMacro(slot)), SlotNumber(slot).value, limit);
      }
    case ReadCatalog(slots) =>
      FinishedWithin(op, CatalogDone(Some([])), limit);
      if slots != [] && forall slot | slot in slots :: SlotNumber(slot).Some? {
        assert slots[0] in slots;
        MacroReadWithin(op.(plan := ReadingCatalog(slots, 0, [])), SlotNumber(slots[0]).value, limit);
      }
  }

  lemma {:induction false} RequestBegun(op: Operation)
    requires op.queue == []
    ensures Begun(Begin(op), op, Limit(op.request))
  {
    hide Begin;
    if IsApply(op.request) {
      ApplyBegun(op);
    } else if op.request.ReadMacro? || op.request.ReadCatalog? {
      MacroReadBegun(op);
    } else {
      SimpleReadBegun(op);
    }
  }

  lemma {:induction false} StartIsValid(request: Request)
    ensures var op := Start(request);
      && Valid(op) && Measure(op) <= Limit(request) && op.request == request && !op.setterAttempted
      && (Applying(op.plan) ==> op.current.Backup?)
  {
    hide Begin;
    var op := Operation(request, Terminal, [], Complete(CatalogDone(None)), NO_REPLIES, false, false);
    RequestBegun(op);
    var begun := Begin(op);
    if begun.queue[0].Backup? {
      assert Valid(Next(begun));
    } else {
      NextWithin(begun);
    }
  }

  // ------------------------------------------------------------ whole runs

  lemma {:induction false} RunShortens(op: Operation, responses: seq<Response>)
    requires Valid(op)
    ensures var after := Run(op, responses);
      && Valid(after) && after.request == op.request
      && (Finished(after) || Measure(after) + |responses| <= Measure(op))
      && (Finished(op) ==> after == op)
    decreases |responses|
  {
    if responses != [] {
      AdvanceShortens(op, responses[0]);
      RunShortens(Advance(op, responses[0]), responses[1..]);
    }
  }

  /** Any sequence of responses as long as the request's limit completes the operation,
      after which nothing changes; and no run of any length ever panics. */
  lemma {:induction false} EveryRunCompletesOnce(request: Request, responses: seq<Response>, more: seq<Response>)
    ensures !Run(Start(request), responses).current.Panic?
    ensures |responses| >= Limit(request) ==> Run(Start(request), responses).current.Complete?
    ensures Run(Start(request), responses).current.Complete? ==>
      Run(Run(Start(request), responses), more) == Run(Start(request), responses)
  {
    StartIsValid(request);
    RunShortens(Start(request), responses);
    RunShortens(Run(Start(request), responses), more);
  }

  /** Whether some backup step was acknowledged along the way. */
  predicate BackedUp(op: Operation, responses: seq<Response>)
    decreases |responses|
  {
    responses != [] &&
    ((op.current.Backup? && responses[0] == Done(None)) || BackedUp(Advance(op, responses[0]), responses[1..]))
  }

  lemma {:induction false} BackupComesFirst(op: Operation, response: Response)
    requires Valid(op)
    ensures var after := Advance(op, response);
      && (Applying(after.plan) ==> Applying(op.plan) && (op.current.Backup? ==> response == Done(None)))
      && !(after.current.Backup? && !Finished(op))
  {
    AdvanceShortens(op, response);
    if !Finished(op) {
      RespondWithin(op.(mayYield := false), response);
      var loaded := Respond(op.(mayYield := false), response).value;
      NextWithin(loaded);
      if op.current.Backup? && response != Done(None) { RefusedBackup(op.(mayYield := false), response); }
    }
  }

  lemma {:induction false} RefusedBackup(op: Operation, response: Response)
    requires op.current.Backup? && response != Done(None) && Respond(op, response).Some?
    ensures Respond(op, response).value.plan.Terminal?
  {
  }

  lemma {:induction false} WritesFollowBackup(op: Operation, responses: seq<Response>)
    requires Valid(op)
    requires Applying(op.plan) ==> op.current.Backup?
    ensures Run(op, responses).current.Write? ==> IsApply(op.request) && BackedUp(op, responses)
    decreases |responses|
  {
    RunShortens(op, responses);
    if responses != [] {
      var after := Advance(op, responses[0]);
      AdvanceShortens(op, responses[0]);
      BackupComesFirst(op, responses[0]);
      if !(op.current.Backup? && responses[0] == Done(None)) {
        WritesFollowBackup(after, responses[1..]);
      }
    }
  }

  /** In every run, a setter is only ever shown after a backup was acknowledged, and
      never for a request that reads. */
  lemma {:induction false} NoSetterBeforeBackup(request: Request, responses: seq<Response>)
    ensures Run(Start(request), responses).current.Write? ==>
      IsApply(request) && BackedUp(Start(request), responses)
  {
    StartIsValid(request);
    WritesFollowBackup(Start(request), responses);
  }
}
