/** Macro and settings transactions: one image is written, read back whole and compared;
    on failure the original image is written again and read back. Their verdicts are true,
    and a recovery whose effects succeed restores every byte of the keyboard. */
module ImageVerdicts {
  import opened Wrappers
  import opened SettingsCodec
  import opened MacroCodec
  import opened Nia87
  import opened BrowserPlanner
  import opened BrowserTermination
  import opened BrowserWorld

  /** What one transaction intends. The keyboard `d` it starts from holds the original. */
  datatype Job =
    | MacroJob(slot: string, number: Byte, target: MacroImage)
    | SettingsJob(change: ChangePlan, edit: Change)

  ghost predicate GoodJob(job: Job, d: Device) {
    && |d.macros| == MACRO_SLOTS
    && match job
       case MacroJob(slot, number, target) =>
         && SlotNumber(slot) == Some(number) && target != d.macros[number]
         && Decode(d.macros[number]).Some? && Decode(target).Some?
       case SettingsJob(change, edit) =>
         && ValidSettings(d.settings) && Editable(d.settings)
         && PlanChange(d.settings, edit) == Some(change) && change.target != d.settings
  }

  function Goal(job: Job, d: Device): (goal: Device)
    requires |d.macros| == MACRO_SLOTS && (job.MacroJob? ==> job.number < MACRO_SLOTS)
    ensures |goal.macros| == MACRO_SLOTS
  {
    match job
    case MacroJob(_, number, target) => d.(macros := d.macros[number := target])
    case SettingsJob(change, _) => d.(settings := change.target)
  }

  function PlanFor(job: Job, d: Device, stage: Stage): Plan
    requires job.MacroJob? ==> job.number < |d.macros|
  {
    match job
    case MacroJob(slot, number, target) => ApplyingMacro(slot, number, d.macros[number], target, stage)
    case SettingsJob(change, edit) => ApplyingSettings(change, d.settings, edit, stage)
  }

  /** Whether `now` differs from the original only where the recovery setters reach. */
  ghost predicate Recoverable(job: Job, d: Device, now: Device)
    requires job.MacroJob? ==> job.number < |d.macros|
  {
    match job
    case MacroJob(_, number, _) =>
      && |now.macros| == |d.macros| && now == d.(macros := d.macros[number := now.macros[number]])
      && now.macros[number][MACRO_WRITE_LEN..] == d.macros[number][MACRO_WRITE_LEN..]
    case SettingsJob(change, _) =>
      && now == d.(settings := now.settings)
      && (now.settings == d.settings || now.settings == change.target)
  }

  predicate Setter(job: Job, step: Step) {
    step.Write? &&
    match job
    case MacroJob(_, number, _) =>
      step.report.MacroPage? && step.report.number == number
      && step.report.page * MACRO_PAGE_DATA + |step.report.data| <= MACRO_WRITE_LEN
    case SettingsJob(change, _) =>
      step.report == WriteReport.Setting(change.report) || step.report == WriteReport.Setting(change.restore)
  }

  function Script(job: Job): seq<Step> {
    match job
    case MacroJob(_, number, _) => MacroReads(number, 0)
    case SettingsJob(_, _) => SettingReads(0)
  }

  // ------------------------------------------------------------ landing setters

  function LandAll(d: Device, steps: seq<Step>): (after: Device)
    ensures |after.macros| == |d.macros|
    decreases |steps|
  {
    if steps == [] then d
    else LandAll(if steps[0].Write? then Land(d, steps[0].report) else d, steps[1..])
  }

  lemma {:induction false} LandAllAppend(d: Device, a: seq<Step>, b: seq<Step>)
    requires forall s | s in b :: !s.Write?
    ensures LandAll(d, a + b) == LandAll(d, a)
    decreases |a| + |b|
  {
    if a != [] {
      LandAllAppend(if a[0].Write? then Land(d, a[0].report) else d, a[1..], b);
      assert (a + b)[1..] == a[1..] + b;
    } else if b != [] {
      LandAllAppend(d, [], b[1..]);
      assert [] + b == b && [] + b[1..] == b[1..];
    }
  }

  /** The first `pages` write pages of `goal` laid over `image`. */
  function Overlaid(image: MacroImage, goal: MacroImage, pages: nat): MacroImage
    requires pages <= MACRO_WRITE_PAGES
  {
    var end := if pages == 5 then MACRO_WRITE_LEN else pages * MACRO_PAGE_DATA;
    goal[..end] + image[end..]
  }

  lemma {:induction false} OverlaidPage(image: MacroImage, goal: MacroImage, page: nat)
    requires page < MACRO_WRITE_PAGES
    ensures Splice(Overlaid(image, goal, page), page * MACRO_PAGE_DATA, MacroWriteData(goal, page)) == Overlaid(image, goal, page + 1)
  {
  }

  lemma {:induction false} MacroWritesLand(d: Device, image: MacroImage, number: Byte, goal: MacroImage, page: nat)
    requires |d.macros| == MACRO_SLOTS && MacroWriteReports(number, goal).Some? && page <= MACRO_WRITE_PAGES
    requires d.macros[number] == Overlaid(image, goal, page)
    ensures LandAll(d, MacroWrites(MacroWriteReports(number, goal).value, page))
            == d.(macros := d.macros[number := Overlaid(image, goal, MACRO_WRITE_PAGES)])
    decreases MACRO_WRITE_PAGES - page
  {
    hide Decode;
    var reports := MacroWriteReports(number, goal).value;
    if page < MACRO_WRITE_PAGES {
      OverlaidPage(image, goal, page);
      var next := Land(d, reports[page]);
      assert next == d.(macros := d.macros[number := Overlaid(image, goal, page + 1)]);
      MacroWritesLand(next, image, number, goal, page + 1);
      assert next.macros[number := Overlaid(image, goal, MACRO_WRITE_PAGES)] == d.macros[number := Overlaid(image, goal, MACRO_WRITE_PAGES)];
      assert MacroWrites(reports, page)[0].report == reports[page];
      assert MacroWrites(reports, page)[1..] == MacroWrites(reports, page + 1);
    } else {
      assert d.macros[number := d.macros[number]] == d.macros;
    }
  }

  /** The five main pages cover 250 of the 256 bytes; the rest is zero in both images. */
  lemma {:induction false} FivePagesReach(d: Device, number: Byte, goal: MacroImage)
    requires |d.macros| == MACRO_SLOTS && MacroWriteReports(number, goal).Some?
    requires d.macros[number][MACRO_WRITE_LEN..] == goal[MACRO_WRITE_LEN..]
    ensures LandAll(d, MacroWrites(MacroWriteReports(number, goal).value, 0)) == d.(macros := d.macros[number := goal])
  {
    hide Decode, MacroWriteReports;
    var image := d.macros[number];
    assert Overlaid(image, goal, 0) == image;
    assert Overlaid(image, goal, MACRO_WRITE_PAGES) == goal;
    MacroWritesLand(d, image, number, goal, 0);
  }

  lemma {:induction false} EndsInZeroes(image: MacroImage)
    requires Decode(image).Some?
    ensures image[MACRO_WRITE_LEN..] == [0, 0, 0, 0, 0, 0]
  {
    assert forall i :: SAFE_END <= i < MACRO_LEN ==> image[i] == 0;
  }

  lemma {:induction false} SetterKeepsRecoverable(job: Job, d: Device, now: Device, step: Step)
    requires GoodJob(job, d) && Recoverable(job, d, now) && Setter(job, step)
    ensures Recoverable(job, d, Land(now, step.report))
  {
    hide Decode;
    match job
    case MacroJob(_, number, _) =>
      var image := now.macros[number];
      var next := Splice(image, step.report.page * MACRO_PAGE_DATA, step.report.data);
      assert next[MACRO_WRITE_LEN..] == image[MACRO_WRITE_LEN..];
      assert now.macros[number := next] == d.macros[number := next];
    case SettingsJob(change, edit) =>
      PlannedChangeIsReversible(d.settings, edit);
  }

  function OpeningSetters(job: Job, d: Device): seq<Step>
    requires |d.macros| == MACRO_SLOTS && (job.MacroJob? ==> MacroWriteReports(job.number, job.target).Some?)
  {
    match job
    case MacroJob(_, number, target) => MacroWrites(MacroWriteReports(number, target).value, 0)
    case SettingsJob(change, _) => [Write(WriteReport.Setting(change.report), 0, 500)]
  }

  function RecoverySetters(job: Job, d: Device): seq<Step>
    requires |d.macros| == MACRO_SLOTS && (job.MacroJob? ==> job.number < MACRO_SLOTS && MacroWriteReports(job.number, d.macros[job.number]).Some?)
  {
    match job
    case MacroJob(_, number, _) => MacroWrites(MacroWriteReports(number, d.macros[number]).value, 0)
    case SettingsJob(change, _) => [Write(WriteReport.Setting(change.restore), 0, 500)]
  }

  lemma {:induction false} OpeningSettersReach(job: Job, d: Device)
    requires GoodJob(job, d)
    ensures LandAll(d, OpeningSetters(job, d)) == Goal(job, d)
    ensures forall s | s in OpeningSetters(job, d) :: Setter(job, s)
  {
    match job
    case MacroJob(_, number, target) =>
      EndsInZeroes(d.macros[number]);
      EndsInZeroes(target);
      FivePagesReach(d, number, target);
      MacroWritesCost(MacroWriteReports(number, target).value);
    case SettingsJob(change, edit) =>
      PlannedChangeIsReversible(d.settings, edit);
      LandOne(d, WriteReport.Setting(change.report));
  }

  lemma {:induction false} LandOne(d: Device, report: WriteReport)
    ensures LandAll(d, [Write(report, 0, 500)]) == Land(d, report)
  {
    assert LandAll(d, [Write(report, 0, 500)]) == LandAll(Land(d, report), [Write(report, 0, 500)][1..]);
  }

  lemma {:induction false} RecoverySettersReach(job: Job, d: Device, now: Device)
    requires GoodJob(job, d) && Recoverable(job, d, now)
    ensures LandAll(now, RecoverySetters(job, d)) == d
    ensures forall s | s in RecoverySetters(job, d) :: Setter(job, s)
  {
    match job
    case MacroJob(_, number, _) =>
      var before := d.macros[number];
      FivePagesReach(now, number, before);
      MacroWritesCost(MacroWriteReports(number, before).value);
      assert now.macros[number := before] == d.macros;
    case SettingsJob(change, edit) =>
      PlannedChangeIsReversible(d.settings, edit);
      LandOne(now, WriteReport.Setting(change.restore));
  }

  // ------------------------------------------------------------ reading back

  /** Replies gathered so far are the keyboard's own, and `script` asks for the rest. */
  predicate Reading(job: Job, r: Replies, script: seq<Step>, now: Device)
    requires |now.macros| == MACRO_SLOTS && (job.MacroJob? ==> job.number < MACRO_SLOTS)
  {
    match job
    case MacroJob(_, number, _) => MacroReading(r, script, number, now.macros[number])
    case SettingsJob(_, _) => SettingsReading(r, script, now.settings)
  }

  /** What the replies show, if complete: the whole image. */
  predicate Matches(job: Job, r: Replies, now: Device)
    requires |now.macros| == MACRO_SLOTS && (job.MacroJob? ==> job.number < MACRO_SLOTS)
  {
    match job
    case MacroJob(_, number, _) => MacroBytes(r) == Some(now.macros[number])
    case SettingsJob(_, _) => DecodeSettings(r.settings) == Some(now.settings)
  }

  ghost predicate Genuine(job: Job, now: Device) {
    |now.macros| == MACRO_SLOTS && (job.MacroJob? ==> job.number < MACRO_SLOTS) && (job.SettingsJob? ==> ValidSettings(now.settings))
  }

  lemma {:induction false} GenuineNow(job: Job, d: Device, now: Device)
    requires GoodJob(job, d) && |now.macros| == MACRO_SLOTS && Recoverable(job, d, now)
    ensures Genuine(job, now)
  {
    if job.SettingsJob? {
      PlannedChangeIsReversible(d.settings, job.edit);
    }
  }

  lemma {:induction false} ReadingStep(job: Job, r: Replies, script: seq<Step>, now: Device, reply: Reply)
    requires Genuine(job, now) && Reading(job, r, script, now) && script != []
    ensures script[0].Exchange? && FollowUp(script[0].tag, reply) == []
    ensures ReplyTo(now, script[0].request) == Some(reply) ==>
      var stored := Store(r, script[0].tag, reply);
      stored.Some? && Reading(job, stored.value, script[1..], now)
  {
    match job
    case MacroJob(_, number, _) => MacroReadingStep(r, script, number, now, reply);
    case SettingsJob(_, _) => SettingsReadingStep(r, script, now, reply);
  }

  lemma {:induction false} ReadingDone(job: Job, r: Replies, now: Device)
    requires Genuine(job, now) && Reading(job, r, [], now)
    ensures Matches(job, r, now)
  {
    match job
    case MacroJob(_, number, _) => MacroReadingDone(r, number, now.macros[number]);
    case SettingsJob(_, _) => SettingsReadingDone(r, now.settings);
  }

  // ------------------------------------------------------------ the invariant

  function Done(job: Job, verdict: Result<Device, Recovery>): (payload: Completion)
    requires verdict.Success? && job.MacroJob? ==> job.number < |verdict.value.macros|
  {
    match job
    case MacroJob(slot, number, _) =>
      MacroDone(slot, Apply(if verdict.Success? then Success(verdict.value.macros[number]) else Failure(verdict.error)))
    case SettingsJob(_, _) =>
      SettingsDone(Apply(if verdict.Success? then Success(verdict.value.settings) else Failure(verdict.error)))
  }

  /** A verdict that is true of the whole keyboard and of the setters sent to it. An unverified
      one still says that a setter was tried and how far the keyboard may have changed. */
  ghost predicate Truthful(payload: Completion, job: Job, d: Device, now: Device, attempted: bool)
    requires GoodJob(job, d) && |now.macros| == MACRO_SLOTS
  {
    || (payload == Done(job, Success(now)) && now == Goal(job, d))
    || (payload == Done(job, Failure(Verified)) && now == d)
    || (payload == Done(job, Failure(NotAttempted)) && now == d && !attempted)
    || (payload == Done(job, Failure(Unverified)) && attempted && Recoverable(job, d, now))
  }

  ghost predicate Writing(job: Job, r: Replies, pending: seq<Step>, attempted: bool) {
    var split := |pending| - |Script(job)|;
    && r == NO_REPLIES && split > 0 && pending[split..] == Script(job)
    && forall i :: 0 <= i < split ==> Setter(job, pending[i]) || (i == 0 && pending[i].Backup? && !attempted)
  }

  ghost predicate StageHolds(stage: Stage, job: Job, d: Device, now: Device, pending: seq<Step>, r: Replies, attempted: bool)
    requires GoodJob(job, d) && |now.macros| == MACRO_SLOTS
  {
    match stage
    case Main => LandAll(now, pending) == Goal(job, d) && (Reading(job, r, pending, now) || Writing(job, r, pending, attempted))
    case Restore => LandAll(now, pending) == d && forall s | s in pending :: Setter(job, s)
    case Verify => now == d && Reading(job, r, pending, now)
  }

  ghost predicate RequestFor(request: Request, job: Job) {
    match job
    case MacroJob(slot, _, _) => request.ApplyMacro? && request.slot == slot
    case SettingsJob(_, _) => request.ApplySettings?
  }

  ghost predicate Grounded(op: Operation, job: Job, d: Device, now: Device, attempted: bool) {
    && GoodJob(job, d) && |now.macros| == MACRO_SLOTS && Recoverable(job, d, now) && RequestFor(op.request, job)
    && op.setterAttempted == attempted && (!attempted ==> now == d)
  }

  ghost predicate Poised(op: Operation, job: Job, d: Device, now: Device, attempted: bool) {
    && Grounded(op, job, d, now, attempted)
    && if op.plan.Terminal? then
         |op.queue| == 1 && op.queue[0].Complete? && Truthful(op.queue[0].payload, job, d, now, attempted)
       else
         && (op.plan.ApplyingMacro? || op.plan.ApplyingSettings?) && op.plan == PlanFor(job, d, op.plan.stage)
         && (op.plan.stage != Main ==> attempted)
         && StageHolds(op.plan.stage, job, d, now, op.queue, op.replies, attempted)
  }

  ghost predicate Inv(w: World, job: Job, d: Device) {
    && GoodJob(job, d)
    && if w.op.current.Complete? then
         w.op.plan.Terminal? && |w.device.macros| == MACRO_SLOTS && Truthful(w.op.current.payload, job, d, w.device, w.attempted)
       else !w.op.current.Panic? && !w.op.plan.Terminal? && Poised(Shown(w.op), job, d, w.device, w.attempted)
  }

  ghost predicate OnTrack(op: Operation, job: Job, d: Device)
    requires GoodJob(job, d)
  {
    if op.plan.Terminal? then op.queue == [Complete(Done(job, Success(Goal(job, d))))]
    else (op.plan.ApplyingMacro? || op.plan.ApplyingSettings?) && op.plan.stage == Main
  }

  ghost predicate Recovering(op: Operation, job: Job) {
    if op.plan.Terminal? then op.queue == [Complete(Done(job, Failure(Verified)))]
    else (op.plan.ApplyingMacro? || op.plan.ApplyingSettings?) && op.plan.stage != Main
  }

  // ------------------------------------------------------------ stage changes

  function BeginRecovery(op: Operation, job: Job, d: Device): Operation
    requires job.MacroJob? ==> job.number < |d.macros|
  {
    match job
    case MacroJob(slot, number, target) => BeginMacroRecovery(op, slot, number, d.macros[number], target)
    case SettingsJob(change, edit) => BeginSettingsRecovery(op, change, d.settings, edit)
  }

  lemma {:induction false} RecoveryPoised(op: Operation, job: Job, d: Device, now: Device, attempted: bool)
    requires Grounded(op, job, d, now, attempted) && attempted
    ensures var begun := BeginRecovery(op, job, d);
      Poised(begun, job, d, now, attempted) && Recovering(begun, job) && begun.queue != []
  {
    RecoverySettersReach(job, d, now);
    if job.MacroJob? {
      MacroWritesCost(MacroWriteReports(job.number, d.macros[job.number]).value);
    }
  }

  lemma {:induction false} VerifyPoised(op: Operation, job: Job, d: Device, now: Device, attempted: bool)
    requires Grounded(op, job, d, now, attempted) && attempted && now == d && op.queue == []
    requires op.plan == PlanFor(job, d, Restore)
    ensures var done := SequenceDone(op);
      done.Some? && Poised(done.value, job, d, now, attempted) && Recovering(done.value, job) && done.value.queue != []
  {
    hide Decode;
    if job.MacroJob? {
      assert [] + MacroReads(job.number, 0) == MacroReads(job.number, 0);
    } else {
      assert [] + SettingReads(0) == SettingReads(0);
    }
  }

  lemma {:induction false} StagePoised(op: Operation, job: Job, d: Device, now: Device, attempted: bool)
    requires Poised(op, job, d, now, attempted) && !op.plan.Terminal? && op.queue == []
    ensures var done := SequenceDone(op);
      && done.Some? && done.value.queue != [] && Poised(done.value, job, d, now, attempted)
      && (OnTrack(op, job, d) ==> OnTrack(done.value, job, d)) && (Recovering(op, job) ==> Recovering(done.value, job))
  {
    hide MacroBytes, DecodeSettings, PlanChange, Shows, Editable, Decode, BeginMacroRecovery, BeginSettingsRecovery, MacroReads, SettingReads;
    GenuineNow(job, d, now);
    match op.plan.stage
    case Main =>
      assert LandAll(now, []) == now;
      ReadingDone(job, op.replies, now);
      if job.SettingsJob? { PlannedChangeShows(d.settings, job.edit); }
    case Restore =>
      assert LandAll(now, []) == now;
      VerifyPoised(op, job, d, now, attempted);
    case Verify => ReadingDone(job, op.replies, now);
  }

  lemma {:induction false} PendingAreEffects(op: Operation, job: Job, d: Device, now: Device, attempted: bool)
    requires Poised(op, job, d, now, attempted) && !op.plan.Terminal? && op.queue != []
    ensures op.queue[0].Backup? || op.queue[0].Write? || op.queue[0].Exchange?
  {
    hide Decode, LandAll;
    if op.plan.stage == Restore {
      assert Setter(job, op.queue[0]);
    } else {
      assert Writing(job, op.replies, op.queue, attempted) || op.queue[0].Exchange?;
    }
  }

  lemma {:induction false} NextPoised(op: Operation, job: Job, d: Device, now: Device, attempted: bool)
    requires Poised(op, job, d, now, attempted)
    ensures Inv(World(Next(op), now, attempted), job, d)
    ensures OnTrack(op, job, d) ==> OnTrack(Shown(Next(op)), job, d)
    ensures Recovering(op, job) ==> Recovering(Shown(Next(op)), job)
  {
    hide SequenceDone, StageHolds, Truthful, Decode, PlanChange, Editable, Recoverable, Goal;
    if op.queue == [] {
      StagePoised(op, job, d, now, attempted);
    }
    var loaded := if op.queue != [] then op else SequenceDone(op).value;
    assert [loaded.queue[0]] + loaded.queue[1..] == loaded.queue;
    if !loaded.plan.Terminal? {
      PendingAreEffects(loaded, job, d, now, attempted);
    }
  }

  // ------------------------------------------------------------ one effect

  lemma {:induction false} FailPoised(op: Operation, job: Job, d: Device, now: Device, attempted: bool)
    requires !op.current.Backup? && Grounded(op, job, d, now, attempted) && attempted
    requires (op.plan.ApplyingMacro? || op.plan.ApplyingSettings?) && op.plan == PlanFor(job, d, op.plan.stage)
    ensures FailStep(op).Some? && Poised(FailStep(op).value, job, d, now, attempted)
  {
    hide BeginMacroRecovery, BeginSettingsRecovery, SequenceDone, StageHolds, Decode, PlanChange, Editable, Recoverable;
    RecoveryPoised(op, job, d, now, attempted);
  }

  lemma {:induction false} ReadStage(w: World, job: Job, d: Device)
    requires Inv(w, job, d) && w.op.current.Exchange?
    ensures w.op.plan.stage != Restore && Reading(job, w.op.replies, Shown(w.op).queue, w.device) && w.attempted
  {
    hide Decode, LandAll, PlanChange, Editable;
    var pending := Shown(w.op).queue;
    assert pending[0] in pending;
    ReadsLandNothing(job, w.op.replies, pending, w.device);
    GoalDiffers(job, d);
  }

  lemma {:induction false} ReadsLandNothing(job: Job, r: Replies, script: seq<Step>, now: Device)
    requires |now.macros| == MACRO_SLOTS && (job.MacroJob? ==> job.number < MACRO_SLOTS)
    requires Reading(job, r, script, now)
    ensures LandAll(now, script) == now
  {
    assert forall s | s in script :: s.Exchange?;
    LandAllAppend(now, [], script);
    assert [] + script == script;
  }

  lemma {:induction false} GoalDiffers(job: Job, d: Device)
    requires GoodJob(job, d)
    ensures Goal(job, d) != d
  {
    hide Decode, PlanChange, Editable;
    if job.MacroJob? {
      assert Goal(job, d).macros[job.number] != d.macros[job.number];
    }
  }

  lemma {:induction false} ReadPoised(w: World, e: Effect, job: Job, d: Device)
    requires Inv(w, job, d) && w.op.current.Exchange? && |w.device.macros| == MACRO_SLOTS && Honest(w.device, w.op.current, e)
    ensures var mid := Respond(w.op.(mayYield := false), e.response);
      && mid.Some? && Poised(mid.value, job, d, w.device, w.attempted)
      && (Smooth(w.op.current, e) && OnTrack(w.op, job, d) ==> OnTrack(mid.value, job, d))
      && (Smooth(w.op.current, e) && Recovering(w.op, job) ==> Recovering(mid.value, job))
  {
    hide Decode, PlanChange, Editable, MacroReads, SettingReads, FailStep, Recoverable, StageHolds, Truthful, SlotNumber, Store;
    var op := w.op.(mayYield := false);
    ReadStage(w, job, d);
    FailPoised(op, job, d, w.device, w.attempted);
    if Smooth(op.current, e) {
      ReplyPoised(w, e.response.value.value, job, d);
    }
  }

  lemma {:induction false} ReplyPoised(w: World, reply: Reply, job: Job, d: Device)
    requires Inv(w, job, d) && w.op.current.Exchange? && |w.device.macros| == MACRO_SLOTS
    requires ReplyTo(w.device, w.op.current.request) == Some(reply)
    ensures var mid := AcceptReply(w.op.(mayYield := false), w.op.current.tag, reply);
      && mid.Some? && Poised(mid.value, job, d, w.device, w.attempted) && mid.value.plan == w.op.plan
  {
    hide Decode, PlanChange, Editable, MacroReads, SettingReads, Recoverable, Truthful, SlotNumber, Store, ReplyTo;
    var op, now := w.op.(mayYield := false), w.device;
    var pending := Shown(w.op).queue;
    assert pending[0] == op.current && pending[1..] == op.queue;
    ReadStage(w, job, d);
    GenuineNow(job, d, now);
    ReadingStep(job, op.replies, pending, now, reply);
    assert op.queue + [] == op.queue;
    assert LandAll(now, pending) == LandAll(now, op.queue);
  }

  lemma {:induction false} WriteStage(w: World, job: Job, d: Device)
    requires Inv(w, job, d) && (w.op.current.Write? || w.op.current.Backup?)
    ensures var stage := w.op.plan.stage;
      && (stage == Main || stage == Restore)
      && (stage == Main ==> Writing(job, w.op.replies, Shown(w.op).queue, w.attempted))
      && (w.op.current.Backup? ==> stage == Main && !w.attempted)
      && (w.op.current.Write? ==> Setter(job, w.op.current))
  {
    hide Decode, LandAll, PlanChange, Editable;
    var pending := Shown(w.op).queue;
    assert pending[0] in pending;
  }

  lemma {:induction false} AfterSetter(job: Job, r: Replies, pending: seq<Step>, attempted: bool, after: bool, now: Device)
    requires Writing(job, r, pending, attempted) && |now.macros| == MACRO_SLOTS && (job.MacroJob? ==> job.number < MACRO_SLOTS)
    ensures Reading(job, r, pending[1..], now) || Writing(job, r, pending[1..], after)
  {
    var split := |pending| - |Script(job)|;
    var rest := pending[1..];
    assert rest[split - 1..] == pending[split..];
    assert forall i :: 0 <= i < |rest| ==> rest[i] == pending[i + 1];
    if split == 1 {
      assert rest == Script(job);
    }
  }

  lemma {:induction false} SetterPoised(w: World, e: Effect, job: Job, d: Device)
    requires Inv(w, job, d) && w.op.current.Write? && |w.device.macros| == MACRO_SLOTS && Honest(w.device, w.op.current, e)
    ensures var mid, after := Respond(w.op.(mayYield := false), e.response), Turn(w, e);
      && mid.Some? && Poised(mid.value, job, d, after.device, after.attempted)
      && (Smooth(w.op.current, e) && OnTrack(w.op, job, d) ==> OnTrack(mid.value, job, d))
      && (Smooth(w.op.current, e) && Recovering(w.op, job) ==> Recovering(mid.value, job))
  {
    hide Inv, Poised, OnTrack, Recovering, Next, Respond;
    if e.response == BrowserPlanner.Done(None) { SetterLanded(w, e, job, d); } else { SetterFailed(w, e, job, d); }
  }

  lemma {:induction false} SetterLanded(w: World, e: Effect, job: Job, d: Device)
    requires Inv(w, job, d) && w.op.current.Write? && |w.device.macros| == MACRO_SLOTS && Honest(w.device, w.op.current, e)
    requires e.response == BrowserPlanner.Done(None)
    ensures var mid, after := Respond(w.op.(mayYield := false), e.response), Turn(w, e);
      && mid.Some? && Poised(mid.value, job, d, after.device, after.attempted)
      && (OnTrack(w.op, job, d) ==> OnTrack(mid.value, job, d))
      && (Recovering(w.op, job) ==> Recovering(mid.value, job))
  {
    hide Decode, PlanChange, Editable, MacroReads, SettingReads, FailStep, Recoverable, Next, Reading, Writing, SlotNumber, SequenceDone,
      AcceptReply, PlanFor, Truthful;
    var op := w.op.(mayYield := false);
    var pending := Shown(w.op).queue;
    var after := Turn(w, e);
    assert pending[0] == op.current && pending[1..] == op.queue;
    WriteStage(w, job, d);
    SetterKeepsRecoverable(job, d, w.device, op.current);
    assert LandAll(w.device, pending) == LandAll(after.device, op.queue);
    if op.plan.stage == Main { AfterSetter(job, op.replies, pending, w.attempted, true, after.device); }
  }

  lemma {:induction false} SetterFailed(w: World, e: Effect, job: Job, d: Device)
    requires Inv(w, job, d) && w.op.current.Write? && |w.device.macros| == MACRO_SLOTS && Honest(w.device, w.op.current, e)
    requires e.response != BrowserPlanner.Done(None)
    ensures var mid, after := Respond(w.op.(mayYield := false), e.response), Turn(w, e);
      mid.Some? && Poised(mid.value, job, d, after.device, after.attempted)
  {
    hide Decode, PlanChange, Editable, MacroReads, SettingReads, FailStep, Recoverable, Next, Reading, Writing, SlotNumber, SequenceDone,
      AcceptReply, PlanFor, StageHolds;
    WriteStage(w, job, d);
    SetterKeepsRecoverable(job, d, w.device, w.op.current);
    var after := Turn(w, e);
    if after.attempted {
      FailPoised(w.op.(mayYield := false, setterAttempted := true), job, d, after.device, true);
    }
  }

  lemma {:induction false} BackupPoised(w: World, e: Effect, job: Job, d: Device)
    requires Inv(w, job, d) && w.op.current.Backup? && |w.device.macros| == MACRO_SLOTS
    ensures var mid := Respond(w.op.(mayYield := false), e.response);
      && mid.Some? && Poised(mid.value, job, d, w.device, w.attempted) && !Recovering(w.op, job)
      && (Smooth(w.op.current, e) && OnTrack(w.op, job, d) ==> OnTrack(mid.value, job, d))
  {
    hide Decode, PlanChange, Editable, MacroReads, SettingReads, Recoverable, Next, Reading, Writing, Setter, SlotNumber, SequenceDone,
      BeginMacroRecovery, BeginSettingsRecovery, PlanFor, Goal, AcceptReply;
    var pending := Shown(w.op).queue;
    assert pending[0] == w.op.current && pending[1..] == w.op.queue;
    WriteStage(w, job, d);
    AfterSetter(job, w.op.replies, pending, w.attempted, w.attempted, w.device);
    assert LandAll(w.device, pending) == LandAll(w.device, w.op.queue);
  }

  lemma {:induction false} TurnKeeps(w: World, e: Effect, job: Job, d: Device)
    requires Inv(w, job, d) && |w.device.macros| == MACRO_SLOTS && Honest(w.device, w.op.current, e)
    ensures Inv(Turn(w, e), job, d)
    ensures Smooth(w.op.current, e) && OnTrack(Shown(w.op), job, d) ==> OnTrack(Shown(Turn(w, e).op), job, d)
    ensures Smooth(w.op.current, e) && Recovering(Shown(w.op), job) ==> Recovering(Shown(Turn(w, e).op), job)
  {
    hide Respond, Next, StageHolds, Grounded, Truthful, GoodJob;
    if !w.op.current.Complete? {
      PendingAreEffects(Shown(w.op), job, d, w.device, w.attempted);
      if w.op.current.Exchange? {
        ReadPoised(w, e, job, d);
      } else if w.op.current.Write? {
        SetterPoised(w, e, job, d);
      } else {
        BackupPoised(w, e, job, d);
      }
      var after := Turn(w, e);
      NextPoised(Respond(w.op.(mayYield := false), e.response).value, job, d, after.device, after.attempted);
    }
  }

  lemma {:induction false} PlayKeeps(w: World, effects: seq<Effect>, job: Job, d: Device)
    requires Inv(w, job, d) && |w.device.macros| == MACRO_SLOTS && HonestPlay(w, effects)
    ensures Inv(Play(w, effects), job, d)
    ensures SmoothPlay(w, effects) && OnTrack(Shown(w.op), job, d) ==> OnTrack(Shown(Play(w, effects).op), job, d)
    ensures SmoothPlay(w, effects) && Recovering(Shown(w.op), job) ==> Recovering(Shown(Play(w, effects).op), job)
    decreases |effects|
  {
    hide Turn, GoodJob, StageHolds, Truthful;
    if effects != [] {
      TurnKeeps(w, effects[0], job, d);
      PlayKeeps(Turn(w, effects[0]), effects[1..], job, d);
    }
  }

  // ------------------------------------------------------------ whole runs

  function RequestOf(job: Job, d: Device, desired: Program): Request
    requires job.MacroJob? ==> job.number < |d.macros|
  {
    match job
    case MacroJob(slot, number, _) => ApplyMacro(slot, d.macros[number], desired)
    case SettingsJob(_, edit) => ApplySettings(d.settings, edit)
  }

  lemma {:induction false} OpeningShows(job: Job, d: Device, desired: Program)
    requires GoodJob(job, d) && (job.MacroJob? ==> Encode(desired) == Some(job.target))
    ensures var op := Start(RequestOf(job, d, desired));
      && op.current.Backup? && op.queue == OpeningSetters(job, d) + Script(job) && op.plan == PlanFor(job, d, Main)
      && op.replies == NO_REPLIES && !op.setterAttempted && RequestFor(op.request, job)
  {
    hide Encode, Decode, MacroWrites, MacroReads, SettingReads, PlanChange, Editable;
    var setters := OpeningSetters(job, d);
    match job
    case MacroJob(slot, number, target) =>
      var head := [Backup(MacroRecord(slot, d.macros[number], target))];
      assert ([] + (head + setters) + MacroReads(number, 0))[1..] == setters + MacroReads(number, 0);
    case SettingsJob(change, edit) =>
      var head := [Backup(SettingsRecord(d.settings, change.target))];
      assert ([] + (head + setters) + SettingReads(0))[1..] == setters + SettingReads(0);
  }

  lemma {:induction false} OpeningHolds(job: Job, d: Device, desired: Program)
    requires GoodJob(job, d) && (job.MacroJob? ==> Encode(desired) == Some(job.target))
    ensures var w := Opening(RequestOf(job, d, desired), d);
      Inv(w, job, d) && OnTrack(Shown(w.op), job, d)
  {
    hide Start, OpeningSetters, Script, Decode, PlanChange, Editable;
    OpeningShows(job, d, desired);
    OpeningSettersReach(job, d);
    RecoverableFromStart(job, d);
    ScriptReads(job);
    var setters, script := OpeningSetters(job, d), Script(job);
    var w := Opening(RequestOf(job, d, desired), d);
    var pending := Shown(w.op).queue;
    assert pending == [w.op.current] + (setters + script);
    LandAllAppend(d, setters, script);
    assert pending[1..] == setters + script;
    var split := |pending| - |script|;
    assert pending[split..] == script;
    assert forall i :: 1 <= i < split ==> pending[i] == setters[i - 1];
  }

  lemma {:induction false} ScriptReads(job: Job)
    ensures forall s | s in Script(job) :: s.Exchange?
  {
  }

  lemma {:induction false} RecoverableFromStart(job: Job, d: Device)
    requires GoodJob(job, d)
    ensures Recoverable(job, d, d)
  {
    if job.MacroJob? {
      assert d.macros[job.number := d.macros[job.number]] == d.macros;
    }
  }

  /** A completed run: true of the keyboard, and whole when every effect succeeded. */
  lemma {:induction false} JobVerdict(job: Job, d: Device, desired: Program, effects: seq<Effect>)
    requires GoodJob(job, d) && (job.MacroJob? ==> Encode(desired) == Some(job.target))
    requires HonestPlay(Opening(RequestOf(job, d, desired), d), effects)
    ensures var w := Play(Opening(RequestOf(job, d, desired), d), effects);
      && (w.op.current.Complete? ==> Truthful(w.op.current.payload, job, d, w.device, w.attempted))
      && (SmoothPlay(Opening(RequestOf(job, d, desired), d), effects) && |effects| >= Limit(RequestOf(job, d, desired)) ==>
            w.op.current == Complete(Done(job, Success(Goal(job, d)))) && w.device == Goal(job, d))
  {
    hide Decode, PlanChange, Editable, SlotNumber, Start, Turn, Limit, Truthful;
    var request := RequestOf(job, d, desired);
    var opening := Opening(request, d);
    OpeningHolds(job, d, desired);
    PlayKeeps(opening, effects, job, d);
    var w := Play(opening, effects);
    assert Shown(w.op).queue[0] == w.op.current;
    if |effects| >= Limit(request) {
      LongPlayCompletes(request, d, effects);
      VerdictNamesDevice(w.op.current.payload, job, d, w.device, w.attempted);
    }
  }

  lemma {:induction false} VerdictNamesDevice(payload: Completion, job: Job, d: Device, now: Device, attempted: bool)
    requires GoodJob(job, d) && |now.macros| == MACRO_SLOTS && Truthful(payload, job, d, now, attempted)
    ensures payload == Done(job, Success(Goal(job, d))) ==> now == Goal(job, d)
    ensures payload == Done(job, Failure(Verified)) ==> now == d
  {
    hide Decode, PlanChange, Editable, SlotNumber;
  }

  lemma {:induction false} JobRecovery(job: Job, d: Device, desired: Program, first: seq<Effect>, rest: seq<Effect>)
    requires GoodJob(job, d) && (job.MacroJob? ==> Encode(desired) == Some(job.target))
    requires HonestPlay(Opening(RequestOf(job, d, desired), d), first)
    requires var w := Play(Opening(RequestOf(job, d, desired), d), first);
      !w.op.plan.Terminal? && w.op.plan != PlanFor(job, d, Main) && HonestPlay(w, rest) && SmoothPlay(w, rest)
    requires |first + rest| >= Limit(RequestOf(job, d, desired))
    ensures var w := Play(Play(Opening(RequestOf(job, d, desired), d), first), rest);
      w.op.current == Complete(Done(job, Failure(Verified))) && w.device == d
  {
    hide Decode, PlanChange, Editable, SlotNumber, Start, Turn, Limit, Truthful;
    var request := RequestOf(job, d, desired);
    var opening := Opening(request, d);
    OpeningHolds(job, d, desired);
    PlayKeeps(opening, first, job, d);
    var w := Play(opening, first);
    PlayKeeps(w, rest, job, d);
    PlayAppend(opening, first, rest);
    LongPlayCompletes(request, d, first + rest);
    var last := Play(w, rest);
    assert Shown(last.op).queue[0] == last.op.current;
    VerdictNamesDevice(last.op.current.payload, job, d, last.device, last.attempted);
  }

  // ------------------------------------------------------------ macros

  /** The macro transaction a request amounts to, when it is accepted at all. */
  function MacroJobOf(slot: string, revision: MacroImage, desired: Program): Option<Job> {
    var number, target := SlotNumber(slot), Encode(desired);
    if number.None? || Decode(revision).None? || target.None? then None else Some(MacroJob(slot, number.value, target.value))
  }

  lemma {:induction false} MacroJobIsGood(slot: string, revision: MacroImage, desired: Program, d: Device)
    requires |d.macros| == MACRO_SLOTS && MacroJobOf(slot, revision, desired).Some?
    requires d.macros[SlotNumber(slot).value] == revision && Encode(desired) != Some(revision)
    ensures GoodJob(MacroJobOf(slot, revision, desired).value, d)
  {
    hide Decode, Encode;
    DecodeInvertsEncode(desired);
  }

  lemma {:induction false} UnwantedMacroCompletes(slot: string, revision: MacroImage, desired: Program)
    ensures var job, op := MacroJobOf(slot, revision, desired), Start(ApplyMacro(slot, revision, desired));
      && (job.None? ==> op.current == Complete(MacroDone(slot, Apply(Failure(NotAttempted)))))
      && (job.Some? && job.value.target == revision ==> op.current == Complete(MacroDone(slot, Apply(Success(revision)))))
  {
    hide Decode, Encode, SlotNumber;
  }

  /** The verdict on a macro names what the slot now holds: the target after success, the
      exact 256 original bytes after a verified recovery, and an untouched keyboard when
      nothing was attempted. No other slot or section ever changes. */
  lemma {:induction false} MacroVerdictIsTrue(slot: string, revision: MacroImage, desired: Program, d: Device, effects: seq<Effect>)
    requires |d.macros| == MACRO_SLOTS
    requires SlotNumber(slot).Some? ==> d.macros[SlotNumber(slot).value] == revision
    requires HonestPlay(Opening(ApplyMacro(slot, revision, desired), d), effects)
    ensures var w := Play(Opening(ApplyMacro(slot, revision, desired), d), effects);
      var job := MacroJobOf(slot, revision, desired);
      w.op.current.Complete? ==>
        && w.op.current.payload.MacroDone? && w.op.current.payload.slot == slot && w.op.current.payload.image.Apply?
        && match w.op.current.payload.image.applied
           case Success(image) =>
             job.Some? && image == job.value.target && w.device == d.(macros := d.macros[job.value.number := image])
           case Failure(Verified) => w.device == d
           case Failure(NotAttempted) => w.device == d && !w.attempted
           case Failure(Failed) => false
           case Failure(Unverified) => w.attempted && job.Some? && Recoverable(job.value, d, w.device)
  {
    hide Decode, Encode, SlotNumber, HonestPlay, Start, Turn;
    var job := MacroJobOf(slot, revision, desired);
    var opening := Opening(ApplyMacro(slot, revision, desired), d);
    UnwantedMacroCompletes(slot, revision, desired);
    if job.None? || job.value.target == revision {
      PlayFinished(opening, effects);
      if job.Some? { assert d.macros[job.value.number := revision] == d.macros; }
    } else {
      MacroJobIsGood(slot, revision, desired, d);
      JobVerdict(job.value, d, desired, effects);
    }
  }

  /** When every effect succeeds, the macro is applied and reported so. */
  lemma {:induction false} SmoothMacroApplies(slot: string, revision: MacroImage, desired: Program, d: Device, effects: seq<Effect>)
    requires |d.macros| == MACRO_SLOTS && MacroJobOf(slot, revision, desired).Some?
    requires d.macros[SlotNumber(slot).value] == revision
    requires HonestPlay(Opening(ApplyMacro(slot, revision, desired), d), effects)
    requires SmoothPlay(Opening(ApplyMacro(slot, revision, desired), d), effects)
    requires |effects| >= 20
    ensures var w := Play(Opening(ApplyMacro(slot, revision, desired), d), effects);
      var target := Encode(desired).value;
      && w.op.current == Complete(MacroDone(slot, Apply(Success(target))))
      && w.device == d.(macros := d.macros[SlotNumber(slot).value := target])
  {
    hide Decode, Encode, SlotNumber, HonestPlay, SmoothPlay, Start, Turn;
    var job := MacroJobOf(slot, revision, desired).value;
    UnwantedMacroCompletes(slot, revision, desired);
    if job.target == revision {
      PlayFinished(Opening(ApplyMacro(slot, revision, desired), d), effects);
      assert d.macros[job.number := revision] == d.macros;
    } else {
      MacroJobIsGood(slot, revision, desired, d);
      JobVerdict(job, d, desired, effects);
    }
  }

  /** Whatever prefix of the five pages had landed, and whether or not the failing page
      did: a recovery whose effects succeed restores all 256 bytes and says so. */
  lemma {:induction false} MacroRecoveryRestoresEveryByte(
      slot: string, revision: MacroImage, desired: Program, d: Device, first: seq<Effect>, rest: seq<Effect>)
    requires |d.macros| == MACRO_SLOTS
    requires SlotNumber(slot).Some? ==> d.macros[SlotNumber(slot).value] == revision
    requires HonestPlay(Opening(ApplyMacro(slot, revision, desired), d), first)
    requires var w := Play(Opening(ApplyMacro(slot, revision, desired), d), first);
      w.op.plan.ApplyingMacro? && w.op.plan.stage != Main && HonestPlay(w, rest) && SmoothPlay(w, rest)
    requires |first + rest| >= 20
    ensures var w := Play(Play(Opening(ApplyMacro(slot, revision, desired), d), first), rest);
      w.op.current == Complete(MacroDone(slot, Apply(Failure(Verified)))) && w.device == d
  {
    hide Decode, Encode, SlotNumber, HonestPlay, SmoothPlay, Start, Turn;
    var job := MacroJobOf(slot, revision, desired);
    var opening := Opening(ApplyMacro(slot, revision, desired), d);
    UnwantedMacroCompletes(slot, revision, desired);
    StartIsValid(ApplyMacro(slot, revision, desired));
    if job.None? || job.value.target == revision {
      PlayFinished(opening, first);
    } else {
      MacroJobIsGood(slot, revision, desired, d);
      JobRecovery(job.value, d, desired, first, rest);
    }
  }

  // ------------------------------------------------------------ settings

  function SettingsJobOf(current: Settings, edit: Change): Option<Job> {
    var plan := PlanChange(current, edit);
    if !Editable(current) || plan.None? then None else Some(SettingsJob(plan.value, edit))
  }

  lemma {:induction false} UnwantedSettingCompletes(current: Settings, edit: Change)
    ensures var job, op := SettingsJobOf(current, edit), Start(ApplySettings(current, edit));
      && (job.None? ==> op.current == Complete(SettingsDone(Apply(Failure(NotAttempted)))))
      && (job.Some? && job.value.change.target == current ==> op.current == Complete(SettingsDone(Apply(Success(current)))))
  {
    hide Editable, PlanChange;
  }

  /** The verdict on a one-field change is true of all four settings replies. */
  lemma {:induction false} SettingsVerdictIsTrue(edit: Change, d: Device, effects: seq<Effect>)
    requires |d.macros| == MACRO_SLOTS && ValidSettings(d.settings)
    requires HonestPlay(Opening(ApplySettings(d.settings, edit), d), effects)
    ensures var w := Play(Opening(ApplySettings(d.settings, edit), d), effects);
      var job := SettingsJobOf(d.settings, edit);
      w.op.current.Complete? ==>
        && w.op.current.payload.SettingsDone? && w.op.current.payload.settings.Apply?
        && match w.op.current.payload.settings.applied
           case Success(settings) =>
             job.Some? && settings == job.value.change.target && w.device == d.(settings := settings)
           case Failure(Verified) => w.device == d
           case Failure(NotAttempted) => w.device == d && !w.attempted
           case Failure(Failed) => false
           case Failure(Unverified) => w.attempted && job.Some? && Recoverable(job.value, d, w.device)
  {
    hide Editable, PlanChange, HonestPlay, Start, Turn;
    var job := SettingsJobOf(d.settings, edit);
    var opening := Opening(ApplySettings(d.settings, edit), d);
    UnwantedSettingCompletes(d.settings, edit);
    if job.None? || job.value.change.target == d.settings {
      PlayFinished(opening, effects);
    } else {
      JobVerdict(job.value, d, Program(0, []), effects);
    }
  }

  /** A settings change whose effects succeed is applied; a settings recovery whose effects
      succeed restores all four replies and is reported as verified. */
  lemma {:induction false} SmoothSettings(edit: Change, d: Device, first: seq<Effect>, rest: seq<Effect>)
    requires |d.macros| == MACRO_SLOTS && ValidSettings(d.settings) && SettingsJobOf(d.settings, edit).Some?
    requires HonestPlay(Opening(ApplySettings(d.settings, edit), d), first)
    requires var w := Play(Opening(ApplySettings(d.settings, edit), d), first); HonestPlay(w, rest) && SmoothPlay(w, rest)
    requires |first + rest| >= 12
    ensures var w := Play(Opening(ApplySettings(d.settings, edit), d), first);
      var end, target := Play(w, rest), SettingsJobOf(d.settings, edit).value.change.target;
      && (first == [] ==> end.op.current == Complete(SettingsDone(Apply(Success(target)))) && end.device == d.(settings := target))
      && (w.op.plan.ApplyingSettings? && w.op.plan.stage != Main ==>
            end.op.current == Complete(SettingsDone(Apply(Failure(Verified)))) && end.device == d)
  {
    hide Editable, PlanChange, HonestPlay, SmoothPlay, Start, Turn;
    var job := SettingsJobOf(d.settings, edit).value;
    var opening := Opening(ApplySettings(d.settings, edit), d);
    UnwantedSettingCompletes(d.settings, edit);
    StartIsValid(ApplySettings(d.settings, edit));
    assert [] + rest == rest;
    if job.change.target == d.settings {
      PlayFinished(opening, first);
      PlayFinished(opening, rest);
    } else {
      if first == [] { JobVerdict(job, d, Program(0, []), rest); }
      var w := Play(opening, first);
      if w.op.plan.ApplyingSettings? && w.op.plan.stage != Main { JobRecovery(job, d, Program(0, []), first, rest); }
    }
  }
}
