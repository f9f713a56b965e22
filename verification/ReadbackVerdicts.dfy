/** Verdicts against a keyboard whose setters cannot be trusted at all: a write may do anything
    to it, acknowledged or not, and only its reads are truthful. What a transaction that reads
    back reports is true even then, because it rests on what was read last. */
module ReadbackVerdicts {
  import opened Wrappers
  import opened SettingsCodec
  import opened MacroCodec
  import opened Nia87
  import opened BrowserPlanner
  import opened BrowserTermination
  import B = BrowserWorld

  /** What the planner is told of one step, and the keyboard after it. */
  datatype Event = Event(response: Response, after: Device)

  datatype World = World(op: Operation, device: Device)

  /** Reads change nothing and, when they succeed, show what is there. Setters are wild. */
  predicate ReadsTruly(w: World, e: Event) {
    && |w.device.macros| == MACRO_SLOTS && |e.after.macros| == MACRO_SLOTS
    && (w.op.current.Write? || e.after == w.device)
    && (w.op.current.Exchange? && e.response.Done? && e.response.value.Some? && |e.response.value.value| == REPORT_LEN ==>
          ReplyTo(w.device, w.op.current.request) == Some(e.response.value.value))
  }

  function Turn(w: World, e: Event): World {
    World(Advance(w.op, e.response), e.after)
  }

  function Play(w: World, events: seq<Event>): World
    decreases |events|
  {
    if events == [] then w else Play(Turn(w, events[0]), events[1..])
  }

  predicate TruePlay(w: World, events: seq<Event>)
    decreases |events|
  {
    |w.device.macros| == MACRO_SLOTS
    && (events == [] || (ReadsTruly(w, events[0]) && TruePlay(Turn(w, events[0]), events[1..])))
  }

  /** The three transactions that read back what they wrote. */
  predicate ReadsBack(request: Request) {
    request.ApplyKeymap? || request.ApplyMacro? || request.ApplySettings?
  }

  /** The request was planned against what the keyboard holds. */
  predicate Expects(request: Request, d: Device)
    requires |d.macros| == MACRO_SLOTS
  {
    match request
    case ApplyKeymap(expected, _) => d.keymaps == expected
    case ApplyMacro(slot, revision, _) => SlotNumber(slot).Some? ==> d.macros[SlotNumber(slot).value] == revision
    case ApplySettings(current, _) => d.settings == current
    case _ => false
  }

  /** Success names what the keyboard holds, which is what was asked for; a verified recovery
      means that it holds the original again, a failed one that it holds something else. */
  predicate True(request: Request, payload: Completion, d: Device)
    requires |d.macros| == MACRO_SLOTS
  {
    match request
    case ApplyKeymap(expected, changes) =>
      payload.KeymapDone? && payload.keymap.Apply? &&
      (match payload.keymap.applied
       case Success(k) => d.keymaps == k && Draft(expected, changes, {}) == Some(k)
       case Failure(recovery) => (recovery.Verified? ==> d.keymaps == expected) && (recovery.Failed? ==> d.keymaps != expected))
    case ApplyMacro(slot, revision, desired) =>
      payload.MacroDone? && payload.slot == slot && payload.image.Apply? &&
      var number := SlotNumber(slot);
      (match payload.image.applied
       case Success(image) => number.Some? && d.macros[number.value] == image && Encode(desired) == Some(image)
       case Failure(recovery) =>
         && (recovery.Verified? ==> number.Some? && d.macros[number.value] == revision)
         && (recovery.Failed? ==> number.Some? && d.macros[number.value] != revision))
    case ApplySettings(current, edit) =>
      payload.SettingsDone? && payload.settings.Apply? &&
      (match payload.settings.applied
       case Success(s) => d.settings == s && PlanChange(current, edit).Some? && PlanChange(current, edit).value.target == s
       case Failure(recovery) => (recovery.Verified? ==> d.settings == current) && (recovery.Failed? ==> d.settings != current))
    case _ => false
  }

  // ------------------------------------------------------------ the invariant

  /** Setters, or the backup before them, and behind them a whole script of reads. */
  predicate Behind(queue: seq<Step>, script: seq<Step>) {
    && |queue| >= |script| && queue[|queue| - |script|..] == script
    && forall i :: 0 <= i < |queue| - |script| ==> queue[i].Write? || queue[i].Backup?
  }

  predicate AllSetters(queue: seq<Step>) {
    forall s | s in queue :: s.Write?
  }

  /** The plan is the one of its request. */
  predicate Fits(request: Request, plan: Plan) {
    match plan
    case ApplyingKeymap(before, target, _) =>
      request.ApplyKeymap? && request.expected == before && Draft(before, request.changes, {}) == Some(target)
    case ApplyingMacro(slot, number, before, target, _) =>
      && request.ApplyMacro? && request.slot == slot && request.revision == before
      && Encode(request.desired) == Some(target) && SlotNumber(slot) == Some(number)
    case ApplyingSettings(change, before, edit, _) => request == ApplySettings(before, edit) && PlanChange(before, edit) == Some(change)
    case _ => false
  }

  predicate Restores(plan: Plan) {
    match plan
    case ApplyingKeymap(_, _, stage) => stage == RestoreFn || stage == RestoreBase
    case ApplyingMacro(_, _, _, _, stage) => stage == Restore
    case ApplyingSettings(_, _, _, stage) => stage == Restore
    case _ => false
  }

  function Script(plan: Plan): seq<Step> {
    match plan
    case ApplyingKeymap(_, _, _) => IDENTITY_READS
    case ApplyingMacro(_, number, _, _, _) => MacroReads(number, 0)
    case _ => SettingReads(0)
  }

  /** Every reply so far is the keyboard's own, and the rest is still asked for. */
  predicate Reading(plan: Plan, r: Replies, queue: seq<Step>, d: Device)
    requires |d.macros| == MACRO_SLOTS
  {
    match plan
    case ApplyingKeymap(_, _, _) => B.KeymapReading(r, queue, d.keymaps)
    case ApplyingMacro(_, number, _, _, _) => number < MACRO_SLOTS && B.MacroReading(r, queue, number, d.macros[number])
    case _ => B.SettingsReading(r, queue, d.settings)
  }

  /** A transaction under way: writing, or reading with every reply the keyboard's own. */
  predicate Underway(op: Operation, d: Device)
    requires |d.macros| == MACRO_SLOTS
  {
    Fits(op.request, op.plan) &&
    (if Restores(op.plan) then AllSetters(op.queue)
     else Reading(op.plan, op.replies, op.queue, d) || (op.replies == NO_REPLIES && Behind(op.queue, Script(op.plan))))
  }

  /** An operation whose queue is everything it still shows. */
  predicate Ready(op: Operation, d: Device)
    requires |d.macros| == MACRO_SLOTS
  {
    if op.plan.Terminal? then |op.queue| == 1 && op.queue[0].Complete? && True(op.request, op.queue[0].payload, d)
    else Underway(op, d)
  }

  predicate Inv(w: World)
    requires |w.device.macros| == MACRO_SLOTS
  {
    if w.op.current.Complete? then w.op.plan.Terminal? && True(w.op.request, w.op.current.payload, w.device)
    else !w.op.current.Panic? && !w.op.plan.Terminal? && Underway(w.op.(queue := [w.op.current] + w.op.queue), w.device)
  }

  // ------------------------------------------------------------ scripts

  lemma {:induction false} KeyWritesAreSetters(source: Matrix, goal: Matrix, fn: bool, index: Byte, slot: nat)
    requires slot <= WRITABLE_SLOTS
    ensures AllSetters(KeyWrites(source, goal, fn, index, slot))
    decreases WRITABLE_SLOTS - slot
  {
    if slot < WRITABLE_SLOTS { KeyWritesAreSetters(source, goal, fn, index, slot + 1); }
  }

  lemma {:induction false} MacroWritesAreSetters(reports: seq<WriteReport>, page: nat)
    requires page <= |reports|
    ensures AllSetters(MacroWrites(reports, page))
    decreases |reports| - page
  {
    if page < |reports| { MacroWritesAreSetters(reports, page + 1); }
  }

  lemma {:induction false} ScriptBehind(setters: seq<Step>, script: seq<Step>)
    requires forall s | s in setters :: s.Write? || s.Backup?
    ensures Behind(setters + script, script)
  {
    assert (setters + script)[|setters|..] == script;
    assert forall i :: 0 <= i < |setters| ==> (setters + script)[i] == setters[i] && setters[i] in setters;
  }

  lemma {:induction false} BehindRest(queue: seq<Step>, script: seq<Step>)
    requires Behind(queue, script) && queue != [] && !queue[0].Exchange? && (script != [] ==> script[0].Exchange?)
    ensures Behind(queue[1..], script)
  {
    assert |queue| == |script| ==> queue == script;
    var rest := queue[1..];
    assert |queue| > |script| ==> rest[|rest| - |script|..] == queue[|queue| - |script|..];
    assert forall i :: 0 <= i < |rest| ==> rest[i] == queue[i + 1];
  }

  lemma {:induction false} BehindStarts(queue: seq<Step>, script: seq<Step>)
    requires Behind(queue, script) && script != []
    ensures queue != [] && (queue[0].Exchange? ==> queue == script)
    ensures queue[0].Write? || queue[0].Backup? || queue[0] == script[0]
  {
    if |queue| == |script| { assert queue[0..] == queue; }
  }

  lemma {:induction false} SettingsStep(r: Replies, script: seq<Step>, d: Device, reply: Reply)
    requires |d.macros| == MACRO_SLOTS && B.SettingsReading(r, script, d.settings) && script != []
    ensures script[0].Exchange? && FollowUp(script[0].tag, reply) == []
    ensures ReplyTo(d, script[0].request) == Some(reply) ==>
      var stored := Store(r, script[0].tag, reply);
      stored.Some? ==> B.SettingsReading(stored.value, script[1..], d.settings)
  {
    var count, pages := |r.settings|, B.SettingsPages(d.settings);
    assert script[1..] == SettingReads(count + 1);
    assert pages[..count] + [pages[count]] == pages[..count + 1];
  }

  lemma {:induction false} SettingsDoneShows(r: Replies, s: Settings)
    requires B.SettingsReading(r, [], s)
    ensures DecodeSettings(r.settings).Some? ==> DecodeSettings(r.settings) == Some(s)
  {
    assert |SettingReads(|r.settings|)| == 0;
    assert r.settings == B.SettingsPages(s);
  }

  // ------------------------------------------------------------ keymap stages

  lemma {:induction false} KeysRestoredReady(op: Operation, d: Device, stage: KeyStage)
    requires |d.macros| == MACRO_SLOTS && op.queue == [] && !(stage == RestoreFn || stage == RestoreBase)
    requires op.plan.ApplyingKeymap? && Fits(op.request, op.plan)
    ensures var done := KeysRestored(op, op.plan.keysBefore, op.plan.keysTarget, stage); Ready(done, d) && done.queue != []
  {
    hide Draft;
    assert [] + IDENTITY_READS == IDENTITY_READS;
  }

  lemma {:induction false} KeysObservedReady(op: Operation, d: Device, stage: KeyStage)
    requires |d.macros| == MACRO_SLOTS && op.queue == [] && op.plan.ApplyingKeymap?
    requires op.plan.ApplyingKeymap? && Fits(op.request, op.plan)
    ensures var done := KeysObserved(op, op.plan.keysBefore, op.plan.keysTarget, stage); Ready(done, d) && done.queue != []
  {
    hide Draft, KeymapSnapshot, KeyWrites, KeysRestored;
    var onFn := stage == ObserveFn;
    var before, target := op.plan.keysBefore, op.plan.keysTarget;
    var actual := KeymapSnapshot(op.replies);
    var observed := if actual.None? then None else Some(if onFn then actual.value.fn else actual.value.base);
    var source := if observed.Some? then observed.value else if onFn then target.fn else target.base;
    KeyWritesAreSetters(source, if onFn then before.fn else before.base, onFn, if onFn then 0 else before.profile, 0);
    var writes := KeyWrites(source, if onFn then before.fn else before.base, onFn, if onFn then 0 else before.profile, 0);
    assert [] + writes == writes;
    KeysRestoredReady(op.(plan := op.plan.(keyStage := if onFn then RestoreFn else RestoreBase)), d, if onFn then ObserveBase else KeyVerify);
  }

  lemma {:induction false} KeymapStageReady(op: Operation, d: Device)
    requires |d.macros| == MACRO_SLOTS && Underway(op, d) && op.plan.ApplyingKeymap? && op.queue == []
    ensures SequenceDone(op).Some? && Ready(SequenceDone(op).value, d) && SequenceDone(op).value.queue != []
  {
    hide Draft, KeymapSnapshot, KeysObserved, KeysRestored;
    var stage := op.plan.keyStage;
    if stage == RestoreFn || stage == RestoreBase {
      KeysRestoredReady(op, d, if stage == RestoreFn then ObserveBase else KeyVerify);
    } else {
      B.KeymapReadingDone(op.replies, [], d.keymaps);
      KeysObservedReady(op, d, stage);
      KeysBeginRecovery(op, d);
    }
  }

  lemma {:induction false} KeysBeginRecovery(op: Operation, d: Device)
    requires |d.macros| == MACRO_SLOTS && op.plan.ApplyingKeymap?
    requires op.plan.ApplyingKeymap? && Fits(op.request, op.plan)
    ensures var done := BeginKeyRecovery(op, op.plan.keysBefore, op.plan.keysTarget); Ready(done, d) && done.queue != []
  {
    hide Draft;
    assert [] + IDENTITY_READS == IDENTITY_READS;
  }

  // ------------------------------------------------------------ macro and settings stages

  lemma {:induction false} SomePages(number: Byte, image: MacroImage)
    requires MacroWriteReports(number, image).Some?
    ensures MacroWrites(MacroWriteReports(number, image).value, 0) != []
  {
  }

  lemma {:induction false} MacroRecoveryReady(op: Operation, d: Device)
    requires |d.macros| == MACRO_SLOTS && op.plan.ApplyingMacro? && Fits(op.request, op.plan)
    ensures var done := BeginMacroRecovery(op, op.plan.slot, op.plan.number, op.plan.macroBefore, op.plan.macroTarget);
      Ready(done, d) && done.queue != []
  {
    hide Encode, SlotNumber, MacroWriteReports, MacroWrites;
    var reports := MacroWriteReports(op.plan.number, op.plan.macroBefore);
    if reports.Some? {
      MacroWritesAreSetters(reports.value, 0);
      SomePages(op.plan.number, op.plan.macroBefore);
    }
  }

  lemma {:induction false} MacroStageReady(op: Operation, d: Device)
    requires |d.macros| == MACRO_SLOTS && Underway(op, d) && op.plan.ApplyingMacro? && op.queue == []
    ensures SequenceDone(op).Some? && Ready(SequenceDone(op).value, d) && SequenceDone(op).value.queue != []
  {
    hide Encode, SlotNumber, MacroBytes, BeginMacroRecovery;
    MacroRecoveryReady(op, d);
    var number := op.plan.number;
    if op.plan.stage == Restore {
      assert [] + MacroReads(number, 0) == MacroReads(number, 0);
      assert B.MacroReading(NO_REPLIES, MacroReads(number, 0), number, d.macros[number]);
    } else {
      B.MacroReadingDone(op.replies, number, d.macros[number]);
    }
  }

  lemma {:induction false} SettingsStageReady(op: Operation, d: Device)
    requires |d.macros| == MACRO_SLOTS && Underway(op, d) && op.plan.ApplyingSettings? && op.queue == []
    ensures SequenceDone(op).Some? && Ready(SequenceDone(op).value, d) && SequenceDone(op).value.queue != []
  {
    hide PlanChange, DecodeSettings, Shows;
    if op.plan.stage == Restore {
      assert [] + SettingReads(0) == SettingReads(0);
      NoSettingsYet(d.settings);
    } else {
      SettingsDoneShows(op.replies, d.settings);
    }
  }

  lemma {:induction false} NoSettingsYet(s: Settings)
    ensures B.SettingsReading(NO_REPLIES, SettingReads(0), s)
  {
  }

  lemma {:induction false} StageReady(op: Operation, d: Device)
    requires |d.macros| == MACRO_SLOTS && Underway(op, d) && op.queue == []
    ensures SequenceDone(op).Some? && Ready(SequenceDone(op).value, d)
    ensures SequenceDone(op).value.queue != [] && SequenceDone(op).value.request == op.request
  {
    hide SequenceDone, Underway, Ready;
    UnderwayPlans(op, d);
    if op.plan.ApplyingKeymap? { KeymapStageReady(op, d); } else if op.plan.ApplyingMacro? { MacroStageReady(op, d); } else { SettingsStageReady(op, d); }
    SameRequest(op);
  }

  lemma {:induction false} UnderwayPlans(op: Operation, d: Device)
    requires |d.macros| == MACRO_SLOTS && Underway(op, d)
    ensures op.plan.ApplyingKeymap? || op.plan.ApplyingMacro? || op.plan.ApplyingSettings?
  {
  }

  lemma {:induction false} SameRequest(op: Operation)
    requires op.plan.ApplyingKeymap? || op.plan.ApplyingMacro? || op.plan.ApplyingSettings?
    ensures SequenceDone(op).Some? ==> SequenceDone(op).value.request == op.request
  {
  }

  lemma {:induction false} NextReady(op: Operation, d: Device)
    requires |d.macros| == MACRO_SLOTS && Ready(op, d)
    ensures Inv(World(Next(op), d)) && Next(op).request == op.request
  {
    hide Fits, Reading, True, Script, SequenceDone;
    if op.queue == [] { StageReady(op, d); }
    var loaded := if op.queue != [] then op else SequenceDone(op).value;
    assert [loaded.queue[0]] + loaded.queue[1..] == loaded.queue;
    if !loaded.plan.Terminal? && loaded.queue != [] { UnderwayShows(loaded, d); }
  }

  /** What is shown under way is an effect. */
  lemma {:induction false} UnderwayShows(op: Operation, d: Device)
    requires |d.macros| == MACRO_SLOTS && Underway(op, d) && op.queue != []
    ensures op.queue[0].Write? || op.queue[0].Backup? || op.queue[0].Exchange?
    ensures op.queue[0].Exchange? ==> !Restores(op.plan) && Reading(op.plan, op.replies, op.queue, d)
    ensures !op.queue[0].Exchange? && !Restores(op.plan) ==> op.replies == NO_REPLIES && Behind(op.queue, Script(op.plan))
    ensures op.queue[0].Backup? ==> !Restores(op.plan)
  {
    hide Fits;
    ScriptsRead(op.plan);
    if Restores(op.plan) {
      assert op.queue[0] in op.queue;
    } else if Reading(op.plan, op.replies, op.queue, d) {
      ReadingReads(op.plan, op.replies, op.queue, d);
    } else {
      BehindStarts(op.queue, Script(op.plan));
      if op.queue[0].Exchange? { NothingReadYet(op, d); }
    }
  }

  lemma {:induction false} ScriptsRead(plan: Plan)
    ensures Script(plan) != [] && Script(plan)[0].Exchange?
  {
  }

  lemma {:induction false} ReadingReads(plan: Plan, r: Replies, queue: seq<Step>, d: Device)
    requires |d.macros| == MACRO_SLOTS && Reading(plan, r, queue, d) && queue != []
    ensures queue[0].Exchange?
  {
    assert queue[0] in queue;
  }

  lemma {:induction false} NothingReadYet(op: Operation, d: Device)
    requires |d.macros| == MACRO_SLOTS && Fits(op.request, op.plan) && op.replies == NO_REPLIES && op.queue == Script(op.plan)
    ensures Reading(op.plan, op.replies, op.queue, d)
  {
    hide Draft, Encode, SlotNumber, PlanChange;
    NoSettingsYet(d.settings);
    if op.plan.ApplyingMacro? { SlotsAreFew(op.plan.slot); }
  }

  lemma {:induction false} SlotsAreFew(slot: string)
    ensures SlotNumber(slot).Some? ==> SlotNumber(slot).value < MACRO_SLOTS
  {
  }

  /** A failed effect leads on truthfully, whatever has become of the keyboard. */
  lemma {:induction false} FailReady(op: Operation, d: Device)
    requires |d.macros| == MACRO_SLOTS && Fits(op.request, op.plan)
    ensures FailStep(op).Some? && Ready(FailStep(op).value, d) && FailStep(op).value.request == op.request
  {
    hide Fits, KeysObserved, BeginMacroRecovery, BeginKeyRecovery, Underway;
    FitsPlans(op);
    if !op.current.Backup? {
      match op.plan
      case ApplyingKeymap(before, target, stage) =>
        KeysBeginRecovery(op, d);
        KeysObservedReady(op.(queue := []), d, stage);
      case ApplyingMacro(_, _, _, _, _) => MacroRecoveryReady(op, d);
      case ApplyingSettings(_, _, _, _) => SettingsRecoveryReady(op, d);
      case _ =>
    }
    FailKeepsRequest(op);
  }

  lemma {:induction false} FitsPlans(op: Operation)
    requires Fits(op.request, op.plan)
    ensures op.plan.ApplyingKeymap? || op.plan.ApplyingMacro? || op.plan.ApplyingSettings?
    ensures forall recovery: Recovery :: !(recovery.Verified? || recovery.Failed?) ==>
      forall d: Device | |d.macros| == MACRO_SLOTS :: True(op.request, FailurePayload(op.request, recovery), d)
  {
  }

  lemma {:induction false} SettingsRecoveryReady(op: Operation, d: Device)
    requires |d.macros| == MACRO_SLOTS && op.plan.ApplyingSettings? && Fits(op.request, op.plan)
    ensures Ready(BeginSettingsRecovery(op, op.plan.settings, op.plan.settingsBefore, op.plan.edit), d)
  {
    hide PlanChange;
  }

  lemma {:induction false} FailKeepsRequest(op: Operation)
    requires op.plan.ApplyingKeymap? || op.plan.ApplyingMacro? || op.plan.ApplyingSettings?
    ensures FailStep(op).Some? ==> FailStep(op).value.request == op.request
  {
  }

  // ------------------------------------------------------------ one effect

  /** One truthful reply more. */
  lemma {:induction false} ReadingStep(plan: Plan, r: Replies, queue: seq<Step>, d: Device, reply: Reply)
    requires |d.macros| == MACRO_SLOTS && Reading(plan, r, queue, d) && queue != []
    requires queue[0].Exchange? && ReplyTo(d, queue[0].request) == Some(reply)
    requires plan.ApplyingKeymap? || plan.ApplyingMacro? || plan.ApplyingSettings?
    ensures var stored := Store(r, queue[0].tag, reply);
      stored.Some? ==> Reading(plan, stored.value, queue[1..] + FollowUp(queue[0].tag, reply), d)
  {
    hide Store, ReplyTo, BaseReads, FunctionReads;
    match plan
    case ApplyingKeymap(_, _, _) => B.KeymapReadingStep(r, queue, d, reply);
    case ApplyingMacro(_, number, _, _, _) =>
      B.MacroReadingStep(r, queue, number, d, reply);
      assert queue[1..] + [] == queue[1..];
    case ApplyingSettings(_, _, _, _) =>
      SettingsStep(r, queue, d, reply);
      assert queue[1..] + [] == queue[1..];
    case _ =>
  }

  lemma {:induction false} RespondReady(w: World, e: Event)
    requires |w.device.macros| == MACRO_SLOTS && Inv(w) && !w.op.current.Complete? && ReadsTruly(w, e)
    ensures var mid := Respond(w.op.(mayYield := false), e.response);
      mid.Some? && Ready(mid.value, e.after) && mid.value.request == w.op.request
  {
    hide Fits, Reading, Script, True, Restores, Behind, AllSetters, FailStep, Store, ReplyTo;
    var op := w.op.(mayYield := false);
    var shown := op.(queue := [op.current] + op.queue);
    assert shown.queue[0] == op.current && shown.queue[1..] == op.queue;
    ShownUnderway(w);
    UnderwayShows(shown, w.device);
    FitsPlans(op);
    var tried := op.(setterAttempted := op.setterAttempted || (if e.response.Error? then e.response.attempted else true));
    FailReady(op, e.after);
    FailReady(tried, e.after);
    if op.current.Exchange? {
      if e.response.Done? && e.response.value.Some? && |e.response.value.value| == REPORT_LEN {
        ReadingStep(op.plan, op.replies, shown.queue, w.device, e.response.value.value);
      }
    } else {
      SetterGone(shown);
    }
  }

  lemma {:induction false} ShownUnderway(w: World)
    requires |w.device.macros| == MACRO_SLOTS && Inv(w) && !w.op.current.Complete?
    ensures Underway(w.op.(mayYield := false, queue := [w.op.current] + w.op.queue), w.device)
  {
  }

  lemma {:induction false} SetterGone(op: Operation)
    requires op.queue != [] && !op.queue[0].Exchange?
    ensures AllSetters(op.queue) ==> AllSetters(op.queue[1..])
    ensures Behind(op.queue, Script(op.plan)) ==> Behind(op.queue[1..], Script(op.plan))
  {
    ScriptsRead(op.plan);
    if Behind(op.queue, Script(op.plan)) { BehindRest(op.queue, Script(op.plan)); }
  }

  lemma {:induction false} TurnKeeps(w: World, e: Event)
    requires |w.device.macros| == MACRO_SLOTS && Inv(w) && ReadsTruly(w, e)
    ensures Inv(Turn(w, e)) && Turn(w, e).op.request == w.op.request
  {
    hide Respond, Next, Underway, True;
    if !w.op.current.Complete? {
      RespondReady(w, e);
      NextReady(Respond(w.op.(mayYield := false), e.response).value, e.after);
    }
  }

  lemma {:induction false} PlayKeeps(w: World, events: seq<Event>)
    requires |w.device.macros| == MACRO_SLOTS && Inv(w) && TruePlay(w, events)
    ensures |Play(w, events).device.macros| == MACRO_SLOTS
    ensures Inv(Play(w, events)) && Play(w, events).op.request == w.op.request
    decreases |events|
  {
    hide Turn, Inv, ReadsTruly;
    if events != [] {
      TurnWorld(w, events[0]);
      TurnKeeps(w, events[0]);
      PlayKeeps(Turn(w, events[0]), events[1..]);
    }
  }

  lemma {:induction false} TurnWorld(w: World, e: Event)
    requires ReadsTruly(w, e)
    ensures |Turn(w, e).device.macros| == MACRO_SLOTS
  {
  }

  // ------------------------------------------------------------ opening

  lemma {:induction false} OpeningReady(request: Request, d: Device)
    requires |d.macros| == MACRO_SLOTS && ReadsBack(request) && Expects(request, d)
    ensures Inv(World(Start(request), d)) && Start(request).request == request
  {
    hide Begin, Next, Fits, True, Expects;
    var op := Operation(request, Terminal, [], Complete(CatalogDone(None)), NO_REPLIES, false, false);
    if request.ApplyKeymap? { KeymapOpens(op, d); } else if request.ApplyMacro? { MacroOpens(op, d); } else { SettingsOpens(op, d); }
    NextReady(Begin(op), d);
  }

  lemma {:induction false} KeymapOpens(op: Operation, d: Device)
    requires |d.macros| == MACRO_SLOTS && op.queue == [] && op.request.ApplyKeymap? && Expects(op.request, d)
    ensures Ready(Begin(op), d) && Begin(op).request == op.request
  {
    hide Draft, KeyWrites;
    var before, target := op.request.expected, Draft(op.request.expected, op.request.changes, {});
    if target.Some? {
      var base := KeyWrites(before.base, target.value.base, false, before.profile, 0);
      var fn := KeyWrites(before.fn, target.value.fn, true, 0, 0);
      KeyWritesAreSetters(before.base, target.value.base, false, before.profile, 0);
      KeyWritesAreSetters(before.fn, target.value.fn, true, 0, 0);
      var setters := [Backup(KeymapRecord(before, target.value))] + base + fn;
      ScriptBehind(setters, IDENTITY_READS);
      assert [] + ([Backup(KeymapRecord(before, target.value))] + base + fn) == setters;
    }
  }

  lemma {:induction false} MacroOpens(op: Operation, d: Device)
    requires |d.macros| == MACRO_SLOTS && op.queue == [] && op.request.ApplyMacro? && Expects(op.request, d)
    ensures Ready(Begin(op), d) && Begin(op).request == op.request
  {
    hide Encode, Decode, SlotNumber, MacroWriteReports, MacroWrites;
    var slot, before := op.request.slot, op.request.revision;
    var number, target := SlotNumber(slot), Encode(op.request.desired);
    SlotsAreFew(slot);
    if number.Some? && target.Some? && MacroWriteReports(number.value, target.value).Some? {
      var reports := MacroWriteReports(number.value, target.value).value;
      MacroWritesAreSetters(reports, 0);
      var setters := [Backup(MacroRecord(slot, before, target.value))] + MacroWrites(reports, 0);
      ScriptBehind(setters, MacroReads(number.value, 0));
      assert [] + setters == setters;
    }
  }

  lemma {:induction false} SettingsOpens(op: Operation, d: Device)
    requires |d.macros| == MACRO_SLOTS && op.queue == [] && op.request.ApplySettings? && Expects(op.request, d)
    ensures Ready(Begin(op), d) && Begin(op).request == op.request
  {
    hide PlanChange, Editable;
    var plan := PlanChange(op.request.current, op.request.edit);
    if plan.Some? {
      var setters := [Backup(SettingsRecord(op.request.current, plan.value.target)), Write(Setting(plan.value.report), 0, 500)];
      ScriptBehind(setters, SettingReads(0));
      assert [] + setters == setters;
    }
  }

  /** Whatever its setters do to the keyboard, as long as its reads are truthful: a success is
      reported only of a keyboard that holds exactly what was asked for, a verified recovery
      only of one that holds exactly the original, and a failed one only of one that holds
      something else. */
  lemma {:induction false} VerdictsRestOnReadbacks(request: Request, d: Device, events: seq<Event>)
    requires |d.macros| == MACRO_SLOTS && ReadsBack(request) && Expects(request, d)
    requires TruePlay(World(Start(request), d), events)
    ensures var w := Play(World(Start(request), d), events);
      |w.device.macros| == MACRO_SLOTS && (w.op.current.Complete? ==> True(request, w.op.current.payload, w.device))
  {
    hide Start, Play, TruePlay, True, Underway, Expects;
    OpeningReady(request, d);
    PlayKeeps(World(Start(request), d), events);
  }
}
