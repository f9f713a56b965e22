/** The verdict of every keymap transaction is true of the keyboard it leaves behind. */
module KeymapVerdicts {
  import opened Wrappers
  import opened SettingsCodec
  import opened Nia87
  import opened BrowserPlanner
  import opened BrowserTermination
  import opened BrowserWorld

  // ------------------------------------------------------------ landing key setters

  function LandKey(k: Keymaps, step: Step): Keymaps {
    if step.Write? && step.report.SingleKey? && step.report.slot < MATRIX_SLOTS
    then SetKey(k, step.report.fn, step.report.slot, step.report.binding) else k
  }

  /** The key maps once every setter among `steps` has landed, in order. */
  function LandKeys(k: Keymaps, steps: seq<Step>): Keymaps
    decreases |steps|
  {
    if steps == [] then k else LandKeys(LandKey(k, steps[0]), steps[1..])
  }

  function Layer(k: Keymaps, fn: bool): Matrix {
    if fn then k.fn else k.base
  }

  function WithLayer(k: Keymaps, fn: bool, layer: Matrix): Keymaps {
    if fn then k.(fn := layer) else k.(base := layer)
  }

  lemma {:induction false} LandKeysAppend(k: Keymaps, a: seq<Step>, b: seq<Step>)
    ensures LandKeys(k, a + b) == LandKeys(LandKeys(k, a), b)
    decreases |a|
  {
    if a == [] {
      assert a + b == b;
    } else {
      LandKeysAppend(LandKey(k, a[0]), a[1..], b);
      assert (a + b)[1..] == a[1..] + b;
    }
  }

  lemma {:induction false} LandNothing(k: Keymaps, steps: seq<Step>)
    requires forall s | s in steps :: !s.Write?
    ensures LandKeys(k, steps) == k
    decreases |steps|
  {
    if steps != [] {
      LandNothing(k, steps[1..]);
    }
  }

  /** A setter that writes a restorable slot with the goal's binding for it. */
  predicate Toward(step: Step, goal: Keymaps) {
    step.Write? && step.report.SingleKey? && step.report.slot < WRITABLE_SLOTS
    && step.report.binding == Layer(goal, step.report.fn)[step.report.slot]
  }

  predicate OnLayer(step: Step, fn: bool) {
    step.Write? && step.report.SingleKey? && step.report.fn == fn
  }

  /** Writing out the differences between `source` and `goal` makes a layer equal to `goal`
      as long as the layer already agrees with `goal` wherever `source` does. */
  lemma {:induction false} KeyWritesReach(k: Keymaps, source: Matrix, goal: Keymaps, fn: bool, index: Byte, slot: nat)
    requires slot <= WRITABLE_SLOTS
    requires forall s :: 0 <= s < MATRIX_SLOTS ==>
      (s < slot || s >= WRITABLE_SLOTS || source[s] == Layer(goal, fn)[s]) ==> Layer(k, fn)[s] == Layer(goal, fn)[s]
    ensures var writes := KeyWrites(source, Layer(goal, fn), fn, index, slot);
      && LandKeys(k, writes) == WithLayer(k, fn, Layer(goal, fn))
      && forall s | s in writes :: Toward(s, goal) && OnLayer(s, fn)
    decreases WRITABLE_SLOTS - slot
  {
    var wanted := Layer(goal, fn);
    if slot == WRITABLE_SLOTS {
      assert Layer(k, fn) == wanted;
    } else if source[slot] != wanted[slot] {
      var step := Write(SingleKey(fn, index, slot, wanted[slot]), 0, 1000);
      var rest := KeyWrites(source, wanted, fn, index, slot + 1);
      KeyWritesReach(LandKey(k, step), source, goal, fn, index, slot + 1);
      assert KeyWrites(source, wanted, fn, index, slot) == [step] + rest;
      assert ([step] + rest)[1..] == rest;
    } else {
      KeyWritesReach(k, source, goal, fn, index, slot + 1);
      assert KeyWrites(source, wanted, fn, index, slot) == KeyWrites(source, wanted, fn, index, slot + 1);
    }
  }

  /** A restoration is refused exactly when what was intended, or what was observed, differs
      from the original in a reserved slot. Otherwise it gives back the original layer on every
      keyboard that already has the original binding wherever the observation shows it, or, with
      nothing observed, wherever the intended map does. */
  lemma {:induction false} RestorationsReach(
      k: Keymaps, observed: Option<Matrix>, attempted: Matrix, original: Keymaps, fn: bool, index: Byte)
    ensures var wanted, source := Layer(original, fn), if observed.Some? then observed.value else attempted;
      var writes := RestoreWrites(observed, attempted, wanted, fn, index);
      && (writes.Some? <==>
            forall s :: WRITABLE_SLOTS <= s < MATRIX_SLOTS ==> attempted[s] == wanted[s] && (observed.Some? ==> observed.value[s] == wanted[s]))
      && (writes.Some? && (forall s :: 0 <= s < MATRIX_SLOTS && source[s] == wanted[s] ==> Layer(k, fn)[s] == wanted[s]) ==>
            LandKeys(k, writes.value) == WithLayer(k, fn, wanted))
  {
    hide KeyWrites, LandKeys, Portable;
    var wanted, source := Layer(original, fn), if observed.Some? then observed.value else attempted;
    ReservedAgree(attempted, wanted);
    ReservedAgree(source, wanted);
    if RestoreWrites(observed, attempted, wanted, fn, index).Some?
       && forall s :: 0 <= s < MATRIX_SLOTS && source[s] == wanted[s] ==> Layer(k, fn)[s] == wanted[s]
    {
      KeyWritesReach(k, source, original, fn, index, 0);
    }
  }

  lemma {:induction false} ReservedAgree(a: Matrix, b: Matrix)
    ensures a[WRITABLE_SLOTS..] == b[WRITABLE_SLOTS..] <==> forall s :: WRITABLE_SLOTS <= s < MATRIX_SLOTS ==> a[s] == b[s]
  {
    if a[WRITABLE_SLOTS..] == b[WRITABLE_SLOTS..] {
      forall s | WRITABLE_SLOTS <= s < MATRIX_SLOTS
        ensures a[s] == b[s]
      {
        assert a[s] == a[WRITABLE_SLOTS..][s - WRITABLE_SLOTS] == b[WRITABLE_SLOTS..][s - WRITABLE_SLOTS];
      }
    }
  }

  // ------------------------------------------------------------ the transaction

  /** One transaction: the keyboard's original key maps and the intended ones. */
  datatype Job = Job(before: Keymaps, target: Keymaps)

  ghost predicate GoodJob(job: Job) {
    && Portable(job.before) && Portable(job.target) && job.before != job.target
    && forall fn: bool :: Layer(job.before, fn)[WRITABLE_SLOTS..] == Layer(job.target, fn)[WRITABLE_SLOTS..]
  }

  /** Every slot holds its original binding or its intended one. */
  ghost predicate Between(k: Keymaps, job: Job) {
    && Portable(k)
    && forall fn: bool, s :: 0 <= s < MATRIX_SLOTS ==>
      Layer(k, fn)[s] == Layer(job.before, fn)[s] || Layer(k, fn)[s] == Layer(job.target, fn)[s]
  }

  /** The steps before the first read back of the key maps. */
  ghost predicate Writing(pending: seq<Step>, job: Job, attempted: bool) {
    && |pending| >= 2 && pending[|pending| - 2..] == IDENTITY_READS
    && forall i :: 0 <= i < |pending| - 2 ==>
      Toward(pending[i], job.target) || (i == 0 && pending[i].Backup? && !attempted)
  }

  /** What holds of the key maps `k` while `pending` is what the stage still has to do. */
  ghost predicate StageHolds(stage: KeyStage, k: Keymaps, pending: seq<Step>, r: Replies, job: Job, attempted: bool) {
    match stage
    case KeyMain =>
      LandKeys(k, pending) == job.target
      && (KeymapReading(r, pending, k) || (r == NO_REPLIES && Writing(pending, job, attempted)))
    case ObserveFn => KeymapReading(r, pending, k)
    case RestoreFn =>
      && LandKeys(k, pending).fn == job.before.fn
      && forall s | s in pending :: Toward(s, job.before) && OnLayer(s, true)
    case ObserveBase => k.fn == job.before.fn && KeymapReading(r, pending, k)
    case RestoreBase =>
      && k.fn == job.before.fn && LandKeys(k, pending).base == job.before.base
      && forall s | s in pending :: Toward(s, job.before) && OnLayer(s, false)
    case KeyVerify => k == job.before && KeymapReading(r, pending, k)
  }

  /** A verdict that is true of the keyboard and of the setters sent to it. An unverified
      one still says that a setter was tried and that every slot holds its original binding
      or its intended one. */
  ghost predicate Truthful(payload: Completion, job: Job, k: Keymaps, attempted: bool) {
    payload.KeymapDone? && payload.keymap.Apply? &&
    match payload.keymap.applied
    case Success(reported) => reported == job.target && k == job.target
    case Failure(recovery) =>
      match recovery
      case Verified => k == job.before
      case NotAttempted => !attempted && k == job.before
      case Failed => false
      case Unverified => attempted && Between(k, job)
  }

  /** An operation whose queue is everything it still shows. */
  ghost predicate Poised(op: Operation, job: Job, k: Keymaps, attempted: bool) {
    && op.request.ApplyKeymap? && GoodJob(job) && Between(k, job)
    && op.setterAttempted == attempted && (!attempted ==> k == job.before)
    && if op.plan.Terminal? then
         |op.queue| == 1 && op.queue[0].Complete? && Truthful(op.queue[0].payload, job, k, attempted)
       else
         && op.plan.ApplyingKeymap? && op.plan.keysBefore == job.before && op.plan.keysTarget == job.target
         && (op.plan.keyStage != KeyMain ==> attempted)
         && StageHolds(op.plan.keyStage, k, op.queue, op.replies, job, attempted)
  }

  ghost predicate Inv(w: World, job: Job, d: Device) {
    && |d.macros| == MACRO_SLOTS && w.device == d.(keymaps := w.device.keymaps)
    && if w.op.current.Complete? then w.op.plan.Terminal? && Truthful(w.op.current.payload, job, w.device.keymaps, w.attempted)
       else !w.op.current.Panic? && !w.op.plan.Terminal? && Poised(Shown(w.op), job, w.device.keymaps, w.attempted)
  }

  predicate OnTrack(op: Operation, job: Job) {
    if op.plan.Terminal? then op.queue == [Complete(KeymapDone(Apply(Success(job.target))))]
    else op.plan.ApplyingKeymap? && op.plan.keyStage == KeyMain
  }

  predicate Recovering(op: Operation) {
    if op.plan.Terminal? then op.queue == [Complete(KeymapDone(Apply(Failure(Verified))))]
    else op.plan.ApplyingKeymap? && op.plan.keyStage != KeyMain
  }

  // ------------------------------------------------------------ stage changes

  lemma {:induction false} RestorePoised(op: Operation, job: Job, k: Keymaps, attempted: bool, stage: KeyStage)
    requires Poised(op.(plan := Terminal, queue := [Complete(KeymapDone(Apply(Failure(Unverified))))]), job, k, attempted)
    requires stage == ObserveFn || (stage == ObserveBase && k.fn == job.before.fn) || (stage == KeyVerify && k == job.before)
    ensures Poised(KeysRestored(op.(queue := []), job.before, job.target, stage), job, k, attempted)
  {
    assert [] + IDENTITY_READS == IDENTITY_READS;
  }

  lemma {:induction false} ObservedPoised(op: Operation, job: Job, k: Keymaps, attempted: bool, stage: KeyStage)
    requires stage == ObserveFn || (stage == ObserveBase && k.fn == job.before.fn)
    requires Poised(op.(plan := Terminal, queue := [Complete(KeymapDone(Apply(Failure(Unverified))))]), job, k, attempted)
    requires op.queue == []
    requires KeymapSnapshot(op.replies) == None || KeymapSnapshot(op.replies) == Some(k)
    ensures var done := KeysObserved(op, job.before, job.target, stage);
      Poised(done, job, k, attempted) && done.queue != [] && Recovering(done)
  {
    hide KeymapSnapshot, KeyWrites;
    var onFn := stage == ObserveFn;
    var actual := KeymapSnapshot(op.replies);
    var observed := if actual.None? then None else Some(Layer(k, onFn));
    var source := if actual.None? then Layer(job.target, onFn) else Layer(k, onFn);
    var index := if onFn then 0 else job.before.profile;
    SameReserved(k, job, onFn);
    KeyWritesReach(k, source, job.before, onFn, index, 0);
    var writes := KeyWrites(source, Layer(job.before, onFn), onFn, index, 0);
    assert RestoreWrites(observed, Layer(job.target, onFn), Layer(job.before, onFn), onFn, index) == Some(writes);
    assert [] + writes == writes;
    if writes == [] {
      assert LandKeys(k, []) == k;
      RestorePoised(op, job, k, attempted, if onFn then ObserveBase else KeyVerify);
    }
  }

  lemma {:induction false} SameReserved(k: Keymaps, job: Job, fn: bool)
    requires GoodJob(job) && Between(k, job)
    ensures Layer(k, fn)[WRITABLE_SLOTS..] == Layer(job.before, fn)[WRITABLE_SLOTS..]
    ensures forall s :: WRITABLE_SLOTS <= s < MATRIX_SLOTS ==> Layer(k, fn)[s] == Layer(job.before, fn)[s]
  {
    forall s | WRITABLE_SLOTS <= s < MATRIX_SLOTS
      ensures Layer(k, fn)[s] == Layer(job.before, fn)[s]
    {
      assert Layer(job.before, fn)[WRITABLE_SLOTS..][s - WRITABLE_SLOTS] == Layer(job.target, fn)[WRITABLE_SLOTS..][s - WRITABLE_SLOTS];
    }
  }

  /** A stage that has nothing left to do hands over to the next one truthfully. */
  lemma {:induction false} StagePoised(op: Operation, job: Job, k: Keymaps, attempted: bool)
    requires Poised(op, job, k, attempted) && !op.plan.Terminal? && op.queue == []
    ensures var done := SequenceDone(op);
      && done.Some? && done.value.queue != [] && Poised(done.value, job, k, attempted)
      && (OnTrack(op, job) ==> OnTrack(done.value, job)) && (Recovering(op) ==> Recovering(done.value))
  {
    hide KeymapSnapshot, KeysObserved;
    var stage := op.plan.keyStage;
    match stage
    case KeyMain =>
      assert KeymapReading(op.replies, [], k);
      KeymapReadingDone(op.replies, [], k);
      assert LandKeys(k, []) == k;
    case ObserveFn | ObserveBase =>
      KeymapReadingDone(op.replies, [], k);
      ObservedPoised(op, job, k, attempted, stage);
    case RestoreFn =>
      assert LandKeys(k, []) == k;
      RestorePoised(op, job, k, attempted, ObserveBase);
    case RestoreBase =>
      assert LandKeys(k, []) == k;
      assert k == job.before;
      RestorePoised(op, job, k, attempted, KeyVerify);
    case KeyVerify =>
      KeymapReadingDone(op.replies, [], k);
  }

  lemma {:induction false} NextPoised(op: Operation, job: Job, d: Device, k: Keymaps, attempted: bool)
    requires |d.macros| == MACRO_SLOTS
    requires Poised(op, job, k, attempted)
    ensures Inv(World(Next(op), d.(keymaps := k), attempted), job, d)
    ensures OnTrack(op, job) ==> OnTrack(Shown(Next(op)), job)
    ensures Recovering(op) ==> Recovering(Shown(Next(op)))
  {
    if op.queue == [] {
      StagePoised(op, job, k, attempted);
    }
    var loaded := if op.queue != [] then op else SequenceDone(op).value;
    assert [loaded.queue[0]] + loaded.queue[1..] == loaded.queue;
    assert !loaded.plan.Terminal? ==> !loaded.queue[0].Complete? && !loaded.queue[0].Panic? by {
      if !loaded.plan.Terminal? { PendingAreEffects(loaded, job, k, attempted); }
    }
  }

  lemma {:induction false} PendingAreEffects(op: Operation, job: Job, k: Keymaps, attempted: bool)
    requires Poised(op, job, k, attempted) && !op.plan.Terminal? && op.queue != []
    ensures op.queue[0].Backup? || op.queue[0].Write? || op.queue[0].Exchange?
  {
    var stage := op.plan.keyStage;
    if stage == RestoreFn || stage == RestoreBase {
      assert Toward(op.queue[0], job.before);
    } else if KeymapReading(op.replies, op.queue, k) {
      assert op.queue[0].Exchange?;
    } else {
      assert op.queue[|op.queue| - 2..][0] == IDENTITY_READS[0];
    }
  }

  // ------------------------------------------------------------ one effect

  lemma {:induction false} BetweenKept(k: Keymaps, step: Step, job: Job)
    requires Between(k, job) && (Toward(step, job.target) || Toward(step, job.before))
    ensures Between(LandKey(k, step), job)
  {
  }

  /** Failure verdicts that claim nothing, and recovery from the main stage. */
  lemma {:induction false} FailPoised(op: Operation, job: Job, k: Keymaps, attempted: bool)
    requires !op.current.Backup?
    requires Poised(op.(plan := Terminal, queue := [Complete(KeymapDone(Apply(Failure(Unverified))))]), job, k, attempted)
    requires op.plan.ApplyingKeymap? && op.plan.keysBefore == job.before && op.plan.keysTarget == job.target
    requires op.plan.keyStage == ObserveBase ==> k.fn == job.before.fn
    requires (op.plan.keyStage == ObserveFn || op.plan.keyStage == ObserveBase) ==> KeymapSnapshot(op.replies) == None
    ensures FailStep(op).Some? && Poised(FailStep(op).value, job, k, attempted)
    ensures op.plan.keyStage == ObserveFn || op.plan.keyStage == ObserveBase ==> Recovering(FailStep(op).value)
  {
    hide KeymapSnapshot, KeysObserved;
    var stage := op.plan.keyStage;
    if stage == KeyMain {
      RestorePoised(op, job, k, attempted, ObserveFn);
    } else if stage == ObserveFn || stage == ObserveBase {
      ObservedPoised(op.(queue := []), job, k, attempted, stage);
    }
  }

  /** A read step: the reply is the keyboard's own, or the stage fails over. */
  lemma {:induction false} ReadPoised(w: World, e: Effect, job: Job, d: Device)
    requires Inv(w, job, d) && w.op.current.Exchange? && Honest(w.device, w.op.current, e)
    ensures var mid := Respond(w.op.(mayYield := false), e.response);
      && mid.Some? && Poised(mid.value, job, w.device.keymaps, w.attempted)
      && (Smooth(w.op.current, e) && OnTrack(w.op, job) ==> OnTrack(mid.value, job))
      && (Smooth(w.op.current, e) || w.op.plan.keyStage == ObserveFn || w.op.plan.keyStage == ObserveBase ==>
          Recovering(w.op) ==> Recovering(mid.value))
  {
    hide KeymapSnapshot, KeyWrites, LandKeys, BaseReads, FunctionReads, FailStep, Store, FollowUp;
    var op, k := w.op.(mayYield := false), w.device.keymaps;
    var pending := Shown(w.op).queue;
    assert pending[0] == op.current && pending[1..] == op.queue;
    var response := e.response;
    ReadStageIsReading(w, job, d);
    KeymapReadingDone(op.replies, pending, k);
    FailPoised(op, job, k, w.attempted);
    if response.Done? && response.value.Some? && |response.value.value| == REPORT_LEN {
      var reply: Reply := response.value.value;
      KeymapReadingStep(op.replies, pending, w.device, reply);
      var stored := Store(op.replies, op.current.tag, reply);
      AcceptedLands(k, pending, FollowUp(op.current.tag, reply));
      assert AcceptReply(op, op.current.tag, reply) == Some(Push(op.(replies := stored.value), FollowUp(op.current.tag, reply)));
    }
  }

  lemma {:induction false} ReadStageIsReading(w: World, job: Job, d: Device)
    requires Inv(w, job, d) && w.op.current.Exchange?
    ensures KeymapReading(w.op.replies, Shown(w.op).queue, w.device.keymaps)
    ensures w.op.plan.keyStage != RestoreFn && w.op.plan.keyStage != RestoreBase && w.attempted
  {
    hide KeymapReading, StageHolds, Truthful, Between;
    StageReads(w.op.plan.keyStage, w.device.keymaps, Shown(w.op).queue, w.op.replies, job, w.attempted);
    ReadsLandNothing(w.op.replies, Shown(w.op).queue, w.device.keymaps);
  }

  lemma {:induction false} ReadsLandNothing(r: Replies, script: seq<Step>, k: Keymaps)
    requires KeymapReading(r, script, k)
    ensures LandKeys(k, script) == k
  {
    LandNothing(k, script);
  }

  lemma {:induction false} StageReads(stage: KeyStage, k: Keymaps, pending: seq<Step>, r: Replies, job: Job, attempted: bool)
    requires StageHolds(stage, k, pending, r, job, attempted) && pending != [] && pending[0].Exchange?
    ensures KeymapReading(r, pending, k) && stage != RestoreFn && stage != RestoreBase
    ensures stage == KeyMain ==> LandKeys(k, pending) == job.target
  {
    hide LandKeys;
    assert pending[0] in pending;
    assert |pending| == 2 ==> pending == pending[|pending| - 2..];
  }

  lemma {:induction false} AcceptedLands(k: Keymaps, pending: seq<Step>, more: seq<Step>)
    requires pending != [] && !pending[0].Write?
    requires forall s | s in more :: !s.Write?
    ensures LandKeys(k, pending[1..] + more) == LandKeys(k, pending)
  {
    LandKeysAppend(k, pending[1..], more);
    LandNothing(LandKeys(k, pending[1..]), more);
  }

  lemma {:induction false} SetterLands(d: Device, step: Step)
    requires step.Write? && step.report.SingleKey? && step.report.slot < WRITABLE_SLOTS
    ensures Land(d, step.report) == d.(keymaps := LandKey(d.keymaps, step))
  {
  }

  /** A setter step: it lands, or the stage fails over. */
  lemma {:induction false} SetterPoised(w: World, e: Effect, job: Job, d: Device)
    requires Inv(w, job, d) && w.op.current.Write? && Honest(w.device, w.op.current, e)
    ensures var mid, after := Respond(w.op.(mayYield := false), e.response), Turn(w, e);
      && mid.Some? && after.device == d.(keymaps := after.device.keymaps)
      && Poised(mid.value, job, after.device.keymaps, after.attempted)
      && (Smooth(w.op.current, e) && OnTrack(w.op, job) ==> OnTrack(mid.value, job))
      && (Smooth(w.op.current, e) && Recovering(w.op) ==> Recovering(mid.value))
  {
    hide KeymapSnapshot, KeyWrites, BaseReads, FunctionReads, MatrixPages, Next, KeysObserved, FailStep, KeymapReading, GoodJob, AcceptReply, Land;
    var op := w.op.(mayYield := false);
    var pending := Shown(w.op).queue;
    var after := Turn(w, e);
    assert pending[0] == op.current && pending[1..] == op.queue;
    WriteStage(w, job, d);
    BetweenKept(w.device.keymaps, op.current, job);
    SetterLands(w.device, op.current);
    if e.response == Done(None) {
      assert LandKeys(w.device.keymaps, pending) == LandKeys(after.device.keymaps, op.queue);
      RestWriting(pending, job, w.attempted, true);
    } else if after.attempted {
      FailPoised(op.(setterAttempted := after.attempted), job, after.device.keymaps, after.attempted);
    }
  }

  /** A backup step: acknowledged, or nothing is attempted at all. */
  lemma {:induction false} BackupPoised(w: World, e: Effect, job: Job, d: Device)
    requires Inv(w, job, d) && w.op.current.Backup?
    ensures var mid := Respond(w.op.(mayYield := false), e.response);
      && mid.Some? && Poised(mid.value, job, w.device.keymaps, w.attempted)
      && (Smooth(w.op.current, e) && OnTrack(w.op, job) ==> OnTrack(mid.value, job)) && !Recovering(w.op)
  {
    hide KeymapSnapshot, KeyWrites, BaseReads, FunctionReads, MatrixPages, Next, KeysObserved;
    var pending := Shown(w.op).queue;
    assert pending[0] == w.op.current && pending[1..] == w.op.queue;
    WriteStage(w, job, d);
    assert LandKeys(w.device.keymaps, pending) == LandKeys(w.device.keymaps, w.op.queue);
    RestWriting(pending, job, w.attempted, w.attempted);
  }

  lemma {:induction false} RestWriting(pending: seq<Step>, job: Job, attempted: bool, after: bool)
    ensures |pending| > 2 && Writing(pending, job, attempted) ==> Writing(pending[1..], job, after)
  {
    if |pending| > 2 && Writing(pending, job, attempted) {
      var rest := pending[1..];
      assert rest[|rest| - 2..] == pending[|pending| - 2..];
      assert forall i :: 0 <= i < |rest| ==> rest[i] == pending[i + 1];
    }
  }

  lemma {:induction false} WriteStage(w: World, job: Job, d: Device)
    requires Inv(w, job, d) && (w.op.current.Write? || w.op.current.Backup?)
    ensures var stage := w.op.plan.keyStage;
      && (stage == KeyMain || stage == RestoreFn || stage == RestoreBase)
      && (stage == KeyMain ==> w.op.replies == NO_REPLIES && Writing(Shown(w.op).queue, job, w.attempted) && |Shown(w.op).queue| > 2)
      && (w.op.current.Backup? ==> stage == KeyMain && !w.attempted)
      && (w.op.current.Write? ==> Toward(w.op.current, if stage == KeyMain then job.target else job.before))
      && (stage == RestoreFn ==> OnLayer(w.op.current, true)) && (stage == RestoreBase ==> OnLayer(w.op.current, false))
  {
    hide StageHolds, Truthful, Between, GoodJob, Toward, OnLayer, Writing;
    StageWrites(w.op.plan.keyStage, w.device.keymaps, Shown(w.op).queue, w.op.replies, job, w.attempted);
  }

  lemma {:induction false} StageWrites(stage: KeyStage, k: Keymaps, pending: seq<Step>, r: Replies, job: Job, attempted: bool)
    requires StageHolds(stage, k, pending, r, job, attempted) && pending != [] && (pending[0].Write? || pending[0].Backup?)
    ensures stage == KeyMain || stage == RestoreFn || stage == RestoreBase
    ensures stage == KeyMain ==> r == NO_REPLIES && Writing(pending, job, attempted) && |pending| > 2
    ensures pending[0].Backup? ==> stage == KeyMain && !attempted
    ensures pending[0].Write? ==> Toward(pending[0], if stage == KeyMain then job.target else job.before)
    ensures stage == RestoreFn ==> OnLayer(pending[0], true)
    ensures stage == RestoreBase ==> OnLayer(pending[0], false)
  {
    hide LandKeys, BaseReads, FunctionReads, MatrixPages;
    assert pending[0] in pending;
    assert |pending| == 2 ==> pending == pending[|pending| - 2..];
  }

  /** Every honest effect keeps the invariant; every smooth one keeps the direction. */
  lemma {:induction false} TurnKeeps(w: World, e: Effect, job: Job, d: Device)
    requires Inv(w, job, d) && Honest(w.device, w.op.current, e)
    ensures Inv(Turn(w, e), job, d)
    ensures Smooth(w.op.current, e) && OnTrack(Shown(w.op), job) ==> OnTrack(Shown(Turn(w, e).op), job)
    ensures Smooth(w.op.current, e) && Recovering(Shown(w.op)) ==> Recovering(Shown(Turn(w, e).op))
  {
    hide Respond, Next, StageHolds;
    if !w.op.current.Complete? {
      var after := Turn(w, e);
      if w.op.current.Exchange? {
        ReadPoised(w, e, job, d);
        assert after.device == w.device && after.attempted == w.attempted;
      } else {
        WhatIsShown(w, job, d);
        if w.op.current.Write? { SetterPoised(w, e, job, d); } else { BackupPoised(w, e, job, d); }
      }
      var mid := Respond(w.op.(mayYield := false), e.response).value;
      NextPoised(mid, job, d, after.device.keymaps, after.attempted);
    }
  }

  lemma {:induction false} WhatIsShown(w: World, job: Job, d: Device)
    requires Inv(w, job, d) && !w.op.current.Complete?
    ensures w.op.current.Backup? || w.op.current.Write? || w.op.current.Exchange?
  {
    PendingAreEffects(Shown(w.op), job, w.device.keymaps, w.attempted);
  }

  // ------------------------------------------------------------ opening

  predicate Names(change: KeyChange, fn: bool, slot: nat) {
    change.fn == fn && change.slot == slot
  }

  /** Every change has a binding for a position that may be written, and no position is
      taken twice. */
  ghost predicate Acceptable(changes: seq<KeyChange>, seen: set<(bool, nat)>) {
    && (forall c | c in changes :: KeyWritable(c.fn, c.slot) && (c.fn, c.slot) !in seen && c.raw.Some?)
    && (forall i, j :: 0 <= i < j < |changes| ==> !Names(changes[j], changes[i].fn, changes[i].slot))
  }

  lemma {:induction false} AcceptableStep(changes: seq<KeyChange>, seen: set<(bool, nat)>)
    requires changes != []
    ensures var c := changes[0];
      Acceptable(changes, seen) <==>
        KeyWritable(c.fn, c.slot) && (c.fn, c.slot) !in seen && c.raw.Some? && Acceptable(changes[1..], seen + {(c.fn, c.slot)})
  {
    var c, rest, taken := changes[0], changes[1..], seen + {(changes[0].fn, changes[0].slot)};
    assert changes == [c] + rest;
    if Acceptable(rest, taken) {
      forall j | 1 <= j < |changes|
        ensures !Names(changes[j], c.fn, c.slot)
      {
        assert changes[j] == rest[j - 1] && rest[j - 1] in rest;
      }
      assert forall i, j :: 1 <= i < j < |changes| ==> changes[i] == rest[i - 1] && changes[j] == rest[j - 1];
    }
    if Acceptable(changes, seen) {
      forall later | later in rest
        ensures (later.fn, later.slot) !in taken
      {
        var k :| 0 <= k < |rest| && rest[k] == later;
        assert changes[k + 1] == later;
      }
    }
  }

  /** A draft is refused exactly when some change has no binding, names a protected position
      or names a position that is taken already. */
  lemma {:induction false} DraftRefusesExactly(k: Keymaps, changes: seq<KeyChange>, seen: set<(bool, nat)>)
    ensures Draft(k, changes, seen).Some? <==> Acceptable(changes, seen)
    decreases |changes|
  {
    if changes != [] {
      var c := changes[0];
      AcceptableStep(changes, seen);
      if KeyWritable(c.fn, c.slot) && (c.fn, c.slot) !in seen && c.raw.Some? {
        DraftRefusesExactly(SetKey(k, c.fn, c.slot, c.raw.value), changes[1..], seen + {(c.fn, c.slot)});
      }
    }
  }

  /** A draft holds, in each position, the binding of the change that names it, and what it
      held before when none does. */
  lemma {:induction false} DraftIsExact(k: Keymaps, changes: seq<KeyChange>, seen: set<(bool, nat)>)
    requires Draft(k, changes, seen).Some?
    ensures var target := Draft(k, changes, seen).value;
      && target.firmware == k.firmware && target.profile == k.profile
      && (forall c | c in changes :: c.slot < MATRIX_SLOTS && c.raw == Some(Layer(target, c.fn)[c.slot]))
      && (forall fn: bool, s: nat :: s < MATRIX_SLOTS && (forall c | c in changes :: !Names(c, fn, s)) ==>
            Layer(target, fn)[s] == Layer(k, fn)[s])
    decreases |changes|
  {
    if changes != [] {
      var c, rest := changes[0], changes[1..];
      var next, taken := SetKey(k, c.fn, c.slot, c.raw.value), seen + {(c.fn, c.slot)};
      assert changes == [c] + rest;
      DraftIsExact(next, rest, taken);
      DraftRefusesExactly(next, rest, taken);
      assert forall later | later in rest :: !Names(later, c.fn, c.slot);
      DraftUnfolds(k, changes, seen);
      hide Draft, Acceptable, Names;
      var target := Draft(k, changes, seen).value;
      OneKeySet(k, c.fn, c.slot, c.raw.value);
      forall d | d in changes
        ensures d.slot < MATRIX_SLOTS && d.raw == Some(Layer(target, d.fn)[d.slot])
      {
        if d !in rest { assert d == c; }
      }
      forall fn: bool, s: nat | s < MATRIX_SLOTS && forall d | d in changes :: !Names(d, fn, s)
        ensures Layer(target, fn)[s] == Layer(k, fn)[s]
      {
        assert c in changes && forall d | d in rest :: d in changes;
        assert c.fn != fn || c.slot != s by { NamesItself(c); }
      }
    }
  }

  lemma {:induction false} NamesItself(c: KeyChange)
    ensures Names(c, c.fn, c.slot)
  {
  }

  /** Setting a key sets it and leaves every other one. */
  lemma {:induction false} OneKeySet(k: Keymaps, fn: bool, slot: nat, raw: Binding)
    requires slot < MATRIX_SLOTS
    ensures var next := SetKey(k, fn, slot, raw);
      && Layer(next, fn)[slot] == raw && next.firmware == k.firmware && next.profile == k.profile
      && forall f: bool, s: nat :: s < MATRIX_SLOTS && (f != fn || s != slot) ==> Layer(next, f)[s] == Layer(k, f)[s]
  {
  }

  lemma {:induction false} DraftUnfolds(k: Keymaps, changes: seq<KeyChange>, seen: set<(bool, nat)>)
    requires changes != [] && Draft(k, changes, seen).Some?
    ensures var c := changes[0];
      && KeyWritable(c.fn, c.slot) && c.raw.Some?
      && Draft(k, changes, seen) == Draft(SetKey(k, c.fn, c.slot, c.raw.value), changes[1..], seen + {(c.fn, c.slot)})
  {
  }

  /** No change reaches a protected slot of either layer, those of the Fn system among them. */
  lemma {:induction false} DraftKeepsReserved(k: Keymaps, changes: seq<KeyChange>, seen: set<(bool, nat)>)
    requires Draft(k, changes, seen).Some?
    ensures var target := Draft(k, changes, seen).value;
      && target.firmware == k.firmware && target.profile == k.profile
      && (forall fn: bool, s: nat :: s < MATRIX_SLOTS && !KeyWritable(fn, s) ==> Layer(target, fn)[s] == Layer(k, fn)[s])
      && forall fn: bool :: Layer(target, fn)[WRITABLE_SLOTS..] == Layer(k, fn)[WRITABLE_SLOTS..]
  {
    DraftIsExact(k, changes, seen);
    DraftRefusesExactly(k, changes, seen);
    forall fn: bool, s: nat | s < MATRIX_SLOTS && !KeyWritable(fn, s)
      ensures Layer(Draft(k, changes, seen).value, fn)[s] == Layer(k, fn)[s]
    {
      assert forall c | c in changes :: !Names(c, fn, s);
    }
  }

  lemma {:induction false} OpeningWrites(job: Job)
    requires GoodJob(job)
    ensures var base := KeyWrites(job.before.base, job.target.base, false, job.before.profile, 0);
      var fn := KeyWrites(job.before.fn, job.target.fn, true, 0, 0);
      && LandKeys(job.before, base + fn) == job.target
      && forall s | s in base + fn :: Toward(s, job.target)
  {
    SameReservedSlots(job, false);
    SameReservedSlots(job, true);
    KeyWritesReach(job.before, job.before.base, job.target, false, job.before.profile, 0);
    var middle := WithLayer(job.before, false, job.target.base);
    KeyWritesReach(middle, job.before.fn, job.target, true, 0, 0);
    LandKeysAppend(job.before, KeyWrites(job.before.base, job.target.base, false, job.before.profile, 0),
                   KeyWrites(job.before.fn, job.target.fn, true, 0, 0));
  }

  lemma {:induction false} SameReservedSlots(job: Job, fn: bool)
    requires GoodJob(job)
    ensures forall s :: WRITABLE_SLOTS <= s < MATRIX_SLOTS ==> Layer(job.before, fn)[s] == Layer(job.target, fn)[s]
  {
    forall s | WRITABLE_SLOTS <= s < MATRIX_SLOTS
      ensures Layer(job.before, fn)[s] == Layer(job.target, fn)[s]
    {
      assert Layer(job.before, fn)[WRITABLE_SLOTS..][s - WRITABLE_SLOTS] == Layer(job.target, fn)[WRITABLE_SLOTS..][s - WRITABLE_SLOTS];
    }
  }

  lemma {:induction false} OpeningHolds(job: Job, changes: seq<KeyChange>, d: Device)
    requires |d.macros| == MACRO_SLOTS && d.keymaps == job.before
    requires Portable(job.before) && Draft(job.before, changes, {}) == Some(job.target) && job.before != job.target
    ensures var w := Opening(ApplyKeymap(job.before, changes), d);
      Inv(w, job, d) && OnTrack(Shown(w.op), job)
  {
    hide Draft, KeyWrites, Start, Toward, KeymapReading, Recovering;
    DraftKeepsReserved(job.before, changes, {});
    OpeningWrites(job);
    OpeningShows(job, changes);
    var writes := KeyWrites(job.before.base, job.target.base, false, job.before.profile, 0)
                  + KeyWrites(job.before.fn, job.target.fn, true, 0, 0);
    var record := Backup(KeymapRecord(job.before, job.target));
    var w := Opening(ApplyKeymap(job.before, changes), d);
    assert Shown(w.op).queue == [record] + (writes + IDENTITY_READS);
    BackedWriting(record, writes, job);
  }

  lemma {:induction false} OpeningShows(job: Job, changes: seq<KeyChange>)
    requires Portable(job.before) && Draft(job.before, changes, {}) == Some(job.target) && job.before != job.target
    ensures var op := Start(ApplyKeymap(job.before, changes));
      && op.request == ApplyKeymap(job.before, changes)
      && op.current == Backup(KeymapRecord(job.before, job.target))
      && op.queue == KeyWrites(job.before.base, job.target.base, false, job.before.profile, 0)
                     + KeyWrites(job.before.fn, job.target.fn, true, 0, 0) + IDENTITY_READS
      && op.plan == ApplyingKeymap(job.before, job.target, KeyMain) && op.replies == NO_REPLIES && !op.setterAttempted
  {
    hide Draft, KeyWrites;
    var base := KeyWrites(job.before.base, job.target.base, false, job.before.profile, 0);
    var fn := KeyWrites(job.before.fn, job.target.fn, true, 0, 0);
    var record := Backup(KeymapRecord(job.before, job.target));
    assert ([] + ([record] + base + fn) + IDENTITY_READS)[1..] == base + fn + IDENTITY_READS;
  }

  lemma {:induction false} BackedWriting(record: Step, writes: seq<Step>, job: Job)
    requires record.Backup? && LandKeys(job.before, writes) == job.target
    requires forall s | s in writes :: Toward(s, job.target)
    ensures var pending := [record] + (writes + IDENTITY_READS);
      Writing(pending, job, false) && LandKeys(job.before, pending) == job.target
  {
    hide KeyWrites, LandKeys, Toward;
    var pending := [record] + (writes + IDENTITY_READS);
    LandKeysAppend(job.before, writes, IDENTITY_READS);
    LandNothing(job.target, IDENTITY_READS);
    LandKeysAppend(job.before, [record], writes + IDENTITY_READS);
    LandNothing(job.before, [record]);
    assert pending[|pending| - 2..] == IDENTITY_READS;
    forall i | 0 <= i < |pending| - 2
      ensures Toward(pending[i], job.target) || (i == 0 && pending[i].Backup?)
    {
      assert i > 0 ==> pending[i] == writes[i - 1];
    }
  }

  // ------------------------------------------------------------ whole runs

  lemma {:induction false} PlayKeeps(w: World, effects: seq<Effect>, job: Job, d: Device)
    requires Inv(w, job, d) && HonestPlay(w, effects)
    ensures Inv(Play(w, effects), job, d)
    ensures SmoothPlay(w, effects) && OnTrack(Shown(w.op), job) ==> OnTrack(Shown(Play(w, effects).op), job)
    ensures SmoothPlay(w, effects) && Recovering(Shown(w.op)) ==> Recovering(Shown(Play(w, effects).op))
    decreases |effects|
  {
    if effects != [] {
      TurnKeeps(w, effects[0], job, d);
      PlayKeeps(Turn(w, effects[0]), effects[1..], job, d);
    }
  }

  /** Whatever lands, whatever fails: the reported verdict is true of the keyboard. */
  lemma {:induction false} KeymapVerdictIsTrue(before: Keymaps, changes: seq<KeyChange>, d: Device, effects: seq<Effect>)
    requires |d.macros| == MACRO_SLOTS && d.keymaps == before
    requires HonestPlay(Opening(ApplyKeymap(before, changes), d), effects)
    ensures var w := Play(Opening(ApplyKeymap(before, changes), d), effects);
      && w.device == d.(keymaps := w.device.keymaps)
      && (w.op.current.Complete? ==>
            var target := Draft(before, changes, {});
            if target.None? || !Portable(before)
            then w.op.current == Complete(KeymapDone(Apply(Failure(NotAttempted)))) && !w.attempted && w.device == d
            else Truthful(w.op.current.payload, Job(before, target.value), w.device.keymaps, w.attempted))
  {
    var request := ApplyKeymap(before, changes);
    var target := Draft(before, changes, {});
    var opening := Opening(request, d);
    if target.None? || !Portable(before) || before == target.value {
      assert opening.op.current.Complete?;
      PlayFinished(opening, effects);
    } else {
      var job := Job(before, target.value);
      OpeningHolds(job, changes, d);
      PlayKeeps(opening, effects, job, d);
    }
  }

  /** When every effect succeeds, the change is applied and reported so. */
  lemma {:induction false} SmoothKeymapApplies(before: Keymaps, changes: seq<KeyChange>, d: Device, effects: seq<Effect>)
    requires |d.macros| == MACRO_SLOTS && d.keymaps == before
    requires Portable(before) && Draft(before, changes, {}).Some?
    requires HonestPlay(Opening(ApplyKeymap(before, changes), d), effects)
    requires SmoothPlay(Opening(ApplyKeymap(before, changes), d), effects)
    requires |effects| >= Limit(ApplyKeymap(before, changes))
    ensures var w, target := Play(Opening(ApplyKeymap(before, changes), d), effects), Draft(before, changes, {}).value;
      w.op.current == Complete(KeymapDone(Apply(Success(target)))) && w.device.keymaps == target
  {
    hide Draft, Start, Advance, Honest, Smooth, StageHolds;
    var request := ApplyKeymap(before, changes);
    var target := Draft(before, changes, {}).value;
    LongPlayCompletes(request, d, effects);
    if before == target {
      UnchangedCompletes(before, changes);
      PlayFinished(Opening(request, d), effects);
    } else {
      OpeningHolds(Job(before, target), changes, d);
      PlayKeeps(Opening(request, d), effects, Job(before, target), d);
      var after := Play(Opening(request, d), effects);
      assert Shown(after.op).queue[0] == after.op.current;
    }
  }

  lemma {:induction false} UnchangedCompletes(before: Keymaps, changes: seq<KeyChange>)
    ensures var target := Draft(before, changes, {});
      && (target.Some? && Portable(before) && target.value == before ==>
            Start(ApplyKeymap(before, changes)).current == Complete(KeymapDone(Apply(Success(before)))))
      && (target.None? || !Portable(before) ==>
            Start(ApplyKeymap(before, changes)).current == Complete(KeymapDone(Apply(Failure(NotAttempted)))))
      && (target.None? || !Portable(before) || target.value == before ==> Start(ApplyKeymap(before, changes)).plan.Terminal?)
  {
    hide Draft, KeyWrites;
  }

  lemma {:induction false} RecoveryCompletes(w: World, effects: seq<Effect>, job: Job, d: Device)
    requires Inv(w, job, d) && Recovering(Shown(w.op))
    requires HonestPlay(w, effects) && SmoothPlay(w, effects)
    requires Play(w, effects).op.current.Complete?
    ensures Play(w, effects).op.current == Complete(KeymapDone(Apply(Failure(Verified))))
    ensures Play(w, effects).device.keymaps == job.before
  {
    hide Turn, Honest, Smooth, StageHolds, Between, GoodJob;
    PlayKeeps(w, effects, job, d);
    var after := Play(w, effects);
    assert Shown(after.op).queue[0] == after.op.current;
  }

  /** Once recovery has begun, after any landed part of the change, effects that succeed
      restore the original key maps, and the restoration is reported as verified. */
  lemma {:induction false} SmoothRecoveryIsVerified(before: Keymaps, changes: seq<KeyChange>, d: Device, first: seq<Effect>, rest: seq<Effect>)
    requires |d.macros| == MACRO_SLOTS && d.keymaps == before
    requires HonestPlay(Opening(ApplyKeymap(before, changes), d), first)
    requires var w := Play(Opening(ApplyKeymap(before, changes), d), first);
      w.op.plan.ApplyingKeymap? && w.op.plan.keyStage != KeyMain && HonestPlay(w, rest) && SmoothPlay(w, rest)
    requires |first + rest| >= Limit(ApplyKeymap(before, changes))
    ensures var w := Play(Play(Opening(ApplyKeymap(before, changes), d), first), rest);
      w.op.current == Complete(KeymapDone(Apply(Failure(Verified)))) && w.device.keymaps == before
  {
    hide Draft, Start, Play, HonestPlay, SmoothPlay, OnTrack, Limit;
    var request := ApplyKeymap(before, changes);
    var target := Draft(before, changes, {});
    var opening := Opening(request, d);
    var w := Play(opening, first);
    UnchangedCompletes(before, changes);
    if target.None? || !Portable(before) || before == target.value {
      PlayFinished(opening, first);
    } else {
      var job := Job(before, target.value);
      OpeningHolds(job, changes, d);
      PlayKeeps(opening, first, job, d);
      PlayAppend(opening, first, rest);
      LongPlayCompletes(request, d, first + rest);
      RecoveryCompletes(w, rest, job, d);
    }
  }
}
