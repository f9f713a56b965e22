/** The browser's host-lighting planner: starting, updating, feeding and stopping an
    activity that must leave the saved lighting behind. A panic is the step `Panic`. */
module HostPlanner {
  import opened Wrappers
  import opened SettingsCodec
  import opened LightingCodec

  type Ticket = (nat, nat)

  /** `expected` is the exact baseline the session saw, `saved` the lighting decoded from
      it, `active` what the keyboard last showed or was sent. */
  datatype Activity = Activity(ticket: Ticket, expected: Reply, saved: Reply, active: Reply)

  datatype Event = Started | Finished(restored: Result<Reply, Recovery>, problem: bool)

  datatype Outcome =
    | Reported(ticket: Ticket, event: Event, activity: Option<Activity>)
    | Continued(kept: Activity, failed: bool)

  datatype Step =
    | Backup(before: Reply, target: Reply)
    | Write(report: Reply, afterMs: nat)
    | Exchange
    | Complete(outcome: Outcome)
    | Panic

  datatype Stage = Backing | Writing | Verifying | RestoreWriting | RestoreVerifying

  datatype Plan =
    | Starting(activity: Activity, target: Reply, stage: Stage)
    | Stopping(activity: Activity, target: Reply, problem: bool)
    | Updating(activity: Activity, target: Reply)
    | Feeding(activity: Activity)
    | Terminal

  datatype Operation = Operation(plan: Plan, step: Step, pending: seq<Step>)

  /** What an effect answers; a failed one says whether its setter may have been sent. */
  datatype Response = Done(value: Option<seq<Byte>>) | Error(attempted: bool)

  // ------------------------------------------------------------ reports

  function RestoreReport(saved: Reply): (report: Reply)
    ensures report[1..8] == saved[1..8]
  {
    [LED_WRITE] + saved[1..8] + seq(56, i => 0)
  }

  predicate Matches(actual: Reply, report: Reply, original: Reply) {
    actual[1..8] == report[1..8] && actual[9..] == original[9..]
  }

  /** The reply once a setter has landed: only its seven setting bytes change. */
  function Submitted(before: Reply, report: Reply): (after: Reply)
    ensures after[1..8] == report[1..8] && after[9..] == before[9..] && after[0] == before[0] && after[8] == before[8]
  {
    [before[0]] + report[1..8] + before[8..]
  }

  // ------------------------------------------------------------ starting each operation

  function Finish(outcome: Outcome): Operation {
    Operation(Terminal, Complete(outcome), [])
  }

  function FinishedFailure(ticket: Ticket, recovery: Recovery): Operation {
    Finish(Reported(ticket, Finished(Failure(recovery), false), None))
  }

  /** Effects that need a host: they are offered as modes and cannot be a baseline. */
  predicate HostEffect(id: Byte) {
    20 <= id <= 22
  }

  predicate EditableBaseline(raw: Reply) {
    raw[0] == LED_READ && Recognized(raw).Some? && !HostEffect(raw[1])
  }

  predicate HostMode(mode: Setting) {
    HostEffect(mode.effect) && ValidSetting(mode)
  }

  /** `baseline` is the lighting decoded from the expected snapshot, `mode` the requested
      mode's setting; either is absent when it could not be made out. */
  function Start(ticket: Ticket, baseline: Option<Reply>, mode: Option<Setting>): Operation {
    if baseline.None? || !EditableBaseline(baseline.value) || mode.None? || !HostMode(mode.value)
    then FinishedFailure(ticket, NotAttempted)
    else
      var saved, target := baseline.value, SetterFor(mode.value);
      var activity := Activity(ticket, saved, saved, saved);
      if Matches(saved, target, saved) then Finish(Reported(ticket, Started, Some(activity)))
      else Operation(Starting(activity, target, Backing), Backup(saved, target), [])
  }

  /** Absent when the ticket is another one's or the saved lighting has no setting. */
  function Stop(ticket: Ticket, activity: Activity, problem: bool): Option<Operation> {
    if ticket != activity.ticket || Recognized(activity.saved).None? then None
    else
      var target := SetterFor(Recognized(activity.saved).value);
      if Matches(activity.active, target, activity.active)
      then Some(Finish(Reported(ticket, Finished(Success(activity.expected), problem), None)))
      else Some(Operation(Stopping(activity, target, problem), Backup(activity.active, target), [Write(target, 500), Exchange]))
  }

  function Update(ticket: Ticket, activity: Activity, mode: Option<Setting>): Option<Operation> {
    if ticket != activity.ticket || mode.None? || !HostMode(mode.value) then None
    else if mode.value.effect != activity.active[1] || !Music(mode.value.effect) then None
    else
      var target := SetterFor(mode.value);
      Some(Operation(Updating(activity, target), Write(target, 500), []))
  }

  /** A frame only fits a mode that takes frames. */
  function Feed(activity: Activity, frame: Reply): Option<Operation> {
    if !HostEffect(activity.active[1]) then None else Some(Operation(Feeding(activity), Write(frame, 0), []))
  }

  // ------------------------------------------------------------ effects

  function BeginRestore(op: Operation): Operation
    requires op.plan.Starting?
  {
    op.(plan := op.plan.(stage := RestoreWriting), step := Write(RestoreReport(op.plan.activity.saved), 500))
  }

  function EffectError(op: Operation, attempted: bool): Operation {
    match op.plan
    case Starting(activity, _, stage) =>
      if stage == Backing || (stage == Writing && !attempted) then op.(plan := Terminal, step := FinishedFailure(activity.ticket, NotAttempted).step)
      else if stage == RestoreWriting || stage == RestoreVerifying
      then op.(plan := Terminal, step := FinishedFailure(activity.ticket, Unverified).step)
      else BeginRestore(op)
    case Stopping(activity, _, problem) =>
      op.(plan := Terminal, step := Complete(Reported(activity.ticket, Finished(Failure(Unverified), problem), None)))
    case Updating(activity, _) => op.(plan := Terminal, step := Complete(Continued(activity, true)))
    case Feeding(activity) => op.(plan := Terminal, step := Complete(Continued(activity, true)))
    case Terminal => op
  }

  function EffectDone(op: Operation): Operation {
    match op.plan
    case Starting(_, target, stage) =>
      if op.step.Backup? then op.(plan := op.plan.(stage := Writing), step := Write(target, 500))
      else if op.step.Write? && stage == Writing then op.(plan := op.plan.(stage := Verifying), step := Exchange)
      else if op.step.Write? && stage == RestoreWriting then op.(plan := op.plan.(stage := RestoreVerifying), step := Exchange)
      else op.(step := Panic)
    case Stopping(_, _, _) => if op.pending == [] then op.(step := Panic) else op.(step := op.pending[0], pending := op.pending[1..])
    case Updating(activity, target) =>
      op.(plan := Terminal, step := Complete(Continued(activity.(active := Submitted(activity.active, target)), false)))
    case Feeding(activity) => op.(plan := Terminal, step := Complete(Continued(activity, false)))
    case Terminal => op.(step := Panic)
  }

  /** A lighting read back: a reply of the right length and opcode, or nothing. */
  function ExchangeDone(op: Operation, read: Option<Reply>): Operation {
    match op.plan
    case Starting(activity, target, stage) =>
      if stage == Verifying then
        if read.Some? && Matches(read.value, target, activity.saved)
        then op.(plan := Terminal, step := Complete(Reported(activity.ticket, Started, Some(activity.(active := read.value)))))
        else BeginRestore(op)
      else if stage == RestoreVerifying then
        var recovery :=
          if read.None? then Unverified
          else if Matches(read.value, RestoreReport(activity.saved), activity.saved) then Verified
          else Failed;
        op.(plan := Terminal, step := FinishedFailure(activity.ticket, recovery).step)
      else op.(step := Panic)
    case Stopping(activity, target, problem) =>
      var restored :=
        if read.Some? && Matches(read.value, target, activity.active) && read.value == activity.expected
        then Success(read.value) else Failure(Unverified);
      op.(plan := Terminal, step := Complete(Reported(activity.ticket, Finished(restored, problem), None)))
    case _ => op.(step := Panic)
  }

  function ReadBack(value: Option<seq<Byte>>): Option<Reply> {
    if value.Some? && |value.value| == REPORT_LEN && value.value[0] == LED_READ then Some(value.value) else None
  }

  function Advance(op: Operation, response: Response): Operation {
    if op.step.Complete? || op.step.Panic? then op
    else
      match response
      case Error(attempted) => EffectError(op, attempted)
      case Done(value) =>
        if op.step.Exchange? then ExchangeDone(op, ReadBack(value))
        else if value.Some? then EffectError(op, op.step.Write?)
        else EffectDone(op)
  }

  // ------------------------------------------------------------ against a keyboard

  datatype Effect = Effect(response: Response, landed: bool)

  /** `sent` are the setter reports shown so far that may have reached the keyboard. */
  datatype World = World(op: Operation, lighting: Reply, sent: seq<Reply>)

  predicate Honest(w: World, e: Effect) {
    match w.op.step
    case Write(_, _) => (e.response == Done(None) ==> e.landed) && (e.response == Error(false) ==> !e.landed)
    case Exchange => e.response.Done? && ReadBack(e.response.value).Some? ==> ReadBack(e.response.value).value == w.lighting
    case _ => true
  }

  function Turn(w: World, e: Effect): World {
    // a frame colors the keys for a moment; it is not the stored setting
    var writing := w.op.step.Write? && !w.op.plan.Feeding?;
    World(Advance(w.op, e.response),
          if writing && e.landed then Submitted(w.lighting, w.op.step.report) else w.lighting,
          if writing && e.response != Error(false) then w.sent + [w.op.step.report] else w.sent)
  }

  predicate HonestPlay(w: World, effects: seq<Effect>)
    decreases |effects|
  {
    effects == [] || (Honest(w, effects[0]) && HonestPlay(Turn(w, effects[0]), effects[1..]))
  }

  function Play(w: World, effects: seq<Effect>): World
    decreases |effects|
  {
    if effects == [] then w else Play(Turn(w, effects[0]), effects[1..])
  }

  predicate Smooth(w: World, e: Effect) {
    if w.op.step.Exchange? then e.response.Done? && ReadBack(e.response.value).Some? else e.response == Done(None)
  }

  predicate SmoothPlay(w: World, effects: seq<Effect>)
    decreases |effects|
  {
    effects == [] || (Smooth(w, effects[0]) && SmoothPlay(Turn(w, effects[0]), effects[1..]))
  }

  // ------------------------------------------------------------ starting

  /** Advances a start can still need. */
  function Left(op: Operation): nat {
    if op.step.Complete? then 0
    else
      match op.plan
      case Starting(_, _, stage) =>
        (match stage case Backing => 5 case Writing => 4 case Verifying => 3 case RestoreWriting => 2 case RestoreVerifying => 1)
      case Stopping(_, _, _) => |op.pending| + 1
      case _ => 1
  }

  /** What is true of a start from lighting `saved` at each of its steps. */
  ghost predicate StartHolds(w: World, activity: Activity, target: Reply, saved: Reply) {
    && activity == Activity(activity.ticket, saved, saved, saved)
    && SameOutside(w.lighting, saved)
    && w.op.pending == []
    && match w.op.plan
       case Starting(a, t, stage) =>
         && a == activity && t == target
         && (match stage
             case Backing => w.op.step == Backup(saved, target) && w.lighting == saved && w.sent == []
             case Writing => w.op.step == Write(target, 500) && w.lighting == saved && w.sent == []
             case Verifying => w.op.step == Exchange && w.lighting == Submitted(saved, target) && w.sent == [target]
             case RestoreWriting => w.op.step == Write(RestoreReport(saved), 500) && w.sent == [target]
             case RestoreVerifying => w.op.step == Exchange && w.lighting == saved && w.sent == [target, RestoreReport(saved)])
       case Terminal => w.op.step.Complete? && StartVerdict(w, activity, target, saved)
       case _ => false
  }

  /** Replies that differ at most in the seven setting bytes. */
  predicate SameOutside(a: Reply, b: Reply) {
    a[0] == b[0] && a[8] == b[8] && a[9..] == b[9..]
  }

  /** True verdicts of a start: running with the keyboard as reported; or finished, with the
      saved lighting untouched, restored, or in doubt after exactly one restoration. */
  predicate StartVerdict(w: World, activity: Activity, target: Reply, saved: Reply) {
    w.op.step.Complete? && w.op.step.outcome.Reported? && w.op.step.outcome.ticket == activity.ticket &&
    match w.op.step.outcome.event
    case Started =>
      && w.op.step.outcome.activity == Some(activity.(active := w.lighting))
      && Matches(w.lighting, target, saved) && SameOutside(w.lighting, saved) && (w.sent == [] || w.sent == [target])
    case Finished(Success(_), _) => false
    case Finished(Failure(recovery), _) =>
      && w.op.step.outcome.activity.None?
      && (match recovery
          case NotAttempted => w.lighting == saved && w.sent == []
          case Verified => w.lighting == saved && w.sent == [target, RestoreReport(saved)]
          case Failed => false
          case Unverified => w.sent == [target] || w.sent == [target, RestoreReport(saved)])
  }

  lemma {:induction false} RestoredBytes(now: Reply, saved: Reply)
    requires SameOutside(now, saved)
    ensures Submitted(now, RestoreReport(saved)) == saved
    ensures Matches(now, RestoreReport(saved), saved) <==> now == saved
  {
    var after := Submitted(now, RestoreReport(saved));
    SameParts(after, saved);
    if Matches(now, RestoreReport(saved), saved) { SameParts(now, saved); }
  }

  lemma {:induction false} SameParts(a: Reply, b: Reply)
    requires a[0] == b[0] && a[1..8] == b[1..8] && a[8] == b[8] && a[9..] == b[9..]
    ensures a == b
  {
    assert a == [a[0]] + a[1..8] + [a[8]] + a[9..];
    assert b == [b[0]] + b[1..8] + [b[8]] + b[9..];
  }

  lemma {:induction false} StartTurn(w: World, e: Effect, activity: Activity, target: Reply, saved: Reply)
    requires StartHolds(w, activity, target, saved) && Honest(w, e)
    ensures StartHolds(Turn(w, e), activity, target, saved)
    ensures !w.op.step.Complete? ==> Left(Turn(w, e).op) < Left(w.op)
    ensures w.op.step.Complete? ==> Turn(w, e) == w
  {
    hide Matches, RestoreReport, Submitted, ReadBack, StartVerdict;
    RestoredBytes(w.lighting, saved);
    if w.op.plan.Starting? {
      if w.op.plan.stage == Backing || w.op.plan.stage == Writing { EarlyTurn(w, e, activity, target, saved); }
      else if w.op.plan.stage == Verifying { VerifyTurn(w, e, activity, target, saved); }
      else { RestoreTurn(w, e, activity, target, saved); }
    }
  }

  lemma {:induction false} EarlyTurn(w: World, e: Effect, activity: Activity, target: Reply, saved: Reply)
    requires StartHolds(w, activity, target, saved) && Honest(w, e) && w.op.plan.Starting?
    requires w.op.plan.stage == Backing || w.op.plan.stage == Writing
    ensures StartHolds(Turn(w, e), activity, target, saved)
  {
    hide Matches, RestoreReport, Submitted, ReadBack;
  }

  lemma {:induction false} VerifyTurn(w: World, e: Effect, activity: Activity, target: Reply, saved: Reply)
    requires StartHolds(w, activity, target, saved) && Honest(w, e) && w.op.plan.Starting? && w.op.plan.stage == Verifying
    ensures StartHolds(Turn(w, e), activity, target, saved)
  {
    hide Matches, RestoreReport, Submitted, ReadBack;
  }

  lemma {:induction false} RestoreTurn(w: World, e: Effect, activity: Activity, target: Reply, saved: Reply)
    requires StartHolds(w, activity, target, saved) && Honest(w, e) && w.op.plan.Starting?
    requires w.op.plan.stage == RestoreWriting || w.op.plan.stage == RestoreVerifying
    ensures StartHolds(Turn(w, e), activity, target, saved)
  {
    hide Matches, RestoreReport, Submitted, ReadBack;
    RestoredBytes(w.lighting, saved);
  }

  lemma {:induction false} StartPlay(w: World, effects: seq<Effect>, activity: Activity, target: Reply, saved: Reply)
    requires StartHolds(w, activity, target, saved) && HonestPlay(w, effects)
    ensures var after := Play(w, effects);
      StartHolds(after, activity, target, saved) && (after.op.step.Complete? || Left(after.op) + |effects| <= Left(w.op))
    decreases |effects|
  {
    hide StartHolds, Turn;
    if effects != [] {
      StartTurn(w, effects[0], activity, target, saved);
      StartPlay(Turn(w, effects[0]), effects[1..], activity, target, saved);
      if w.op.step.Complete? { FinishedPlay(w, effects); }
    }
  }

  lemma {:induction false} FinishedPlay(w: World, effects: seq<Effect>)
    requires w.op.step.Complete?
    ensures Play(w, effects) == w
    decreases |effects|
  {
    if effects != [] {
      FinishedPlay(Turn(w, effects[0]), effects[1..]);
    }
  }

  function Opening(op: Operation, lighting: Reply): World {
    World(op, lighting, [])
  }

  /** A start on a keyboard that shows the baseline completes within five effects. It is
      running only with the keyboard read back as asked; a refusal has sent no setter; and a
      failure after a setter has sent exactly one restoration and is verified only when the
      keyboard is byte for byte as it was. */
  lemma {:induction false} StartIsTrue(ticket: Ticket, saved: Reply, mode: Option<Setting>, effects: seq<Effect>)
    requires HonestPlay(Opening(Start(ticket, Some(saved), mode), saved), effects) && |effects| >= 5
    ensures var w := Play(Opening(Start(ticket, Some(saved), mode), saved), effects);
      if EditableBaseline(saved) && mode.Some? && HostMode(mode.value)
      then StartVerdict(w, Activity(ticket, saved, saved, saved), SetterFor(mode.value), saved)
      else w.op == FinishedFailure(ticket, NotAttempted) && w.lighting == saved && w.sent == []
  {
    hide SetterFor, Play, Turn, Recognized;
    var opening := Opening(Start(ticket, Some(saved), mode), saved);
    if EditableBaseline(saved) && mode.Some? && HostMode(mode.value) {
      StartPlay(opening, effects, Activity(ticket, saved, saved, saved), SetterFor(mode.value), saved);
    } else {
      FinishedPlay(opening, effects);
    }
  }

  // ------------------------------------------------------------ stopping

  /** What is true of a stop from lighting `before` at each of its steps. */
  ghost predicate StopHolds(w: World, activity: Activity, target: Reply, problem: bool, before: Reply) {
    match w.op.plan
    case Stopping(a, t, p) =>
      && a == activity && t == target && p == problem
      && (|| (w.op.step == Backup(activity.active, target) && w.op.pending == [Write(target, 500), Exchange] && w.sent == [] && w.lighting == before)
          || (w.op.step == Write(target, 500) && w.op.pending == [Exchange] && w.sent == [] && w.lighting == before)
          || (w.op.step == Exchange && w.op.pending == [] && w.sent == [target] && w.lighting == Submitted(before, target)))
    case Terminal => StopVerdict(w, activity, target, problem)
    case _ => false
  }

  predicate StopVerdict(w: World, activity: Activity, target: Reply, problem: bool) {
    && w.op.step.Complete? && (w.sent == [] || w.sent == [target])
    && w.op.step.outcome.Reported? && w.op.step.outcome.ticket == activity.ticket && w.op.step.outcome.activity.None?
    && match w.op.step.outcome.event
       case Started => false
       case Finished(Success(restored), p) => p == problem && restored == activity.expected && w.lighting == activity.expected && w.sent == [target]
       case Finished(Failure(recovery), p) => p == problem && recovery == Unverified
  }

  lemma {:induction false} StopTurn(w: World, e: Effect, activity: Activity, target: Reply, problem: bool, before: Reply)
    requires StopHolds(w, activity, target, problem, before) && Honest(w, e)
    ensures StopHolds(Turn(w, e), activity, target, problem, before)
    ensures !w.op.step.Complete? ==> Left(Turn(w, e).op) < Left(w.op)
    ensures w.op.step.Complete? ==> Turn(w, e) == w
  {
    hide Matches, Submitted, ReadBack;
  }

  lemma {:induction false} StopPlay(w: World, effects: seq<Effect>, activity: Activity, target: Reply, problem: bool, before: Reply)
    requires StopHolds(w, activity, target, problem, before) && HonestPlay(w, effects)
    ensures var after := Play(w, effects);
      StopHolds(after, activity, target, problem, before) && (after.op.step.Complete? || Left(after.op) + |effects| <= Left(w.op))
    decreases |effects|
  {
    hide StopHolds, Turn;
    if effects != [] {
      StopTurn(w, effects[0], activity, target, problem, before);
      StopPlay(Turn(w, effects[0]), effects[1..], activity, target, problem, before);
      if w.op.step.Complete? { FinishedPlay(w, effects); }
    }
  }

  /** A stop only ever sends the saved setting, and reports the baseline as restored only
      when it read that very baseline back, or at once, sending nothing, when the record
      already shows it. */
  lemma {:induction false} StopIsTrue(ticket: Ticket, activity: Activity, problem: bool, lighting: Reply, effects: seq<Effect>)
    requires Stop(ticket, activity, problem).Some?
    requires HonestPlay(Opening(Stop(ticket, activity, problem).value, lighting), effects) && |effects| >= 3
    ensures var w, target := Play(Opening(Stop(ticket, activity, problem).value, lighting), effects), SetterFor(Recognized(activity.saved).value);
      if Matches(activity.active, target, activity.active)
      then w.op == Finish(Reported(ticket, Finished(Success(activity.expected), problem), None)) && w.lighting == lighting && w.sent == []
      else StopVerdict(w, activity, target, problem)
  {
    hide SetterFor, Recognized, Play, Turn;
    var opening := Opening(Stop(ticket, activity, problem).value, lighting);
    var target := SetterFor(Recognized(activity.saved).value);
    if Matches(activity.active, target, activity.active) {
      FinishedPlay(opening, effects);
    } else {
      StopPlay(opening, effects, activity, target, problem, lighting);
    }
  }

  lemma {:induction false} SmoothStop(w: World, effects: seq<Effect>, activity: Activity, target: Reply, problem: bool)
    requires w.op == Operation(Stopping(activity, target, problem), Backup(activity.active, target), [Write(target, 500), Exchange])
    requires SameOutside(w.lighting, activity.active) && w.sent == []
    requires HonestPlay(w, effects) && SmoothPlay(w, effects) && |effects| >= 3
    ensures var after := Play(w, effects);
      && after.op.step == Complete(Reported(activity.ticket, Finished(
           if Submitted(w.lighting, target) == activity.expected then Success(activity.expected) else Failure(Unverified), problem), None))
      && after.lighting == Submitted(w.lighting, target) && after.sent == [target]
  {
    hide Submitted, ReadBack, Matches;
    var rest := effects[1..];
    var last := rest[1..];
    var w1 := Turn(w, effects[0]);
    var w2 := Turn(w1, rest[0]);
    var w3 := Turn(w2, last[0]);
    assert HonestPlay(w1, rest) && SmoothPlay(w1, rest);
    assert HonestPlay(w2, last) && SmoothPlay(w2, last);
    assert Play(w, effects) == Play(w1, rest) && Play(w1, rest) == Play(w2, last) && Play(w2, last) == Play(w3, last[1..]);
    assert w1.op == Operation(Stopping(activity, target, problem), Write(target, 500), [Exchange]);
    assert w2.op == Operation(Stopping(activity, target, problem), Exchange, []) && w2.lighting == Submitted(w.lighting, target);
    SubmittedMatches(w.lighting, target, activity.active);
    FinishedPlay(w3, last[1..]);
  }

  lemma {:induction false} SubmittedMatches(before: Reply, report: Reply, original: Reply)
    requires SameOutside(before, original)
    ensures Matches(Submitted(before, report), report, original)
  {
  }

  lemma {:induction false} SubmittedIsCanonical(saved: Reply, lighting: Reply)
    requires Recognized(saved).Some? && SameOutside(lighting, saved)
    ensures Submitted(lighting, SetterFor(Recognized(saved).value)) == saved <==> Canonical(saved)
  {
    hide Recognized;
    var after := Submitted(lighting, SetterFor(Recognized(saved).value));
    if Canonical(saved) { SameParts(after, saved); }
  }

  /** The exact condition for a clean stop, whatever setting the keyboard shows by then: with
      every effect succeeding, the baseline is reported as restored if and only if its
      setting bytes are ones the writer itself produces, or the activity is recorded as
      already showing them; other baselines are left in doubt. */
  lemma {:induction false} StopVerifiesExactlyCanonical(ticket: Ticket, activity: Activity, problem: bool, lighting: Reply, effects: seq<Effect>)
    requires Stop(ticket, activity, problem).Some? && activity.expected == activity.saved
    requires SameOutside(activity.active, activity.saved) && SameOutside(lighting, activity.saved)
    requires var w := Opening(Stop(ticket, activity, problem).value, lighting);
      HonestPlay(w, effects) && SmoothPlay(w, effects) && |effects| >= 3
    ensures var w := Play(Opening(Stop(ticket, activity, problem).value, lighting), effects);
      var target := SetterFor(Recognized(activity.saved).value);
      var idle := Matches(activity.active, target, activity.active);
      && w.op.step == Complete(Reported(ticket, Finished(
           if idle || Canonical(activity.saved) then Success(activity.expected) else Failure(Unverified), problem), None))
      && w.lighting == if idle then lighting else Submitted(lighting, target)
  {
    hide Play, HonestPlay, SmoothPlay, Recognized, Matches, Submitted, SetterFor;
    var opening := Opening(Stop(ticket, activity, problem).value, lighting);
    var target := SetterFor(Recognized(activity.saved).value);
    SubmittedIsCanonical(activity.saved, lighting);
    if Matches(activity.active, target, activity.active) {
      FinishedPlay(opening, effects);
    } else {
      SmoothStop(opening, effects, activity, target, problem);
    }
  }

  // ------------------------------------------------------------ a whole activity

  datatype Deed = Updated(ticket: Ticket, mode: Option<Setting>, effects: seq<Effect>) | Fed(frame: Reply, effects: seq<Effect>)

  function DeedOperation(activity: Activity, deed: Deed): Option<Operation> {
    if deed.Fed? then Feed(activity, deed.frame) else Update(deed.ticket, activity, deed.mode)
  }

  /** The activity a caller holds and what the keyboard shows after an update or a frame. */
  function AfterDeed(activity: Activity, lighting: Reply, deed: Deed): (Activity, Reply) {
    var op := DeedOperation(activity, deed);
    if op.None? then (activity, lighting)
    else
      var w := Play(Opening(op.value, lighting), deed.effects);
      (if w.op.step.Complete? && w.op.step.outcome.Continued? then w.op.step.outcome.kept else activity, w.lighting)
  }

  function AfterDeeds(activity: Activity, lighting: Reply, deeds: seq<Deed>): (Activity, Reply)
    decreases |deeds|
  {
    if deeds == [] then (activity, lighting)
    else
      var next := AfterDeed(activity, lighting, deeds[0]);
      AfterDeeds(next.0, next.1, deeds[1..])
  }

  predicate HonestDeed(activity: Activity, lighting: Reply, deed: Deed) {
    var op := DeedOperation(activity, deed);
    op.Some? ==> HonestPlay(Opening(op.value, lighting), deed.effects)
  }

  predicate SmoothDeed(activity: Activity, lighting: Reply, deed: Deed) {
    var op := DeedOperation(activity, deed);
    op.Some? ==> SmoothPlay(Opening(op.value, lighting), deed.effects)
  }

  predicate HonestDeeds(activity: Activity, lighting: Reply, deeds: seq<Deed>)
    decreases |deeds|
  {
    deeds == [] ||
    var next := AfterDeed(activity, lighting, deeds[0]);
    HonestDeed(activity, lighting, deeds[0]) && HonestDeeds(next.0, next.1, deeds[1..])
  }

  predicate SmoothDeeds(activity: Activity, lighting: Reply, deeds: seq<Deed>)
    decreases |deeds|
  {
    deeds == [] ||
    var next := AfterDeed(activity, lighting, deeds[0]);
    SmoothDeed(activity, lighting, deeds[0]) && SmoothDeeds(next.0, next.1, deeds[1..])
  }

  /** An update or frame needs one effect; after it the activity is back. */
  ghost predicate DeedHolds(w: World, activity: Activity, lighting: Reply) {
    && SameOutside(w.lighting, lighting)
    && match w.op.plan
       case Updating(a, target) => a == activity && w.op.step == Write(target, 500) && target[1] == activity.active[1]
       case Feeding(a) => a == activity && w.op.step.Write?
       case Terminal =>
         && w.op.step.Complete? && w.op.step.outcome.Continued?
         && var kept := w.op.step.outcome.kept;
            kept == activity.(active := kept.active) && SameOutside(kept.active, activity.active) && kept.active[1] == activity.active[1]
       case _ => false
  }

  lemma {:induction false} SubmittedEffect(before: Reply, report: Reply)
    ensures SameOutside(Submitted(before, report), before) && Submitted(before, report)[1] == report[1]
  {
    assert Submitted(before, report)[1..8][0] == report[1..8][0];
  }

  lemma {:induction false} DeedTurn(w: World, e: Effect, activity: Activity, lighting: Reply)
    requires DeedHolds(w, activity, lighting)
    ensures DeedHolds(Turn(w, e), activity, lighting)
  {
    hide Submitted;
    if w.op.plan.Updating? {
      SubmittedEffect(w.lighting, w.op.plan.target);
      SubmittedEffect(activity.active, w.op.plan.target);
    }
  }

  lemma {:induction false} DeedPlay(w: World, effects: seq<Effect>, activity: Activity, lighting: Reply)
    requires DeedHolds(w, activity, lighting)
    ensures DeedHolds(Play(w, effects), activity, lighting)
    decreases |effects|
  {
    hide Turn, DeedHolds;
    if effects != [] {
      DeedTurn(w, effects[0], activity, lighting);
      DeedPlay(Turn(w, effects[0]), effects[1..], activity, lighting);
    }
  }

  lemma {:induction false} DeedBegins(activity: Activity, lighting: Reply, deed: Deed)
    requires DeedOperation(activity, deed).Some?
    ensures DeedHolds(Opening(DeedOperation(activity, deed).value, lighting), activity, lighting)
  {
    if deed.Updated? {
      var bytes := SettingBytes(deed.mode.value);
      assert SetterFor(deed.mode.value)[1..8][0] == bytes[0];
    }
  }

  /** Over any updates and frames, whatever becomes of them: the ticket and both baselines
      stay as they were, the keyboard and the record differ from the original lighting in
      the setting bytes alone, and the recorded mode stays the one that was started. */
  lemma {:induction false} BaselinesNeverChange(activity: Activity, lighting: Reply, deeds: seq<Deed>)
    ensures var (after, shown) := AfterDeeds(activity, lighting, deeds);
      && after == activity.(active := after.active) && SameOutside(after.active, activity.active)
      && after.active[1] == activity.active[1] && SameOutside(shown, lighting)
      && forall problem: bool :: Stop(activity.ticket, after, problem).Some? <==> Recognized(activity.saved).Some?
    decreases |deeds|
  {
    hide Recognized, SetterFor, Play, Matches, DeedOperation;
    if deeds != [] {
      var next := AfterDeed(activity, lighting, deeds[0]);
      var op := DeedOperation(activity, deeds[0]);
      if op.Some? {
        DeedBegins(activity, lighting, deeds[0]);
        DeedPlay(Opening(op.value, lighting), deeds[0].effects, activity, lighting);
      }
      BaselinesNeverChange(next.0, next.1, deeds[1..]);
    }
  }

  lemma {:induction false} SmoothDeedShows(activity: Activity, deed: Deed)
    requires HonestDeed(activity, activity.active, deed) && SmoothDeed(activity, activity.active, deed)
    ensures var (after, shown) := AfterDeed(activity, activity.active, deed); after.active == shown
  {
    hide SetterFor, Submitted, ReadBack;
    var op := DeedOperation(activity, deed);
    if op.Some? && deed.effects != [] {
      FinishedPlay(Turn(Opening(op.value, activity.active), deed.effects[0]), deed.effects[1..]);
    }
  }

  /** As long as every update succeeds, the record is what the keyboard shows. */
  lemma {:induction false} RecordFollowsKeyboard(activity: Activity, deeds: seq<Deed>)
    requires HonestDeeds(activity, activity.active, deeds) && SmoothDeeds(activity, activity.active, deeds)
    ensures var (after, shown) := AfterDeeds(activity, activity.active, deeds); after.active == shown
    decreases |deeds|
  {
    hide AfterDeed, HonestDeed, SmoothDeed;
    if deeds != [] {
      SmoothDeedShows(activity, deeds[0]);
      RecordFollowsKeyboard(AfterDeed(activity, activity.active, deeds[0]).0, deeds[1..]);
    }
  }

  // ------------------------------------------------------------ what is read back

  /** The keyboard shows these setting bytes, and everything else as in `original`. */
  predicate ShowsBytes(lighting: Reply, setting: seq<Byte>, original: Reply) {
    lighting[1..8] == setting && lighting[9..] == original[9..]
  }

  /** Whatever has become of the keyboard by then, a readback is judged by what it shows. A
      start runs exactly if it shows the target over the saved lighting, and else restores
      the saved bytes; a restoration is verified exactly if it shows those, and has failed if it
      shows anything else; a stop has restored the baseline exactly if it shows the target and
      is that very baseline. Without a reading each of them stays in doubt. */
  lemma {:induction false} ReadbacksAreJudged(op: Operation, lighting: Reply)
    requires lighting[0] == LED_READ && op.step == Exchange
    ensures op.plan.Starting? && op.plan.stage == Verifying ==>
      var a := op.plan.activity;
      var done := Advance(op, Done(Some(lighting)));
      if ShowsBytes(lighting, op.plan.target[1..8], a.saved)
      then done.step == Complete(Reported(a.ticket, Started, Some(a.(active := lighting))))
      else done.step.Write? && done.step.report[1..8] == a.saved[1..8] && done.plan == op.plan.(stage := RestoreWriting)
    ensures op.plan.Starting? && op.plan.stage == RestoreVerifying ==>
      var a := op.plan.activity;
      && Advance(op, Done(Some(lighting))).step == Complete(Reported(a.ticket, Finished(
           Failure(if ShowsBytes(lighting, a.saved[1..8], a.saved) then Verified else Failed), false), None))
      && Advance(op, Done(None)).step == Complete(Reported(a.ticket, Finished(Failure(Unverified), false), None))
    ensures op.plan.Stopping? ==>
      var a := op.plan.activity;
      && Advance(op, Done(Some(lighting))).step == Complete(Reported(a.ticket, Finished(
           if ShowsBytes(lighting, op.plan.target[1..8], a.active) && lighting == a.expected then Success(lighting) else Failure(Unverified),
           op.plan.problem), None))
      && Advance(op, Done(None)).step == Complete(Reported(a.ticket, Finished(Failure(Unverified), op.plan.problem), None))
  {
  }

  // ------------------------------------------------------------ what is backed up

  /** The backup before a start's setter holds the lighting the keyboard showed and the setting
      that was asked for; the one before a stop's, what the keyboard is recorded as showing and
      the saved setting. */
  lemma {:induction false} BackupsNameLighting(ticket: Ticket, saved: Reply, mode: Setting, activity: Activity, problem: bool)
    ensures var op := Start(ticket, Some(saved), Some(mode));
      op.step.Backup? ==> op.step.before == saved && ValidSetting(mode) && op.step.target[1..8] == SettingBytes(mode)
    ensures var op := Stop(ticket, activity, problem);
      op.Some? && op.value.step.Backup? ==>
        && op.value.step.before == activity.active
        && Recognized(activity.saved).Some? && op.value.step.target[1..8] == SettingBytes(Recognized(activity.saved).value)
  {
  }

  // ------------------------------------------------------------ what updates and frames show

  /** An update is refused exactly when it is for another activity or does not ask for a valid
      setting of the music mode that is active. If its setter succeeds, the keyboard shows the
      requested setting, and nothing else of its lighting has changed; if not, the update says
      that it failed and the record stays. */
  lemma {:induction false} UpdateShowsSetting(ticket: Ticket, activity: Activity, mode: Option<Setting>, lighting: Reply, effects: seq<Effect>)
    ensures Update(ticket, activity, mode).Some? <==>
      && ticket == activity.ticket && mode.Some? && ValidSetting(mode.value)
      && mode.value.effect == activity.active[1] && (mode.value.effect == 20 || mode.value.effect == 22)
    ensures var op := Update(ticket, activity, mode);
      op.Some? && effects != [] && HonestPlay(Opening(op.value, lighting), effects) && SmoothPlay(Opening(op.value, lighting), effects) ==>
        var w := Play(Opening(op.value, lighting), effects);
        && w.lighting[1..8] == SettingBytes(mode.value) && SameOutside(w.lighting, lighting)
        && Recognized(w.lighting) == Some(ReadAs(mode.value))
        && w.op.step.Complete? && w.op.step.outcome.Continued? && !w.op.step.outcome.failed
        && w.op.step.outcome.kept.active[1..8] == SettingBytes(mode.value)
        && |w.sent| == 1 && w.sent[0][0] == LED_WRITE && w.sent[0][1..8] == SettingBytes(mode.value)
    ensures var op := Update(ticket, activity, mode);
      op.Some? && effects != [] ==>
        var end := Play(Opening(op.value, lighting), effects).op.step;
        && end.Complete? && end.outcome.Continued? && (end.outcome.failed <==> effects[0].response != Done(None))
        && (end.outcome.failed ==> end.outcome.kept == activity)
  {
    hide SettingBytes, ValidSetting, Submitted, Recognized;
    var op := Update(ticket, activity, mode);
    if op.Some? && effects != [] {
      var opening := Opening(op.value, lighting);
      var w := Turn(opening, effects[0]);
      SubmittedEffect(lighting, SetterFor(mode.value));
      FinishedPlay(w, effects[1..]);
      if Smooth(opening, effects[0]) && Honest(opening, effects[0]) {
        WrittenIsRead(mode.value, w.lighting);
      }
    }
  }

  /** A frame is refused exactly when the active mode takes none; else that very report is
      shown, once, and neither the lighting nor the record changes. */
  lemma {:induction false} FeedShowsFrame(activity: Activity, frame: Reply, lighting: Reply, effects: seq<Effect>)
    ensures Feed(activity, frame).Some? <==> 20 <= activity.active[1] <= 22
    ensures var op := Feed(activity, frame);
      op.Some? ==>
        && op.value.step == Write(frame, 0)
        && Play(Opening(op.value, lighting), effects).lighting == lighting
        && (effects != [] ==>
              var end := Play(Opening(op.value, lighting), effects).op.step;
              && end.Complete? && end.outcome.Continued? && end.outcome.kept == activity
              && (end.outcome.failed <==> effects[0].response != Done(None)))
  {
    var op := Feed(activity, frame);
    if op.Some? && effects != [] {
      FinishedPlay(Turn(Opening(op.value, lighting), effects[0]), effects[1..]);
    }
  }

  /** The setting that a deed asks for, while `mode` is shown. */
  function Asked(ticket: Ticket, mode: Setting, d: Deed): (asked: Setting)
    requires ValidSetting(mode)
    ensures ValidSetting(asked) && asked.effect == mode.effect
  {
    if d.Updated? && d.ticket == ticket && d.mode.Some? && ValidSetting(d.mode.value)
       && d.mode.value.effect == mode.effect && (mode.effect == 20 || mode.effect == 22)
    then d.mode.value else mode
  }

  /** The setting that was asked for last, `mode` first. */
  function LastAsked(ticket: Ticket, mode: Setting, deeds: seq<Deed>): (last: Setting)
    requires ValidSetting(mode)
    ensures ValidSetting(last) && last.effect == mode.effect
    decreases |deeds|
  {
    if deeds == [] then mode else LastAsked(ticket, Asked(ticket, mode, deeds[0]), deeds[1..])
  }

  /** Every deed that begins gets the effect it needs. */
  predicate Served(deeds: seq<Deed>) {
    forall d | d in deeds :: d.effects != []
  }

  lemma {:induction false} DeedShowsAsked(activity: Activity, mode: Setting, d: Deed)
    requires ValidSetting(mode) && activity.active[1..8] == SettingBytes(mode) && d.effects != []
    requires HonestDeed(activity, activity.active, d) && SmoothDeed(activity, activity.active, d)
    ensures var (after, shown) := AfterDeed(activity, activity.active, d);
      && after.ticket == activity.ticket && after.active == shown
      && shown[1..8] == SettingBytes(Asked(activity.ticket, mode, d))
  {
    hide ValidSetting, Play, HonestPlay, SmoothPlay, Update, Feed, Recognized, SettingBytes;
    ModeIsShown(activity.active, mode);
    SmoothDeedShows(activity, d);
    if d.Updated? {
      UpdateShowsSetting(d.ticket, activity, d.mode, activity.active, d.effects);
    } else {
      FeedShowsFrame(activity, d.frame, activity.active, d.effects);
    }
    if DeedOperation(activity, d).Some? {
      DeedBegins(activity, activity.active, d);
      DeedPlay(Opening(DeedOperation(activity, d).value, activity.active), d.effects, activity, activity.active);
    }
  }

  /** As long as every update succeeds, the keyboard shows the setting asked for last. */
  lemma {:induction false} KeyboardShowsLastAsked(activity: Activity, mode: Setting, deeds: seq<Deed>)
    requires ValidSetting(mode) && activity.active[1..8] == SettingBytes(mode) && Served(deeds)
    requires HonestDeeds(activity, activity.active, deeds) && SmoothDeeds(activity, activity.active, deeds)
    ensures AfterDeeds(activity, activity.active, deeds).1[1..8] == SettingBytes(LastAsked(activity.ticket, mode, deeds))
    decreases |deeds|
  {
    hide ValidSetting, AfterDeed, HonestDeed, SmoothDeed, Asked, SettingBytes;
    if deeds != [] {
      var d, next := deeds[0], AfterDeed(activity, activity.active, deeds[0]);
      assert d in deeds && forall later | later in deeds[1..] :: later in deeds;
      DeedShowsAsked(activity, mode, d);
      KeyboardShowsLastAsked(next.0, Asked(activity.ticket, mode, d), deeds[1..]);
    }
  }

  lemma {:induction false} ModeIsShown(lighting: Reply, mode: Setting)
    requires ValidSetting(mode) && lighting[1..8] == SettingBytes(mode)
    ensures lighting[1] == mode.effect
  {
    assert lighting[1..8][0] == lighting[1];
  }

  // ------------------------------------------------------------ from start to stop

  function Begun(ticket: Ticket, saved: Reply, mode: Setting, begin: seq<Effect>): World {
    Play(Opening(Start(ticket, Some(saved), Some(mode)), saved), begin)
  }

  /** The start succeeded and handed out its activity. */
  predicate Running(w: World) {
    && w.op.step.Complete? && w.op.step.outcome.Reported? && w.op.step.outcome.event.Started?
    && w.op.step.outcome.activity.Some?
  }

  function Held(w: World): Activity
    requires Running(w)
  {
    w.op.step.outcome.activity.value
  }

  /** What a stop of lighting saved as `saved` may report, and what that says of the keyboard. */
  predicate EndVerdict(w: World, ticket: Ticket, saved: Reply, target: Reply, problem: bool) {
    && w.op.step.Complete? && w.op.step.outcome.Reported? && w.op.step.outcome.ticket == ticket
    && w.op.step.outcome.event.Finished? && w.op.step.outcome.event.problem == problem
    && match w.op.step.outcome.event.restored
       case Success(restored) => restored == saved && w.lighting == saved && w.sent == [target]
       case Failure(recovery) => recovery == Unverified && (w.sent == [] || w.sent == [target])
  }

  /** A running start shows a host effect, which no baseline does. */
  lemma {:induction false} RunningShowsMode(ticket: Ticket, saved: Reply, mode: Setting, begin: seq<Effect>)
    requires HonestPlay(Opening(Start(ticket, Some(saved), Some(mode)), saved), begin) && Running(Begun(ticket, saved, mode, begin))
    ensures var w := Begun(ticket, saved, mode, begin);
      && EditableBaseline(saved) && HostMode(mode)
      && Held(w) == Activity(ticket, saved, saved, w.lighting)
      && SameOutside(w.lighting, saved) && HostEffect(w.lighting[1])
  {
    hide SetterFor, Play, Turn, Recognized, SettingBytes, ValidSetting;
    var opening := Opening(Start(ticket, Some(saved), Some(mode)), saved);
    if EditableBaseline(saved) && HostMode(mode) {
      StartPlay(opening, begin, Activity(ticket, saved, saved, saved), SetterFor(mode), saved);
      var w := Begun(ticket, saved, mode, begin);
      SetterEffect(mode);
      assert w.lighting[1..8][0] == SetterFor(mode)[1..8][0];
    } else {
      FinishedPlay(opening, begin);
    }
  }

  lemma {:induction false} SetterEffect(s: Setting)
    requires ValidSetting(s)
    ensures SetterFor(s)[1] == s.effect == SettingBytes(s)[0]
  {
    assert SetterFor(s)[1..8][0] == SettingBytes(s)[0];
  }

  lemma {:induction false} RecognizedEffect(raw: Reply)
    requires Recognized(raw).Some?
    ensures Recognized(raw).value.effect == raw[1]
  {
  }

  /** The record of a running activity never looks like the restored baseline. */
  lemma {:induction false} NeverIdle(activity: Activity)
    requires EditableBaseline(activity.saved) && HostEffect(activity.active[1])
    ensures var target := SetterFor(Recognized(activity.saved).value); !Matches(activity.active, target, activity.active)
  {
    hide Recognized, SetterFor, SettingBytes, ValidSetting;
    var s := Recognized(activity.saved).value;
    RecognizedEffect(activity.saved);
    SetterEffect(s);
    assert SetterFor(s)[1..8][0] == SetterFor(s)[1] && activity.active[1..8][0] == activity.active[1];
  }

  /** A whole activity: a start that succeeded, any updates and frames whatever became of
      them, and a stop. The stop is possible and sends nothing but the saved setting. It
      reports the baseline as restored only with the keyboard byte for byte as it was before
      the start; and when the stop's effects succeed, exactly if the writer itself would
      have produced the baseline's setting bytes. */
  lemma {:induction false} HostRunIsTrue(
      ticket: Ticket, saved: Reply, mode: Setting, begin: seq<Effect>, deeds: seq<Deed>, problem: bool, end: seq<Effect>)
    requires HonestPlay(Opening(Start(ticket, Some(saved), Some(mode)), saved), begin) && Running(Begun(ticket, saved, mode, begin))
    ensures EditableBaseline(saved)
    ensures var w := Begun(ticket, saved, mode, begin);
      var (activity, lighting) := AfterDeeds(Held(w), w.lighting, deeds);
      var stop := Stop(ticket, activity, problem);
      var target := SetterFor(Recognized(saved).value);
      && stop.Some?
      && (HonestPlay(Opening(stop.value, lighting), end) && |end| >= 3 ==>
            var after := Play(Opening(stop.value, lighting), end);
            && EndVerdict(after, ticket, saved, target, problem)
            && (SmoothPlay(Opening(stop.value, lighting), end) ==>
                  && (after.op.step.outcome.event.restored.Success? <==> Canonical(saved))
                  && after.lighting == Submitted(lighting, target)))
  {
    hide Play, HonestPlay, SmoothPlay, Start, AfterDeeds, Recognized, Matches, SetterFor, Submitted, Canonical;
    RunningShowsMode(ticket, saved, mode, begin);
    var w := Begun(ticket, saved, mode, begin);
    BaselinesNeverChange(Held(w), w.lighting, deeds);
    var (activity, lighting) := AfterDeeds(Held(w), w.lighting, deeds);
    NeverIdle(activity);
    var stop := Stop(ticket, activity, problem);
    if HonestPlay(Opening(stop.value, lighting), end) && |end| >= 3 {
      StopIsTrue(ticket, activity, problem, lighting, end);
      if SmoothPlay(Opening(stop.value, lighting), end) {
        StopVerifiesExactlyCanonical(ticket, activity, problem, lighting, end);
      }
    }
  }

  // ------------------------------------------------------------ a baseline left in doubt

  /** The faithful success of the current step. */
  function Answer(w: World): Effect {
    if w.op.step.Exchange? then Effect(Done(Some(w.lighting)), false) else Effect(Done(None), true)
  }

  function Answers(w: World, count: nat): (effects: seq<Effect>)
    ensures |effects| == count
    decreases count
  {
    if count == 0 then [] else [Answer(w)] + Answers(Turn(w, Answer(w)), count - 1)
  }

  lemma {:induction false} AnswersAreSmooth(w: World, count: nat)
    requires w.lighting[0] == LED_READ
    ensures HonestPlay(w, Answers(w, count)) && SmoothPlay(w, Answers(w, count)) && Play(w, Answers(w, count)).lighting[0] == LED_READ
    decreases count
  {
    if count > 0 {
      var next := Turn(w, Answer(w));
      AnswersAreSmooth(next, count - 1);
      assert Answers(w, count)[1..] == Answers(next, count - 1);
    }
  }

  /** A start whose effects succeed runs. */
  lemma {:induction false} SmoothStartRuns(ticket: Ticket, saved: Reply, mode: Setting)
    requires EditableBaseline(saved) && HostMode(mode)
    ensures var opening := Opening(Start(ticket, Some(saved), Some(mode)), saved);
      HonestPlay(opening, Answers(opening, 3)) && Running(Begun(ticket, saved, mode, Answers(opening, 3)))
  {
    hide SetterFor, Recognized, Submitted, Matches, ValidSetting;
    var opening := Opening(Start(ticket, Some(saved), Some(mode)), saved);
    var target := SetterFor(mode);
    AnswersAreSmooth(opening, 3);
    BeginsActive(saved, mode);
    var w1 := Turn(opening, Answer(opening));
    var w2 := Turn(w1, Answer(w1));
    var w3 := Turn(w2, Answer(w2));
    assert Answers(opening, 3)[1..] == Answers(w1, 2) && Answers(w1, 2)[1..] == Answers(w2, 1) && Answers(w2, 1)[1..] == Answers(w3, 0);
    assert Play(opening, Answers(opening, 3)) == Play(w1, Answers(w1, 2)) == Play(w2, Answers(w2, 1)) == Play(w3, []);
    SubmittedMatches(saved, target, saved);
    assert w2.lighting == Submitted(saved, target) && w2.op.step == Exchange;
  }

  lemma {:induction false} BeginsActive(saved: Reply, mode: Setting)
    requires EditableBaseline(saved) && HostMode(mode)
    ensures !Matches(saved, SetterFor(mode), saved)
  {
    hide SettingBytes, ValidSetting, Recognized;
    SetterEffect(mode);
    assert SetterFor(mode)[1..8][0] == SetterFor(mode)[1] && saved[1..8][0] == saved[1];
  }

  const PALETTE: Reply := [LED_READ, 1, 4, 4, 0, 7, 8, 9] + seq(56, i => 0)
  const SCREEN := Setting(21, None, None, None, None, false)

  /** A preset color kept as a palette index is such a baseline: after a start and a stop in
      which every effect succeeded, the stop reports it as unverified, and the keyboard shows
      the same setting in other bytes. */
  lemma {:induction false} PaletteRunIsLeftInDoubt(ticket: Ticket)
    ensures EditableBaseline(PALETTE) && !Canonical(PALETTE)
    ensures exists begin: seq<Effect>, end: seq<Effect> ::
      && HonestPlay(Opening(Start(ticket, Some(PALETTE), Some(SCREEN)), PALETTE), begin)
      && Running(Begun(ticket, PALETTE, SCREEN, begin))
      && var w := Begun(ticket, PALETTE, SCREEN, begin);
         var stop := Stop(ticket, Held(w), false);
         && stop.Some? && HonestPlay(Opening(stop.value, w.lighting), end) && SmoothPlay(Opening(stop.value, w.lighting), end)
         && var after := Play(Opening(stop.value, w.lighting), end);
            && after.op.step == Complete(Reported(ticket, Finished(Failure(Unverified), false), None))
            && after.lighting != PALETTE && Recognized(after.lighting) == Recognized(PALETTE)
  {
    hide Play, HonestPlay, SmoothPlay, Matches, Start, Stop, Recognized, Submitted, SetterFor, EditableBaseline, Canonical, Answers;
    PaletteColorIsNotCanonical();
    var opening := Opening(Start(ticket, Some(PALETTE), Some(SCREEN)), PALETTE);
    var begin := Answers(opening, 3);
    ScreenIsHostMode();
    SmoothStartRuns(ticket, PALETTE, SCREEN);
    RunningShowsMode(ticket, PALETTE, SCREEN, begin);
    var w := Begun(ticket, PALETTE, SCREEN, begin);
    HostRunIsTrue(ticket, PALETTE, SCREEN, begin, [], false, []);
    var stopping := Opening(Stop(ticket, Held(w), false).value, w.lighting);
    var end := Answers(stopping, 3);
    AnswersAreSmooth(stopping, 3);
    PaletteStop(ticket, Held(w), w.lighting, end);
    assert HonestPlay(opening, begin) && Running(w);
  }

  lemma {:induction false} ScreenIsHostMode()
    ensures EditableBaseline(PALETTE) && HostMode(SCREEN) && PALETTE[0] == LED_READ
  {
    PaletteColorIsNotCanonical();
  }

  lemma {:induction false} PaletteStop(ticket: Ticket, activity: Activity, lighting: Reply, end: seq<Effect>)
    requires activity == Activity(ticket, PALETTE, PALETTE, lighting) && SameOutside(lighting, PALETTE) && HostEffect(lighting[1])
    requires Stop(ticket, activity, false).Some? && |end| >= 3
    requires var stopping := Opening(Stop(ticket, activity, false).value, lighting); HonestPlay(stopping, end) && SmoothPlay(stopping, end)
    ensures var after := Play(Opening(Stop(ticket, activity, false).value, lighting), end);
      && after.op.step == Complete(Reported(ticket, Finished(Failure(Unverified), false), None))
      && after.lighting != PALETTE && Recognized(after.lighting) == Recognized(PALETTE)
  {
    hide Play, HonestPlay, SmoothPlay, Matches, Stop, Recognized, Submitted, SetterFor, EditableBaseline, Canonical, HostEffect;
    PaletteColorIsNotCanonical();
    ScreenIsHostMode();
    NeverIdle(activity);
    StopVerifiesExactlyCanonical(ticket, activity, false, lighting, end);
    PaletteRestored(lighting);
  }

  lemma {:induction false} PaletteRestored(lighting: Reply)
    requires SameOutside(lighting, PALETTE)
    ensures var after := Submitted(lighting, SetterFor(Recognized(PALETTE).value));
      after != PALETTE && Recognized(after) == Recognized(PALETTE)
  {
    PaletteColorIsNotCanonical();
    var s := Recognized(PALETTE).value;
    var after := Submitted(lighting, SetterFor(s));
    assert SettingBytes(s) == [1, 4, 4, 7, 255, 0, 0];
    var bytes := after[1..8];
    assert bytes == SettingBytes(s);
    assert after[1] == bytes[0] && after[2] == bytes[1] && after[3] == bytes[2] && after[4] == bytes[3];
    assert after[5] == bytes[4] && after[6] == bytes[5] && after[7] == bytes[6];
  }
}

/** The host operation as the object the page advances. */
module HostObject {
  import opened Wrappers
  import opened SettingsCodec
  import opened HostPlanner

  class BrowserHostOperation {
    var plan: Plan
    var step: Step
    var pending: seq<Step>

    function State(): Operation
      reads this
    {
      Operation(plan, step, pending)
    }

    constructor (begun: Operation)
      ensures State() == begun
    {
      plan, step, pending := begun.plan, begun.step, begun.pending;
    }

    method End(outcome: Outcome)
      modifies this`plan, this`step
      ensures plan.Terminal? && step == Complete(outcome) && pending == old(pending)
    {
      step := Complete(outcome);
      plan := Terminal;
    }

    method BeginRestore()
      requires plan.Starting?
      modifies this`plan, this`step
      ensures State() == HostPlanner.BeginRestore(old(State()))
    {
      step := Write(RestoreReport(plan.activity.saved), 500);
      plan := plan.(stage := RestoreWriting);
    }

    method EffectError(attempted: bool)
      modifies this`plan, this`step
      ensures State() == HostPlanner.EffectError(old(State()), attempted)
    {
      match plan
      case Starting(activity, _, stage) =>
        if stage == Backing || (stage == Writing && !attempted) {
          End(Reported(activity.ticket, Finished(Failure(NotAttempted), false), None));
        } else if stage == RestoreWriting || stage == RestoreVerifying {
          End(Reported(activity.ticket, Finished(Failure(Unverified), false), None));
        } else {
          BeginRestore();
        }
      case Stopping(activity, _, problem) => End(Reported(activity.ticket, Finished(Failure(Unverified), problem), None));
      case Updating(activity, _) => End(Continued(activity, true));
      case Feeding(activity) => End(Continued(activity, true));
      case Terminal =>
    }

    method EffectDone()
      modifies this
      ensures State() == HostPlanner.EffectDone(old(State()))
    {
      match plan
      case Starting(_, target, stage) =>
        if step.Backup? {
          plan := plan.(stage := Writing);
          step := Write(target, 500);
        } else if step.Write? && stage == Writing {
          plan := plan.(stage := Verifying);
          step := Exchange;
        } else if step.Write? && stage == RestoreWriting {
          plan := plan.(stage := RestoreVerifying);
          step := Exchange;
        } else {
          step := Panic;
        }
      case Stopping(_, _, _) =>
        if pending == [] {
          step := Panic;
        } else {
          step, pending := pending[0], pending[1..];
        }
      case Updating(activity, target) =>
        var active := Submitted(activity.active, target);
        End(Continued(activity.(active := active), false));
      case Feeding(activity) => End(Continued(activity, false));
      case Terminal => step := Panic;
    }

    method ExchangeDone(read: Option<Reply>)
      modifies this`plan, this`step
      ensures State() == HostPlanner.ExchangeDone(old(State()), read)
    {
      match plan
      case Starting(activity, target, stage) =>
        if stage == Verifying {
          if read.Some? && Matches(read.value, target, activity.saved) {
            End(Reported(activity.ticket, Started, Some(activity.(active := read.value))));
          } else {
            BeginRestore();
          }
        } else if stage == RestoreVerifying {
          var verified := read.Some? && Matches(read.value, RestoreReport(activity.saved), activity.saved);
          var recovery := if verified then Verified else if read.Some? then Recovery.Failed else Unverified;
          End(Reported(activity.ticket, Finished(Failure(recovery), false), None));
        } else {
          step := Panic;
        }
      case Stopping(activity, target, problem) =>
        var verified := read.Some? && Matches(read.value, target, activity.active);
        var restored := if verified && read.value == activity.expected then Success(read.value) else Failure(Unverified);
        End(Reported(activity.ticket, Finished(restored, problem), None));
      case Updating(_, _) => step := Panic;
      case Feeding(_) => step := Panic;
      case Terminal => step := Panic;
    }

    method Advance(response: Response)
      modifies this
      ensures State() == HostPlanner.Advance(old(State()), response)
    {
      if step.Complete? || step.Panic? {
        return;
      }
      match response
      case Error(attempted) => EffectError(attempted);
      case Done(value) =>
        if step.Exchange? {
          ExchangeDone(ReadBack(value));
        } else if value.Some? {
          EffectError(step.Write?);
        } else {
          EffectDone();
        }
    }
  }
}
