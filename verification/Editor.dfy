/** One lifecycle for every feature's baseline, draft, submitted write and observations,
    parameterized by the feature's own rules. */
module EditorLifecycle {
  import opened Wrappers

  datatype Problem = ReadRequired | ReadFailed | ApplyFailed(recovery: Recovery) | InvalidApplyResult | ApplyReadbackMismatch

  datatype Status<+S> = Unloaded | Ready | Conflict(device: S) | Unverified(problem: Problem)

  datatype Rejection = NotReady | NoBaseline | AlreadySubmitted | NothingStaged | Refused

  datatype Reception = OfRead | OfApply

  /** What a feature supplies: how a snapshot shows a value, which snapshots count as the
      same baseline, which are acceptable, and how edits and writes are formed. */
  datatype Rules<!S, !V, !E, !W> = Rules(
    value: S -> Option<V>,
    sameBaseline: (S, S) -> bool,
    validate: (S, Reception) -> bool,
    edit: (S, Option<V>, Option<V>, E) -> Option<Option<V>>,
    plan: (S, V) -> Option<W>)

  datatype Editor<S, V> = Editor(baseline: Option<S>, draft: Option<V>, submitted: Option<V>, status: Status<S>)

  // ------------------------------------------------------------ the operations

  predicate Dirty<S, V(==), E, W>(rules: Rules<S, V, E, W>, e: Editor<S, V>) {
    e.baseline.Some? && e.draft.Some? && rules.value(e.baseline.value) != e.draft
  }

  function Invalidate<S, V>(e: Editor<S, V>): Editor<S, V> {
    if e.status.Ready? || e.status.Unloaded? then e.(status := Status.Unverified(ReadRequired)) else e
  }

  function Edit<S, V(==), E, W>(rules: Rules<S, V, E, W>, e: Editor<S, V>, edit: E): Result<Editor<S, V>, Rejection> {
    if !e.status.Ready? then Failure(NotReady)
    else if e.baseline.None? then Failure(NoBaseline)
    else
      var draft := rules.edit(e.baseline.value, e.draft, e.submitted, edit);
      if draft.None? then Failure(Refused) else Success(e.(draft := draft.value))
  }

  function Revert<S, V(==), E, W>(rules: Rules<S, V, E, W>, e: Editor<S, V>): Result<Editor<S, V>, Rejection> {
    if e.submitted.Some? then Failure(AlreadySubmitted)
    else if e.baseline.None? then Failure(NoBaseline)
    else Success(e.(draft := rules.value(e.baseline.value)))
  }

  function RequestApply<S, V(==), E, W>(rules: Rules<S, V, E, W>, e: Editor<S, V>): Result<(Editor<S, V>, S, W), Rejection> {
    if !e.status.Ready? then Failure(NotReady)
    else if e.submitted.Some? then Failure(AlreadySubmitted)
    else if !Dirty(rules, e) then Failure(NothingStaged)
    else
      var write := rules.plan(e.baseline.value, e.draft.value);
      if write.None? then Failure(Refused)
      else Success((e.(submitted := e.draft), e.baseline.value, write.value))
  }

  function CancelApply<S, V>(e: Editor<S, V>): Editor<S, V> {
    e.(submitted := None)
  }

  function AcceptRead<S, V(==), E, W>(rules: Rules<S, V, E, W>, e: Editor<S, V>, result: Option<S>): Editor<S, V> {
    if result.None? || !rules.validate(result.value, OfRead) then e.(status := Status.Unverified(ReadFailed))
    else
      var snapshot := result.value;
      if Dirty(rules, e) && !rules.sameBaseline(e.baseline.value, snapshot) then e.(status := Conflict(snapshot))
      else
        var draft := if Dirty(rules, e) then e.draft else rules.value(snapshot);
        e.(baseline := Some(snapshot), draft := draft, status := Ready)
  }

  function AcceptApply<S, V(==), E, W>(rules: Rules<S, V, E, W>, e: Editor<S, V>, result: Result<S, Recovery>): Editor<S, V> {
    var taken := e.(submitted := None);
    if result.Failure? then taken.(status := Status.Unverified(ApplyFailed(result.error)))
    else if !rules.validate(result.value, OfApply) then taken.(status := Status.Unverified(InvalidApplyResult))
    else if e.submitted.None? then taken.(status := Status.Unverified(InvalidApplyResult))
    else if rules.value(result.value) != e.submitted then taken.(status := Status.Unverified(ApplyReadbackMismatch))
    else taken.(baseline := Some(result.value), status := Ready)
  }

  /** A revert is refused exactly during a save or without a baseline; accepted, it leaves the
      draft showing the baseline and nothing unsaved. */
  lemma {:induction false} RevertShowsBaseline<S, V, E, W>(rules: Rules<S, V, E, W>, e: Editor<S, V>)
    ensures var done := Revert(rules, e);
      && (done.Success? <==> e.submitted.None? && e.baseline.Some?)
      && (done.Success? ==>
            && done.value == e.(draft := done.value.draft)
            && done.value.draft == rules.value(e.baseline.value) && !Dirty(rules, done.value))
  {
  }

  /** An edit is refused exactly unless the editor is ready, has a baseline and its feature
      allows it; accepted, the draft is what the feature makes of it, and a ready editor with
      nothing submitted can save it exactly when it differs from the baseline and its feature
      plans a write. The write is the one planned, against that baseline. */
  lemma {:induction false} EditsAreSaved<S, V, E, W>(rules: Rules<S, V, E, W>, e: Editor<S, V>, edit: E)
    ensures var done := Edit(rules, e, edit);
      && (done.Success? <==> e.status.Ready? && e.baseline.Some? && rules.edit(e.baseline.value, e.draft, e.submitted, edit).Some?)
      && (done.Success? ==>
            && done.value == e.(draft := rules.edit(e.baseline.value, e.draft, e.submitted, edit).value)
            && var draft := done.value.draft;
               var request := RequestApply(rules, done.value);
               && (request.Success? <==>
                     && e.submitted.None? && draft.Some? && rules.value(e.baseline.value) != draft
                     && rules.plan(e.baseline.value, draft.value).Some?)
               && (request.Success? ==>
                     && request.value.0 == done.value.(submitted := draft)
                     && request.value.1 == e.baseline.value
                     && rules.plan(e.baseline.value, draft.value) == Some(request.value.2)))
  {
  }

  /** A request that is cancelled again, because nothing could be sent, leaves no trace. */
  lemma {:induction false} CancelledRequestsLeaveNothing<S, V, E, W>(rules: Rules<S, V, E, W>, e: Editor<S, V>)
    ensures RequestApply(rules, e).Success? ==> CancelApply(RequestApply(rules, e).value.0) == e
  {
  }

  /** A read is taken exactly when it is good and does not show, under unsaved edits, that the
      device was changed: it becomes the baseline, and the draft is what was unsaved, or else
      what was read. A change under unsaved edits is a conflict that names what the device
      holds, a failed read asks for another, and neither touches anything else. */
  lemma {:induction false} ReadsTakenExactly<S, V, E, W>(rules: Rules<S, V, E, W>, e: Editor<S, V>, read: Option<S>)
    ensures var after, good := AcceptRead(rules, e, read), read.Some? && rules.validate(read.value, OfRead);
      var changed := good && Dirty(rules, e) && !rules.sameBaseline(e.baseline.value, read.value);
      && (after.status.Ready? <==> good && !changed)
      && (after.status.Ready? ==>
            && after.baseline == read && after.submitted == e.submitted
            && after.draft == if Dirty(rules, e) then e.draft else rules.value(read.value))
      && (!after.status.Ready? ==> after == e.(status := if changed then Conflict(read.value) else Status.Unverified(ReadFailed)))
  {
  }

  /** The way out of a conflict: reverted and read again, the editor is ready on what the
      device holds, with nothing unsaved. Until then it takes no edit and no save, unless the
      device is found with the old baseline again; then the draft is as it was. */
  lemma {:induction false} ConflictsAreResolved<S, V, E, W>(rules: Rules<S, V, E, W>, e: Editor<S, V>, device: S, edit: E)
    requires e.submitted.None? && rules.validate(device, OfRead) && AcceptRead(rules, e, Some(device)).status.Conflict?
    ensures var torn := AcceptRead(rules, e, Some(device));
      && torn.status == Conflict(device) && Edit(rules, torn, edit).Failure? && RequestApply(rules, torn).Failure?
      && Invalidate(torn) == torn && AcceptRead(rules, torn, Some(device)) == torn
      && (rules.validate(e.baseline.value, OfRead) && rules.sameBaseline(e.baseline.value, e.baseline.value) ==>
            AcceptRead(rules, torn, e.baseline) == e.(status := Ready))
      && Revert(rules, torn).Success?
      && var reverted := AcceptRead(rules, Revert(rules, torn).value, Some(device));
         reverted == Editor(Some(device), rules.value(device), None, Ready) && !Dirty(rules, reverted)
  {
  }

  /** What is known of the device may be stale: an editor that had nothing worse to say asks
      for a read, and takes no edit and no save before it; its draft stays, and the next good
      read that shows the same baseline lets its user go on where they were. */
  lemma {:induction false} StaleEditorsRecover<S, V, E, W>(rules: Rules<S, V, E, W>, e: Editor<S, V>, edit: E, read: S)
    ensures var stale := Invalidate(e);
      && stale == e.(status := stale.status)
      && stale.status == (if e.status.Unloaded? || e.status.Ready? then Status.Unverified(ReadRequired) else e.status)
      && Edit(rules, stale, edit).Failure? && RequestApply(rules, stale).Failure?
      && (Dirty(rules, e) && rules.validate(read, OfRead) && rules.sameBaseline(e.baseline.value, read) ==>
            AcceptRead(rules, stale, Some(read)) == e.(baseline := Some(read), status := Ready))
  {
  }

  // ------------------------------------------------------------ device events

  /** Everything that can happen to an editor without its user. */
  datatype Happening<S> =
    | Reading(read: Option<S>)
    | Applied(result: Result<S, Recovery>)
    | Invalidated
    | Cancelled

  function Happen<S, V(==), E, W>(rules: Rules<S, V, E, W>, e: Editor<S, V>, h: Happening<S>): Editor<S, V> {
    match h
    case Reading(read) => AcceptRead(rules, e, read)
    case Applied(result) => AcceptApply(rules, e, result)
    case Invalidated => Invalidate(e)
    case Cancelled => CancelApply(e)
  }

  // ------------------------------------------------------------ runs

  /** One step of an editor: something from the device, an edit or a revert of its user, or
      a request to save. A refused step changes nothing. */
  datatype Step<S, E> = Device(h: Happening<S>) | User(edit: E) | Reverted | Requested

  function Take<S, V(==), E, W>(rules: Rules<S, V, E, W>, e: Editor<S, V>, step: Step<S, E>): Editor<S, V> {
    match step
    case Device(h) => Happen(rules, e, h)
    case User(edit) => var done := Edit(rules, e, edit); if done.Success? then done.value else e
    case Reverted => var done := Revert(rules, e); if done.Success? then done.value else e
    case Requested => var done := RequestApply(rules, e); if done.Success? then done.value.0 else e
  }

  function TakeAll<S, V(==), E, W>(rules: Rules<S, V, E, W>, e: Editor<S, V>, steps: seq<Step<S, E>>): Editor<S, V>
    decreases |steps|
  {
    if steps == [] then e else TakeAll(rules, Take(rules, e, steps[0]), steps[1..])
  }

  function Fresh<S, V>(): Editor<S, V> {
    Editor(None, None, None, Unloaded)
  }

  predicate ByUser<S, E>(step: Step<S, E>) {
    step.User? || step.Reverted?
  }

  /** `draft` is in place at every moment up to the first at which the accepted baseline
      shows exactly `draft`, or at which the user changes it, or to the end. */
  predicate KeptUntilSaved<S, V(==), E, W>(rules: Rules<S, V, E, W>, e: Editor<S, V>, steps: seq<Step<S, E>>, draft: V)
    decreases |steps|
  {
    e.draft == Some(draft) &&
    (|| (e.baseline.Some? && rules.value(e.baseline.value) == Some(draft))
     || steps == [] || ByUser(steps[0])
     || KeptUntilSaved(rules, Take(rules, e, steps[0]), steps[1..], draft))
  }

  /** A draft with unsaved edits is never replaced: whatever the device reports, however
      often it is saved and however writes and connections end, the draft stays until some
      accepted baseline shows exactly that draft or its user edits it. */
  lemma {:induction false} UnsavedEditsSurvive<S, V, E, W>(rules: Rules<S, V, E, W>, e: Editor<S, V>, steps: seq<Step<S, E>>)
    requires Dirty(rules, e)
    ensures KeptUntilSaved(rules, e, steps, e.draft.value)
    decreases |steps|
  {
    if steps != [] && !ByUser(steps[0]) {
      var next := Take(rules, e, steps[0]);
      assert next.draft == e.draft && next.baseline.Some?;
      if Dirty(rules, next) {
        UnsavedEditsSurvive(rules, next, steps[1..]);
      }
    }
  }

  // ------------------------------------------------------------ while a save is in flight

  /** Anything but the end of the save. */
  predicate InFlight<S, E>(step: Step<S, E>) {
    step.Device? ==> step.h.Reading? || step.h.Invalidated?
  }

  /** Whether this step is an edit that is accepted. */
  predicate Edits<S, V(==), E, W>(rules: Rules<S, V, E, W>, e: Editor<S, V>, step: Step<S, E>) {
    step.User? && Edit(rules, e, step.edit).Success?
  }

  /** What the last accepted edit of a run made of the draft, if there is one. */
  function LastMade<S, V(==), E, W>(rules: Rules<S, V, E, W>, e: Editor<S, V>, steps: seq<Step<S, E>>): Option<Option<V>>
    decreases |steps|
  {
    if steps == [] then None
    else
      var next := Take(rules, e, steps[0]);
      var later := LastMade(rules, next, steps[1..]);
      if later.Some? then later else if Edits(rules, e, steps[0]) then Some(next.draft) else None
  }

  /** Every read of the run finds unsaved edits. */
  predicate ReadsFindEdits<S, V(==), E, W>(rules: Rules<S, V, E, W>, e: Editor<S, V>, steps: seq<Step<S, E>>)
    decreases |steps|
  {
    steps == [] ||
    ((steps[0].Device? && steps[0].h.Reading? ==> Dirty(rules, e)) && ReadsFindEdits(rules, Take(rules, e, steps[0]), steps[1..]))
  }

  lemma {:induction false} FlightKeeps<S, V, E, W>(rules: Rules<S, V, E, W>, e: Editor<S, V>, steps: seq<Step<S, E>>)
    requires e.submitted.Some? && forall s | s in steps :: InFlight(s)
    ensures var later := TakeAll(rules, e, steps);
      && later.submitted == e.submitted
      && (ReadsFindEdits(rules, e, steps) ==>
            later.draft == if LastMade(rules, e, steps).Some? then LastMade(rules, e, steps).value else e.draft)
    decreases |steps|
  {
    if steps != [] {
      assert InFlight(steps[0]) && forall s :: s in steps[1..] ==> s in steps;
      FlightKeeps(rules, Take(rules, e, steps[0]), steps[1..]);
    }
  }

  /** From an accepted request to its successful result the user may edit on, and reads and
      invalidations may arrive: the result becomes the baseline, the draft is what the last
      accepted edit made of it, and it is dirty exactly when it differs from what was
      submitted. Only a read that finds nothing unsaved may bring another draft. */
  lemma {:induction false} EditsInFlightRemain<S, V, E, W>(
      rules: Rules<S, V, E, W>, e: Editor<S, V>, steps: seq<Step<S, E>>, snapshot: S)
    requires RequestApply(rules, e).Success? && forall s | s in steps :: InFlight(s)
    requires rules.validate(snapshot, OfApply) && rules.value(snapshot) == e.draft
    ensures var flying := RequestApply(rules, e).value.0;
      var later := TakeAll(rules, flying, steps);
      var after := Take(rules, later, Device(Applied(Success(snapshot))));
      && after == Editor(Some(snapshot), later.draft, None, Ready)
      && (Dirty(rules, after) <==> later.draft.Some? && later.draft != e.draft)
      && (ReadsFindEdits(rules, flying, steps) ==>
            later.draft == if LastMade(rules, flying, steps).Some? then LastMade(rules, flying, steps).value else e.draft)
  {
    FlightKeeps(rules, RequestApply(rules, e).value.0, steps);
  }

  /** However the draft was edited meanwhile: a result counts as saved if and only if it is
      valid and shows exactly what was submitted when the save was requested. Otherwise the
      baseline stays and a new read is asked for; the draft stays either way. */
  lemma {:induction false} SavedMeansSubmitted<S, V, E, W>(
      rules: Rules<S, V, E, W>, e: Editor<S, V>, steps: seq<Step<S, E>>, result: Result<S, Recovery>)
    requires RequestApply(rules, e).Success? && forall s | s in steps :: InFlight(s)
    ensures var later := TakeAll(rules, RequestApply(rules, e).value.0, steps);
      var after := Take(rules, later, Device(Applied(result)));
      && after.submitted.None? && after.draft == later.draft
      && (after.status.Ready? <==>
            result.Success? && rules.validate(result.value, OfApply) && rules.value(result.value) == e.draft)
      && after.baseline == (if after.status.Ready? then Some(result.value) else later.baseline)
      && (!after.status.Ready? ==>
            after.status == Status.Unverified(
              if result.Failure? then ApplyFailed(result.error)
              else if !rules.validate(result.value, OfApply) then InvalidApplyResult else ApplyReadbackMismatch))
  {
    FlightKeeps(rules, RequestApply(rules, e).value.0, steps);
  }
}

/** The editor object: the same lifecycle on fields updated in place. */
module EditorObject {
  import opened Wrappers
  import opened EditorLifecycle

  class FeatureEditor<S(==), V(==), E, W> {
    const rules: Rules<S, V, E, W>
    var baseline: Option<S>
    var draft: Option<V>
    var submitted: Option<V>
    var status: Status<S>

    ghost function State(): Editor<S, V>
      reads this
    {
      Editor(baseline, draft, submitted, status)
    }

    constructor (rules: Rules<S, V, E, W>)
      ensures this.rules == rules && State() == Editor(None, None, None, Unloaded)
    {
      this.rules := rules;
      baseline, draft, submitted, status := None, None, None, Unloaded;
    }

    predicate Dirty()
      reads this
      ensures Dirty() == EditorLifecycle.Dirty(rules, State())
    {
      baseline.Some? && draft.Some? && rules.value(baseline.value) != draft
    }

    method Invalidate()
      modifies this`status
      ensures State() == EditorLifecycle.Invalidate(old(State()))
    {
      if status.Ready? || status.Unloaded? {
        status := Status.Unverified(ReadRequired);
      }
    }

    method Edit(edit: E) returns (done: Result<(), Rejection>)
      modifies this`draft
      ensures var after := EditorLifecycle.Edit(rules, old(State()), edit);
        if after.Success? then done == Success(()) && State() == after.value
        else done == Failure(after.error) && State() == old(State())
    {
      if !status.Ready? {
        return Failure(NotReady);
      }
      if baseline.None? {
        return Failure(NoBaseline);
      }
      var next := rules.edit(baseline.value, draft, submitted, edit);
      if next.None? {
        return Failure(Refused);
      }
      draft := next.value;
      return Success(());
    }

    method Revert() returns (done: Result<(), Rejection>)
      modifies this`draft
      ensures var after := EditorLifecycle.Revert(rules, old(State()));
        if after.Success? then done == Success(()) && State() == after.value
        else done == Failure(after.error) && State() == old(State())
    {
      if submitted.Some? {
        return Failure(AlreadySubmitted);
      }
      if baseline.None? {
        return Failure(NoBaseline);
      }
      draft := rules.value(baseline.value);
      return Success(());
    }

    method RequestApply() returns (done: Result<(S, W), Rejection>)
      modifies this`submitted
      ensures var after := EditorLifecycle.RequestApply(rules, old(State()));
        if after.Success? then done == Success((after.value.1, after.value.2)) && State() == after.value.0
        else done == Failure(after.error) && State() == old(State())
    {
      if !status.Ready? {
        return Failure(NotReady);
      }
      if submitted.Some? {
        return Failure(AlreadySubmitted);
      }
      if !Dirty() {
        return Failure(NothingStaged);
      }
      var write := rules.plan(baseline.value, draft.value);
      if write.None? {
        return Failure(Refused);
      }
      submitted := draft;
      return Success((baseline.value, write.value));
    }

    method CancelApply()
      modifies this`submitted
      ensures State() == EditorLifecycle.CancelApply(old(State()))
    {
      submitted := None;
    }

    method AcceptRead(result: Option<S>)
      modifies this
      ensures State() == EditorLifecycle.AcceptRead(rules, old(State()), result)
    {
      if result.None? || !rules.validate(result.value, OfRead) {
        status := Status.Unverified(ReadFailed);
        return;
      }
      var snapshot := result.value;
      if Dirty() && !rules.sameBaseline(baseline.value, snapshot) {
        status := Conflict(snapshot);
        return;
      }
      if !Dirty() {
        draft := rules.value(snapshot);
      }
      baseline, status := Some(snapshot), Ready;
    }

    method AcceptApply(result: Result<S, Recovery>)
      modifies this
      ensures State() == EditorLifecycle.AcceptApply(rules, old(State()), result)
    {
      var taken := submitted;
      submitted := None;
      if result.Failure? {
        status := Status.Unverified(ApplyFailed(result.error));
      } else if !rules.validate(result.value, OfApply) || taken.None? {
        status := Status.Unverified(InvalidApplyResult);
      } else if rules.value(result.value) != taken {
        status := Status.Unverified(ApplyReadbackMismatch);
      } else {
        baseline, status := Some(result.value), Ready;
      }
    }
  }
}
