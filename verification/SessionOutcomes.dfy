/** What the session makes of a completion: what it tells its caller, where a two-step workflow
    goes, and what an ended host activity leaves of the lighting. */
module SessionOutcomes {
  import opened Wrappers
  import opened EditorLifecycle
  import opened MacroProgram
  import opened MacroEditing
  import opened MacroLibrary
  import opened SessionModel
  import opened SessionSafety
  import D = SessionDrafts

  /** The completion carries the numbers of the pending ticket. */
  predicate Due(s: Session, x: Completion) {
    s.pending.Some? && s.pending.value.generation == x.generation && s.pending.value.operation == x.operation
  }

  /** The outcome is what the editor's status says: a conflict, a problem, or that the feature
      was loaded or saved, whichever was asked for. */
  predicate Reports<S>(outcome: Outcome, status: Status<S>, t: Ticket) {
    match status
    case Unloaded => false
    case Ready => outcome == if t.direction.Reading? then Loaded(t.feature) else Saved(t.feature)
    case Conflict(_) => outcome == Conflicted
    case Unverified(problem) => outcome == Outcome.Failed(problem)
  }

  function Told<S>(result: FeatureResult<S>): Happening<S> {
    match result
    case Read(read) => Happening.Reading(read)
    case Apply(applied) => Applied(applied)
  }

  predicate Working(s: Session) {
    s.assignment.Some? || s.preparation.Some?
  }

  // ------------------------------------------------------------ completions outside workflows

  /** A due completion of a plain feature is taken exactly if it is for the feature and
      direction that the ticket waits for. Its editor then is what the lifecycle makes of the
      result, the ticket is gone, and the outcome is what the editor's status says. No other
      editor changes, except that a picture read for another lighting must be read again. */
  lemma {:induction false} PlainsAreReported(c: Config, s: Session, x: Completion)
    requires Sound(s) && Due(s, x) && x.report.PlainDone? && !Working(s)
    ensures var (t, outcome) := Accept(c, s, x);
      var ticket, p, result := s.pending.value, x.report.plain, x.report.result;
      if ticket.feature == Of(p) && (ticket.direction.Reading? <==> result.Read?) then
        && t.pending.None?
        && EditorOf(t, p) == Happen(c.rules(p), EditorOf(s, p), Told(result))
        && Reports(outcome, EditorOf(t, p).status, ticket)
        && (forall q: Plain :: q != p && !(p.Lighting? && q.Picture?) ==> EditorOf(t, q) == EditorOf(s, q))
        && t.macros == s.macros
        && (p.Lighting? ==> t.picture == if Outdated(c, t.lighting, s.picture) then Invalidate(s.picture) else s.picture)
      else (t, outcome) == (s, Ignored)
  {
    hide AcceptRead, AcceptApply, AssignmentTurn, PreparationTurn, AcceptCatalog, Corresponds, PictureFollows, Outdated;
    Resting(c);
    var e := EditorOf(s, x.report.plain);
    var after := Received(c.rules(x.report.plain), e, x.report.result);
    if x.report.plain.Lighting? {
      PictureFollowsExactly(c, With(s, Lighting, after), Verdict(after.status, Succeeded(s.pending.value)));
    }
    match x.report.result
    case Read(read) => ReadEnds(c.rules(x.report.plain), e, read);
    case Apply(applied) => ApplyEnds(c.rules(x.report.plain), e, applied);
  }

  /** Without a workflow, an outcome passes through unchanged. */
  lemma {:induction false} Resting(c: Config)
    ensures forall s: Session, outcome {:trigger AssignmentTurn(c, s, outcome)} ::
      s.assignment.None? ==> AssignmentTurn(c, s, outcome) == (s, outcome)
    ensures forall s: Session, outcome {:trigger PreparationTurn(c, s, outcome)} ::
      s.preparation.None? ==> PreparationTurn(c, s, outcome) == (s, outcome)
  {
  }

  lemma {:induction false} PictureFollowsExactly(c: Config, s: Session, outcome: Outcome)
    requires s.lighting.status.Unverified? <==> outcome.Failed?
    ensures PictureFollows(c, s, outcome) == if Outdated(c, s.lighting, s.picture) then s.(picture := Invalidate(s.picture)) else s
  {
  }

  /** The picture was read for another context than the one the lighting shows now. */
  predicate Outdated(c: Config, lighting: PlainEditor, picture: PlainEditor) {
    var shown := if lighting.status.Conflict? then Some(lighting.status.device) else lighting.baseline;
    && !lighting.status.Unverified? && shown.Some? && picture.baseline.Some?
    && c.lightingContext(shown.value).Some? && c.pictureContext(picture.baseline.value).Some?
    && c.lightingContext(shown.value) != c.pictureContext(picture.baseline.value)
  }

  /** The same for the selected macro slot. */
  lemma {:induction false} MacrosAreReported(c: Config, s: Session, x: Completion)
    requires Sound(s) && Due(s, x) && x.report.MacroDone? && !Working(s)
    ensures var (t, outcome) := Accept(c, s, x);
      var ticket, result := s.pending.value, x.report.image;
      if ticket.feature == Macro(x.report.slot) && (ticket.direction.Reading? <==> result.Read?) then
        && t.pending.None?
        && t.macros == Happen(RulesFor(c.caps, s.slot), s.macros, Told(result))
        && Reports(outcome, t.macros.status, ticket)
        && forall q: Plain :: EditorOf(t, q) == EditorOf(s, q)
      else (t, outcome) == (s, Ignored)
  {
    hide AcceptRead, AcceptApply, RulesFor, ObserveEditor;
    match x.report.image
    case Read(read) => ReadEnds(RulesFor(c.caps, s.slot), s.macros, read);
    case Apply(applied) => ApplyEnds(RulesFor(c.caps, s.slot), s.macros, applied);
  }

  /** A capture leaves every editor alone, and a scan's result reaches nothing but the library:
      its outcome says whether the library took it. */
  lemma {:induction false} CapturesAndCatalogsAreReported(c: Config, s: Session, x: Completion)
    requires Sound(s)
    ensures Due(s, x) && x.report.ArchiveDone? && !Working(s) ==>
      var (t, outcome) := Accept(c, s, x);
      if s.pending.value.feature.Archive? && x.report.archive.Read? then
        && t == s.(pending := None)
        && outcome ==
             if x.report.archive.read.Some? && c.archiveValid(x.report.archive.read.value) then ArchiveCaptured else ArchiveFailed
      else (t, outcome) == (s, Ignored)
    ensures x.report.CatalogDone? ==>
      var (t, outcome) := Accept(c, s, x);
      var scan := s.library.scan;
      if scan.Some? && scan.value.generation == x.generation && scan.value.operation == x.operation then
        && t == s.(library := t.library)
        && t.library == AcceptCatalog(s.library, c.caps, x.report.catalog).0
        && outcome == (if t.library.failed then CatalogFailed else CatalogLoaded)
      else (t, outcome) == (s, Ignored)
  {
    hide CompleteCatalog, ObserveAll, Corresponds;
  }

  // ------------------------------------------------------------ binding a macro to a key

  /** When the macro of a binding is saved, the key map follows: it already shows the binding,
      or the binding is staged and saved, or, with nothing sent, the failure says that the
      macro was saved. When the macro is not saved, the key map is left alone and the failure
      says so. */
  lemma {:induction false} BindingsGoOn(c: Config, s: Session, x: Completion, change: Token)
    requires Sound(s) && Due(s, x) && s.assignment == Some(SavingMacro(change))
    requires x.report.MacroDone? && x.report.slot == s.slot && x.report.image.Apply?
    ensures var (t, outcome) := Accept(c, s, x);
      var draft := c.stage(Keymap, s.keymap, change);
      var open := s.keymap.status.Ready? && draft.Some?;
      var dirty := open && s.keymap.baseline.Some? && c.rules(Keymap).value(s.keymap.baseline.value) != draft;
      && t.macros == AcceptApply(RulesFor(c.caps, s.slot), s.macros, x.report.image.applied)
      && (if !t.macros.status.Ready? then outcome == AssignmentFailed(false) && t.keymap == s.keymap && t.pending.None?
          else if !open then outcome == AssignmentFailed(true) && t.keymap == s.keymap && t.pending.None?
          else if !dirty then outcome == AssignmentSucceeded(true) && t.keymap == s.keymap.(draft := draft) && t.pending.None?
          else if c.rules(Keymap).plan(s.keymap.baseline.value, draft.value).None? || s.operation + 1 >= COUNTER_LIMIT
          then outcome == AssignmentFailed(true) && t.keymap == s.keymap.(draft := draft) && t.pending.None?
          else
            && outcome.Continue? && t.assignment == Some(Assigning(true)) && Saves(t, Keymap)
            && t.keymap == s.keymap.(draft := draft, submitted := draft))
  {
    hide AcceptApply, ObserveEditor, RulesFor, PreparationTurn;
    var settled := Taken(c, s, s.pending.value, x.report).value;
    var e := AcceptApply(RulesFor(c.caps, s.slot), s.macros, x.report.image.applied);
    ApplyEnds(RulesFor(c.caps, s.slot), s.macros, x.report.image.applied);
    ObserveKeepsScan(s.library, e, s.slot);
    var ended := if settled.1.Failed? then CancelCatalog(settled.0) else settled.0;
    var (bound, outcome) := AssignmentTurn(c, ended.(pending := None), settled.1);
    BindingStep(c, ended.(pending := None), settled.1, change);
    NoPreparation(c, bound, outcome);
  }

  /** The key map's part of a binding, once the macro's save has ended. */
  lemma {:induction false} BindingStep(c: Config, s: Session, outcome: Outcome, change: Token)
    requires s.assignment == Some(SavingMacro(change)) && s.preparation.None? && s.pending.None? && s.host.Idle? && s.recorder.None?
    requires s.connection.Some? && s.keymap.submitted.None?
    requires outcome == Saved(Macro(s.slot)) || outcome.Failed?
    ensures var (t, told) := AssignmentTurn(c, s, outcome);
      var draft := c.stage(Keymap, s.keymap, change);
      var open := s.keymap.status.Ready? && draft.Some?;
      var dirty := open && s.keymap.baseline.Some? && c.rules(Keymap).value(s.keymap.baseline.value) != draft;
      && t.macros == s.macros && t.preparation.None?
      && (if outcome.Failed? then told == AssignmentFailed(false) && t.keymap == s.keymap && t.pending.None?
          else if !open then told == AssignmentFailed(true) && t.keymap == s.keymap && t.pending.None?
          else if !dirty then told == AssignmentSucceeded(true) && t.keymap == s.keymap.(draft := draft) && t.pending.None?
          else if c.rules(Keymap).plan(s.keymap.baseline.value, draft.value).None? || s.operation + 1 >= COUNTER_LIMIT
          then told == AssignmentFailed(true) && t.keymap == s.keymap.(draft := draft) && t.pending.None?
          else
            && told.Continue? && t.assignment == Some(Assigning(true)) && Saves(t, Keymap)
            && t.keymap == s.keymap.(draft := draft, submitted := draft))
  {
  }

  lemma {:induction false} ApplyEnds<S, V, E, W>(rules: Rules<S, V, E, W>, e: Editor<S, V>, result: Result<S, Recovery>)
    ensures var after := AcceptApply(rules, e, result);
      (after.status.Ready? && after.baseline.Some?) || after.status.Unverified?
  {
  }

  lemma {:induction false} NoPreparation(c: Config, s: Session, outcome: Outcome)
    requires s.preparation.None?
    ensures PreparationTurn(c, s, outcome) == (s, outcome)
  {
  }

  /** The save of the key map ends the binding: it succeeded exactly if that save did, and
      either way the caller is told whether a macro was saved before. */
  lemma {:induction false} BindingsEnd(c: Config, s: Session, x: Completion, macroSaved: bool)
    requires Sound(s) && Due(s, x) && s.assignment == Some(Assigning(macroSaved))
    requires x.report.PlainDone? && x.report.plain.Keymap? && x.report.result.Apply?
    ensures var (t, outcome) := Accept(c, s, x);
      && t.keymap == AcceptApply(c.rules(Keymap), s.keymap, x.report.result.applied)
      && !Working(t) && t.pending.None? && t.macros == s.macros
      && outcome == (if t.keymap.status.Ready? then AssignmentSucceeded(macroSaved) else AssignmentFailed(macroSaved))
  {
    hide AcceptApply;
    ApplyEnds(c.rules(Keymap), s.keymap, x.report.result.applied);
  }

  // ------------------------------------------------------------ preparing a picture

  /** The last step of a preparation is the read of the picture: it succeeded exactly if the
      picture is ready, and a failure says whether the lighting was changed for it. */
  lemma {:induction false} PreparationsEnd(c: Config, s: Session, x: Completion, applied: bool)
    requires Sound(s) && Due(s, x) && s.preparation == Some(ReadingPicture(applied)) && s.assignment.None?
    requires x.report.PlainDone? && x.report.plain.Picture? && x.report.result.Read?
    ensures var (t, outcome) := Accept(c, s, x);
      && t.picture == AcceptRead(c.rules(Picture), s.picture, x.report.result.read)
      && !Working(t) && t.pending.None? && t.lighting == s.lighting
      && outcome == (if t.picture.status.Ready? then Loaded(Of(Picture)) else PreparationFailed(applied))
  {
    hide AcceptRead;
    ReadEnds(c.rules(Picture), s.picture, x.report.result.read);
  }

  lemma {:induction false} ReadEnds<S, V, E, W>(rules: Rules<S, V, E, W>, e: Editor<S, V>, read: Option<S>)
    ensures var after := AcceptRead(rules, e, read); !after.status.Unloaded? && (after.status.Ready? ==> after.baseline.Some?)
  {
  }

  /** When the lighting was saved for a picture, the picture is read next; when it was not, the
      preparation failed and says that no lighting was changed. */
  lemma {:induction false} PreparationsGoOn(c: Config, s: Session, x: Completion)
    requires Sound(s) && Due(s, x) && s.preparation == Some(SavingLighting) && s.assignment.None?
    requires x.report.PlainDone? && x.report.plain.Lighting? && x.report.result.Apply?
    ensures var (t, outcome) := Accept(c, s, x);
      && t.lighting == AcceptApply(c.rules(Lighting), s.lighting, x.report.result.applied)
      && (if !t.lighting.status.Ready? then outcome == PreparationFailed(false) && !Working(t) && t.pending.None?
          else if s.operation + 1 >= COUNTER_LIMIT then outcome == PreparationFailed(true) && !Working(t) && t.pending.None?
          else
            && outcome == Continue(Command(s.connection.value, s.operation + 1, ReadPlain(Picture)))
            && t.preparation == Some(ReadingPicture(true)) && Reads(t, Of(Picture)))
  {
    hide AcceptApply, PictureFollows;
    ApplyEnds(c.rules(Lighting), s.lighting, x.report.result.applied);
    D.PictureKeepsDraft(c, s);
    PictureFollowsOnly(c, With(s, Lighting, AcceptApply(c.rules(Lighting), s.lighting, x.report.result.applied)), Saved(Of(Lighting)));
  }

  predicate Reads(s: Session, feature: Feature) {
    s.pending.Some? && s.pending.value.direction.Reading? && s.pending.value.feature == feature
  }

  /** Where a preparation goes from a planned step: nothing is needed, or a read is under way and
      says what it was for, or the effect is staged and its save under way. It goes nowhere
      exactly if the plan refuses, the numbers run out, or the effect cannot be staged and
      saved; what was staged then stays. */
  lemma {:induction false} StepsExactly(c: Config, s: Session, action: Preparing, applied: bool)
    requires CanBegin(s) && !Working(s)
    ensures var r := PrepareNext(c, s, action, applied);
      match action
      case CannotPrepare => r == Refuse(s)
      case Prepared => r == Agree(s)
      case NeedLighting => r.ok && Reads(r.session, Of(Lighting)) && r.session.preparation == Some(ReadingLighting)
      case NeedPicture => r.ok && Reads(r.session, Of(Picture)) && r.session.preparation == Some(ReadingPicture(applied))
      case PictureAlone => r.ok && Reads(r.session, Of(Picture)) && !Working(r.session)
      case NeedEffect(setting) =>
        var draft := c.stage(Lighting, s.lighting, setting);
        var staged := s.lighting.(draft := draft);
        var open := s.lighting.status.Ready? && draft.Some? && !c.selectorChange(s.lighting, s.picture, setting);
        var sent :=
          && open && !c.selectorChange(staged, s.picture, draft.value)
          && s.lighting.submitted.None? && Dirty(c.rules(Lighting), staged)
          && c.rules(Lighting).plan(s.lighting.baseline.value, draft.value).Some?;
        && r.ok == sent && (!sent ==> r.session == if open then s.(lighting := staged) else s)
        && (sent ==>
              && r.session.lighting == staged.(submitted := draft)
              && Saves(r.session, Lighting) && r.session.preparation == Some(SavingLighting))
  {
  }

  /** After the lighting was read for a preparation, its plan decides on what was read; a failed
      read or a conflict ends it, and the caller is told that no lighting was changed. */
  lemma {:induction false} PreparationsDecide(c: Config, s: Session, x: Completion)
    requires Sound(s) && Due(s, x) && s.preparation == Some(ReadingLighting) && s.assignment.None?
    requires x.report.PlainDone? && x.report.plain.Lighting? && x.report.result.Read?
    ensures var (t, outcome) := Accept(c, s, x);
      var read := AcceptRead(c.rules(Lighting), s.lighting, x.report.result.read);
      var picture := if Outdated(c, read, s.picture) then Invalidate(s.picture) else s.picture;
      var quiet := s.(lighting := read, picture := picture, pending := None, preparation := None);
      var plan := PlannedPreparation(c, read, picture);
      var next := PrepareNext(c, quiet, plan, false);
      if !read.status.Ready? then (t, outcome) == (quiet, PreparationFailed(false))
      else
        && t == next.session
        && outcome ==
             if !next.ok then PreparationFailed(false) else if plan.Prepared? then Loaded(Of(Picture)) else Continue(next.command.value)
  {
    hide AcceptRead, PrepareNext, PlannedPreparation;
    var read := AcceptRead(c.rules(Lighting), s.lighting, x.report.result.read);
    ReadEnds(c.rules(Lighting), s.lighting, x.report.result.read);
    var quiet := PictureFollows(c, s.(lighting := read, pending := None, preparation := None),
                                Verdict(read.status, Loaded(Of(Lighting))));
    NextAsks(c, quiet, PlannedPreparation(c, quiet.lighting, quiet.picture), false);
    NextAsks(c, quiet, CannotPrepare, false);
  }

  lemma {:induction false} NextAsks(c: Config, s: Session, action: Preparing, applied: bool)
    ensures var r := PrepareNext(c, s, action, applied);
      && (r.ok ==> (r.command.None? <==> action.Prepared?))
      && (action.Prepared? ==> r == Agree(s)) && (action.CannotPrepare? ==> r == Refuse(s))
  {
  }

  // ------------------------------------------------------------ reads and editing

  /** While a read runs that was asked for, nothing may be edited; during a background read
      everything may that could be edited before. */
  lemma {:induction false} ObservationsLeaveEditing(c: Config, s: Session, feature: Feature, p: Plain, edit: Token, slotEdit: MacroEdit)
    ensures var r := ObserveFeature(s, feature);
      r.ok ==>
        && EditPlain(c, r.session, p, edit).ok == EditPlain(c, s, p, edit).ok
        && EditSlot(c, r.session, slotEdit).ok == EditSlot(c, s, slotEdit).ok
    ensures var r := ReadFeature(s, feature);
      r.ok ==> !EditPlain(c, r.session, p, edit).ok && !EditSlot(c, r.session, slotEdit).ok
  {
    hide Edit, RulesFor, Editable, With;
    ReadsAndEditing(s, feature, Of(p));
    ReadsAndEditing(s, feature, Macro(s.slot));
  }

  lemma {:induction false} ReadsAndEditing(s: Session, feature: Feature, edited: Feature)
    ensures var t := ObserveFeature(s, feature).session;
      && t == s.(pending := t.pending, operation := t.operation)
      && (ObserveFeature(s, feature).ok ==> Editable(t, edited) == Editable(s, edited))
    ensures ReadFeature(s, feature).ok ==> !Editable(ReadFeature(s, feature).session, edited)
    ensures var t := ReadFeature(s, feature).session; t == s.(pending := t.pending, operation := t.operation)
  {
  }

  // ------------------------------------------------------------ host lighting

  /** A stop is remembered together with whether the device had started; a start that is
      reported afterwards clears that. Events for another ticket, or for none, change nothing. */
  lemma {:induction false} HostsRunExactly(c: Config, s: Session, ticket: HostTicket, event: HostEvent)
    ensures var t := StopHost(s);
      && t == s.(host := t.host)
      && (s.host.Starting? ==> t.host == Stopping(s.host.ticket, true))
      && (s.host.Active? ==> t.host == Stopping(s.host.ticket, false))
      && (s.host.Idle? || s.host.Stopping? ==> t == s)
    ensures var t := AcceptHost(c, s, ticket, Started);
      if s.host.Idle? || s.host.ticket != ticket then t == s
      else
        && t == s.(host := t.host) && t.host.ticket == ticket
        && (t.host.Active? <==> s.host.Starting? || s.host.Active?)
        && (t.host.Stopping? <==> s.host.Stopping?) && (t.host.Stopping? ==> !t.host.whileStarting)
    ensures s.host.Idle? || s.host.ticket != ticket ==> AcceptHost(c, s, ticket, event) == s
  {
  }

  /** The device had not reported that the activity started. */
  predicate Unstarted(h: Host) {
    h.Starting? || (h.Stopping? && h.whileStarting)
  }

  /** When host lighting ends, the session is free again and only the lighting's editor may have
      changed. With the saved lighting found back on the device, it is ready on what was read.
      Found different, or unreadable, or with a failure other than one that a start reports
      before it touched the device, it asks for a read and says which. Its draft stays. */
  lemma {:induction false} HostsEndExactly(c: Config, s: Session, restored: Result<Token, Recovery>)
    requires !s.host.Idle?
    ensures var t := AcceptHost(c, s, s.host.ticket, Finished(restored));
      var e := t.lighting;
      var found := restored.Success? && c.rules(Lighting).validate(restored.value, OfRead);
      var back := found && s.lighting.baseline.Some? && c.rules(Lighting).sameBaseline(s.lighting.baseline.value, restored.value);
      var harmless := restored.Failure? && Unstarted(s.host)
                      && restored.error != Recovery.Failed && restored.error != Recovery.Unverified;
      && t == s.(host := Idle, lighting := e)
      && (Dirty(c.rules(Lighting), s.lighting) ==> e.draft == s.lighting.draft)
      && (if harmless then e == s.lighting
          else if back then e.status.Ready? && e.baseline == Some(restored.value) && e.submitted == s.lighting.submitted
          else
            && e == s.lighting.(submitted := None, status := e.status)
            && e.status == Status.Unverified(ApplyFailed(
                 if restored.Failure? then restored.error else if found then Recovery.Failed else Recovery.Unverified)))
  {
  }

  /** A whole activity, stopped before or after the device reports its start: the session ends
      idle, and a device that shows the saved lighting again leaves its editor ready on it. A
      device that refused before starting leaves the editor as it was if it never started. */
  lemma {:induction false} HostRunsEnd(c: Config, s: Session, mode: Token, stopsEarly: bool, starts: bool, shown: Token)
    requires StartHost(c, s, mode).ok && s.lighting.status.Ready? && s.lighting.baseline.Some?
    requires c.rules(Lighting).validate(shown, OfRead) && c.rules(Lighting).sameBaseline(s.lighting.baseline.value, shown)
    ensures var started := StartHost(c, s, mode).session;
      var ticket := HostTicket(s.connection.value, s.operation + 1);
      var early := if stopsEarly then StopHost(started) else started;
      var begun := if starts then AcceptHost(c, early, ticket, Started) else early;
      var stopping := StopHost(begun);
      var ended := AcceptHost(c, stopping, ticket, Finished(Success(shown)));
      var refused := AcceptHost(c, stopping, ticket, Finished(Failure(NotAttempted)));
      && stopping == started.(host := Stopping(ticket, !starts))
      && ended.host.Idle? && ended.lighting.status.Ready? && ended.lighting.baseline == Some(shown)
      && refused.host.Idle?
      && refused.lighting.status == (if starts then Status.Unverified(ApplyFailed(NotAttempted)) else Ready)
  {
  }
}
