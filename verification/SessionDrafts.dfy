/** Unsaved edits and the session: whatever arrives, a draft that differs from its baseline
    is only ever changed by its user's own edits. */
module SessionDrafts {
  import opened Wrappers
  import opened EditorLifecycle
  import opened MacroEditing
  import opened MacroLibrary
  import opened SessionModel
  import opened SessionSafety

  /** Connecting and disconnecting keep every draft; disconnecting only settles a macro
      being recorded. */
  lemma {:induction false} ConnectionsKeepDrafts(c: Config, s: Session)
    requires Good(c, s)
    ensures SameDrafts(s, Connect(s).session) && Connect(s).session.macros.draft == s.macros.draft
    ensures SameDrafts(s, Disconnect(c, s).session)
    ensures s.recorder.None? ==> Disconnect(c, s).session.macros.draft == s.macros.draft
  {
    hide InvalidateAll, Disconnect;
    DisconnectIsGood(c, s);
    Forgetting(s.(generation := s.generation + 1, connection := Some(s.generation + 1)));
  }

  // ------------------------------------------------------------ what workflows rely on

  /** A workflow that will stage a value waits with that editor free of unsaved edits. */
  ghost predicate Calm(c: Config, s: Session) {
    && (s.assignment.Some? && s.assignment.value.SavingMacro? ==> !Dirty(c.rules(Keymap), s.keymap))
    && (s.preparation.Some? && s.preparation.value.ReadingLighting? ==> !Dirty(c.rules(Lighting), s.lighting))
  }

  /** `t` waits for nothing new and left alone what `s` waits with. */
  predicate Undisturbed(s: Session, t: Session) {
    && (t.assignment.None? || (t.assignment == s.assignment && (s.assignment.value.SavingMacro? ==> t.keymap == s.keymap)))
    && (t.preparation.None? || (t.preparation == s.preparation && t.lighting == s.lighting))
  }

  lemma {:induction false} UndisturbedIsCalm(c: Config, s: Session, t: Session)
    requires Calm(c, s) && Undisturbed(s, t)
    ensures Calm(c, t)
  {
    hide Dirty;
  }

  predicate WorkflowCall(call: Call) {
    call.CallPreparePicture? || call.CallSaveAndAssign?
  }

  lemma {:induction false} ReadFrame(s: Session, feature: Feature)
    ensures var t := ReadFeature(s, feature).session; t == s.(operation := t.operation, pending := t.pending)
  {
  }

  lemma {:induction false} SaveFrame(c: Config, s: Session, p: Plain)
    ensures var t := SavePlain(c, s, p).session;
      && t == With(s, p, EditorOf(t, p)).(operation := t.operation, pending := t.pending)
      && EditorOf(t, p).draft == EditorOf(s, p).draft
  {
    hide RequestApply, SaveBlocked;
    SubmittedSteps(c.rules(p), EditorOf(s, p), 0, None, Failure(Recovery.Unverified));
  }

  lemma {:induction false} SaveSlotFrame(c: Config, s: Session)
    ensures var t := SaveSlot(c, s).session;
      && t == s.(macros := t.macros, library := t.library, operation := t.operation, pending := t.pending)
      && t.macros.draft == s.macros.draft
  {
    hide RequestApply, RulesFor;
    SubmittedSteps(RulesFor(c.caps, s.slot), s.macros, Clear, None, Failure(Recovery.Unverified));
  }

  lemma {:induction false} StageFrame(c: Config, s: Session, p: Plain, value: Token)
    ensures var t := StagePlain(c, s, p, value).session; t == With(s, p, EditorOf(t, p))
  {
  }

  predicate TicketCall(call: Call) {
    call.CallRead? || call.CallObserve? || call.CallSave?
  }

  lemma {:induction false} TicketCallDisturbsNothing(c: Config, s: Session, call: Call)
    requires Sound(s) && TicketCall(call)
    ensures Undisturbed(s, Serve(c, s, call).session)
  {
    hide ReadFeature, SavePlain, Corresponds, Exclusive, Ticketed;
    match call
    case CallRead(feature) => ReadIsSound(s, feature); ReadFrame(s, feature);
    case CallObserve(feature) => ReadIsSound(s, feature); ReadFrame(s, feature);
    case CallSave(p) => SaveIsSound(c, s, p); SaveFrame(c, s, p);
    case _ =>
  }

  lemma {:induction false} EditCallDisturbsNothing(c: Config, s: Session, call: Call)
    requires Sound(s) && (call.CallEdit? || call.CallStage? || call.CallRevert?)
    ensures Undisturbed(s, Serve(c, s, call).session)
  {
    hide Edit, Revert, Corresponds, Exclusive;
  }

  lemma {:induction false} CatalogCallDisturbsNothing(c: Config, s: Session, call: Call)
    requires call.CallCatalog? || call.CallCancelCatalog? || call.CallConfigurationChanged?
    ensures Undisturbed(s, Serve(c, s, call).session)
  {
    hide Forgotten, Cancel;
  }

  lemma {:induction false} SlotCallDisturbsNothing(c: Config, s: Session, call: Call)
    requires Sound(s) && SlotCall(call)
    ensures Undisturbed(s, Serve(c, s, call).session)
  {
    hide Edit, Revert, SaveSlot, RulesFor, ValidSnapshotFor, Corresponds, Exclusive, Ticketed;
    if call.CallCatalog? || call.CallCancelCatalog? || call.CallConfigurationChanged? {
      CatalogCallDisturbsNothing(c, s, call);
    } else {
      SaveSlotIsSound(c, s);
      SaveSlotFrame(c, s);
    }
  }

  lemma {:induction false} ActivityCallDisturbsNothing(c: Config, s: Session, call: Call)
    requires Sound(s) && !PlainCall(call) && !SlotCall(call) && !WorkflowCall(call)
    ensures Undisturbed(s, Serve(c, s, call).session)
  {
    hide EndHost, EndRecording, EndSave, InvalidateAll, R.New, R.Transition, R.Stop;
    Forgetting(s.(generation := s.generation + 1, connection := Some(s.generation + 1)));
    var failed := EndSave(c, EndRecording(c, EndHost(c, s)).session);
    Forgetting(failed.(connection := None, pending := None, assignment := None, preparation := None));
  }

  lemma {:induction false} AssignCallIsCalm(c: Config, s: Session, request: Token)
    requires Sound(s) && IsIdle(s)
    ensures Calm(c, SaveAndAssign(c, s, request).session)
  {
    hide Dirty, StagePlain, SavePlain, SaveSlot, Corresponds, Exclusive, Ticketed;
    SaveSlotFrame(c, s);
    var plan := PlannedAssignment(c, s.keymap, s.macros, request);
    if plan.Some? {
      StageFrame(c, s, Keymap, plan.value.change);
      SaveFrame(c, StagePlain(c, s, Keymap, plan.value.change).session, Keymap);
    }
  }

  /** What the next preparation step leaves alone, and what it waits with. */
  lemma {:induction false} PrepareNextFrame(c: Config, s: Session, action: Preparing, applied: bool)
    requires s.preparation.None?
    requires action.NeedLighting? ==> !Dirty(c.rules(Lighting), s.lighting)
    ensures var t := PrepareNext(c, s, action, applied).session;
      && t == s.(lighting := t.lighting, operation := t.operation, pending := t.pending, preparation := t.preparation)
      && (!action.NeedEffect? ==> t.lighting == s.lighting)
      && (t.preparation.Some? && t.preparation.value.ReadingLighting? ==> !Dirty(c.rules(Lighting), t.lighting))
  {
    hide Dirty, StagePlain, SavePlain, ReadFeature;
    ReadFrame(s, Of(Lighting));
    ReadFrame(s, Of(Picture));
    if action.NeedEffect? {
      StageFrame(c, s, Lighting, action.setting);
      SaveFrame(c, StagePlain(c, s, Lighting, action.setting).session, Lighting);
    }
  }

  /** The two workflow calls begin calm: what they wait with has no unsaved edits. */
  lemma {:induction false} WorkflowCallIsCalm(c: Config, s: Session, call: Call)
    requires Sound(s) && WorkflowCall(call) && Calm(c, s)
    ensures Calm(c, Serve(c, s, call).session)
  {
    hide Dirty, PrepareNext, SaveAndAssign, Corresponds, Exclusive, Ticketed;
    if IsIdle(s) && s.connection.Some? {
      match call
      case CallPreparePicture => PrepareNextFrame(c, s, PlannedPreparation(c, s.lighting, s.picture), false);
      case CallSaveAndAssign(request) => AssignCallIsCalm(c, s, request);
      case _ =>
    } else if call.CallSaveAndAssign? {
      NoAssignment(c, s, call.request);
    }
  }

  lemma {:induction false} NoAssignment(c: Config, s: Session, request: Token)
    requires !IsIdle(s) || s.connection.None?
    ensures SaveAndAssign(c, s, request) == Refuse(s)
  {
  }

  lemma {:induction false} ServeIsCalm(c: Config, s: Session, call: Call)
    requires Sound(s) && Calm(c, s)
    ensures Calm(c, Serve(c, s, call).session)
  {
    hide Sound, Calm, Serve, Undisturbed;
    if WorkflowCall(call) {
      WorkflowCallIsCalm(c, s, call);
    } else {
      if TicketCall(call) {
        TicketCallDisturbsNothing(c, s, call);
      } else if PlainCall(call) {
        EditCallDisturbsNothing(c, s, call);
      } else if SlotCall(call) {
        SlotCallDisturbsNothing(c, s, call);
      } else {
        ActivityCallDisturbsNothing(c, s, call);
      }
      UndisturbedIsCalm(c, s, Serve(c, s, call).session);
    }
  }

  // ------------------------------------------------------------ completions

  lemma {:induction false} TakenKeepsDirtyDrafts(c: Config, s: Session, report: Report, p: Plain)
    requires s.pending.Some? && Taken(c, s, s.pending.value, report).Some?
    ensures var t := Taken(c, s, s.pending.value, report).value.0;
      && (Dirty(c.rules(p), EditorOf(s, p)) ==> EditorOf(t, p).draft == EditorOf(s, p).draft)
      && (Dirty(RulesFor(c.caps, s.slot), s.macros) ==> t.macros.draft == s.macros.draft)
  {
    hide ObserveEditor, RulesFor, Invalidate;
    PictureKeepsDraft(c, s);
  }

  lemma {:induction false} PictureKeepsDraft(c: Config, s: Session)
    ensures forall t: Session, outcome: Outcome ::
      PictureFollows(c, t, outcome) == t.(picture := PictureFollows(c, t, outcome).picture)
      && PictureFollows(c, t, outcome).picture.draft == t.picture.draft
  {
  }

  /** What a completion for the pending ticket leaves of the features it was not for. */
  lemma {:induction false} TakenKeepsOthers(c: Config, s: Session, report: Report)
    requires s.pending.Some? && Taken(c, s, s.pending.value, report).Some?
    ensures var t := Taken(c, s, s.pending.value, report).value.0;
      && (s.pending.value.feature != Of(Keymap) ==> t.keymap == s.keymap)
      && (s.pending.value.feature != Of(Lighting) ==> t.lighting == s.lighting)
      && t.assignment == s.assignment && t.preparation == s.preparation
  {
    hide ObserveEditor, RulesFor, Invalidate, AcceptApply;
    PictureKeepsDraft(c, s);
  }

  /** The assignment's second step stages a key in a key map it found clean. */
  lemma {:induction false} AssignmentTurnKeeps(c: Config, s: Session, outcome: Outcome)
    requires s.pending.None?
    ensures var t := AssignmentTurn(c, s, outcome).0;
      && t.lighting == s.lighting && t.picture == s.picture && t.settings == s.settings && t.macros == s.macros
      && t.preparation == s.preparation && (t.assignment.Some? ==> t.assignment.value.Assigning?)
      && (t.keymap == s.keymap || (s.assignment.Some? && s.assignment.value.SavingMacro?))
  {
    hide RequestApply, Dirty;
  }

  /** The preparation's further steps stage an effect in lighting they found clean. */
  lemma {:induction false} PreparationTurnKeeps(c: Config, s: Session, outcome: Outcome)
    ensures var t := PreparationTurn(c, s, outcome).0;
      && t.keymap == s.keymap && t.picture == s.picture && t.settings == s.settings && t.macros == s.macros
      && (t.lighting == s.lighting || (s.preparation.Some? && s.preparation.value.ReadingLighting?))
      && t.assignment == s.assignment
      && (t.preparation.Some? && t.preparation.value.ReadingLighting? ==> !Dirty(c.rules(Lighting), t.lighting))
  {
    hide PrepareNext, Dirty;
    if s.preparation.Some? {
      var quiet := s.(preparation := None);
      PrepareNextFrame(c, quiet, PlannedPreparation(c, quiet.lighting, quiet.picture), s.preparation.value.SavingLighting?);
      PrepareNextFrame(c, quiet, NeedPicture, s.preparation.value.SavingLighting?);
      PrepareNextFrame(c, quiet, CannotPrepare, s.preparation.value.SavingLighting?);
    }
  }

  lemma {:induction false} AcceptIsCalm(c: Config, s: Session, completion: Completion)
    requires Sound(s) && Calm(c, s)
    ensures Calm(c, Accept(c, s, completion).0)
  {
    hide Taken, AssignmentTurn, PreparationTurn, AcceptCatalog, Dirty, Corresponds, Exclusive, Ticketed, CancelCatalog;
    if s.pending.Some? && Taken(c, s, s.pending.value, completion.report).Some? {
      TakenKeepsOthers(c, s, completion.report);
      var (next, outcome) := Taken(c, s, s.pending.value, completion.report).value;
      CancelKeepsRest(next);
      TurnsAreCalm(c, next.(pending := None), outcome);
      TurnsAreCalm(c, CancelCatalog(next).(pending := None), outcome);
    }
  }

  lemma {:induction false} TurnsAreCalm(c: Config, s: Session, outcome: Outcome)
    requires s.pending.None?
    ensures var (bound, result) := AssignmentTurn(c, s, outcome); Calm(c, PreparationTurn(c, bound, result).0)
  {
    hide AssignmentTurn, PreparationTurn, Dirty;
    AssignmentTurnKeeps(c, s, outcome);
    var (bound, result) := AssignmentTurn(c, s, outcome);
    PreparationTurnKeeps(c, bound, result);
  }

  // ------------------------------------------------------------ every dirty draft

  ghost predicate KeepsDirty(c: Config, s: Session, t: Session, p: Plain) {
    Dirty(c.rules(p), EditorOf(s, p)) ==> EditorOf(t, p).draft == EditorOf(s, p).draft
  }

  ghost predicate KeepsDirtySlot(c: Config, s: Session, t: Session) {
    Dirty(RulesFor(c.caps, s.slot), s.macros) ==> t.macros.draft == s.macros.draft
  }

  lemma {:induction false} AcceptKeepsDirty(c: Config, s: Session, completion: Completion, p: Plain)
    requires Sound(s) && Calm(c, s)
    ensures KeepsDirty(c, s, Accept(c, s, completion).0, p) && KeepsDirtySlot(c, s, Accept(c, s, completion).0)
  {
    hide Taken, AssignmentTurn, PreparationTurn, AcceptCatalog, Dirty, RulesFor, Corresponds, Exclusive, Ticketed, CancelCatalog;
    if s.pending.Some? && Taken(c, s, s.pending.value, completion.report).Some? {
      TakenKeepsDirtyDrafts(c, s, completion.report, p);
      TakenKeepsOthers(c, s, completion.report);
      var (next, outcome) := Taken(c, s, s.pending.value, completion.report).value;
      CancelKeepsRest(next);
      TurnsKeep(c, next.(pending := None), outcome);
      TurnsKeep(c, CancelCatalog(next).(pending := None), outcome);
    }
  }

  /** What the workflow turns may change at all. */
  lemma {:induction false} TurnsKeep(c: Config, s: Session, outcome: Outcome)
    requires s.pending.None?
    ensures var (bound, result) := AssignmentTurn(c, s, outcome);
      var t := PreparationTurn(c, bound, result).0;
      && t.picture == s.picture && t.settings == s.settings && t.macros == s.macros
      && (t.keymap == s.keymap || (s.assignment.Some? && s.assignment.value.SavingMacro?))
      && (t.lighting == s.lighting || (s.preparation.Some? && s.preparation.value.ReadingLighting?))
  {
    hide AssignmentTurn, PreparationTurn, Dirty;
    AssignmentTurnKeeps(c, s, outcome);
    var (bound, result) := AssignmentTurn(c, s, outcome);
    PreparationTurnKeeps(c, bound, result);
  }

  /** The user's own edits of a feature. */
  predicate Edits(call: Call, p: Plain) {
    (call.CallEdit? || call.CallStage? || call.CallRevert?) && call.plain == p
  }

  /** The user's own edits of the selected macro, recorded ones included. */
  predicate EditsSlot(s: Session, call: Call) {
    || call.CallEditSlot? || call.CallImportSlot? || call.CallRevertSlot? || call.CallRecord? || call.CallStopRecording?
    || (call.CallDisconnect? && s.recorder.Some?)
  }

  lemma {:induction false} TicketCallKeepsDirty(c: Config, s: Session, call: Call, p: Plain)
    requires TicketCall(call)
    ensures KeepsDirty(c, s, Serve(c, s, call).session, p) && KeepsDirtySlot(c, s, Serve(c, s, call).session)
  {
    hide ReadFeature, SavePlain, Dirty, RulesFor;
    match call
    case CallRead(feature) => ReadFrame(s, feature);
    case CallObserve(feature) => ReadFrame(s, feature);
    case CallSave(q) => SaveFrame(c, s, q);
    case _ =>
  }

  lemma {:induction false} EditCallKeepsDirty(c: Config, s: Session, call: Call, p: Plain)
    requires (call.CallEdit? || call.CallStage? || call.CallRevert?) && call.plain != p
    ensures KeepsDirty(c, s, Serve(c, s, call).session, p) && KeepsDirtySlot(c, s, Serve(c, s, call).session)
  {
    hide Edit, Revert, Dirty, RulesFor;
  }

  lemma {:induction false} SlotCallKeepsDirty(c: Config, s: Session, call: Call, p: Plain)
    requires SlotCall(call)
    ensures KeepsDirty(c, s, Serve(c, s, call).session, p)
    ensures !EditsSlot(s, call) ==> KeepsDirtySlot(c, s, Serve(c, s, call).session)
  {
    hide Edit, Revert, SaveSlot, Dirty, RulesFor, ValidSnapshotFor, Forgotten, Cancel;
    SaveSlotFrame(c, s);
  }

  lemma {:induction false} HostKeepsDirty(c: Config, s: Session, ticket: HostTicket, event: HostEvent, p: Plain)
    ensures KeepsDirty(c, s, AcceptHost(c, s, ticket, event), p) && KeepsDirtySlot(c, s, AcceptHost(c, s, ticket, event))
  {
    hide RulesFor;
  }

  lemma {:induction false} ActivityCallKeepsDirty(c: Config, s: Session, call: Call, p: Plain)
    requires Good(c, s) && !PlainCall(call) && !SlotCall(call) && !WorkflowCall(call)
    ensures KeepsDirty(c, s, Serve(c, s, call).session, p)
    ensures !EditsSlot(s, call) ==> KeepsDirtySlot(c, s, Serve(c, s, call).session)
  {
    hide Dirty, RulesFor, Good, Connect, Disconnect, AcceptHost, R.New, R.Transition, R.Stop, Lent;
    match call
    case CallConnect => ConnectionsKeepDrafts(c, s);
    case CallDisconnect => ConnectionsKeepDrafts(c, s);
    case CallHostEvent(ticket, event) => HostKeepsDirty(c, s, ticket, event, p);
    case _ =>
  }

  lemma {:induction false} WorkflowCallKeepsDirty(c: Config, s: Session, call: Call, p: Plain)
    requires WorkflowCall(call) && Awaits(s)
    ensures KeepsDirty(c, s, Serve(c, s, call).session, p) && KeepsDirtySlot(c, s, Serve(c, s, call).session)
  {
    hide Dirty, RulesFor, PrepareNext, SaveAndAssign;
    match call
    case CallPreparePicture =>
      if s.preparation.None? { PrepareNextFrame(c, s, PlannedPreparation(c, s.lighting, s.picture), false); }
    case CallSaveAndAssign(request) => AssignCallKeepsDirty(c, s, request, p);
    case _ =>
  }

  lemma {:induction false} AssignCallKeepsDirty(c: Config, s: Session, request: Token, p: Plain)
    ensures KeepsDirty(c, s, SaveAndAssign(c, s, request).session, p)
    ensures KeepsDirtySlot(c, s, SaveAndAssign(c, s, request).session)
  {
    hide Dirty, RulesFor, StagePlain, SavePlain, SaveSlot;
    SaveSlotFrame(c, s);
    var plan := PlannedAssignment(c, s.keymap, s.macros, request);
    if plan.Some? {
      StageFrame(c, s, Keymap, plan.value.change);
      SaveFrame(c, StagePlain(c, s, Keymap, plan.value.change).session, Keymap);
    }
  }

  lemma {:induction false} ServeKeepsDirty(c: Config, s: Session, call: Call, p: Plain)
    requires Good(c, s)
    ensures !Edits(call, p) ==> KeepsDirty(c, s, Serve(c, s, call).session, p)
    ensures !EditsSlot(s, call) ==> KeepsDirtySlot(c, s, Serve(c, s, call).session)
  {
    hide KeepsDirty, KeepsDirtySlot, Serve, RecordingOk, Corresponds, Exclusive, Ticketed, Awaits;
    if TicketCall(call) {
      TicketCallKeepsDirty(c, s, call, p);
    } else if PlainCall(call) {
      var other := if call.plain == Keymap then Lighting else Keymap;
      EditCallKeepsDirty(c, s, call, if call.plain == p then other else p);
    } else if SlotCall(call) {
      SlotCallKeepsDirty(c, s, call, p);
    } else if WorkflowCall(call) {
      WorkflowCallKeepsDirty(c, s, call, p);
    } else {
      ActivityCallKeepsDirty(c, s, call, p);
    }
  }

  lemma {:induction false} RunIsCalm(c: Config, s: Session, arrivals: seq<Arrival>)
    requires Good(c, s) && Calm(c, s)
    ensures Good(c, SessionSafety.Run(c, s, arrivals)) && Calm(c, SessionSafety.Run(c, s, arrivals))
    decreases |arrivals|
  {
    hide RecordingOk, Sound, Serve, Accept, Calm;
    if arrivals != [] {
      if arrivals[0].Called? {
        ServeIsGood(c, s, arrivals[0].call);
        ServeIsCalm(c, s, arrivals[0].call);
      } else {
        AcceptIsGood(c, s, arrivals[0].completion);
        AcceptIsCalm(c, s, arrivals[0].completion);
      }
      RunIsCalm(c, After(c, s, arrivals[0]), arrivals[1..]);
    }
  }

  /** `draft` is in place after every arrival up to the first after which nothing of it is
      unsaved, or that is its user's own edit, or to the end if there is none. */
  ghost predicate KeptUntilSaved(c: Config, s: Session, arrivals: seq<Arrival>, p: Plain, draft: Option<Token>)
    decreases |arrivals|
  {
    EditorOf(s, p).draft == draft &&
    (|| !Dirty(c.rules(p), EditorOf(s, p))
     || arrivals == [] || (arrivals[0].Called? && Edits(arrivals[0].call, p))
     || KeptUntilSaved(c, After(c, s, arrivals[0]), arrivals[1..], p, draft))
  }

  lemma {:induction false} RunsKeepDirty(c: Config, s: Session, arrivals: seq<Arrival>, p: Plain)
    requires Good(c, s) && Calm(c, s)
    ensures KeptUntilSaved(c, s, arrivals, p, EditorOf(s, p).draft)
    decreases |arrivals|
  {
    hide Sound, RecordingOk, Calm, Serve, Accept, Dirty;
    if arrivals != [] {
      var a := arrivals[0];
      if a.Called? {
        ServeIsGood(c, s, a.call);
        ServeIsCalm(c, s, a.call);
        ServeKeepsDirty(c, s, a.call, p);
      } else {
        AcceptIsGood(c, s, a.completion);
        AcceptIsCalm(c, s, a.completion);
        AcceptKeepsDirty(c, s, a.completion, p);
      }
      RunsKeepDirty(c, After(c, s, a), arrivals[1..], p);
    }
  }

  lemma {:induction false} ReachableIsCalm(c: Config, arrivals: seq<Arrival>)
    ensures var s := SessionSafety.Run(c, NewSession(c), arrivals); Good(c, s) && Calm(c, s)
  {
    hide RecordingOk, Sound, SessionSafety.Run;
    NewIsGood(c);
    RunIsCalm(c, NewSession(c), arrivals);
  }

  /** In every run, workflows under way or not: a draft with unsaved edits stays through
      whatever calls and completions follow, until nothing of it is unsaved or its user
      edits that very feature. */
  lemma {:induction false} UnsavedEditsSurvive(c: Config, before: seq<Arrival>, after: seq<Arrival>, p: Plain)
    ensures var s := SessionSafety.Run(c, NewSession(c), before); KeptUntilSaved(c, s, after, p, EditorOf(s, p).draft)
  {
    hide SessionSafety.Run, KeptUntilSaved;
    ReachableIsCalm(c, before);
    RunsKeepDirty(c, SessionSafety.Run(c, NewSession(c), before), after, p);
  }

  /** The selected macro's unsaved edits likewise survive every single arrival. */
  lemma {:induction false} UnsavedMacrosSurvive(c: Config, before: seq<Arrival>, a: Arrival)
    ensures var s := SessionSafety.Run(c, NewSession(c), before);
      (a.Called? && EditsSlot(s, a.call)) || KeepsDirtySlot(c, s, After(c, s, a))
  {
    hide SessionSafety.Run, KeepsDirtySlot, Serve, Accept, RecordingOk, Calm, Sound;
    ReachableIsCalm(c, before);
    var s := SessionSafety.Run(c, NewSession(c), before);
    if a.Called? { ServeKeepsDirty(c, s, a.call, Keymap); } else { AcceptKeepsDirty(c, s, a.completion, Keymap); }
  }

  /** In every run no completion changes a dirty draft, whatever it completes. */
  lemma {:induction false} CompletionsKeepDirtyDrafts(c: Config, arrivals: seq<Arrival>, completion: Completion, p: Plain)
    ensures var s := SessionSafety.Run(c, NewSession(c), arrivals);
      var t := Accept(c, s, completion).0;
      && (Dirty(c.rules(p), EditorOf(s, p)) ==> EditorOf(t, p).draft == EditorOf(s, p).draft)
      && (Dirty(RulesFor(c.caps, s.slot), s.macros) ==> t.macros.draft == s.macros.draft)
  {
    hide SessionSafety.Run, Accept, RecordingOk, Calm, Sound, Dirty, RulesFor;
    ReachableIsCalm(c, arrivals);
    AcceptKeepsDirty(c, SessionSafety.Run(c, NewSession(c), arrivals), completion, p);
  }
}
