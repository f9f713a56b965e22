/** What every call and every completion keeps true of a session, and what that means over
    whole runs: writes and tickets correspond, no completion counts twice, activities
    exclude one another, and a recording can always be ended. */
module SessionSafety {
  import opened Wrappers
  import opened EditorLifecycle
  import opened MacroProgram
  import opened MacroEditing
  import opened MacroLibrary
  import opened SessionModel

  // ------------------------------------------------------------ the invariant

  predicate Saves(s: Session, p: Plain) {
    s.pending.Some? && s.pending.value.direction.Saving? && s.pending.value.feature == Of(p)
  }

  predicate SavesSlot(s: Session) {
    s.pending.Some? && s.pending.value.direction.Saving? && s.pending.value.feature.Macro?
  }

  /** An editor holds a submitted value exactly while its own save is pending. */
  predicate Corresponds(s: Session) {
    && (s.keymap.submitted.Some? <==> Saves(s, Keymap))
    && (s.lighting.submitted.Some? <==> Saves(s, Lighting))
    && (s.picture.submitted.Some? <==> Saves(s, Picture))
    && (s.settings.submitted.Some? <==> Saves(s, Settings))
    && (s.macros.submitted.Some? <==> SavesSlot(s))
  }

  /** At most one of host lighting, recording and a pending ticket. */
  predicate Exclusive(s: Session) {
    && !(s.pending.Some? && s.recorder.Some?)
    && !(s.pending.Some? && !s.host.Idle?)
    && !(s.recorder.Some? && !s.host.Idle?)
    && (s.library.scan.Some? ==> s.recorder.None? && s.host.Idle?)
  }

  /** Tickets and scans belong to the current connection and carry distinct past numbers. */
  predicate Ticketed(s: Session) {
    && (s.connection.Some? ==> s.connection.value == s.generation)
    && (s.pending.Some? ==>
          && s.connection.Some? && s.pending.value.generation == s.generation && s.pending.value.operation <= s.operation
          && (s.pending.value.feature.Macro? ==> s.pending.value.feature.slot == s.slot)
          && (s.pending.value.feature.Archive? ==> s.pending.value.direction.Reading?)
          && (s.pending.value.background ==> s.pending.value.direction.Reading?))
    && (s.library.scan.Some? ==>
          && s.connection.Some? && s.library.scan.value.generation == s.generation && s.library.scan.value.operation <= s.operation
          && (s.pending.Some? ==> s.pending.value.operation != s.library.scan.value.operation))
  }

  /** A two-step workflow waits for the very ticket it issued. */
  predicate Awaits(s: Session) {
    && (s.assignment.Some? ==> if s.assignment.value.SavingMacro? then SavesSlot(s) else Saves(s, Keymap))
    && (s.preparation.Some? ==>
          match s.preparation.value
          case SavingLighting => Saves(s, Lighting)
          case ReadingLighting =>
            s.pending.Some? && s.pending.value.direction.Reading? && s.pending.value.feature == Of(Lighting)
          case ReadingPicture(_) =>
            s.pending.Some? && s.pending.value.direction.Reading? && s.pending.value.feature == Of(Picture))
  }

  predicate Sound(s: Session) {
    Corresponds(s) && Exclusive(s) && Ticketed(s) && Awaits(s)
  }

  /** A recording owns the draft it was lent and could be stopped right now. */
  ghost predicate RecordingOk(c: Config, s: Session) {
    s.recorder.Some? ==> s.macros.draft.Some? && R.Stoppable(R.Take(s.recorder.value, s.macros.draft.value), c.caps)
  }

  ghost predicate Good(c: Config, s: Session) {
    Sound(s) && RecordingOk(c, s)
  }

  lemma {:induction false} NewIsGood(c: Config)
    ensures Good(c, NewSession(c))
  {
  }

  // ------------------------------------------------------------ editor steps and writes

  /** How each editor step treats the submitted value. */
  lemma {:induction false} SubmittedSteps<S, V, E, W>(
      rules: Rules<S, V, E, W>, e: Editor<S, V>, edit: E, read: Option<S>, applied: Result<S, Recovery>)
    ensures Edit(rules, e, edit).Success? ==> Edit(rules, e, edit).value.submitted == e.submitted
    ensures Revert(rules, e).Success? ==> Revert(rules, e).value.submitted == e.submitted && e.submitted.None?
    ensures RequestApply(rules, e).Success? ==>
      e.submitted.None? && RequestApply(rules, e).value.0.submitted.Some?
      && RequestApply(rules, e).value.0.(submitted := None) == e
    ensures AcceptRead(rules, e, read).submitted == e.submitted && !AcceptRead(rules, e, read).status.Unloaded?
    ensures AcceptApply(rules, e, applied).submitted.None? && !AcceptApply(rules, e, applied).status.Unloaded?
    ensures AcceptRead(rules, e, read).status.Ready? ==> AcceptRead(rules, e, read).baseline.Some?
    ensures AcceptApply(rules, e, applied).status.Ready? ==> AcceptApply(rules, e, applied).baseline.Some?
    ensures Invalidate(e).submitted == e.submitted && Invalidate(e).draft == e.draft && Invalidate(e).baseline == e.baseline
    ensures AcceptApply(rules, e, applied).draft == e.draft
  {
  }

  /** Tickets and scans of `t` are those of `s` or carry numbers `s` had not yet issued. */
  predicate Later(s: Session, t: Session) {
    && t.operation >= s.operation && t.generation >= s.generation
    && (t.pending.Some? ==>
          || (s.pending.Some? && t.pending.value.operation == s.pending.value.operation)
          || t.pending.value.operation > s.operation)
    && (t.library.scan.Some? ==>
          || (s.library.scan.Some? && t.library.scan.value.operation == s.library.scan.value.operation)
          || t.library.scan.value.operation > s.operation)
  }

  /** Recording state is left alone, and numbers only grow. */
  predicate Keeps(s: Session, t: Session) {
    t.recorder == s.recorder && (s.recorder.Some? ==> t.macros.draft == s.macros.draft) && Later(s, t)
  }

  lemma {:induction false} KeepsIsGood(c: Config, s: Session, t: Session)
    requires Good(c, s) && Sound(t) && Keeps(s, t)
    ensures Good(c, t) && Later(s, t)
  {
    hide Sound, R.Stoppable;
  }

  lemma {:induction false} ReadIsSound(s: Session, feature: Feature)
    requires Sound(s)
    ensures var begun := ReadFeature(s, feature);
      && Sound(begun.session) && Keeps(s, begun.session) && (begun.ok <==> begun.command.Some?)
      && (begun.ok ==>
            && IsIdle(s) && begun.session.pending.Some? && begun.session.pending.value.direction.Reading?
            && begun.session.pending.value.feature == (if feature.Macro? then Macro(s.slot) else feature))
      && (!begun.ok ==> begun.session == s)
  {
  }

  lemma {:induction false} ObserveIsSound(s: Session, feature: Feature)
    requires Sound(s)
    ensures Sound(ObserveFeature(s, feature).session) && Keeps(s, ObserveFeature(s, feature).session)
  {
    hide Begin;
    ReadIsSound(s, feature);
  }

  lemma {:induction false} RedraftIsSound(s: Session, p: Plain, e: PlainEditor)
    requires Sound(s) && e.submitted == EditorOf(s, p).submitted
    ensures Sound(With(s, p, e)) && Keeps(s, With(s, p, e))
  {
  }

  lemma {:induction false} EditIsSound(c: Config, s: Session, p: Plain, edit: Token)
    requires Sound(s)
    ensures Sound(EditPlain(c, s, p, edit).session) && Keeps(s, EditPlain(c, s, p, edit).session)
  {
    hide Edit, With, Sound, EditorOf;
    SubmittedSteps(c.rules(p), EditorOf(s, p), edit, None, Failure(Recovery.Unverified));
    var done := Edit(c.rules(p), EditorOf(s, p), edit);
    if done.Success? { RedraftIsSound(s, p, done.value); }
  }

  lemma {:induction false} StageIsSound(c: Config, s: Session, p: Plain, value: Token)
    requires Sound(s)
    ensures var staged := StagePlain(c, s, p, value);
      Sound(staged.session) && Keeps(s, staged.session)
  {
    hide With, Sound, EditorOf;
    RedraftIsSound(s, p, EditorOf(s, p).(draft := c.stage(p, EditorOf(s, p), value)));
  }

  lemma {:induction false} RevertIsSound(c: Config, s: Session, p: Plain)
    requires Sound(s)
    ensures Sound(RevertPlain(c, s, p).session) && Keeps(s, RevertPlain(c, s, p).session)
  {
    hide Revert, With, Sound, EditorOf;
    SubmittedSteps(c.rules(p), EditorOf(s, p), 0, None, Failure(Recovery.Unverified));
    var done := Revert(c.rules(p), EditorOf(s, p));
    if done.Success? { RedraftIsSound(s, p, done.value); }
  }

  lemma {:induction false} SaveIsSound(c: Config, s: Session, p: Plain)
    requires Sound(s)
    ensures var saved := SavePlain(c, s, p);
      && Sound(saved.session) && Keeps(s, saved.session) && (saved.ok <==> saved.command.Some?)
      && (saved.ok ==> IsIdle(s) && Saves(saved.session, p))
      && (!saved.ok ==> saved.session == s)
  {
    hide RequestApply;
    SubmittedSteps(c.rules(p), EditorOf(s, p), 0, None, Failure(Recovery.Unverified));
  }

  lemma {:induction false} EditSlotIsSound(c: Config, s: Session, edit: MacroEdit)
    requires Sound(s)
    ensures Sound(EditSlot(c, s, edit).session) && Keeps(s, EditSlot(c, s, edit).session)
  {
    hide Edit, RulesFor;
    SubmittedSteps(RulesFor(c.caps, s.slot), s.macros, edit, None, Failure(Recovery.Unverified));
  }

  lemma {:induction false} SlotCallsAreSound(c: Config, s: Session, target: MacroSnapshot, slot: string)
    requires Sound(s)
    ensures Sound(ImportSlot(c, s, target).session) && Keeps(s, ImportSlot(c, s, target).session)
    ensures Sound(RevertSlot(c, s).session) && Keeps(s, RevertSlot(c, s).session)
    ensures Sound(SelectSlot(c, s, slot).session) && Keeps(s, SelectSlot(c, s, slot).session)
  {
    hide Revert, RulesFor, ValidSnapshotFor, Dirty;
    SubmittedSteps(RulesFor(c.caps, s.slot), s.macros, Clear, None, Failure(Recovery.Unverified));
  }

  lemma {:induction false} SaveSlotIsSound(c: Config, s: Session)
    requires Sound(s)
    ensures var saved := SaveSlot(c, s);
      && Sound(saved.session) && Keeps(s, saved.session) && (saved.ok <==> saved.command.Some?)
      && (saved.ok ==> IsIdle(s) && SavesSlot(saved.session) && saved.session.library.scan.None?)
      && (!saved.ok ==> saved.session == s)
  {
    hide RequestApply, RulesFor;
    SubmittedSteps(RulesFor(c.caps, s.slot), s.macros, Clear, None, Failure(Recovery.Unverified));
  }

  lemma {:induction false} CatalogCallsAreSound(c: Config, s: Session)
    requires Sound(s)
    ensures Sound(RequestCatalog(c, s).session) && Keeps(s, RequestCatalog(c, s).session)
    ensures Sound(CancelCatalog(s)) && Keeps(s, CancelCatalog(s))
    ensures Sound(ConfigurationChanged(s)) && Keeps(s, ConfigurationChanged(s))
  {
  }

  lemma {:induction false} RecordingCallsAreGood(c: Config, s: Session, policy: R.DelayPolicy, action: Action, now: nat)
    requires Good(c, s)
    ensures Good(c, StartRecording(c, s, policy).session)
    ensures Good(c, RecordInput(c, s, action, now).session)
    ensures Good(c, StopRecording(c, s, now).session)
    ensures s.recorder.Some? ==> StopRecording(c, s, now).ok && StopRecording(c, s, now).session.recorder.None?
    ensures Later(s, StartRecording(c, s, policy).session) && Later(s, RecordInput(c, s, action, now).session)
    ensures Later(s, StopRecording(c, s, now).session)
  {
    hide R.Stop, R.Transition, ValidProgram;
    if s.macros.draft.Some? && R.New(c.caps, s.macros.draft.value, policy).Success? {
      StartIsStoppable(c, s, policy);
    }
    if s.recorder.Some? {
      var take := R.Take(s.recorder.value, s.macros.draft.value);
      R.AfterIsStoppable(take, c.caps, R.Input(action, now));
      R.StopSucceeds(take, c.caps, now);
    }
  }

  lemma {:induction false} StartIsStoppable(c: Config, s: Session, policy: R.DelayPolicy)
    requires s.macros.draft.Some? && R.New(c.caps, s.macros.draft.value, policy).Success?
    ensures R.Stoppable(R.Take(R.New(c.caps, s.macros.draft.value, policy).value, s.macros.draft.value), c.caps)
  {
    hide ValidProgram;
  }

  lemma {:induction false} ConnectIsSound(s: Session)
    requires Sound(s)
    ensures Sound(Connect(s).session) && Keeps(s, Connect(s).session)
  {
  }

  predicate SameDrafts(s: Session, t: Session) {
    && t.keymap.draft == s.keymap.draft && t.lighting.draft == s.lighting.draft
    && t.picture.draft == s.picture.draft && t.settings.draft == s.settings.draft
  }

  lemma {:induction false} FailSaveSteps(c: Config, s: Session, feature: Feature)
    ensures var t := FailSave(c, s, feature);
      && t == s.(keymap := t.keymap, lighting := t.lighting, picture := t.picture, settings := t.settings, macros := t.macros)
      && t.macros.draft == s.macros.draft && SameDrafts(s, t)
      && t.keymap.submitted == (if feature == Of(Keymap) then None else s.keymap.submitted)
      && t.lighting.submitted == (if feature == Of(Lighting) then None else s.lighting.submitted)
      && t.picture.submitted == (if feature == Of(Picture) then None else s.picture.submitted)
      && t.settings.submitted == (if feature == Of(Settings) then None else s.settings.submitted)
      && t.macros.submitted == (if feature.Macro? then None else s.macros.submitted)
  {
    hide AcceptApply, RulesFor;
    SubmittedSteps(RulesFor(c.caps, s.slot), s.macros, Clear, None, Failure(Recovery.Unverified));
    if feature.Of? {
      SubmittedSteps(c.rules(feature.plain), EditorOf(s, feature.plain), 0, None, Failure(Recovery.Unverified));
    }
  }

  lemma {:induction false} EndingHost(c: Config, s: Session)
    requires Good(c, s)
    ensures var t := EndHost(c, s);
      && Good(c, t) && t.host.Idle? && Later(s, t) && SameDrafts(s, t) && t.macros == s.macros && t.recorder == s.recorder
  {
    hide FailSave, R.Stoppable;
    FailSaveSteps(c, s, Of(Lighting));
    assert Of(Lighting) != Of(Keymap) && Of(Lighting) != Of(Picture) && Of(Lighting) != Of(Settings);
    FailSaveOthers(c, s);
  }

  lemma {:induction false} FailSaveOthers(c: Config, s: Session)
    ensures FailSave(c, s, Of(Lighting)).macros == s.macros
  {
  }

  lemma {:induction false} EndingRecording(c: Config, s: Session)
    requires Good(c, s)
    ensures var t := EndRecording(c, s);
      && t.ok && Good(c, t.session) && t.session.host == s.host && t.session.recorder.None? && Later(s, t.session)
      && SameDrafts(s, t.session) && (s.recorder.None? ==> t.session == s)
  {
    hide StopRecording, R.Stoppable;
    if s.recorder.Some? { StopEnds(c, s, LastTimestamp(s.recorder.value)); }
  }

  lemma {:induction false} EndingSave(c: Config, s: Session)
    requires Sound(s)
    ensures var t := EndSave(c, s);
      && t == s.(keymap := t.keymap, lighting := t.lighting, picture := t.picture, settings := t.settings, macros := t.macros)
      && t.keymap.submitted.None? && t.lighting.submitted.None? && t.picture.submitted.None? && t.settings.submitted.None?
      && t.macros.submitted.None? && SameDrafts(s, t) && t.macros.draft == s.macros.draft
  {
    hide FailSave;
    if s.pending.Some? { FailSaveSteps(c, s, s.pending.value.feature); }
  }

  lemma {:induction false} Forgetting(s: Session)
    ensures var t := InvalidateAll(s);
      && t == s.(keymap := t.keymap, lighting := t.lighting, picture := t.picture, settings := t.settings, macros := t.macros, library := Forgotten(s.library))
      && t.keymap.submitted == s.keymap.submitted && t.lighting.submitted == s.lighting.submitted
      && t.picture.submitted == s.picture.submitted && t.settings.submitted == s.settings.submitted
      && t.macros.submitted == s.macros.submitted && SameDrafts(s, t) && t.macros.draft == s.macros.draft
  {
    hide Forgotten;
  }

  /** Losing the device always ends a recording, a host activity and a pending ticket, and
      keeps every draft; only a macro being recorded is settled. */
  lemma {:induction false} DisconnectIsGood(c: Config, s: Session)
    requires Good(c, s)
    ensures var done := Disconnect(c, s);
      && Good(c, done.session) && done.ok && Later(s, done.session)
      && done.session.recorder.None? && done.session.host.Idle? && done.session.pending.None? && done.session.connection.None?
      && SameDrafts(s, done.session) && (s.recorder.None? ==> done.session.macros.draft == s.macros.draft)
  {
    hide EndHost, EndRecording, EndSave, InvalidateAll, R.Stoppable, Forgotten;
    EndingHost(c, s);
    var quiet := EndHost(c, s);
    EndingRecording(c, quiet);
    var stopped := EndRecording(c, quiet).session;
    EndingSave(c, stopped);
    Forgetting(EndSave(c, stopped).(connection := None, pending := None, assignment := None, preparation := None));
    ForgottenSlots(s.library);
    ForgottenSlots(EndSave(c, stopped).library);
  }

  lemma {:induction false} StopEnds(c: Config, s: Session, now: nat)
    requires RecordingOk(c, s) && s.recorder.Some?
    ensures var stopped := StopRecording(c, s, now);
      stopped.ok && stopped.session == s.(recorder := None, macros := s.macros.(draft := stopped.session.macros.draft))
  {
    hide R.Stop, ValidProgram;
    R.StopSucceeds(R.Take(s.recorder.value, s.macros.draft.value), c.caps, now);
  }

  lemma {:induction false} ForgottenSlots(lib: Library)
    ensures Forgotten(lib).scan.None?
  {
  }

  lemma {:induction false} HostCallsAreSound(c: Config, s: Session, mode: Token, ticket: HostTicket, event: HostEvent)
    requires Sound(s)
    ensures Sound(StartHost(c, s, mode).session) && Keeps(s, StartHost(c, s, mode).session)
    ensures Sound(StopHost(s)) && Keeps(s, StopHost(s))
    ensures Sound(AcceptHost(c, s, ticket, event)) && Keeps(s, AcceptHost(c, s, ticket, event))
  {
    hide AcceptRead, AcceptApply;
    var rules := c.rules(Lighting);
    if event.Finished? {
      var read := if event.restored.Success? then Some(event.restored.value) else None;
      SubmittedSteps(rules, s.lighting, 0, read, event.restored);
      SubmittedSteps(rules, s.lighting, 0, None, Failure(Recovery.Unverified));
      SubmittedSteps(rules, s.lighting, 0, None, Failure(Recovery.Failed));
    }
  }

  // ------------------------------------------------------------ workflows

  lemma {:induction false} AssignmentTurnIsSound(c: Config, s: Session, outcome: Outcome)
    requires Sound(s.(assignment := None, preparation := None)) && s.pending.None?
    ensures var (t, result) := AssignmentTurn(c, s, outcome);
      && Keeps(s, t) && t.assignment.None? == t.pending.None? && t.preparation == s.preparation
      && Sound(t.(preparation := None)) && (s.assignment.None? ==> t == s && result == outcome)
      && (!outcome.Ignored? ==> !result.Ignored?)
  {
    hide AssignKey;
    if s.assignment.Some? && s.assignment.value.SavingMacro? {
      AssignKeyKeepsPreparation(c, s.(assignment := None), s.assignment.value.change);
    }
  }

  lemma {:induction false} AssignKeyKeepsPreparation(c: Config, s: Session, change: Token)
    requires Sound(s.(preparation := None)) && s.pending.None? && s.assignment.None?
    ensures var (t, outcome) := AssignKey(c, s, change);
      && Keeps(s, t) && t.assignment.None? == t.pending.None? && t.preparation == s.preparation
      && Sound(t.(preparation := None)) && !outcome.Ignored?
  {
    hide RequestApply, Dirty;
    var draft := if s.keymap.status.Ready? then c.stage(Keymap, s.keymap, change) else None;
    SubmittedSteps(c.rules(Keymap), s.keymap.(draft := draft), 0, None, Failure(Recovery.Unverified));
  }

  lemma {:induction false} PrepareNextIsSound(c: Config, s: Session, action: Preparing, applied: bool)
    requires Sound(s) && s.preparation.None? && s.assignment.None?
    ensures var next := PrepareNext(c, s, action, applied);
      Sound(next.session) && Keeps(s, next.session)
  {
    hide StagePlain, SavePlain, ReadFeature;
    match action
    case CannotPrepare | Prepared =>
    case NeedLighting => ReadIsSound(s, Of(Lighting));
    case NeedPicture | PictureAlone => ReadIsSound(s, Of(Picture));
    case NeedEffect(setting) =>
      StageIsSound(c, s, Lighting, setting);
      StagedKeepsWorkflows(c, s, Lighting, setting);
      SaveIsSound(c, StagePlain(c, s, Lighting, setting).session, Lighting);
  }

  lemma {:induction false} StagedKeepsWorkflows(c: Config, s: Session, p: Plain, value: Token)
    ensures var t := StagePlain(c, s, p, value).session;
      t.preparation == s.preparation && t.assignment == s.assignment && t.recorder == s.recorder && t.macros == s.macros
  {
  }

  lemma {:induction false} PreparationTurnIsSound(c: Config, s: Session, outcome: Outcome)
    requires Sound(s.(preparation := None)) && (s.preparation.Some? ==> s.assignment.None?)
    ensures var (t, result) := PreparationTurn(c, s, outcome);
      && Sound(t) && Keeps(s, t) && (s.preparation.None? ==> t == s && result == outcome)
      && (!outcome.Ignored? ==> !result.Ignored?)
  {
    hide PrepareNext, Sound;
    if s.preparation.Some? {
      var t, state := s.(preparation := None), s.preparation.value;
      var planned := PlannedPreparation(c, t.lighting, t.picture);
      PrepareNextIsSound(c, t, planned, state.SavingLighting?);
      PrepareNextIsSound(c, t, NeedPicture, state.SavingLighting?);
      PrepareNextIsSound(c, t, CannotPrepare, state.SavingLighting?);
    }
  }

  lemma {:induction false} WorkflowCallsAreSound(c: Config, s: Session, request: Token)
    requires Sound(s)
    ensures Sound(PreparePicture(c, s).session) && Keeps(s, PreparePicture(c, s).session)
    ensures Sound(SaveAndAssign(c, s, request).session) && Keeps(s, SaveAndAssign(c, s, request).session)
  {
    hide PrepareNext, StagePlain, SavePlain, SaveSlot;
    if IsIdle(s) && s.connection.Some? {
      PrepareNextIsSound(c, s, PlannedPreparation(c, s.lighting, s.picture), false);
      SaveSlotIsSound(c, s);
      var plan := PlannedAssignment(c, s.keymap, s.macros, request);
      if plan.Some? {
        StageIsSound(c, s, Keymap, plan.value.change);
        StagedKeepsWorkflows(c, s, Keymap, plan.value.change);
        SaveIsSound(c, StagePlain(c, s, Keymap, plan.value.change).session, Keymap);
      }
    }
  }

  // ------------------------------------------------------------ completions

  /** A completion that answers its ticket leaves no value submitted anywhere. */
  lemma {:induction false} TakenSettles(c: Config, s: Session, report: Report)
    requires Sound(s) && s.pending.Some? && Taken(c, s, s.pending.value, report).Some?
    ensures !Taken(c, s, s.pending.value, report).value.1.Ignored?
    ensures var t := Taken(c, s, s.pending.value, report).value.0;
      && t.keymap.submitted.None? && t.lighting.submitted.None? && t.picture.submitted.None? && t.settings.submitted.None?
      && t.macros.submitted.None?
      && t == s.(keymap := t.keymap, lighting := t.lighting, picture := t.picture, settings := t.settings, macros := t.macros, library := t.library)
      && t.library.scan.Some? == s.library.scan.Some?
      && (s.library.scan.Some? ==>
            t.library.scan.value.generation == s.library.scan.value.generation && t.library.scan.value.operation == s.library.scan.value.operation)
  {
    hide AcceptRead, AcceptApply, RulesFor, PictureFollows, ObserveEditor;
    match report
    case PlainDone(p, result) =>
      var rules, e := c.rules(p), EditorOf(s, p);
      SubmittedSteps(rules, e, 0, if result.Read? then result.read else None, if result.Apply? then result.applied else Failure(Recovery.Unverified));
      if s.pending.value.feature == Of(p) && Answers(s.pending.value.direction, result) {
        var editor := Received(rules, e, result);
        PictureFollowsOnly(c, With(s, p, editor), Verdict(editor.status, Succeeded(s.pending.value)));
      }
    case MacroDone(slot, result) =>
      var rules := RulesFor(c.caps, s.slot);
      SubmittedSteps(rules, s.macros, Clear, if result.Read? then result.read else None,
                     if result.Apply? then result.applied else Failure(Recovery.Unverified));
      if s.pending.value.feature == Macro(slot) && Answers(s.pending.value.direction, result) {
        ObserveKeepsScan(s.library, Received(rules, s.macros, result), s.slot);
      }
    case ArchiveDone(_) =>
    case CatalogDone(_) =>
  }

  lemma {:induction false} PictureFollowsOnly(c: Config, s: Session, outcome: Outcome)
    ensures var t := PictureFollows(c, s, outcome);
      t == s.(picture := t.picture) && t.picture.submitted == s.picture.submitted
  {
  }

  lemma {:induction false} ObserveKeepsScan(lib: Library, e: MacroEditor, slot: string)
    requires !e.status.Unloaded? && (e.status.Ready? ==> e.baseline.Some?)
    ensures var t := ObserveEditor(lib, e, slot);
      && t.scan.Some? == lib.scan.Some?
      && (lib.scan.Some? ==> t.scan.value.generation == lib.scan.value.generation && t.scan.value.operation == lib.scan.value.operation)
  {
  }

  lemma {:induction false} SettledIsSound(c: Config, s: Session, report: Report)
    requires Sound(s) && s.pending.Some? && Taken(c, s, s.pending.value, report).Some?
    ensures var t := Taken(c, s, s.pending.value, report).value.0;
      && Sound(t.(pending := None, assignment := None, preparation := None))
      && Sound(CancelCatalog(t).(pending := None, assignment := None, preparation := None))
      && t.recorder.None? && t.assignment == s.assignment && t.preparation == s.preparation
  {
    hide Taken;
    TakenSettles(c, s, report);
  }

  lemma {:induction false} NotBothWorkflows(s: Session)
    requires Sound(s)
    ensures s.assignment.None? || s.preparation.None?
  {
  }

  /** An operation number that was issued and that nothing waits for any more. */
  predicate Spent(s: Session, operation: nat) {
    && operation <= s.operation
    && (s.pending.Some? ==> s.pending.value.operation != operation)
    && (s.library.scan.Some? ==> s.library.scan.value.operation != operation)
  }

  lemma {:induction false} AcceptIsGood(c: Config, s: Session, completion: Completion)
    requires Good(c, s)
    ensures Good(c, Accept(c, s, completion).0) && Later(s, Accept(c, s, completion).0)
    ensures Accept(c, s, completion).1.Ignored? ==> Accept(c, s, completion).0 == s
    ensures !Accept(c, s, completion).1.Ignored? ==> completion.operation <= s.operation && Spent(Accept(c, s, completion).0, completion.operation)
  {
    hide Taken, AssignmentTurn, PreparationTurn, AcceptCatalog, Sound, CancelCatalog;
    TicketsArePast(s);
    if s.library.scan.Some? {
      CatalogIsGood(c, s, completion.report);
    }
    if s.pending.Some? && Taken(c, s, s.pending.value, completion.report).Some? {
      SettledIsSound(c, s, completion.report);
      TakenSettles(c, s, completion.report);
      NotBothWorkflows(s);
      var (next, outcome) := Taken(c, s, s.pending.value, completion.report).value;
      CancelKeepsRest(next);
      WorkflowTurnsAreGood(c, next.(pending := None), outcome);
      WorkflowTurnsAreGood(c, CancelCatalog(next).(pending := None), outcome);
    }
  }

  lemma {:induction false} CancelKeepsRest(s: Session)
    ensures CancelCatalog(s) == s.(library := CancelCatalog(s).library) && CancelCatalog(s).library.scan.None?
  {
  }

  lemma {:induction false} TicketsArePast(s: Session)
    requires Sound(s)
    ensures s.pending.Some? ==> s.pending.value.operation <= s.operation
    ensures s.library.scan.Some? ==> s.library.scan.value.operation <= s.operation
    ensures s.pending.Some? && s.library.scan.Some? ==> s.pending.value.operation != s.library.scan.value.operation
  {
  }

  lemma {:induction false} WorkflowTurnsAreGood(c: Config, s: Session, outcome: Outcome)
    requires Sound(s.(assignment := None, preparation := None)) && s.pending.None? && s.recorder.None?
    requires s.assignment.None? || s.preparation.None?
    ensures var (bound, result) := AssignmentTurn(c, s, outcome);
      && Good(c, PreparationTurn(c, bound, result).0) && Later(s, PreparationTurn(c, bound, result).0)
      && (!outcome.Ignored? ==> !PreparationTurn(c, bound, result).1.Ignored?)
  {
    hide AssignmentTurn, PreparationTurn, Sound;
    AssignmentTurnIsSound(c, s, outcome);
    var (bound, result) := AssignmentTurn(c, s, outcome);
    PreparationTurnIsSound(c, bound, result);
  }

  lemma {:induction false} CatalogIsGood(c: Config, s: Session, report: Report)
    requires Good(c, s) && s.library.scan.Some?
    ensures report.CatalogDone? ==>
      var library := AcceptCatalog(s.library, c.caps, report.catalog).0;
      Good(c, s.(library := library)) && library.scan.None?
  {
    hide CompleteCatalog, R.Stoppable;
    if report.CatalogDone? && report.catalog.Some? {
      ObserveAllKeepsScan(s.library.(scan := None), report.catalog.value, s.library.scan.value.refreshed);
    }
  }

  lemma {:induction false} ObserveAllKeepsScan(lib: Library, snapshots: seq<MacroSnapshot>, refreshed: set<string>)
    ensures ObserveAll(lib, snapshots, refreshed).scan == lib.scan
    ensures ObserveAll(lib, snapshots, refreshed).slots.Keys == lib.slots.Keys
    decreases |snapshots|
  {
    if snapshots != [] {
      ObserveAllKeepsScan(if snapshots[0].slot in refreshed then lib else Observe(lib, snapshots[0]), snapshots[1..], refreshed);
    }
  }

  // ------------------------------------------------------------ whole runs

  predicate PlainCall(call: Call) {
    call.CallRead? || call.CallObserve? || call.CallEdit? || call.CallStage? || call.CallRevert? || call.CallSave?
  }

  lemma {:induction false} PlainCallIsGood(c: Config, s: Session, call: Call)
    requires Good(c, s) && PlainCall(call)
    ensures Good(c, Serve(c, s, call).session) && Later(s, Serve(c, s, call).session)
  {
    hide Good, Sound, Keeps, R.Stoppable, ReadFeature, ObserveFeature, EditPlain, StagePlain, RevertPlain, SavePlain, Later;
    GoodIsSound(c, s);
    match call
    case CallRead(feature) => ReadIsSound(s, feature); KeepsIsGood(c, s, ReadFeature(s, feature).session);
    case CallObserve(feature) => ObserveIsSound(s, feature); KeepsIsGood(c, s, ObserveFeature(s, feature).session);
    case CallEdit(p, edit) => EditIsSound(c, s, p, edit); KeepsIsGood(c, s, EditPlain(c, s, p, edit).session);
    case CallStage(p, value) => StageIsSound(c, s, p, value); KeepsIsGood(c, s, StagePlain(c, s, p, value).session);
    case CallRevert(p) => RevertIsSound(c, s, p); KeepsIsGood(c, s, RevertPlain(c, s, p).session);
    case CallSave(p) => SaveIsSound(c, s, p); KeepsIsGood(c, s, SavePlain(c, s, p).session);
  }

  lemma {:induction false} GoodIsSound(c: Config, s: Session)
    requires Good(c, s)
    ensures Sound(s)
  {
  }

  predicate SlotCall(call: Call) {
    || call.CallEditSlot? || call.CallImportSlot? || call.CallRevertSlot? || call.CallSelectSlot? || call.CallSaveSlot?
    || call.CallCatalog? || call.CallCancelCatalog? || call.CallConfigurationChanged?
  }

  lemma {:induction false} SlotCallIsGood(c: Config, s: Session, call: Call)
    requires Good(c, s) && SlotCall(call)
    ensures Good(c, Serve(c, s, call).session) && Later(s, Serve(c, s, call).session)
  {
    hide Good, Sound, Keeps, EditSlot, ImportSlot, RevertSlot, SelectSlot, SaveSlot, RequestCatalog, CancelCatalog, ConfigurationChanged, Later;
    GoodIsSound(c, s);
    match call
    case CallEditSlot(edit) => EditSlotIsSound(c, s, edit); KeepsIsGood(c, s, EditSlot(c, s, edit).session);
    case CallImportSlot(target) => SlotCallsAreSound(c, s, target, ""); KeepsIsGood(c, s, ImportSlot(c, s, target).session);
    case CallRevertSlot => SlotCallsAreSound(c, s, ANY_SNAPSHOT, ""); KeepsIsGood(c, s, RevertSlot(c, s).session);
    case CallSelectSlot(slot) => SlotCallsAreSound(c, s, ANY_SNAPSHOT, slot); KeepsIsGood(c, s, SelectSlot(c, s, slot).session);
    case CallSaveSlot => SaveSlotIsSound(c, s); KeepsIsGood(c, s, SaveSlot(c, s).session);
    case CallCatalog => CatalogCallsAreSound(c, s); KeepsIsGood(c, s, RequestCatalog(c, s).session);
    case CallCancelCatalog => CatalogCallsAreSound(c, s); KeepsIsGood(c, s, CancelCatalog(s));
    case CallConfigurationChanged => CatalogCallsAreSound(c, s); KeepsIsGood(c, s, ConfigurationChanged(s));
  }

  lemma {:induction false} ActivityCallIsGood(c: Config, s: Session, call: Call)
    requires Good(c, s) && !PlainCall(call) && !SlotCall(call)
    ensures Good(c, Serve(c, s, call).session) && Later(s, Serve(c, s, call).session)
  {
    hide Good, Sound, Keeps, StartRecording, RecordInput, StopRecording, Connect, Disconnect, StartHost, StopHost, AcceptHost,
      PreparePicture, SaveAndAssign, Later;
    GoodIsSound(c, s);
    match call
    case CallStartRecording(policy) => RecordingCallsAreGood(c, s, policy, Key(0, true), 0);
    case CallRecord(action, now) => RecordingCallsAreGood(c, s, R.Fixed(1), action, now);
    case CallStopRecording(now) => RecordingCallsAreGood(c, s, R.Fixed(1), Key(0, true), now);
    case CallConnect => ConnectIsSound(s); KeepsIsGood(c, s, Connect(s).session);
    case CallDisconnect => DisconnectIsGood(c, s);
    case CallStartHost(mode) => HostCallsAreSound(c, s, mode, HostTicket(0, 0), Started); KeepsIsGood(c, s, StartHost(c, s, mode).session);
    case CallStopHost => HostCallsAreSound(c, s, 0, HostTicket(0, 0), Started); KeepsIsGood(c, s, StopHost(s));
    case CallHostEvent(ticket, event) => HostCallsAreSound(c, s, 0, ticket, event); KeepsIsGood(c, s, AcceptHost(c, s, ticket, event));
    case CallPreparePicture => WorkflowCallsAreSound(c, s, 0); KeepsIsGood(c, s, PreparePicture(c, s).session);
    case CallSaveAndAssign(request) => WorkflowCallsAreSound(c, s, request); KeepsIsGood(c, s, SaveAndAssign(c, s, request).session);
  }

  lemma {:induction false} ServeIsGood(c: Config, s: Session, call: Call)
    requires Good(c, s)
    ensures Good(c, Serve(c, s, call).session) && Later(s, Serve(c, s, call).session)
  {
    hide Good, Serve, Later;
    if PlainCall(call) { PlainCallIsGood(c, s, call); } else if SlotCall(call) { SlotCallIsGood(c, s, call); } else { ActivityCallIsGood(c, s, call); }
  }

  const ANY_SNAPSHOT := MacroSnapshot("", "", [], OpaqueContent)

  /** One thing that reaches a session: a call of its user, or a completion. */
  datatype Arrival = Called(call: Call) | Completed(completion: Completion)

  function After(c: Config, s: Session, a: Arrival): Session {
    if a.Called? then Serve(c, s, a.call).session else Accept(c, s, a.completion).0
  }

  function Run(c: Config, s: Session, arrivals: seq<Arrival>): Session
    decreases |arrivals|
  {
    if arrivals == [] then s else Run(c, After(c, s, arrivals[0]), arrivals[1..])
  }

  lemma {:induction false} RunIsGood(c: Config, s: Session, arrivals: seq<Arrival>)
    requires Good(c, s)
    ensures Good(c, Run(c, s, arrivals))
    decreases |arrivals|
  {
    hide Good, Serve, Accept;
    if arrivals != [] {
      if arrivals[0].Called? { ServeIsGood(c, s, arrivals[0].call); } else { AcceptIsGood(c, s, arrivals[0].completion); }
      RunIsGood(c, After(c, s, arrivals[0]), arrivals[1..]);
    }
  }

  /** In every run a feature has a submitted value exactly while its save is the pending
      operation; and recording, host lighting and a pending operation never coincide. */
  lemma {:induction false} WritesMatchTickets(c: Config, arrivals: seq<Arrival>)
    ensures var s := Run(c, NewSession(c), arrivals);
      && (forall p: Plain :: EditorOf(s, p).submitted.Some? <==> Saves(s, p))
      && (s.macros.submitted.Some? <==> SavesSlot(s))
      && Exclusive(s)
      && (s.pending.Some? && s.pending.value.direction.Reading? ==>
            s.macros.submitted.None? && forall p: Plain :: EditorOf(s, p).submitted.None?)
  {
    hide NewSession, Run;
    NewIsGood(c);
    RunIsGood(c, NewSession(c), arrivals);
  }

  /** In every run, losing the device succeeds in ending whatever was under way. */
  lemma {:induction false} DisconnectAlwaysEnds(c: Config, arrivals: seq<Arrival>)
    ensures var s := Run(c, NewSession(c), arrivals);
      var done := Disconnect(c, s);
      && done.ok && done.session.recorder.None? && done.session.host.Idle? && done.session.pending.None?
      && (forall p: Plain :: EditorOf(done.session, p).submitted.None?) && done.session.macros.submitted.None?
  {
    hide NewSession, Run, Disconnect, R.Stoppable;
    NewIsGood(c);
    RunIsGood(c, NewSession(c), arrivals);
    DisconnectIsGood(c, Run(c, NewSession(c), arrivals));
  }

  // ------------------------------------------------------------ stale and repeated completions

  lemma {:induction false} SpentStaysSpent(c: Config, s: Session, arrivals: seq<Arrival>, operation: nat)
    requires Good(c, s) && Spent(s, operation)
    ensures Spent(Run(c, s, arrivals), operation)
    decreases |arrivals|
  {
    hide Good, Serve, Accept;
    if arrivals != [] {
      if arrivals[0].Called? { ServeIsGood(c, s, arrivals[0].call); } else { AcceptIsGood(c, s, arrivals[0].completion); }
      SpentStaysSpent(c, After(c, s, arrivals[0]), arrivals[1..], operation);
    }
  }

  /** No completion takes effect twice: once one had an effect, the same completion, or any
      other one with its operation number, is ignored in every later state. */
  lemma {:induction false} NoCompletionCountsTwice(
      c: Config, before: seq<Arrival>, completion: Completion, after: seq<Arrival>, again: Completion)
    requires again.operation == completion.operation
    ensures var s := Run(c, NewSession(c), before);
      var t := Run(c, Accept(c, s, completion).0, after);
      !Accept(c, s, completion).1.Ignored? ==> Accept(c, t, again) == (t, Ignored)
  {
    hide NewSession, Run, Good, Accept, Taken;
    NewIsGood(c);
    RunIsGood(c, NewSession(c), before);
    var s := Run(c, NewSession(c), before);
    AcceptIsGood(c, s, completion);
    if !Accept(c, s, completion).1.Ignored? {
      SpentStaysSpent(c, Accept(c, s, completion).0, after, completion.operation);
      SpentIsIgnored(c, Run(c, Accept(c, s, completion).0, after), again);
    }
  }

  lemma {:induction false} SpentIsIgnored(c: Config, s: Session, completion: Completion)
    requires Spent(s, completion.operation)
    ensures Accept(c, s, completion) == (s, Ignored)
  {
    hide Taken, AcceptCatalog;
  }

  /** A completion from another connection changes nothing, whatever it carries. */
  lemma {:induction false} OtherGenerationsAreIgnored(c: Config, arrivals: seq<Arrival>, completion: Completion)
    ensures var s := Run(c, NewSession(c), arrivals);
      completion.generation != s.generation || s.connection.None? ==> Accept(c, s, completion) == (s, Ignored)
  {
    hide NewSession, Run, Taken, AcceptCatalog, R.Stoppable;
    NewIsGood(c);
    RunIsGood(c, NewSession(c), arrivals);
  }
}
