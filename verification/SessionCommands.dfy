/** What the session asks its device for: every command names what is staged, and a save that
    its device carries out settles its editor on exactly what was submitted. */
module SessionCommands {
  import opened Wrappers
  import opened EditorLifecycle
  import opened MacroProgram
  import opened MacroEditing
  import opened MacroLibrary
  import opened SessionModel
  import opened SessionSafety
  import D = SessionDrafts
  import R = Recording

  /** The session waits for this very command. */
  predicate Awaited(t: Session, x: Command, direction: Direction, feature: Feature) {
    t.pending.Some? && t.pending.value.(background := false) == Ticket(x.generation, x.operation, direction, feature, false)
  }

  /** A plain feature's save carries its baseline as what the device must still hold, and the
      planned write of its draft as what to do; the draft is what was submitted. */
  predicate SavesStaged(c: Config, e: PlainEditor, p: Plain, expected: Token, desired: Token) {
    && e.status.Ready? && e.baseline == Some(expected) && e.draft.Some? && e.submitted == e.draft
    && c.rules(p).value(expected) != e.draft && c.rules(p).plan(expected, e.draft.value) == Some(desired)
  }

  /** A macro save carries the slot's baseline and the draft itself. */
  predicate SavesProgram(c: Config, e: MacroEditor, before: MacroSnapshot, program: Program) {
    && e.status.Ready? && e.baseline == Some(before) && e.draft == Some(program) && e.submitted == e.draft
    && (before.content.Programmed? ==> before.content.program != program)
    && ValidProgram(c.caps, program) && c.caps.editableRepeatCounts.Contains(program.repeatCount)
  }

  /** What a session that has just issued a command says of it. */
  predicate Describes(c: Config, t: Session, x: Command) {
    && t.connection == Some(x.generation) && t.operation == x.operation
    && match x.payload
       case ReadPlain(p) => Awaited(t, x, Direction.Reading, Of(p))
       case ApplyPlain(p, expected, desired) => Awaited(t, x, Direction.Saving, Of(p)) && SavesStaged(c, EditorOf(t, p), p, expected, desired)
       case ReadMacro(slot) => slot == t.slot && Awaited(t, x, Direction.Reading, Macro(slot))
       case ApplyMacro(before, program) => Awaited(t, x, Direction.Saving, Macro(t.slot)) && SavesProgram(c, t.macros, before, program)
       case ReadArchive => Awaited(t, x, Direction.Reading, Archive)
       case ReadCatalog(slots) => slots == c.caps.slots && t.library.scan == Some(Scan(x.generation, x.operation, {}))
  }

  /** The command, if there is one, is the next one and says what is staged. */
  predicate Spoken(c: Config, s: Session, r: Reply) {
    r.command.Some? ==> r.ok && r.command.value.operation == s.operation + 1 && Describes(c, r.session, r.command.value)
  }

  // ------------------------------------------------------------ one call

  lemma {:induction false} ReadsSpeak(c: Config, s: Session, feature: Feature)
    ensures Spoken(c, s, ReadFeature(s, feature)) && Spoken(c, s, ObserveFeature(s, feature))
    ensures ReadFeature(s, feature).ok <==> CanBegin(s)
    ensures ReadFeature(s, feature).ok <==> ReadFeature(s, feature).command.Some?
    ensures ReadFeature(s, feature).ok ==> Asks(s, ReadFeature(s, feature).command.value.payload, feature)
    ensures ObserveFeature(s, feature).ok <==> CanBegin(s) && !feature.Archive? && (feature.Macro? ==> feature.slot == s.slot)
    ensures ObserveFeature(s, feature).ok <==> ObserveFeature(s, feature).command.Some?
    ensures ObserveFeature(s, feature).ok ==> Asks(s, ObserveFeature(s, feature).command.value.payload, feature)
  {
  }

  /** A read asks for the feature it is for; a macro read for the selected slot. */
  predicate Asks(s: Session, payload: Payload, feature: Feature) {
    match feature
    case Of(p) => payload == ReadPlain(p)
    case Macro(_) => payload == ReadMacro(s.slot)
    case Archive => payload == ReadArchive
  }

  lemma {:induction false} SavesSpeak(c: Config, s: Session, p: Plain)
    ensures var r, e := SavePlain(c, s, p), EditorOf(s, p);
      && Spoken(c, s, r) && (r.ok <==> r.command.Some?)
      && (r.ok ==> r.command.value.payload.ApplyPlain? && r.command.value.payload.plain == p)
      && (r.ok <==>
            && CanBegin(s) && !SaveBlocked(c, s, p) && e.status.Ready? && e.submitted.None? && Dirty(c.rules(p), e)
            && c.rules(p).plan(e.baseline.value, e.draft.value).Some?)
      && EditorOf(r.session, p) == e.(submitted := if r.ok then e.draft else EditorOf(r.session, p).submitted)
  {
  }

  lemma {:induction false} SlotSavesSpeak(c: Config, s: Session)
    ensures var r, e := SaveSlot(c, s), s.macros;
      && Spoken(c, s, r) && (r.ok <==> r.command.Some?)
      && (r.ok ==> r.command.value.payload.ApplyMacro?)
      && (r.ok <==>
            && CanBegin(s) && e.status.Ready? && e.submitted.None? && Dirty(RulesFor(c.caps, s.slot), e)
            && ValidProgram(c.caps, e.draft.value) && c.caps.editableRepeatCounts.Contains(e.draft.value.repeatCount))
      && r.session.macros == e.(submitted := if r.ok then e.draft else r.session.macros.submitted)
  {
    hide ValidProgram;
  }

  lemma {:induction false} CatalogsSpeak(c: Config, s: Session)
    ensures var r := RequestCatalog(c, s);
      && Spoken(c, s, r) && (r.ok <==> r.command.Some?) && (r.ok ==> r.command.value.payload.ReadCatalog?)
      && (r.ok <==>
            && s.host.Idle? && s.recorder.None? && s.connection.Some? && s.library.scan.None? && s.operation + 1 < COUNTER_LIMIT)
  {
  }

  lemma {:induction false} StagedThenSpoken(c: Config, s: Session, p: Plain, value: Token)
    ensures var staged := StagePlain(c, s, p, value);
      && staged.session.operation == s.operation && staged.command.None?
      && (staged.ok ==> Spoken(c, s, SavePlain(c, staged.session, p)))
      && (staged.ok ==> EditorOf(staged.session, p) == EditorOf(s, p).(draft := c.stage(p, EditorOf(s, p), value)))
  {
    hide SavePlain, Spoken, Editable;
    var staged := StagePlain(c, s, p, value);
    SavesSpeak(c, staged.session, p);
    SameNumber(c, s, staged.session, SavePlain(c, staged.session, p));
  }

  lemma {:induction false} SameNumber(c: Config, s: Session, t: Session, r: Reply)
    requires s.operation == t.operation
    ensures Spoken(c, s, r) == Spoken(c, t, r)
  {
    hide Describes;
  }

  /** A field outside those a command speaks of may change afterwards. */
  lemma {:induction false} SpokenStands(c: Config, s: Session, r: Reply, assignment: Option<Assignment>, preparation: Option<Preparation>)
    requires Spoken(c, s, r)
    ensures Spoken(c, s, r.(session := r.session.(assignment := assignment, preparation := preparation)))
  {
    hide SavesStaged, SavesProgram;
  }

  lemma {:induction false} SilenceIsSpoken(c: Config, s: Session, r: Reply)
    requires r.command.None?
    ensures Spoken(c, s, r)
  {
  }

  lemma {:induction false} PreparationSpeaks(c: Config, s: Session, action: Preparing, applied: bool)
    ensures var r := PrepareNext(c, s, action, applied);
      && Spoken(c, s, r)
      && (r.command.Some? ==> match r.command.value.payload
          case ReadPlain(p) => (action.NeedLighting? && p == Lighting) || ((action.NeedPicture? || action.PictureAlone?) && p == Picture)
          case ApplyPlain(p, _, _) => p == Lighting && action.NeedEffect?
            && r.session.lighting.draft == c.stage(Lighting, s.lighting, action.setting)
          case _ => false)
  {
    hide ReadFeature, StagePlain, SavePlain, Spoken;
    match action
    case CannotPrepare | Prepared => SilenceIsSpoken(c, s, PrepareNext(c, s, action, applied));
    case NeedLighting =>
      ReadsSpeak(c, s, Of(Lighting));
      SpokenStands(c, s, ReadFeature(s, Of(Lighting)), ReadFeature(s, Of(Lighting)).session.assignment, Some(ReadingLighting));
    case NeedEffect(setting) =>
      var staged := StagePlain(c, s, Lighting, setting);
      StagedThenSpoken(c, s, Lighting, setting);
      if staged.ok {
        var saved := SavePlain(c, staged.session, Lighting);
        SavesSpeak(c, staged.session, Lighting);
        SpokenStands(c, s, saved, saved.session.assignment, Some(SavingLighting));
      } else {
        SilenceIsSpoken(c, s, staged);
      }
    case NeedPicture | PictureAlone =>
      ReadsSpeak(c, s, Of(Picture));
      SpokenStands(c, s, ReadFeature(s, Of(Picture)), ReadFeature(s, Of(Picture)).session.assignment, Some(ReadingPicture(applied)));
  }

  lemma {:induction false} AssignmentSpeaks(c: Config, s: Session, request: Token)
    ensures var r := SaveAndAssign(c, s, request);
      && Spoken(c, s, r)
      && (r.command.Some? ==>
            && PlannedAssignment(c, s.keymap, s.macros, request).Some?
            && var plan := PlannedAssignment(c, s.keymap, s.macros, request).value;
               match r.command.value.payload
               case ApplyMacro(_, _) => plan.saveMacro && r.session.assignment == Some(SavingMacro(plan.change))
               case ApplyPlain(p, _, _) => !plan.saveMacro && p == Keymap && r.session.keymap.draft == c.stage(Keymap, s.keymap, plan.change)
               case _ => false)
  {
    hide StagePlain, SavePlain, SaveSlot, Spoken, PlannedAssignment, IsIdle;
    var plan := PlannedAssignment(c, s.keymap, s.macros, request);
    if plan.Some? {
      var saved := SaveSlot(c, s);
      SlotSavesSpeak(c, s);
      SpokenStands(c, s, saved, Some(SavingMacro(plan.value.change)), saved.session.preparation);
      var staged := StagePlain(c, s, Keymap, plan.value.change);
      StagedThenSpoken(c, s, Keymap, plan.value.change);
      SavesSpeak(c, staged.session, Keymap);
      var bound := SavePlain(c, staged.session, Keymap);
      if staged.ok { SpokenStands(c, s, bound, Some(Assigning(false)), bound.session.preparation); } else { SilenceIsSpoken(c, s, staged); }
    }
    if SaveAndAssign(c, s, request).command.None? { SilenceIsSpoken(c, s, SaveAndAssign(c, s, request)); }
  }

  /** What each call may ask for. */
  predicate For(c: Config, s: Session, call: Call, payload: Payload) {
    match call
    case CallRead(feature) => Asks(s, payload, feature)
    case CallObserve(feature) => Asks(s, payload, feature)
    case CallSave(p) => payload.ApplyPlain? && payload.plain == p
    case CallSaveSlot => payload.ApplyMacro?
    case CallCatalog => payload.ReadCatalog?
    case CallPreparePicture =>
      || payload == ReadPlain(Lighting) || payload == ReadPlain(Picture) || (payload.ApplyPlain? && payload.plain == Lighting)
    case CallSaveAndAssign(_) => payload.ApplyMacro? || (payload.ApplyPlain? && payload.plain == Keymap)
    case _ => false
  }

  /** Whatever a call asks of the device is what the call is for, carries the next number and
      says what is staged: a save names its feature, carries the editor's baseline as what must
      still be held and the planned write of its draft, and submits that draft; a read names
      its feature, and a scan every slot. Calls for anything else ask nothing. */
  lemma {:induction false} CallsSayWhatIsStaged(c: Config, s: Session, call: Call)
    ensures var r := Serve(c, s, call);
      Spoken(c, s, r) && (r.command.Some? ==> For(c, s, call, r.command.value.payload))
  {
    hide ReadFeature, ObserveFeature, EditPlain, StagePlain, RevertPlain, SavePlain, EditSlot, ImportSlot, RevertSlot, SelectSlot,
      SaveSlot, RequestCatalog, StartRecording, RecordInput, StopRecording, Connect, Disconnect, StartHost, PreparePicture, SaveAndAssign,
      Spoken;
    match call
    case CallRead(feature) => ReadsSpeak(c, s, feature);
    case CallObserve(feature) => ReadsSpeak(c, s, feature);
    case CallSave(p) => SavesSpeak(c, s, p);
    case CallSaveSlot => SlotSavesSpeak(c, s);
    case CallCatalog => CatalogsSpeak(c, s);
    case CallPreparePicture => PicturesSpeak(c, s);
    case CallSaveAndAssign(request) => AssignmentSpeaks(c, s, request);
    case _ =>
      SilentCalls(c, s, call);
      SilenceIsSpoken(c, s, Serve(c, s, call));
  }

  lemma {:induction false} PicturesSpeak(c: Config, s: Session)
    ensures Spoken(c, s, PreparePicture(c, s))
    ensures PreparePicture(c, s).command.Some? ==> For(c, s, CallPreparePicture, PreparePicture(c, s).command.value.payload)
  {
    hide PrepareNext, Spoken, PlannedPreparation;
    PreparationSpeaks(c, s, PlannedPreparation(c, s.lighting, s.picture), false);
    SilenceIsSpoken(c, s, Refuse(s));
  }

  predicate Asking(call: Call) {
    || call.CallRead? || call.CallObserve? || call.CallSave? || call.CallSaveSlot? || call.CallCatalog?
    || call.CallPreparePicture? || call.CallSaveAndAssign?
  }

  lemma {:induction false} SilentCalls(c: Config, s: Session, call: Call)
    ensures !Asking(call) ==> Serve(c, s, call).command.None?
  {
    hide Edit, Revert, R.New, R.Transition, R.Stop, EndHost, EndSave, InvalidateAll, ReadFeature, ObserveFeature, SavePlain, SaveSlot,
      RequestCatalog, PreparePicture, SaveAndAssign, RulesFor, ValidSnapshotFor;
  }

  // ------------------------------------------------------------ one completion

  /** Likewise whatever a completion lets a workflow ask for next. After the macro save of a
      binding that is the save of the key map with the binding staged; in a picture
      preparation, the lighting or the picture it still needs. */
  lemma {:induction false} CompletionsSayWhatIsStaged(c: Config, s: Session, completion: Completion)
    requires Sound(s)
    ensures var (t, outcome) := Accept(c, s, completion);
      outcome.Continue? ==>
        && outcome.command.operation == s.operation + 1 && Describes(c, t, outcome.command)
        && (match outcome.command.payload
            case ReadPlain(p) => s.preparation.Some? && (p == Lighting || p == Picture)
            case ApplyPlain(p, _, _) =>
              || (p == Lighting && s.preparation.Some? && s.preparation.value.ReadingLighting?)
              || (p == Keymap && s.assignment.Some? && s.assignment.value.SavingMacro?
                  && t.keymap.draft == c.stage(Keymap, s.keymap, s.assignment.value.change))
            case _ => false)
  {
    hide Taken, AssignmentTurn, PreparationTurn, AcceptCatalog, Corresponds, Exclusive, Ticketed, Describes;
    if s.pending.Some? && Taken(c, s, s.pending.value, completion.report).Some? {
      var (next, outcome) := Taken(c, s, s.pending.value, completion.report).value;
      TakenIsSilent(c, s, completion.report);
      D.TakenKeepsOthers(c, s, completion.report);
      TakenKeepsNumber(c, s, completion.report);
      TurnsSpeak(c, next.(pending := None), outcome);
      TurnsSpeak(c, CancelCatalog(next).(pending := None), outcome);
    }
  }

  lemma {:induction false} TakenIsSilent(c: Config, s: Session, report: Report)
    requires s.pending.Some? && Taken(c, s, s.pending.value, report).Some?
    ensures !Taken(c, s, s.pending.value, report).value.1.Continue?
  {
    hide ObserveEditor, RulesFor, Received, PictureFollows;
  }

  lemma {:induction false} TakenKeepsNumber(c: Config, s: Session, report: Report)
    requires s.pending.Some? && Taken(c, s, s.pending.value, report).Some?
    ensures Taken(c, s, s.pending.value, report).value.0.operation == s.operation
  {
    hide ObserveEditor, RulesFor, Received;
    D.PictureKeepsDraft(c, s);
  }

  lemma {:induction false} TurnsSpeak(c: Config, s: Session, outcome: Outcome)
    requires s.pending.None? && !outcome.Continue? && (s.assignment.None? || s.preparation.None?)
    ensures var (bound, result) := AssignmentTurn(c, s, outcome);
      var (t, asked) := PreparationTurn(c, bound, result);
      asked.Continue? ==>
        && asked.command.operation == s.operation + 1 && Describes(c, t, asked.command)
        && (match asked.command.payload
            case ReadPlain(p) => s.preparation.Some? && (p == Lighting || p == Picture)
            case ApplyPlain(p, _, _) =>
              || (p == Lighting && s.preparation.Some? && s.preparation.value.ReadingLighting?)
              || (p == Keymap && s.assignment.Some? && s.assignment.value.SavingMacro?
                  && t.keymap.draft == c.stage(Keymap, s.keymap, s.assignment.value.change))
            case _ => false)
  {
    hide AssignKey, PrepareNext, Describes, PlannedPreparation, Dirty;
    if s.assignment.Some? {
      D.AssignmentTurnKeeps(c, s, outcome);
      if s.assignment.value.SavingMacro? { KeySpeaks(c, s.(assignment := None), s.assignment.value.change); }
    } else if s.preparation.Some? {
      var quiet := s.(preparation := None);
      var state := s.preparation.value;
      PreparationSpeaks(c, quiet, PlannedPreparation(c, quiet.lighting, quiet.picture), state.SavingLighting?);
      PreparationSpeaks(c, quiet, NeedPicture, state.SavingLighting?);
      PreparationSpeaks(c, quiet, CannotPrepare, state.SavingLighting?);
    }
  }

  /** Binding a saved macro stages the binding and saves exactly that key map. */
  lemma {:induction false} KeySpeaks(c: Config, s: Session, change: Token)
    ensures var (t, asked) := AssignKey(c, s, change);
      asked.Continue? ==>
        && asked.command.operation == s.operation + 1 && Describes(c, t, asked.command)
        && asked.command.payload.ApplyPlain? && asked.command.payload.plain == Keymap
        && t.keymap.draft == c.stage(Keymap, s.keymap, change)
  {
  }

  // ------------------------------------------------------------ saves carried out

  /** A device that carries out a write only while it holds what the write expects, and then
      holds what `stored` makes of the two. */
  datatype Store = Store(stored: (Plain, Token, Token) -> Token)

  function Carried(d: Store, holds: Token, p: Plain, expected: Token, desired: Token): (Token, Result<Token, Recovery>) {
    if holds != expected then (holds, Failure(NotAttempted))
    else (d.stored(p, holds, desired), Success(d.stored(p, holds, desired)))
  }

  /** Planned writes have the effect they were planned for. */
  ghost predicate Rebuilds(c: Config, d: Store) {
    forall p: Plain, base: Token, draft: Token, desired: Token {:trigger c.rules(p).plan(base, draft), d.stored(p, base, desired)} ::
      c.rules(p).plan(base, draft) == Some(desired) ==>
        c.rules(p).value(d.stored(p, base, desired)) == Some(draft) && c.rules(p).validate(d.stored(p, base, desired), OfApply)
  }

  /** The completion of a pending save reaches its own editor and no workflow changes that. */
  lemma {:induction false} SaveIsAnswered(c: Config, s: Session, p: Plain, result: Result<Token, Recovery>)
    requires Sound(s) && s.pending.Some? && s.pending.value.direction.Saving? && s.pending.value.feature == Of(p)
    ensures var x := Completion(s.pending.value.generation, s.pending.value.operation, PlainDone(p, FeatureResult.Apply(result)));
      EditorOf(Accept(c, s, x).0, p) == AcceptApply(c.rules(p), EditorOf(s, p), result)
  {
    hide AssignmentTurn, PreparationTurn, AcceptCatalog, AcceptApply, Corresponds, Exclusive, Ticketed, PictureFollows;
    var report := PlainDone(p, FeatureResult.Apply(result));
    var (next, outcome) := Taken(c, s, s.pending.value, report).value;
    D.PictureKeepsDraft(c, s);
    D.TakenKeepsOthers(c, s, report);
    D.TurnsKeep(c, next.(pending := None), outcome);
    D.TurnsKeep(c, CancelCatalog(next).(pending := None), outcome);
  }

  /** A save in any run, carried out by a device that others may have written to: it is
      accepted exactly when the device still holds the editor's baseline; the device then holds
      what was submitted, and the editor ends ready on exactly that. Otherwise the device is
      untouched, and the editor asks for a read with its draft as it was. */
  lemma {:induction false} SavesReachTheDevice(c: Config, arrivals: seq<Arrival>, p: Plain, d: Store, holds: Token)
    requires Rebuilds(c, d)
    ensures var s := SessionSafety.Run(c, NewSession(c), arrivals);
      var r := SavePlain(c, s, p);
      r.ok ==>
        && r.command.Some? && r.command.value.payload.ApplyPlain? && r.command.value.payload.plain == p
        && var x := r.command.value;
           var (after, result) := Carried(d, holds, p, x.payload.expected, x.payload.desired);
           var e := EditorOf(Accept(c, r.session, Completion(x.generation, x.operation, PlainDone(p, FeatureResult.Apply(result)))).0, p);
           && e.draft == EditorOf(s, p).draft && e.draft.Some? && e.submitted.None?
           && (if EditorOf(s, p).baseline == Some(holds) then
                 c.rules(p).value(after) == e.draft && e.baseline == Some(after) && e.status.Ready? && !Dirty(c.rules(p), e)
               else after == holds && e.baseline == EditorOf(s, p).baseline && e.status.Unverified? && Dirty(c.rules(p), e))
  {
    hide SessionSafety.Run, SavePlain, Accept, RecordingOk, Sound;
    D.ReachableIsCalm(c, arrivals);
    var s := SessionSafety.Run(c, NewSession(c), arrivals);
    var r := SavePlain(c, s, p);
    ServeIsGood(c, s, CallSave(p));
    SavesSpeak(c, s, p);
    if r.ok {
      var x := r.command.value;
      var result := Carried(d, holds, p, x.payload.expected, x.payload.desired).1;
      PlannedIsRebuilt(c, d, p, x.payload.expected, EditorOf(s, p).draft.value, x.payload.desired);
      SaveIsAnswered(c, r.session, p, result);
    }
  }

  lemma {:induction false} PlannedIsRebuilt(c: Config, d: Store, p: Plain, base: Token, draft: Token, desired: Token)
    requires Rebuilds(c, d) && c.rules(p).plan(base, draft) == Some(desired)
    ensures c.rules(p).value(d.stored(p, base, desired)) == Some(draft) && c.rules(p).validate(d.stored(p, base, desired), OfApply)
  {
  }
}
