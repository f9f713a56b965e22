/** The editing session: independently owned editors behind one pending ticket, one
    recording and one host activity. A plain feature's snapshots, values and edits are
    opaque numbers, and its rules, the workflow planners and the checks between features
    are parameters. */
module SessionModel {
  import opened Wrappers
  import opened EditorLifecycle
  import opened MacroProgram
  import opened MacroEditing
  import opened MacroLibrary
  import R = Recording

  type Token = nat

  const COUNTER_LIMIT: nat := 0x1_0000_0000_0000_0000

  datatype Plain = Keymap | Lighting | Picture | Settings

  type PlainEditor = Editor<Token, Token>
  type PlainRules = Rules<Token, Token, Token, Token>

  datatype Preparing = CannotPrepare | Prepared | NeedLighting | NeedEffect(setting: Token) | NeedPicture | PictureAlone

  datatype AssignmentPlan = AssignmentPlan(change: Token, saveMacro: bool, alreadyAssigned: bool)

  datatype Config = Config(
    caps: Capabilities,
    rules: Plain -> PlainRules,
    stage: (Plain, PlainEditor, Token) -> Option<Token>,
    lightingContext: Token -> Option<Token>,
    pictureContext: Token -> Option<Token>,
    selectorBusy: (PlainEditor, PlainEditor) -> bool,
    selectorChange: (PlainEditor, PlainEditor, Token) -> bool,
    hostPlan: (PlainEditor, PlainEditor, Token) -> bool,
    preparation: (PlainEditor, PlainEditor) -> Preparing,
    assignment: (PlainEditor, MacroEditor, Token) -> Option<AssignmentPlan>,
    archiveValid: Token -> bool)

  // ------------------------------------------------------------ commands and completions

  datatype Feature = Of(plain: Plain) | Macro(slot: string) | Archive

  datatype Payload =
    | ReadPlain(plain: Plain)
    | ApplyPlain(plain: Plain, expected: Token, desired: Token)
    | ReadMacro(slot: string)
    | ApplyMacro(before: MacroSnapshot, program: Program)
    | ReadArchive
    | ReadCatalog(slots: seq<string>)

  datatype Command = Command(generation: nat, operation: nat, payload: Payload)

  datatype FeatureResult<+S> = Read(read: Option<S>) | Apply(applied: Result<S, Recovery>)

  datatype Report =
    | PlainDone(plain: Plain, result: FeatureResult<Token>)
    | MacroDone(slot: string, image: FeatureResult<MacroSnapshot>)
    | ArchiveDone(archive: FeatureResult<Token>)
    | CatalogDone(catalog: Option<seq<MacroSnapshot>>)

  datatype Completion = Completion(generation: nat, operation: nat, report: Report)

  datatype HostTicket = HostTicket(generation: nat, operation: nat)

  datatype HostEvent = Started | Finished(restored: Result<Token, Recovery>)

  // ------------------------------------------------------------ the state

  datatype Direction = Reading | Saving

  datatype Ticket = Ticket(generation: nat, operation: nat, direction: Direction, feature: Feature, background: bool)

  datatype Host = Idle | Starting(ticket: HostTicket) | Active(ticket: HostTicket) | Stopping(ticket: HostTicket, whileStarting: bool)

  datatype Assignment = SavingMacro(change: Token) | Assigning(macroSaved: bool)

  datatype Preparation = ReadingLighting | SavingLighting | ReadingPicture(lightingApplied: bool)

  datatype Session = Session(
    keymap: PlainEditor, lighting: PlainEditor, picture: PlainEditor, settings: PlainEditor,
    macros: MacroEditor, slot: string, library: Library,
    connection: Option<nat>, generation: nat, operation: nat, pending: Option<Ticket>,
    recorder: Option<R.Recorder>, host: Host, assignment: Option<Assignment>, preparation: Option<Preparation>)

  datatype Outcome =
    | Ignored
    | CatalogLoaded
    | CatalogFailed
    | Loaded(feature: Feature)
    | Saved(feature: Feature)
    | Conflicted
    | Failed(problem: Problem)
    | ArchiveCaptured
    | ArchiveFailed
    | Continue(command: Command)
    | AssignmentSucceeded(macroSaved: bool)
    | AssignmentFailed(macroSaved: bool)
    | PreparationFailed(lightingApplied: bool)

  /** The session after a call, whether it was accepted, and the command it issued. */
  datatype Reply = Reply(session: Session, ok: bool, command: Option<Command>)

  const FRESH: PlainEditor := Editor(None, None, None, Unloaded)

  function NewSession(c: Config): Session {
    Session(FRESH, FRESH, FRESH, FRESH, Editor(None, None, None, Unloaded), if c.caps.slots == [] then "" else c.caps.slots[0],
            NewLibrary(c.caps.slots), None, 0, 0, None, None, Idle, None, None)
  }

  function EditorOf(s: Session, p: Plain): PlainEditor {
    match p
    case Keymap => s.keymap
    case Lighting => s.lighting
    case Picture => s.picture
    case Settings => s.settings
  }

  function With(s: Session, p: Plain, e: PlainEditor): Session {
    match p
    case Keymap => s.(keymap := e)
    case Lighting => s.(lighting := e)
    case Picture => s.(picture := e)
    case Settings => s.(settings := e)
  }

  function Refuse(s: Session): Reply {
    Reply(s, false, None)
  }

  function Agree(s: Session): Reply {
    Reply(s, true, None)
  }

  // ------------------------------------------------------------ guards and tickets

  predicate IsIdle(s: Session) {
    s.host.Idle? && s.recorder.None? && s.pending.None?
  }

  /** A feature may be edited while idle, during a background read, or during its own save. */
  predicate Editable(s: Session, feature: Feature) {
    && s.preparation.None?
    && (IsIdle(s)
        || (&& s.recorder.None? && s.pending.Some?
            && (s.pending.value.background || (s.pending.value.feature == feature && s.pending.value.direction.Saving?))))
  }

  function CancelSave(s: Session, feature: Feature): Session {
    match feature
    case Of(p) => With(s, p, CancelApply(EditorOf(s, p)))
    case Macro(_) => s.(macros := CancelApply(s.macros))
    case Archive => s
  }

  predicate CanBegin(s: Session) {
    IsIdle(s) && s.connection.Some? && s.operation + 1 < COUNTER_LIMIT
  }

  function Begin(s: Session, feature: Feature, direction: Direction, payload: Payload): Reply {
    if !CanBegin(s) then Refuse(if direction.Saving? then CancelSave(s, feature) else s)
    else
      var generation, operation := s.connection.value, s.operation + 1;
      Reply(s.(operation := operation, pending := Some(Ticket(generation, operation, direction, feature, false))), true,
            Some(Command(generation, operation, payload)))
  }

  // ------------------------------------------------------------ reading, editing and saving

  function ReadFeature(s: Session, feature: Feature): Reply {
    match feature
    case Of(p) => Begin(s, feature, Direction.Reading, ReadPlain(p))
    case Macro(_) => Begin(s, Macro(s.slot), Direction.Reading, ReadMacro(s.slot))
    case Archive => Begin(s, Archive, Direction.Reading, ReadArchive)
  }

  /** A background read: editing goes on meanwhile. */
  function ObserveFeature(s: Session, feature: Feature): Reply {
    if feature.Archive? || (feature.Macro? && feature.slot != s.slot) then Refuse(s)
    else
      var begun := ReadFeature(s, feature);
      if begun.ok && begun.session.pending.Some?
      then begun.(session := begun.session.(pending := Some(begun.session.pending.value.(background := true))))
      else begun
  }

  function EditPlain(c: Config, s: Session, p: Plain, edit: Token): Reply {
    if !Editable(s, Of(p)) || (p.Picture? && c.selectorBusy(s.lighting, s.picture)) then Refuse(s)
    else
      var done := Edit(c.rules(p), EditorOf(s, p), edit);
      if done.Failure? then Refuse(s)
      else if p.Lighting? && s.lighting.draft.Some? && done.value.draft.Some?
              && c.selectorChange(s.lighting, s.picture, done.value.draft.value) then Refuse(s)
      else Agree(With(s, p, done.value))
  }

  /** A whole value put into the draft: a lighting setting, an imported picture, a binding. */
  function StagePlain(c: Config, s: Session, p: Plain, value: Token): Reply {
    if !Editable(s, Of(p)) || !EditorOf(s, p).status.Ready? then Refuse(s)
    else if p.Picture? && c.selectorBusy(s.lighting, s.picture) then Refuse(s)
    else if p.Lighting? && c.selectorChange(s.lighting, s.picture, value) then Refuse(s)
    else
      var draft := c.stage(p, EditorOf(s, p), value);
      if draft.None? then Refuse(s) else Agree(With(s, p, EditorOf(s, p).(draft := draft)))
  }

  function RevertPlain(c: Config, s: Session, p: Plain): Reply {
    if !IsIdle(s) then Refuse(s)
    else
      var done := Revert(c.rules(p), EditorOf(s, p));
      if done.Failure? then Refuse(s) else Agree(With(s, p, done.value))
  }

  predicate SaveBlocked(c: Config, s: Session, p: Plain) {
    || (p.Picture? && c.selectorBusy(s.lighting, s.picture))
    || (p.Lighting? && s.lighting.draft.Some? && c.selectorChange(s.lighting, s.picture, s.lighting.draft.value))
  }

  function SavePlain(c: Config, s: Session, p: Plain): Reply {
    if SaveBlocked(c, s, p) then Refuse(s)
    else
      var request := RequestApply(c.rules(p), EditorOf(s, p));
      if request.Failure? then Refuse(s)
      else
        var (editor, expected, desired) := request.value;
        Begin(With(s, p, editor), Of(p), Saving, ApplyPlain(p, expected, desired))
  }

  function EditSlot(c: Config, s: Session, edit: MacroEdit): Reply {
    if !Editable(s, Macro(s.slot)) then Refuse(s)
    else
      var done := Edit(RulesFor(c.caps, s.slot), s.macros, edit);
      if done.Failure? then Refuse(s) else Agree(s.(macros := done.value))
  }

  /** A program imported from a file made from this very slot and revision. */
  function ImportSlot(c: Config, s: Session, target: MacroSnapshot): Reply {
    var e := s.macros;
    if !IsIdle(s) || !e.status.Ready? || !ValidSnapshotFor(c.caps, target, s.slot) || e.baseline.None? then Refuse(s)
    else if e.baseline.value.revision != target.revision || target.content.OpaqueContent? || e.draft.None? then Refuse(s)
    else if target.content != e.baseline.value.content && !c.caps.editableRepeatCounts.Contains(target.content.program.repeatCount)
    then Refuse(s)
    else Agree(s.(macros := e.(draft := Some(target.content.program))))
  }

  function RevertSlot(c: Config, s: Session): Reply {
    if !IsIdle(s) then Refuse(s)
    else
      var done := Revert(RulesFor(c.caps, s.slot), s.macros);
      if done.Failure? then Refuse(s) else Agree(s.(macros := done.value))
  }

  function SelectSlot(c: Config, s: Session, slot: string): Reply {
    if !IsIdle(s) || slot !in c.caps.slots then Refuse(s)
    else if slot == s.slot then Agree(s)
    else if Dirty(RulesFor(c.caps, s.slot), s.macros) || s.macros.submitted.Some? then Refuse(s)
    else Agree(s.(slot := slot, macros := Editor(None, None, s.macros.submitted, Unloaded)))
  }

  function SaveSlot(c: Config, s: Session): Reply {
    var request := RequestApply(RulesFor(c.caps, s.slot), s.macros);
    if request.Failure? then Refuse(s)
    else
      var (editor, expected, desired) := request.value;
      var begun := Begin(s.(macros := editor), Macro(s.slot), Saving, ApplyMacro(expected, desired));
      if begun.ok then begun.(session := begun.session.(library := Cancel(begun.session.library))) else begun
  }

  // ------------------------------------------------------------ discovery

  function RequestCatalog(c: Config, s: Session): Reply {
    if !s.host.Idle? || s.recorder.Some? || s.connection.None? || s.library.scan.Some? || s.operation + 1 >= COUNTER_LIMIT
    then Refuse(s)
    else
      var generation, operation := s.connection.value, s.operation + 1;
      Reply(s.(operation := operation, library := BeginScan(s.library, generation, operation)), true,
            Some(Command(generation, operation, ReadCatalog(c.caps.slots))))
  }

  function CancelCatalog(s: Session): Session {
    s.(library := Cancel(s.library))
  }

  function ConfigurationChanged(s: Session): Session {
    s.(library := Forgotten(s.library))
  }

  // ------------------------------------------------------------ recording

  function StartRecording(c: Config, s: Session, policy: R.DelayPolicy): Reply {
    if !IsIdle(s) || s.library.scan.Some? || !s.macros.status.Ready? || s.macros.draft.None? then Refuse(s)
    else if !c.caps.editableRepeatCounts.Contains(s.macros.draft.value.repeatCount) then Refuse(s)
    else
      var recorder := R.New(c.caps, s.macros.draft.value, policy);
      if recorder.Failure? then Refuse(s) else Agree(s.(recorder := Some(recorder.value)))
  }

  /** The recorder and its draft, when the one was lent the other. */
  predicate Lent(c: Config, s: Session) {
    s.recorder.Some? && s.macros.draft.Some?
    && R.Lent(s.recorder.value, s.macros.draft.value) && R.StoresWaits(c.caps, s.recorder.value.policy)
  }

  function RecordInput(c: Config, s: Session, action: Action, now: nat): Reply {
    if !Lent(c, s) then Refuse(s)
    else
      var done := R.Transition(R.Take(s.recorder.value, s.macros.draft.value), c.caps, action, now);
      if done.Failure? then Refuse(s)
      else
        var take := done.value.1;
        Agree(s.(recorder := Some(take.recorder), macros := s.macros.(draft := Some(take.draft))))
  }

  function StopRecording(c: Config, s: Session, now: nat): Reply {
    if !Lent(c, s) then Refuse(s)
    else
      var done := R.Stop(R.Take(s.recorder.value, s.macros.draft.value), c.caps, now);
      if done.Failure? then Refuse(s)
      else Agree(s.(recorder := None, macros := s.macros.(draft := Some(done.value.1))))
  }

  // ------------------------------------------------------------ connection

  function InvalidateAll(s: Session): Session {
    s.(keymap := Invalidate(s.keymap), lighting := Invalidate(s.lighting), picture := Invalidate(s.picture),
       settings := Invalidate(s.settings), macros := Invalidate(s.macros), library := Forgotten(s.library))
  }

  function Connect(s: Session): Reply {
    if !IsIdle(s) || s.generation + 1 >= COUNTER_LIMIT then Refuse(s)
    else Agree(InvalidateAll(s.(generation := s.generation + 1, connection := Some(s.generation + 1))))
  }

  function FailSave(c: Config, s: Session, feature: Feature): Session {
    match feature
    case Of(p) => With(s, p, AcceptApply(c.rules(p), EditorOf(s, p), Failure(Recovery.Unverified)))
    case Macro(_) => s.(macros := AcceptApply(RulesFor(c.caps, s.slot), s.macros, Failure(Recovery.Unverified)))
    case Archive => s
  }

  function EndHost(c: Config, s: Session): Session {
    if s.host.Idle? then s
    else FailSave(c, s, Of(Lighting)).(host := Idle)
  }

  function LastTimestamp(r: R.Recorder): nat {
    if r.last.Some? then r.last.value.1 else 0
  }

  function EndRecording(c: Config, s: Session): Reply {
    if s.recorder.Some? then StopRecording(c, s, LastTimestamp(s.recorder.value)) else Agree(s)
  }

  function EndSave(c: Config, s: Session): Session {
    if s.pending.Some? && s.pending.value.direction.Saving? then FailSave(c, s, s.pending.value.feature) else s
  }

  /** The session after the device is gone; `ok` says whether a recording, if any, could be
      stopped. */
  function Disconnect(c: Config, s: Session): Reply {
    var stopped := EndRecording(c, EndHost(c, s));
    var failed := EndSave(c, stopped.session);
    Reply(InvalidateAll(failed.(connection := None, pending := None, assignment := None, preparation := None)), stopped.ok, None)
  }

  // ------------------------------------------------------------ host lighting

  function StartHost(c: Config, s: Session, mode: Token): Reply {
    if !IsIdle(s) || s.connection.None? || s.library.scan.Some? || !c.hostPlan(s.lighting, s.settings, mode)
       || s.operation + 1 >= COUNTER_LIMIT
    then Refuse(s)
    else Agree(s.(operation := s.operation + 1, host := Starting(HostTicket(s.connection.value, s.operation + 1))))
  }

  function StopHost(s: Session): Session {
    match s.host
    case Starting(ticket) => s.(host := Stopping(ticket, true))
    case Active(ticket) => s.(host := Stopping(ticket, false))
    case _ => s
  }

  function Restored(c: Config, s: Session, restored: Result<Token, Recovery>, starting: bool): Session {
    var rules := c.rules(Lighting);
    match restored
    case Failure(recovery) =>
      if !starting || recovery == Recovery.Failed || recovery == Recovery.Unverified
      then s.(lighting := AcceptApply(rules, s.lighting, restored)) else s
    case Success(snapshot) =>
      if !rules.validate(snapshot, OfRead)
      then s.(lighting := AcceptApply(rules, s.lighting, Failure(Recovery.Unverified)))
      else if s.lighting.baseline.None? || !rules.sameBaseline(s.lighting.baseline.value, snapshot)
      then s.(lighting := AcceptApply(rules, s.lighting, Failure(Recovery.Failed)))
      else s.(lighting := AcceptRead(rules, s.lighting, Some(snapshot)))
  }

  function AcceptHost(c: Config, s: Session, ticket: HostTicket, event: HostEvent): Session {
    if s.host.Idle? || s.host.ticket != ticket then s
    else
      match event
      case Started =>
        if s.host.Starting? then s.(host := Active(ticket))
        else if s.host.Stopping? && s.host.whileStarting then s.(host := Stopping(ticket, false))
        else s
      case Finished(restored) =>
        Restored(c, s.(host := Idle), restored, s.host.Starting? || (s.host.Stopping? && s.host.whileStarting))
  }

  // ------------------------------------------------------------ completions

  function Verdict<S>(e: Status<S>, success: Outcome): Outcome {
    match e
    case Conflict(_) => Conflicted
    case Unverified(problem) => Outcome.Failed(problem)
    case _ => success
  }

  function Received<S, V(==), E, W>(rules: Rules<S, V, E, W>, e: Editor<S, V>, result: FeatureResult<S>): Editor<S, V> {
    match result
    case Read(read) => AcceptRead(rules, e, read)
    case Apply(applied) => AcceptApply(rules, e, applied)
  }

  predicate Answers<S>(direction: Direction, result: FeatureResult<S>) {
    direction.Reading? == result.Read?
  }

  function Succeeded(t: Ticket): Outcome {
    if t.direction.Reading? then Loaded(t.feature) else Saved(t.feature)
  }

  /** New lighting shows another picture context: the picture must be read again. */
  function PictureFollows(c: Config, s: Session, outcome: Outcome): Session {
    var shown := if s.lighting.status.Conflict? then Some(s.lighting.status.device) else s.lighting.baseline;
    if outcome.Failed? || shown.None? || s.picture.baseline.None? then s
    else
      var light, picture := c.lightingContext(shown.value), c.pictureContext(s.picture.baseline.value);
      if light.Some? && picture.Some? && light != picture then s.(picture := Invalidate(s.picture)) else s
  }

  /** The editors and library after a completion for the pending ticket; absent when its
      payload is not the one the ticket waits for. */
  function Taken(c: Config, s: Session, t: Ticket, report: Report): Option<(Session, Outcome)> {
    match report
    case ArchiveDone(result) =>
      if t.feature.Archive? && t.direction.Reading? && result.Read? then
        Some((s, if result.read.Some? && c.archiveValid(result.read.value) then ArchiveCaptured else ArchiveFailed))
      else None
    case PlainDone(p, result) =>
      if t.feature == Of(p) && Answers(t.direction, result) then
        var editor := Received(c.rules(p), EditorOf(s, p), result);
        var outcome := Verdict(editor.status, Succeeded(t));
        var next := With(s, p, editor);
        Some((if p.Lighting? then PictureFollows(c, next, outcome) else next, outcome))
      else None
    case MacroDone(slot, result) =>
      if t.feature == Macro(slot) && Answers(t.direction, result) then
        var editor := Received(RulesFor(c.caps, s.slot), s.macros, result);
        var library := ObserveEditor(s.library, editor, s.slot);
        Some((s.(macros := editor, library := library), Verdict(editor.status, Succeeded(t))))
      else None
    case CatalogDone(_) => None
  }

  function Accept(c: Config, s: Session, completion: Completion): (Session, Outcome) {
    var scan := s.library.scan;
    if completion.report.CatalogDone? && scan.Some?
       && scan.value.generation == completion.generation && scan.value.operation == completion.operation
    then
      var (library, loaded) := AcceptCatalog(s.library, c.caps, completion.report.catalog);
      (s.(library := library), if loaded then CatalogLoaded else CatalogFailed)
    else if s.pending.None? || s.pending.value.generation != completion.generation || s.pending.value.operation != completion.operation
    then (s, Ignored)
    else
      var ticket := s.pending.value;
      var taken := Taken(c, s, ticket, completion.report);
      if taken.None? then (s, Ignored)
      else
        var (next, outcome) := taken.value;
        var settled := if ticket.direction.Saving? && outcome.Failed? then CancelCatalog(next) else next;
        var (bound, result) := AssignmentTurn(c, settled.(pending := None), outcome);
        PreparationTurn(c, bound, result)
  }

  // ------------------------------------------------------------ two-step workflows

  /** Binds the saved macro to its key and saves the key map, if that changes anything. */
  function AssignKey(c: Config, s: Session, change: Token): (Session, Outcome) {
    var draft := if s.keymap.status.Ready? then c.stage(Keymap, s.keymap, change) else None;
    if draft.None? then (s, AssignmentFailed(true))
    else
      var staged := s.keymap.(draft := draft);
      if !Dirty(c.rules(Keymap), staged) then (s.(keymap := staged), AssignmentSucceeded(true))
      else
        var request := RequestApply(c.rules(Keymap), staged);
        if request.Failure? then (s.(keymap := staged), AssignmentFailed(true))
        else
          var (editor, expected, desired) := request.value;
          var begun := Begin(s.(keymap := editor), Of(Keymap), Saving, ApplyPlain(Keymap, expected, desired));
          if begun.command.Some? then (begun.session.(assignment := Some(Assigning(true))), Continue(begun.command.value))
          else (begun.session, AssignmentFailed(true))
  }

  function AssignmentTurn(c: Config, s: Session, outcome: Outcome): (Session, Outcome) {
    if s.assignment.None? then (s, outcome)
    else
      var t := s.(assignment := None);
      match s.assignment.value
      case SavingMacro(change) =>
        if outcome.Saved? && outcome.feature.Macro? then AssignKey(c, t, change)
        else if outcome.Failed? then (t, AssignmentFailed(false))
        else (t, outcome)
      case Assigning(macroSaved) =>
        if outcome == Saved(Of(Keymap)) then (t, AssignmentSucceeded(macroSaved))
        else if outcome.Failed? then (t, AssignmentFailed(macroSaved))
        else (t, outcome)
  }

  /** What the preparation does next: nothing to the lighting while it has unsaved edits. */
  function PlannedPreparation(c: Config, lighting: PlainEditor, picture: PlainEditor): Preparing {
    var planned := c.preparation(lighting, picture);
    if (planned.NeedLighting? || planned.NeedEffect?) && Dirty(c.rules(Lighting), lighting) then CannotPrepare else planned
  }

  /** A key is only bound in a key map that is ready and has no unsaved edits. */
  function PlannedAssignment(c: Config, keymap: PlainEditor, macros: MacroEditor, request: Token): Option<AssignmentPlan> {
    if !keymap.status.Ready? || Dirty(c.rules(Keymap), keymap) then None else c.assignment(keymap, macros, request)
  }

  /** Issues the next preparation step; a refusal leaves no preparation under way. */
  function PrepareNext(c: Config, s: Session, action: Preparing, lightingApplied: bool): Reply {
    match action
    case CannotPrepare => Refuse(s)
    case Prepared => Agree(s)
    case NeedLighting =>
      var begun := ReadFeature(s, Of(Lighting));
      if begun.ok then begun.(session := begun.session.(preparation := Some(ReadingLighting))) else begun
    case NeedEffect(setting) =>
      var staged := StagePlain(c, s, Lighting, setting);
      if !staged.ok then staged
      else
        var begun := SavePlain(c, staged.session, Lighting);
        if begun.ok then begun.(session := begun.session.(preparation := Some(SavingLighting))) else begun
    case NeedPicture =>
      var begun := ReadFeature(s, Of(Picture));
      if begun.ok then begun.(session := begun.session.(preparation := Some(ReadingPicture(lightingApplied)))) else begun
    case PictureAlone => ReadFeature(s, Of(Picture))
  }

  function PreparationTurn(c: Config, s: Session, outcome: Outcome): (Session, Outcome) {
    if s.preparation.None? then (s, outcome)
    else
      var t, state := s.(preparation := None), s.preparation.value;
      var applied := state.ReadingPicture? && state.lightingApplied;
      if state.ReadingPicture? && outcome == Loaded(Of(Picture)) then (t, outcome)
      else
        var planned := PlannedPreparation(c, t.lighting, t.picture);
        var action :=
          if state.ReadingLighting? && outcome == Loaded(Of(Lighting)) then planned
          else if state.SavingLighting? && outcome == Saved(Of(Lighting)) then NeedPicture
          else CannotPrepare;
        var next := PrepareNext(c, t, action, state.SavingLighting?);
        if !next.ok then (next.session, PreparationFailed(applied || (state.SavingLighting? && outcome == Saved(Of(Lighting)))))
        else if next.command.Some? then (next.session, Continue(next.command.value))
        else (next.session, Loaded(Of(Picture)))
  }

  function PreparePicture(c: Config, s: Session): Reply {
    if !IsIdle(s) || s.connection.None? then Refuse(s)
    else PrepareNext(c, s, PlannedPreparation(c, s.lighting, s.picture), false)
  }

  function SaveAndAssign(c: Config, s: Session, request: Token): Reply {
    if !IsIdle(s) || s.connection.None? then Refuse(s)
    else
      var plan := PlannedAssignment(c, s.keymap, s.macros, request);
      if plan.None? then Refuse(s)
      else if plan.value.saveMacro then
        var begun := SaveSlot(c, s);
        if begun.ok then begun.(session := begun.session.(assignment := Some(SavingMacro(plan.value.change)))) else begun
      else if plan.value.alreadyAssigned then Refuse(s)
      else
        var staged := StagePlain(c, s, Keymap, plan.value.change);
        if !staged.ok then staged
        else
          var begun := SavePlain(c, staged.session, Keymap);
          if begun.ok then begun.(session := begun.session.(assignment := Some(Assigning(false)))) else begun
  }

  // ------------------------------------------------------------ every call

  datatype Call =
    | CallRead(feature: Feature)
    | CallObserve(feature: Feature)
    | CallEdit(plain: Plain, edit: Token)
    | CallStage(plain: Plain, value: Token)
    | CallRevert(plain: Plain)
    | CallSave(plain: Plain)
    | CallEditSlot(macroEdit: MacroEdit)
    | CallImportSlot(target: MacroSnapshot)
    | CallRevertSlot
    | CallSelectSlot(slot: string)
    | CallSaveSlot
    | CallCatalog
    | CallCancelCatalog
    | CallConfigurationChanged
    | CallStartRecording(policy: R.DelayPolicy)
    | CallRecord(action: Action, now: nat)
    | CallStopRecording(now: nat)
    | CallConnect
    | CallDisconnect
    | CallStartHost(mode: Token)
    | CallStopHost
    | CallHostEvent(ticket: HostTicket, event: HostEvent)
    | CallPreparePicture
    | CallSaveAndAssign(request: Token)

  function Serve(c: Config, s: Session, call: Call): Reply {
    match call
    case CallRead(feature) => ReadFeature(s, feature)
    case CallObserve(feature) => ObserveFeature(s, feature)
    case CallEdit(p, edit) => EditPlain(c, s, p, edit)
    case CallStage(p, value) => StagePlain(c, s, p, value)
    case CallRevert(p) => RevertPlain(c, s, p)
    case CallSave(p) => SavePlain(c, s, p)
    case CallEditSlot(edit) => EditSlot(c, s, edit)
    case CallImportSlot(target) => ImportSlot(c, s, target)
    case CallRevertSlot => RevertSlot(c, s)
    case CallSelectSlot(slot) => SelectSlot(c, s, slot)
    case CallSaveSlot => SaveSlot(c, s)
    case CallCatalog => RequestCatalog(c, s)
    case CallCancelCatalog => Agree(CancelCatalog(s))
    case CallConfigurationChanged => Agree(ConfigurationChanged(s))
    case CallStartRecording(policy) => StartRecording(c, s, policy)
    case CallRecord(action, now) => RecordInput(c, s, action, now)
    case CallStopRecording(now) => StopRecording(c, s, now)
    case CallConnect => Connect(s)
    case CallDisconnect => Disconnect(c, s)
    case CallStartHost(mode) => StartHost(c, s, mode)
    case CallStopHost => Agree(StopHost(s))
    case CallHostEvent(ticket, event) => Agree(AcceptHost(c, s, ticket, event))
    case CallPreparePicture => PreparePicture(c, s)
    case CallSaveAndAssign(request) => SaveAndAssign(c, s, request)
  }
}
