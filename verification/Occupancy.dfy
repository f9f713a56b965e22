/** A session, its FIFO worker and the keyboard together: however calls, completions and
    scan steps interleave, a slot that is not shown as unknown is shown as it is. */
module Occupancy {
  import opened Wrappers
  import opened EditorLifecycle
  import opened MacroProgram
  import opened MacroEditing
  import opened MacroLibrary
  import opened SessionModel
  import opened SessionSafety
  import opened DeviceWorker

  datatype System = System(
    session: Session, queue: seq<Command>, worker: Worker, responses: seq<Completion>, device: Device, active: nat, cancelled: nat)

  /** One atomic step of the whole system. */
  datatype Event =
    | Issue(call: Call)
    | Bounce
    | Deliver
    | Dequeue(hostPending: bool, act: Act)
    | Scan(read: Option<MacroSnapshot>)
    | TakeHost(token: (nat, nat))
    | SetActive(generation: nat)
    | CancelScan(upTo: nat)
    | Retire

  function Enqueue(s: System, session: Session, command: Option<Command>): System {
    s.(session := session, queue := s.queue + (if command.Some? then [command.value] else []))
  }

  function Continued(outcome: Outcome): Option<Command> {
    if outcome.Continue? then Some(outcome.command) else None
  }

  function Receive(c: Config, s: System, completion: Completion): System {
    var (session, outcome) := Accept(c, s.session, completion);
    Enqueue(s, session, Continued(outcome))
  }

  function Worked(s: System, step: DeviceWorker.Step): System {
    s.(worker := step.worker, device := step.device, responses := s.responses + step.sent)
  }

  function Next(c: Config, s: System, e: Event): System {
    match e
    case Issue(call) =>
      var reply := Serve(c, s.session, call);
      Enqueue(s, reply.session, reply.command)
    case Bounce =>
      // the queue refuses the newest command: its failure is reported at once
      if s.queue == [] then s
      else Receive(c, s.(queue := s.queue[..|s.queue| - 1]), RejectionOf(s.queue[|s.queue| - 1], NotAttempted))
    case Deliver =>
      if s.responses == [] then s else Receive(c, s.(responses := s.responses[1..]), s.responses[0])
    case Dequeue(hostPending, act) =>
      if s.queue == [] then s
      else Worked(s.(queue := s.queue[1..]), Handle(s.worker, s.device, s.active, hostPending, s.queue[0], act))
    case Scan(read) => Worked(s, ScanOn(s.worker, s.device, s.active, s.cancelled, read))
    case TakeHost(token) => Worked(s, HostTakes(s.worker, s.device, s.active, token))
    case SetActive(generation) => s.(active := generation)
    case CancelScan(upTo) => s.(cancelled := if upTo > s.cancelled then upTo else s.cancelled)
    case Retire => s.(queue := [], responses := [], worker := Worker(None, None))
  }

  /** The keyboard answers truthfully. */
  ghost predicate Honest(s: System, e: Event) {
    match e
    case Dequeue(_, act) => s.queue != [] ==> HonestAct(s.device, s.queue[0].payload, act)
    case Scan(read) => HonestScan(s.worker, s.device, read)
    case _ => true
  }

  ghost predicate HonestRun(c: Config, s: System, events: seq<Event>)
    decreases |events|
  {
    events == [] || (Honest(s, events[0]) && HonestRun(c, Next(c, s, events[0]), events[1..]))
  }

  function RunAll(c: Config, s: System, events: seq<Event>): System
    decreases |events|
  {
    if events == [] then s else RunAll(c, Next(c, s, events[0]), events[1..])
  }

  function Start(c: Config, device: Device): System {
    System(NewSession(c), [], Worker(None, None), [], device, 0, 0)
  }

  // ------------------------------------------------------------ what sessions do to slots

  predicate AllUnknown(lib: Library) {
    forall slot | slot in lib.slots :: lib.slots[slot] == Unknown
  }

  predicate PendingIs(s: Session, operation: nat) {
    s.pending.Some? && s.pending.value.operation == operation
  }

  predicate SavingSlot(s: Session, slot: string) {
    s.pending.Some? && s.pending.value.direction.Saving? && s.pending.value.feature == Macro(slot)
  }

  /** The selected slot's baseline is that slot's. */
  predicate AtHome(s: Session) {
    s.macros.baseline.Some? ==> s.macros.baseline.value.slot == s.slot
  }

  /** A command carries the newest number; a feature command is the pending one, a macro
      write has ended any scan, and a catalog command is the scan. */
  predicate Issued(s: Session, t: Session, command: Command) {
    && command.operation == s.operation + 1 && t.operation == command.operation
    && match command.payload
       case ReadCatalog(_) => t.pending == s.pending && t.library.scan.Some? && t.library.scan.value.operation == command.operation
       case ApplyMacro(before, _) =>
         PendingIs(t, command.operation) && s.pending.None? && SavingSlot(t, before.slot) && t.library.scan.None?
       case _ => PendingIs(t, command.operation) && s.pending.None?
  }

  predicate SamePending(s: Session, t: Session) {
    && (t.pending.Some? <==> s.pending.Some?)
    && (t.pending.Some? ==> t.pending.value.(background := false) == s.pending.value.(background := false))
  }

  predicate SameScan(s: Session, t: Session) {
    t.library.scan.None? || t.library.scan == s.library.scan
  }

  /** What a call does to tickets, scan and slots. */
  predicate Effects(s: Session, t: Session, command: Option<Command>) {
    && t.operation >= s.operation
    && (command.Some? ==> Issued(s, t, command.value))
    && ((command.Some? && command.value.payload.ReadCatalog?) || SameScan(s, t))
    && ((command.Some? && !command.value.payload.ReadCatalog?) || SamePending(s, t) || (t.pending.None? && AllUnknown(t.library)))
    && (t.library.slots == s.library.slots || AllUnknown(t.library))
    && (AtHome(s) ==> AtHome(t))
  }

  lemma {:induction false} ReadEffects(s: Session, feature: Feature)
    requires Sound(s) && AtHome(s)
    ensures Effects(s, ReadFeature(s, feature).session, ReadFeature(s, feature).command)
    ensures Effects(s, ObserveFeature(s, feature).session, ObserveFeature(s, feature).command)
  {
  }

  lemma {:induction false} DraftEffects(c: Config, s: Session, p: Plain, token: Token)
    requires Sound(s) && AtHome(s)
    ensures Effects(s, EditPlain(c, s, p, token).session, EditPlain(c, s, p, token).command)
    ensures Effects(s, StagePlain(c, s, p, token).session, StagePlain(c, s, p, token).command)
    ensures Effects(s, RevertPlain(c, s, p).session, RevertPlain(c, s, p).command)
    ensures var t := StagePlain(c, s, p, token).session;
      t.operation == s.operation && t.pending == s.pending && t.library == s.library && t.macros == s.macros && t.slot == s.slot
  {
    hide Edit, Revert, With, EditorOf, Effects, Sound;
    var e := EditorOf(s, p);
    var edited, reverted := Edit(c.rules(p), e, token), Revert(c.rules(p), e);
    NoEffects(s);
    if edited.Success? { RedraftEffects(s, p, edited.value); }
    if reverted.Success? { RedraftEffects(s, p, reverted.value); }
    RedraftEffects(s, p, e.(draft := c.stage(p, e, token)));
  }

  lemma {:induction false} NoEffects(s: Session)
    ensures Effects(s, s, None)
  {
  }

  lemma {:induction false} RedraftEffects(s: Session, p: Plain, e: PlainEditor)
    ensures var t := With(s, p, e);
      && Effects(s, t, None)
      && t.operation == s.operation && t.pending == s.pending && t.library == s.library && t.macros == s.macros && t.slot == s.slot
  {
  }

  lemma {:induction false} SaveEffects(c: Config, s: Session, p: Plain)
    requires Sound(s) && AtHome(s)
    ensures Effects(s, SavePlain(c, s, p).session, SavePlain(c, s, p).command)
    ensures SavePlain(c, s, p).command.Some? ==> SavePlain(c, s, p).command.value.payload.ApplyPlain?
  {
    hide RequestApply;
  }

  lemma {:induction false} SlotEffects(c: Config, s: Session, edit: MacroEdit, target: MacroSnapshot, slot: string)
    requires Sound(s) && AtHome(s)
    ensures Effects(s, EditSlot(c, s, edit).session, EditSlot(c, s, edit).command)
    ensures Effects(s, ImportSlot(c, s, target).session, ImportSlot(c, s, target).command)
    ensures Effects(s, RevertSlot(c, s).session, RevertSlot(c, s).command)
    ensures Effects(s, SelectSlot(c, s, slot).session, SelectSlot(c, s, slot).command)
  {
    hide RulesFor, Dirty, ValidSnapshotFor;
  }

  lemma {:induction false} SaveSlotEffects(c: Config, s: Session)
    requires Sound(s) && AtHome(s)
    ensures Effects(s, SaveSlot(c, s).session, SaveSlot(c, s).command)
  {
    hide RulesFor, AllUnknown;
  }

  lemma {:induction false} CatalogEffects(c: Config, s: Session)
    requires Sound(s) && AtHome(s)
    ensures Effects(s, RequestCatalog(c, s).session, RequestCatalog(c, s).command)
    ensures Effects(s, CancelCatalog(s), None) && Effects(s, ConfigurationChanged(s), None)
  {
  }

  lemma {:induction false} RecordingEffects(c: Config, s: Session, policy: R.DelayPolicy, action: Action, now: nat)
    requires Sound(s) && AtHome(s)
    ensures Effects(s, StartRecording(c, s, policy).session, StartRecording(c, s, policy).command)
    ensures Effects(s, RecordInput(c, s, action, now).session, RecordInput(c, s, action, now).command)
    ensures Effects(s, StopRecording(c, s, now).session, StopRecording(c, s, now).command)
  {
    hide R.New, R.Transition, R.Stop, R.Lent, R.StoresWaits;
  }

  lemma {:induction false} ConnectEffects(c: Config, s: Session)
    requires Good(c, s) && AtHome(s)
    ensures Effects(s, Connect(s).session, None)
    ensures Effects(s, Disconnect(c, s).session, None)
  {
    hide EndHost, EndRecording, EndSave, R.Stoppable, Sound;
    DisconnectIsGood(c, s);
    DisconnectKeepsBaseline(c, s);
  }

  lemma {:induction false} DisconnectKeepsBaseline(c: Config, s: Session)
    ensures Disconnect(c, s).session.macros.baseline == s.macros.baseline && Disconnect(c, s).session.slot == s.slot
    ensures AllUnknown(Disconnect(c, s).session.library) && Disconnect(c, s).session.library.scan.None?
    ensures Disconnect(c, s).session.operation == s.operation
  {
    hide R.Stop, R.Lent, R.StoresWaits, RulesFor;
  }

  lemma {:induction false} HostEffects(c: Config, s: Session, mode: Token, ticket: HostTicket, event: HostEvent)
    requires Sound(s) && AtHome(s)
    ensures Effects(s, StartHost(c, s, mode).session, None)
    ensures Effects(s, StopHost(s), None) && Effects(s, AcceptHost(c, s, ticket, event), None)
  {
    hide AcceptRead, AcceptApply;
  }

  lemma {:induction false} PrepareEffects(c: Config, s: Session, action: Preparing, applied: bool)
    requires Sound(s) && AtHome(s)
    ensures var next := PrepareNext(c, s, action, applied);
      Effects(s, next.session, next.command)
      && (next.command.Some? ==> next.command.value.payload.ReadPlain? || next.command.value.payload.ApplyPlain?)
  {
    hide StagePlain, SavePlain, Sound, ReadFeature, AllUnknown;
    PlainReadEffects(s, Lighting);
    PlainReadEffects(s, Picture);
    NoEffects(s);
    if action.NeedEffect? {
      StageIsSound(c, s, Lighting, action.setting);
      DraftEffects(c, s, Lighting, action.setting);
      SaveEffects(c, StagePlain(c, s, Lighting, action.setting).session, Lighting);
    }
  }

  lemma {:induction false} PlainReadEffects(s: Session, p: Plain)
    requires Sound(s) && AtHome(s)
    ensures Effects(s, ReadFeature(s, Of(p)).session, ReadFeature(s, Of(p)).command)
    ensures ReadFeature(s, Of(p)).command.Some? ==> ReadFeature(s, Of(p)).command.value.payload.ReadPlain?
  {
    ReadEffects(s, Of(p));
  }

  lemma {:induction false} WorkflowEffects(c: Config, s: Session, request: Token)
    requires Sound(s) && AtHome(s)
    ensures Effects(s, PreparePicture(c, s).session, PreparePicture(c, s).command)
    ensures Effects(s, SaveAndAssign(c, s, request).session, SaveAndAssign(c, s, request).command)
  {
    hide StagePlain, SavePlain, SaveSlot, PrepareNext, Sound;
    PrepareEffects(c, s, PlannedPreparation(c, s.lighting, s.picture), false);
    SaveSlotEffects(c, s);
    var plan := PlannedAssignment(c, s.keymap, s.macros, request);
    if plan.Some? {
      StageIsSound(c, s, Keymap, plan.value.change);
      DraftEffects(c, s, Keymap, plan.value.change);
      SaveEffects(c, StagePlain(c, s, Keymap, plan.value.change).session, Keymap);
    }
  }

  lemma {:induction false} ServeEffects(c: Config, s: Session, call: Call)
    requires Good(c, s) && AtHome(s)
    ensures Effects(s, Serve(c, s, call).session, Serve(c, s, call).command)
  {
    hide Good, Sound, AtHome, Effects, R.Stoppable, ReadFeature, ObserveFeature, EditPlain, StagePlain, RevertPlain, SavePlain, EditSlot,
      ImportSlot, RevertSlot, SelectSlot, SaveSlot, RequestCatalog, CancelCatalog, ConfigurationChanged, StartRecording, RecordInput,
      StopRecording, Connect, Disconnect, StartHost, StopHost, AcceptHost, PreparePicture, SaveAndAssign;
    GoodIsSound(c, s);
    match call
    case CallRead(feature) => ReadEffects(s, feature);
    case CallObserve(feature) => ReadEffects(s, feature);
    case CallEdit(p, edit) => DraftEffects(c, s, p, edit);
    case CallStage(p, value) => DraftEffects(c, s, p, value);
    case CallRevert(p) => DraftEffects(c, s, p, 0);
    case CallSave(p) => SaveEffects(c, s, p);
    case CallEditSlot(edit) => SlotEffects(c, s, edit, ANY_SNAPSHOT, "");
    case CallImportSlot(target) => SlotEffects(c, s, Clear, target, "");
    case CallRevertSlot => SlotEffects(c, s, Clear, ANY_SNAPSHOT, "");
    case CallSelectSlot(slot) => SlotEffects(c, s, Clear, ANY_SNAPSHOT, slot);
    case CallSaveSlot => SaveSlotEffects(c, s);
    case CallCatalog => CatalogEffects(c, s);
    case CallCancelCatalog => CatalogEffects(c, s);
    case CallConfigurationChanged => CatalogEffects(c, s);
    case CallStartRecording(policy) => RecordingEffects(c, s, policy, Key(0, true), 0);
    case CallRecord(action, now) => RecordingEffects(c, s, R.Fixed(1), action, now);
    case CallStopRecording(now) => RecordingEffects(c, s, R.Fixed(1), Key(0, true), now);
    case CallConnect => ConnectEffects(c, s); ConnectIssuesNothing(c, s);
    case CallDisconnect => ConnectEffects(c, s); ConnectIssuesNothing(c, s);
    case CallStartHost(mode) => HostEffects(c, s, mode, HostTicket(0, 0), Started); HostIssuesNothing(c, s, mode);
    case CallStopHost => HostEffects(c, s, 0, HostTicket(0, 0), Started);
    case CallHostEvent(ticket, event) => HostEffects(c, s, 0, ticket, event);
    case CallPreparePicture => WorkflowEffects(c, s, 0);
    case CallSaveAndAssign(request) => WorkflowEffects(c, s, request);
  }

  lemma {:induction false} ConnectIssuesNothing(c: Config, s: Session)
    ensures Connect(s).command.None? && Disconnect(c, s).command.None?
  {
    hide EndHost, EndRecording, EndSave, InvalidateAll;
  }

  lemma {:induction false} HostIssuesNothing(c: Config, s: Session, mode: Token)
    ensures StartHost(c, s, mode).command.None?
  {
  }

  // ------------------------------------------------------------ what completions do to slots

  /** The occupancy of the selected slot after a completion: kept, forgotten, or that of the
      reported content; forgotten or reported whenever a write may have run. */
  predicate SlotOutcome(before: Occupancy, after: Occupancy, result: FeatureResult<MacroSnapshot>) {
    match result
    case Read(None) => after == before
    case Read(Some(snapshot)) => after == before || after == Classified(snapshot.content)
    case Apply(Success(snapshot)) => after == Unknown || after == Classified(snapshot.content)
    case Apply(Failure(recovery)) => if recovery == Verified || recovery == NotAttempted then after == before else after == Unknown
  }

  lemma {:induction false} SlotObserved(c: Config, s: Session, result: FeatureResult<MacroSnapshot>)
    ensures var editor := Received(RulesFor(c.caps, s.slot), s.macros, result);
      && !editor.status.Unloaded? && (editor.status.Ready? ==> editor.baseline.Some?)
      && (AtHome(s) ==> AtHome(s.(macros := editor)))
      && var slots := ObserveEditor(s.library, editor, s.slot).slots;
         && slots.Keys == s.library.slots.Keys
         && (forall x | x in slots && x != s.slot :: slots[x] == s.library.slots[x])
         && (s.slot in slots ==> SlotOutcome(s.library.slots[s.slot], slots[s.slot], result))
  {
    hide ValidProgram, Dirty;
  }

  /** What accepting a completion does: nothing, a catalog, or the pending ticket's end. */
  predicate Settles(s: Session, t: Session, report: Report)
    requires s.pending.Some?
  {
    && t.library.slots.Keys == s.library.slots.Keys
    && (report.MacroDone? <==> s.pending.value.feature.Macro?)
    && (if report.MacroDone? then
          && s.pending.value.feature == Macro(report.slot) && Answers(s.pending.value.direction, report.image)
          && (forall x | x in t.library.slots && x != s.slot :: t.library.slots[x] == s.library.slots[x])
          && (s.slot in t.library.slots ==> SlotOutcome(s.library.slots[s.slot], t.library.slots[s.slot], report.image))
        else t.library.slots == s.library.slots)
    && (t.library.scan.Some? ==> s.library.scan.Some? && t.library.scan.value.operation == s.library.scan.value.operation)
    && t.operation >= s.operation && (AtHome(s) ==> AtHome(t))
  }

  lemma {:induction false} TakenSlots(c: Config, s: Session, report: Report)
    requires Sound(s) && AtHome(s) && s.pending.Some? && Taken(c, s, s.pending.value, report).Some?
    ensures var t := Taken(c, s, s.pending.value, report).value.0;
      Settles(s, t, report) && t.operation == s.operation
  {
    hide ObserveEditor, RulesFor, Received, PictureFollows, Sound;
    if report.MacroDone? {
      SlotObserved(c, s, report.image);
      ObserveKeepsScan(s.library, Received(RulesFor(c.caps, s.slot), s.macros, report.image), s.slot);
    }
    PictureKeepsMacros(c);
  }

  lemma {:induction false} PictureKeepsMacros(c: Config)
    ensures forall t: Session, outcome: Outcome :: PictureFollows(c, t, outcome) == t.(picture := PictureFollows(c, t, outcome).picture)
  {
  }

  /** A workflow step leaves macros and library alone; it may issue one plain command. */
  predicate Quiet(s: Session, t: Session, command: Option<Command>) {
    && t.library == s.library && t.macros == s.macros && t.slot == s.slot
    && match command
       case Some(issued) =>
         && issued.operation == s.operation + 1 && t.operation == issued.operation && PendingIs(t, issued.operation)
         && (issued.payload.ReadPlain? || issued.payload.ApplyPlain?)
       case None => t.operation == s.operation && t.pending == s.pending
  }

  lemma {:induction false} BeginIsQuiet(c: Config, s: Session, p: Plain, e: PlainEditor, expected: Token, desired: Token)
    ensures var begun := Begin(With(s, p, e), Of(p), Saving, ApplyPlain(p, expected, desired));
      Quiet(s, begun.session, begun.command) && (!begun.ok ==> begun.command.None?)
    ensures var begun := ReadFeature(s, Of(p));
      Quiet(s, begun.session, begun.command) && (!begun.ok ==> begun.command.None?)
  {
  }

  lemma {:induction false} SaveIsQuiet(c: Config, s: Session, p: Plain)
    ensures Quiet(s, SavePlain(c, s, p).session, SavePlain(c, s, p).command)
    ensures !SavePlain(c, s, p).ok ==> SavePlain(c, s, p).command.None?
  {
    hide RequestApply, Begin, With, EditorOf, Quiet;
    var request := RequestApply(c.rules(p), EditorOf(s, p));
    if request.Success? { BeginIsQuiet(c, s, p, request.value.0, request.value.1, request.value.2); }
    NothingIsQuiet(s);
  }

  lemma {:induction false} NothingIsQuiet(s: Session)
    ensures Quiet(s, s, None)
  {
  }

  lemma {:induction false} StageIsQuiet(c: Config, s: Session, p: Plain, value: Token)
    ensures Quiet(s, StagePlain(c, s, p, value).session, None) && StagePlain(c, s, p, value).command.None?
  {
  }

  lemma {:induction false} PrepareIsQuiet(c: Config, s: Session, action: Preparing, applied: bool)
    ensures Quiet(s, PrepareNext(c, s, action, applied).session, PrepareNext(c, s, action, applied).command)
    ensures !PrepareNext(c, s, action, applied).ok ==> PrepareNext(c, s, action, applied).command.None?
  {
    hide SavePlain, ReadFeature, StagePlain;
    BeginIsQuiet(c, s, Lighting, s.lighting, 0, 0);
    BeginIsQuiet(c, s, Picture, s.picture, 0, 0);
    if action.NeedEffect? {
      StageIsQuiet(c, s, Lighting, action.setting);
      SaveIsQuiet(c, StagePlain(c, s, Lighting, action.setting).session, Lighting);
    }
  }

  lemma {:induction false} AssignKeyIsQuiet(c: Config, s: Session, change: Token)
    ensures var (t, outcome) := AssignKey(c, s, change);
      Quiet(s, t, Continued(outcome))
  {
    hide RequestApply, Dirty, Begin;
    var draft := if s.keymap.status.Ready? then c.stage(Keymap, s.keymap, change) else None;
    var request := RequestApply(c.rules(Keymap), s.keymap.(draft := draft));
    if request.Success? {
      BeginIsQuiet(c, s, Keymap, request.value.0, request.value.1, request.value.2);
    }
  }

  lemma {:induction false} TurnsAreQuiet(c: Config, s: Session, outcome: Outcome)
    requires !outcome.Continue? && (s.assignment.None? || s.preparation.None?)
    ensures var (bound, result) := AssignmentTurn(c, s, outcome);
      var (t, last) := PreparationTurn(c, bound, result);
      Quiet(s, t, Continued(last))
  {
    hide AssignKey, PrepareNext;
    if s.assignment.Some? {
      if s.assignment.value.SavingMacro? { AssignKeyIsQuiet(c, s.(assignment := None), s.assignment.value.change); }
      AssignKeepsPreparation(c, s.(assignment := None), if s.assignment.value.SavingMacro? then s.assignment.value.change else 0);
    } else if s.preparation.Some? {
      var t, state := s.(preparation := None), s.preparation.value;
      PrepareIsQuiet(c, t, PlannedPreparation(c, t.lighting, t.picture), state.SavingLighting?);
      PrepareIsQuiet(c, t, NeedPicture, state.SavingLighting?);
      PrepareIsQuiet(c, t, CannotPrepare, state.SavingLighting?);
    }
  }

  lemma {:induction false} AssignKeepsPreparation(c: Config, s: Session, change: Token)
    ensures AssignKey(c, s, change).0.preparation == s.preparation
  {
    hide RequestApply, Dirty;
  }

  /** The four ways a completion can be taken. */
  datatype Kind = Nothing | CatalogEnd | TicketEnd

  predicate MatchesScan(s: Session, completion: Completion) {
    && completion.report.CatalogDone? && s.library.scan.Some?
    && s.library.scan.value.generation == completion.generation && s.library.scan.value.operation == completion.operation
  }

  function KindOf(c: Config, s: Session, completion: Completion): Kind {
    if MatchesScan(s, completion) then CatalogEnd
    else if Accept(c, s, completion).1.Ignored? then Nothing
    else TicketEnd
  }

  lemma {:induction false} AcceptEffects(c: Config, s: Session, completion: Completion)
    requires Good(c, s) && AtHome(s)
    ensures var (t, outcome) := Accept(c, s, completion);
      var command := Continued(outcome);
      && AtHome(t) && t.operation >= s.operation
      && match KindOf(c, s, completion)
         case Nothing => t == s && command.None?
         case CatalogEnd => t == s.(library := AcceptCatalog(s.library, c.caps, completion.report.catalog).0) && command.None?
         case TicketEnd =>
           && PendingIs(s, completion.operation) && Settles(s, t, completion.report) && s.pending.value.generation == completion.generation
           && (match command
               case None => t.pending.None?
               case Some(issued) =>
                 && issued.operation == s.operation + 1 && t.operation == issued.operation && PendingIs(t, issued.operation)
                 && (issued.payload.ReadPlain? || issued.payload.ApplyPlain?))
  {
    hide Taken, AssignmentTurn, PreparationTurn, AcceptCatalog, Sound, R.Stoppable;
    AcceptIsGood(c, s, completion);
    if !MatchesScan(s, completion) && !Accept(c, s, completion).1.Ignored? {
      NotBothWorkflows(s);
      TakenSlots(c, s, completion.report);
      TakenSettles(c, s, completion.report);
      var (next, outcome) := Taken(c, s, s.pending.value, completion.report).value;
      TakenContinuesNothing(c, s, completion.report);
      TurnsAreQuiet(c, next.(pending := None), outcome);
      TurnsAreQuiet(c, CancelCatalog(next).(pending := None), outcome);
    }
  }

  lemma {:induction false} TakenContinuesNothing(c: Config, s: Session, report: Report)
    requires s.pending.Some? && Taken(c, s, s.pending.value, report).Some?
    ensures !Taken(c, s, s.pending.value, report).value.1.Continue?
  {
    hide ObserveEditor, RulesFor, Received, PictureFollows;
  }

  // ------------------------------------------------------------ accepted catalogs

  predicate HoldsFor(d: Device, slot: string, o: Occupancy) {
    slot in d && o == Classified(d[slot])
  }

  ghost predicate AllHonest(d: Device, snapshots: seq<MacroSnapshot>) {
    forall x | x in snapshots :: HonestSnapshot(d, x.slot, x)
  }

  lemma {:induction false} ObserveAllHonest(lib: Library, d: Device, snapshots: seq<MacroSnapshot>, refreshed: set<string>)
    requires AllHonest(d, snapshots)
    ensures var after := ObserveAll(lib, snapshots, refreshed).slots;
      && after.Keys == lib.slots.Keys
      && forall x | x in after :: after[x] == lib.slots[x] || HoldsFor(d, x, after[x])
    decreases |snapshots|
  {
    if snapshots != [] {
      var next := if snapshots[0].slot in refreshed then lib else Observe(lib, snapshots[0]);
      assert HonestSnapshot(d, snapshots[0].slot, snapshots[0]);
      assert AllHonest(d, snapshots[1..]);
      ObserveAllHonest(next, d, snapshots[1..], refreshed);
    }
  }

  lemma {:induction false} CatalogHonest(c: Config, lib: Library, d: Device, result: Option<seq<MacroSnapshot>>)
    requires lib.scan.Some? && (result.Some? ==> AllHonest(d, result.value))
    ensures var after := AcceptCatalog(lib, c.caps, result).0;
      && after.slots.Keys == lib.slots.Keys && after.scan.None?
      && forall x | x in after.slots :: after.slots[x] == lib.slots[x] || HoldsFor(d, x, after.slots[x])
  {
    hide CompleteCatalog;
    if result.Some? {
      ObserveAllHonest(lib.(scan := None), d, result.value, lib.scan.value.refreshed);
      ObserveAllKeepsScan(lib.(scan := None), result.value, lib.scan.value.refreshed);
    }
  }
}
