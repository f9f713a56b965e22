/** The session object: the same calls on fields updated in place. */
module SessionObject {
  import opened Wrappers
  import opened EditorLifecycle
  import opened MacroProgram
  import opened MacroEditing
  import opened MacroLibrary
  import opened SessionModel

  class EditingSession {
    const c: Config
    var keymap: PlainEditor
    var lighting: PlainEditor
    var picture: PlainEditor
    var settings: PlainEditor
    var macros: MacroEditor
    var slot: string
    var library: Library
    var connection: Option<nat>
    var generation: nat
    var operation: nat
    var pending: Option<Ticket>
    var recorder: Option<R.Recorder>
    var host: Host
    var assignment: Option<Assignment>
    var preparation: Option<Preparation>

    function State(): Session
      reads this
    {
      Session(keymap, lighting, picture, settings, macros, slot, library, connection, generation, operation, pending, recorder, host,
              assignment, preparation)
    }

    constructor (c: Config)
      ensures this.c == c && State() == NewSession(c)
    {
      this.c := c;
      keymap, lighting, picture, settings := FRESH, FRESH, FRESH, FRESH;
      macros, slot := Editor(None, None, None, Unloaded), if c.caps.slots == [] then "" else c.caps.slots[0];
      library := NewLibrary(c.caps.slots);
      connection, generation, operation, pending := None, 0, 0, None;
      recorder, host, assignment, preparation := None, Idle, None, None;
    }

    function At(p: Plain): PlainEditor
      reads this
    {
      EditorOf(State(), p)
    }

    method Put(p: Plain, e: PlainEditor)
      modifies this
      ensures State() == With(old(State()), p, e)
    {
      match p
      case Keymap => keymap := e;
      case Lighting => lighting := e;
      case Picture => picture := e;
      case Settings => settings := e;
    }

    // ---------------------------------------------------------- tickets

    method CancelSave(feature: Feature)
      modifies this
      ensures State() == SessionModel.CancelSave(old(State()), feature)
    {
      match feature
      case Of(p) => Put(p, CancelApply(At(p)));
      case Macro(_) => macros := CancelApply(macros);
      case Archive =>
    }

    method Begin(feature: Feature, direction: Direction, payload: Payload) returns (ok: bool, command: Option<Command>)
      modifies this
      ensures Reply(State(), ok, command) == SessionModel.Begin(old(State()), feature, direction, payload)
    {
      if !CanBegin(State()) {
        if direction.Saving? {
          CancelSave(feature);
        }
        return false, None;
      }
      operation := operation + 1;
      pending := Some(Ticket(connection.value, operation, direction, feature, false));
      return true, Some(Command(connection.value, operation, payload));
    }

    method ReadFeature(feature: Feature) returns (ok: bool, command: Option<Command>)
      modifies this
      ensures Reply(State(), ok, command) == SessionModel.ReadFeature(old(State()), feature)
    {
      match feature
      case Of(p) => ok, command := Begin(feature, Direction.Reading, ReadPlain(p));
      case Macro(_) => ok, command := Begin(Macro(slot), Direction.Reading, ReadMacro(slot));
      case Archive => ok, command := Begin(Archive, Direction.Reading, ReadArchive);
    }

    method Observe(feature: Feature) returns (ok: bool, command: Option<Command>)
      modifies this
      ensures Reply(State(), ok, command) == ObserveFeature(old(State()), feature)
    {
      if feature.Archive? || (feature.Macro? && feature.slot != slot) {
        return false, None;
      }
      ok, command := ReadFeature(feature);
      if ok && pending.Some? {
        pending := Some(pending.value.(background := true));
      }
    }

    // ---------------------------------------------------------- drafts

    method EditPlain(p: Plain, edit: Token) returns (ok: bool)
      modifies this
      ensures Reply(State(), ok, None) == SessionModel.EditPlain(c, old(State()), p, edit)
    {
      if !Editable(State(), Of(p)) || (p.Picture? && c.selectorBusy(lighting, picture)) {
        return false;
      }
      var done := Edit(c.rules(p), At(p), edit);
      if done.Failure? {
        return false;
      }
      if p.Lighting? && lighting.draft.Some? && done.value.draft.Some? && c.selectorChange(lighting, picture, done.value.draft.value) {
        return false;
      }
      Put(p, done.value);
      return true;
    }

    method StagePlain(p: Plain, value: Token) returns (ok: bool)
      modifies this
      ensures Reply(State(), ok, None) == SessionModel.StagePlain(c, old(State()), p, value)
    {
      if !Editable(State(), Of(p)) || !At(p).status.Ready? {
        return false;
      }
      if (p.Picture? && c.selectorBusy(lighting, picture)) || (p.Lighting? && c.selectorChange(lighting, picture, value)) {
        return false;
      }
      var draft := c.stage(p, At(p), value);
      if draft.None? {
        return false;
      }
      Put(p, At(p).(draft := draft));
      return true;
    }

    method RevertPlain(p: Plain) returns (ok: bool)
      modifies this
      ensures Reply(State(), ok, None) == SessionModel.RevertPlain(c, old(State()), p)
    {
      if !IsIdle(State()) {
        return false;
      }
      var done := Revert(c.rules(p), At(p));
      if done.Failure? {
        return false;
      }
      Put(p, done.value);
      return true;
    }

    method SavePlain(p: Plain) returns (ok: bool, command: Option<Command>)
      modifies this
      ensures Reply(State(), ok, command) == SessionModel.SavePlain(c, old(State()), p)
    {
      if SaveBlocked(c, State(), p) {
        return false, None;
      }
      var request := RequestApply(c.rules(p), At(p));
      if request.Failure? {
        return false, None;
      }
      var (editor, expected, desired) := request.value;
      Put(p, editor);
      ok, command := Begin(Of(p), Saving, ApplyPlain(p, expected, desired));
    }

    method EditSlot(edit: MacroEdit) returns (ok: bool)
      modifies this
      ensures Reply(State(), ok, None) == SessionModel.EditSlot(c, old(State()), edit)
    {
      if !Editable(State(), Macro(slot)) {
        return false;
      }
      var done := Edit(RulesFor(c.caps, slot), macros, edit);
      if done.Failure? {
        return false;
      }
      macros := done.value;
      return true;
    }

    method ImportSlot(target: MacroSnapshot) returns (ok: bool)
      modifies this
      ensures Reply(State(), ok, None) == SessionModel.ImportSlot(c, old(State()), target)
    {
      if !IsIdle(State()) || !macros.status.Ready? || !ValidSnapshotFor(c.caps, target, slot) || macros.baseline.None? {
        return false;
      }
      var baseline := macros.baseline.value;
      if baseline.revision != target.revision || target.content.OpaqueContent? || macros.draft.None? {
        return false;
      }
      var program := target.content.program;
      if target.content != baseline.content && !c.caps.editableRepeatCounts.Contains(program.repeatCount) {
        return false;
      }
      macros := macros.(draft := Some(program));
      return true;
    }

    method RevertSlot() returns (ok: bool)
      modifies this
      ensures Reply(State(), ok, None) == SessionModel.RevertSlot(c, old(State()))
    {
      if !IsIdle(State()) {
        return false;
      }
      var done := Revert(RulesFor(c.caps, slot), macros);
      if done.Failure? {
        return false;
      }
      macros := done.value;
      return true;
    }

    method SelectSlot(wanted: string) returns (ok: bool)
      modifies this
      ensures Reply(State(), ok, None) == SessionModel.SelectSlot(c, old(State()), wanted)
    {
      if !IsIdle(State()) || wanted !in c.caps.slots {
        return false;
      }
      if wanted == slot {
        return true;
      }
      if Dirty(RulesFor(c.caps, slot), macros) || macros.submitted.Some? {
        return false;
      }
      slot := wanted;
      macros := Editor(None, None, macros.submitted, Unloaded);
      return true;
    }

    method SaveSlot() returns (ok: bool, command: Option<Command>)
      modifies this
      ensures Reply(State(), ok, command) == SessionModel.SaveSlot(c, old(State()))
    {
      var request := RequestApply(RulesFor(c.caps, slot), macros);
      if request.Failure? {
        return false, None;
      }
      var (editor, expected, desired) := request.value;
      macros := editor;
      ok, command := Begin(Macro(slot), Saving, ApplyMacro(expected, desired));
      if ok {
        CancelCatalog();
      }
    }

    // ---------------------------------------------------------- discovery

    method RequestCatalog() returns (ok: bool, command: Option<Command>)
      modifies this
      ensures Reply(State(), ok, command) == SessionModel.RequestCatalog(c, old(State()))
    {
      if !host.Idle? || recorder.Some? || connection.None? || library.scan.Some? || operation + 1 >= COUNTER_LIMIT {
        return false, None;
      }
      operation := operation + 1;
      library := BeginScan(library, connection.value, operation);
      return true, Some(Command(connection.value, operation, ReadCatalog(c.caps.slots)));
    }

    method CancelCatalog()
      modifies this`library
      ensures State() == SessionModel.CancelCatalog(old(State()))
    {
      library := Cancel(library);
    }

    method ConfigurationChanged()
      modifies this`library
      ensures State() == SessionModel.ConfigurationChanged(old(State()))
    {
      library := Forgotten(library);
    }

    // ---------------------------------------------------------- recording

    method StartRecording(policy: R.DelayPolicy) returns (ok: bool)
      modifies this`recorder
      ensures Reply(State(), ok, None) == SessionModel.StartRecording(c, old(State()), policy)
    {
      if !IsIdle(State()) || library.scan.Some? || !macros.status.Ready? || macros.draft.None? {
        return false;
      }
      if !c.caps.editableRepeatCounts.Contains(macros.draft.value.repeatCount) {
        return false;
      }
      var begun := R.New(c.caps, macros.draft.value, policy);
      if begun.Failure? {
        return false;
      }
      recorder := Some(begun.value);
      return true;
    }

    method RecordInput(action: Action, now: nat) returns (ok: bool)
      modifies this`recorder, this`macros
      ensures Reply(State(), ok, None) == SessionModel.RecordInput(c, old(State()), action, now)
    {
      if !Lent(c, State()) {
        return false;
      }
      var done := R.Transition(R.Take(recorder.value, macros.draft.value), c.caps, action, now);
      if done.Failure? {
        return false;
      }
      recorder := Some(done.value.1.recorder);
      macros := macros.(draft := Some(done.value.1.draft));
      return true;
    }

    method StopRecording(now: nat) returns (ok: bool)
      modifies this`recorder, this`macros
      ensures Reply(State(), ok, None) == SessionModel.StopRecording(c, old(State()), now)
    {
      if !Lent(c, State()) {
        return false;
      }
      var done := R.Stop(R.Take(recorder.value, macros.draft.value), c.caps, now);
      if done.Failure? {
        return false;
      }
      macros := macros.(draft := Some(done.value.1));
      recorder := None;
      return true;
    }

    // ---------------------------------------------------------- connection and host lighting

    method InvalidateAll()
      modifies this
      ensures State() == SessionModel.InvalidateAll(old(State()))
    {
      hide Invalidate, Forgotten;
      keymap, macros := Invalidate(keymap), Invalidate(macros);
      lighting, picture, settings := Invalidate(lighting), Invalidate(picture), Invalidate(settings);
      library := Forgotten(library);
    }

    method Connect() returns (ok: bool)
      modifies this
      ensures Reply(State(), ok, None) == SessionModel.Connect(old(State()))
    {
      if !IsIdle(State()) || generation + 1 >= COUNTER_LIMIT {
        return false;
      }
      generation := generation + 1;
      connection := Some(generation);
      InvalidateAll();
      return true;
    }

    method FailSave(feature: Feature)
      modifies this
      ensures State() == SessionModel.FailSave(c, old(State()), feature)
    {
      match feature
      case Of(p) => Put(p, AcceptApply(c.rules(p), At(p), Failure(Recovery.Unverified)));
      case Macro(_) => macros := AcceptApply(RulesFor(c.caps, slot), macros, Failure(Recovery.Unverified));
      case Archive =>
    }

    method EndHost()
      modifies this
      ensures State() == SessionModel.EndHost(c, old(State()))
    {
      if !host.Idle? {
        FailSave(Of(Lighting));
        host := Idle;
      }
    }

    method EndRecording() returns (ok: bool)
      modifies this`recorder, this`macros
      ensures Reply(State(), ok, None) == SessionModel.EndRecording(c, old(State()))
    {
      ok := true;
      if recorder.Some? {
        ok := StopRecording(LastTimestamp(recorder.value));
      }
    }

    method EndSave()
      modifies this
      ensures State() == SessionModel.EndSave(c, old(State()))
    {
      if pending.Some? && pending.value.direction.Saving? {
        FailSave(pending.value.feature);
      }
    }

    method Disconnect() returns (ok: bool)
      modifies this
      ensures Reply(State(), ok, None) == SessionModel.Disconnect(c, old(State()))
    {
      hide SessionModel.EndHost, SessionModel.EndRecording, SessionModel.EndSave, SessionModel.InvalidateAll;
      EndHost();
      ok := EndRecording();
      EndSave();
      connection, pending, assignment, preparation := None, None, None, None;
      InvalidateAll();
    }

    method StartHost(mode: Token) returns (ok: bool)
      modifies this`operation, this`host
      ensures Reply(State(), ok, None) == SessionModel.StartHost(c, old(State()), mode)
    {
      if !IsIdle(State()) || connection.None? || library.scan.Some? || !c.hostPlan(lighting, settings, mode)
         || operation + 1 >= COUNTER_LIMIT
      {
        return false;
      }
      operation := operation + 1;
      host := Starting(HostTicket(connection.value, operation));
      return true;
    }

    method StopHost()
      modifies this`host
      ensures State() == SessionModel.StopHost(old(State()))
    {
      match host {
        case Starting(ticket) => host := Stopping(ticket, true);
        case Active(ticket) => host := Stopping(ticket, false);
        case Idle =>
        case Stopping(_, _) =>
      }
    }

    method AcceptHost(ticket: HostTicket, event: HostEvent)
      modifies this`host, this`lighting
      ensures State() == SessionModel.AcceptHost(c, old(State()), ticket, event)
    {
      if host.Idle? || host.ticket != ticket {
        return;
      }
      match event
      case Started =>
        if host.Starting? {
          host := Active(ticket);
        } else if host.Stopping? && host.whileStarting {
          host := Stopping(ticket, false);
        }
      case Finished(restored) =>
        var starting := host.Starting? || (host.Stopping? && host.whileStarting);
        host := Idle;
        var rules := c.rules(Lighting);
        if restored.Failure? {
          if !starting || restored.error == Recovery.Failed || restored.error == Recovery.Unverified {
            lighting := AcceptApply(rules, lighting, restored);
          }
        } else if !rules.validate(restored.value, OfRead) {
          lighting := AcceptApply(rules, lighting, Failure(Recovery.Unverified));
        } else if lighting.baseline.None? || !rules.sameBaseline(lighting.baseline.value, restored.value) {
          lighting := AcceptApply(rules, lighting, Failure(Recovery.Failed));
        } else {
          lighting := AcceptRead(rules, lighting, Some(restored.value));
        }
    }

    // ---------------------------------------------------------- completions

    /** The editors and library take a completion for the pending ticket. */
    method Take(ticket: Ticket, report: Report) returns (outcome: Option<Outcome>)
      modifies this
      ensures var taken := Taken(c, old(State()), ticket, report);
        if taken.Some? then outcome == Some(taken.value.1) && State() == taken.value.0
        else outcome.None? && State() == old(State())
    {
      match report
      case ArchiveDone(result) =>
        if !(ticket.feature.Archive? && ticket.direction.Reading? && result.Read?) {
          return None;
        }
        return Some(if result.read.Some? && c.archiveValid(result.read.value) then ArchiveCaptured else ArchiveFailed);
      case PlainDone(p, result) =>
        if ticket.feature != Of(p) || !Answers(ticket.direction, result) {
          return None;
        }
        Put(p, Received(c.rules(p), At(p), result));
        var verdict := Verdict(At(p).status, Succeeded(ticket));
        if p.Lighting? {
          var followed := PictureFollows(c, State(), verdict);
          picture := followed.picture;
        }
        return Some(verdict);
      case MacroDone(done, result) =>
        if ticket.feature != Macro(done) || !Answers(ticket.direction, result) {
          return None;
        }
        macros := Received(RulesFor(c.caps, slot), macros, result);
        library := ObserveEditor(library, macros, slot);
        return Some(Verdict(macros.status, Succeeded(ticket)));
      case CatalogDone(_) => return None;
    }

    method Accept(completion: Completion) returns (outcome: Outcome)
      modifies this
      ensures (State(), outcome) == SessionModel.Accept(c, old(State()), completion)
    {
      var scan := library.scan;
      if completion.report.CatalogDone? && scan.Some?
         && scan.value.generation == completion.generation && scan.value.operation == completion.operation
      {
        var (next, loaded) := AcceptCatalog(library, c.caps, completion.report.catalog);
        library := next;
        return if loaded then CatalogLoaded else CatalogFailed;
      }
      if pending.None? || pending.value.generation != completion.generation || pending.value.operation != completion.operation {
        return Ignored;
      }
      var ticket := pending.value;
      var taken := Take(ticket, completion.report);
      if taken.None? {
        return Ignored;
      }
      if ticket.direction.Saving? && taken.value.Failed? {
        CancelCatalog();
      }
      pending := None;
      outcome := AssignmentTurn(taken.value);
      outcome := PreparationTurn(outcome);
    }

    // ---------------------------------------------------------- two-step workflows

    method AssignKey(change: Token) returns (outcome: Outcome)
      modifies this
      ensures (State(), outcome) == SessionModel.AssignKey(c, old(State()), change)
    {
      var draft := if keymap.status.Ready? then c.stage(Keymap, keymap, change) else None;
      if draft.None? {
        return AssignmentFailed(true);
      }
      keymap := keymap.(draft := draft);
      if !Dirty(c.rules(Keymap), keymap) {
        return AssignmentSucceeded(true);
      }
      var request := RequestApply(c.rules(Keymap), keymap);
      if request.Failure? {
        return AssignmentFailed(true);
      }
      var (editor, expected, desired) := request.value;
      keymap := editor;
      var ok, command := Begin(Of(Keymap), Saving, ApplyPlain(Keymap, expected, desired));
      if command.None? {
        return AssignmentFailed(true);
      }
      assignment := Some(Assigning(true));
      return Continue(command.value);
    }

    method AssignmentTurn(outcome: Outcome) returns (after: Outcome)
      modifies this
      ensures (State(), after) == SessionModel.AssignmentTurn(c, old(State()), outcome)
    {
      if assignment.None? {
        return outcome;
      }
      var taken := assignment.value;
      assignment := None;
      match taken
      case SavingMacro(change) =>
        if outcome.Saved? && outcome.feature.Macro? {
          after := AssignKey(change);
        } else {
          after := if outcome.Failed? then AssignmentFailed(false) else outcome;
        }
      case Assigning(macroSaved) =>
        after :=
          if outcome == Saved(Of(Keymap)) then AssignmentSucceeded(macroSaved)
          else if outcome.Failed? then AssignmentFailed(macroSaved)
          else outcome;
    }

    method PrepareNext(action: Preparing, lightingApplied: bool) returns (ok: bool, command: Option<Command>)
      modifies this
      ensures Reply(State(), ok, command) == SessionModel.PrepareNext(c, old(State()), action, lightingApplied)
    {
      match action
      case CannotPrepare => return false, None;
      case Prepared => return true, None;
      case NeedLighting =>
        ok, command := ReadFeature(Of(Lighting));
        if ok {
          preparation := Some(ReadingLighting);
        }
      case NeedEffect(setting) =>
        ok := StagePlain(Lighting, setting);
        if !ok {
          return false, None;
        }
        ok, command := SavePlain(Lighting);
        if ok {
          preparation := Some(SavingLighting);
        }
      case NeedPicture =>
        ok, command := ReadFeature(Of(Picture));
        if ok {
          preparation := Some(ReadingPicture(lightingApplied));
        }
      case PictureAlone => ok, command := ReadFeature(Of(Picture));
    }

    method PreparationTurn(outcome: Outcome) returns (after: Outcome)
      modifies this
      ensures (State(), after) == SessionModel.PreparationTurn(c, old(State()), outcome)
    {
      if preparation.None? {
        return outcome;
      }
      var state := preparation.value;
      preparation := None;
      var applied := state.ReadingPicture? && state.lightingApplied;
      if state.ReadingPicture? && outcome == Loaded(Of(Picture)) {
        return outcome;
      }
      var switched := state.SavingLighting? && outcome == Saved(Of(Lighting));
      var action :=
        if state.ReadingLighting? && outcome == Loaded(Of(Lighting)) then PlannedPreparation(c, lighting, picture)
        else if switched then NeedPicture
        else CannotPrepare;
      var ok, command := PrepareNext(action, state.SavingLighting?);
      after :=
        if !ok then PreparationFailed(applied || switched)
        else if command.Some? then Continue(command.value)
        else Loaded(Of(Picture));
    }

    method PreparePicture() returns (ok: bool, command: Option<Command>)
      modifies this
      ensures Reply(State(), ok, command) == SessionModel.PreparePicture(c, old(State()))
    {
      if !IsIdle(State()) || connection.None? {
        return false, None;
      }
      ok, command := PrepareNext(PlannedPreparation(c, lighting, picture), false);
    }

    method SaveAndAssign(request: Token) returns (ok: bool, command: Option<Command>)
      modifies this
      ensures Reply(State(), ok, command) == SessionModel.SaveAndAssign(c, old(State()), request)
    {
      if !IsIdle(State()) || connection.None? {
        return false, None;
      }
      var plan := PlannedAssignment(c, keymap, macros, request);
      if plan.None? {
        return false, None;
      }
      if plan.value.saveMacro {
        ok, command := SaveSlot();
        if ok {
          assignment := Some(SavingMacro(plan.value.change));
        }
        return;
      }
      if plan.value.alreadyAssigned {
        return false, None;
      }
      ok := StagePlain(Keymap, plan.value.change);
      if !ok {
        return false, None;
      }
      ok, command := SavePlain(Keymap);
      if ok {
        assignment := Some(Assigning(false));
      }
    }
  }
}
