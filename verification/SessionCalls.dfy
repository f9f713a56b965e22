/** The calls that ask nothing of the device: when each is taken, and what it changes then. */
module SessionCalls {
  import opened Wrappers
  import opened EditorLifecycle
  import opened MacroProgram
  import opened MacroEditing
  import opened MacroLibrary
  import opened SessionModel
  import R = Recording

  /** Nothing is going on but a background read, or the feature's own save. */
  predicate FreeFor(s: Session, feature: Feature) {
    && s.preparation.None? && s.recorder.None?
    && (match s.pending
        case None => s.host.Idle?
        case Some(t) => t.background || (t.feature == feature && t.direction.Saving?))
  }

  /** An edit of a plain feature is taken exactly if nothing but a background read or its own
      save is going on, its editor takes it, and no picture selector forbids it; it changes
      that editor alone. */
  lemma {:induction false} EditsTakenExactly(c: Config, s: Session, p: Plain, edit: Token)
    ensures var r, done := EditPlain(c, s, p, edit), Edit(c.rules(p), EditorOf(s, p), edit);
      && r.command.None? && r.session == (if r.ok then With(s, p, done.value) else s)
      && (r.ok <==>
            && FreeFor(s, Of(p)) && done.Success? && (p.Picture? ==> !c.selectorBusy(s.lighting, s.picture))
            && (p.Lighting? && s.lighting.draft.Some? && done.value.draft.Some? ==>
                  !c.selectorChange(s.lighting, s.picture, done.value.draft.value)))
  {
    hide Edit;
  }

  /** A revert is taken exactly while nothing at all is going on and there is a baseline; the
      draft then shows it and nothing is unsaved. */
  lemma {:induction false} RevertsTakenExactly(c: Config, s: Session, p: Plain)
    ensures var r, e := RevertPlain(c, s, p), EditorOf(s, p);
      && r.command.None?
      && (r.ok <==> s.host.Idle? && s.recorder.None? && s.pending.None? && e.submitted.None? && e.baseline.Some?)
      && (r.ok ==>
            && r.session == With(s, p, EditorOf(r.session, p))
            && EditorOf(r.session, p) == e.(draft := c.rules(p).value(e.baseline.value)) && !Dirty(c.rules(p), EditorOf(r.session, p)))
      && (!r.ok ==> r.session == s)
  {
  }

  /** The selected macro is edited under the same guard; another slot is selected exactly while
      nothing is going on and the selected one has nothing unsaved, and starts unread. */
  lemma {:induction false} SlotCallsTakenExactly(c: Config, s: Session, edit: MacroEdit, slot: string)
    ensures var r, done := EditSlot(c, s, edit), Edit(RulesFor(c.caps, s.slot), s.macros, edit);
      && r.command.None? && (r.ok <==> FreeFor(s, Macro(s.slot)) && done.Success?)
      && r.session == (if r.ok then s.(macros := done.value) else s)
    ensures var r := SelectSlot(c, s, slot);
      && r.command.None?
      && (r.ok <==>
            && s.host.Idle? && s.recorder.None? && s.pending.None? && slot in c.caps.slots
            && (slot == s.slot || (!Dirty(RulesFor(c.caps, s.slot), s.macros) && s.macros.submitted.None?)))
      && r.session == (if r.ok && slot != s.slot then s.(slot := slot, macros := Fresh()) else s)
  {
    hide Edit, RulesFor, Dirty;
  }

  /** A connection is taken exactly while nothing is going on and the counter lasts; it gets the
      next generation, every editor that had nothing worse to say asks for a read, and every
      slot is unknown. */
  lemma {:induction false} ConnectsExactly(s: Session)
    ensures var r := Connect(s);
      && r.command.None?
      && (r.ok <==> s.host.Idle? && s.recorder.None? && s.pending.None? && s.generation + 1 < COUNTER_LIMIT)
      && (!r.ok ==> r.session == s)
      && (r.ok ==>
            && r.session.generation == s.generation + 1 && r.session.connection == Some(s.generation + 1)
            && (forall p: Plain ::
                  EditorOf(r.session, p) == EditorOf(s, p).(status :=
                    if EditorOf(s, p).status.Ready? || EditorOf(s, p).status.Unloaded?
                    then Status.Unverified(ReadRequired) else EditorOf(s, p).status))
            && r.session.library.scan.None? && r.session.library.slots.Keys == s.library.slots.Keys
            && forall x | x in r.session.library.slots :: r.session.library.slots[x] == Unknown)
  {
  }

  /** Host lighting starts exactly while nothing is going on, on a connected device without a
      scan, for a mode that its plan allows; it takes the next number. */
  lemma {:induction false} HostStartsExactly(c: Config, s: Session, mode: Token)
    ensures var r := StartHost(c, s, mode);
      && r.command.None?
      && (r.ok <==>
            && s.host.Idle? && s.recorder.None? && s.pending.None? && s.connection.Some? && s.library.scan.None?
            && c.hostPlan(s.lighting, s.settings, mode) && s.operation + 1 < COUNTER_LIMIT)
      && (!r.ok ==> r.session == s)
      && (r.ok ==> r.session == s.(operation := s.operation + 1, host := Starting(HostTicket(s.connection.value, s.operation + 1))))
  {
  }

  /** A file is imported exactly while nothing is going on, into a ready slot with a program of
      its own, when it was made from that very slot and revision and holds a valid program
      which is either unchanged or may be edited; the draft is then that program. */
  lemma {:induction false} ImportsTakenExactly(c: Config, s: Session, target: MacroSnapshot)
    ensures var r, e := ImportSlot(c, s, target), s.macros;
      && r.command.None?
      && (r.ok <==>
            && s.host.Idle? && s.recorder.None? && s.pending.None? && e.status.Ready? && e.baseline.Some? && e.draft.Some?
            && target.backendId == c.caps.backendId && target.slot == s.slot && s.slot in c.caps.slots
            && target.revision == e.baseline.value.revision && target.content.Programmed? && ValidProgram(c.caps, target.content.program)
            && (target.content == e.baseline.value.content || c.caps.editableRepeatCounts.Contains(target.content.program.repeatCount)))
      && r.session == (if r.ok then s.(macros := e.(draft := Some(target.content.program))) else s)
  {
    hide ValidProgram;
  }

  // ------------------------------------------------------------ recordings

  /** A recording is lent the draft exactly while nothing is going on, not even a scan, the slot
      is ready, its repeat count may be edited and the recorder opens on it. */
  lemma {:induction false} RecordingsStartExactly(c: Config, s: Session, policy: R.DelayPolicy)
    ensures var r := StartRecording(c, s, policy);
      && r.command.None?
      && (r.ok <==>
            && s.host.Idle? && s.recorder.None? && s.pending.None? && s.library.scan.None?
            && s.macros.status.Ready? && s.macros.draft.Some?
            && c.caps.editableRepeatCounts.Contains(s.macros.draft.value.repeatCount)
            && R.New(c.caps, s.macros.draft.value, policy).Success?)
      && (!r.ok ==> r.session == s)
      && (r.ok ==> r.session == s.(recorder := Some(R.New(c.caps, s.macros.draft.value, policy).value)))
  {
    hide R.New;
  }

  function TakeInputs(c: Config, s: Session, inputs: seq<R.Input>): Session
    decreases |inputs|
  {
    if inputs == [] then s else TakeInputs(c, RecordInput(c, s, inputs[0].action, inputs[0].at).session, inputs[1..])
  }

  /** The session with a take in its recorder and its draft. */
  function Holding(s: Session, t: R.Take): Session {
    s.(recorder := Some(t.recorder), macros := s.macros.(draft := Some(t.draft)))
  }

  lemma {:induction false} InputsAreTaken(c: Config, s: Session, t: R.Take, inputs: seq<R.Input>)
    requires R.Lent(t.recorder, t.draft) && R.StoresWaits(c.caps, t.recorder.policy)
    ensures TakeInputs(c, Holding(s, t), inputs) == Holding(s, R.Record(t, c.caps, inputs))
    decreases |inputs|
  {
    hide R.Transition, R.Lent, R.StoresWaits;
    if inputs != [] {
      var after := R.After(t, c.caps, inputs[0]);
      assert R.Take(t.recorder, t.draft) == t;
      assert RecordInput(c, Holding(s, t), inputs[0].action, inputs[0].at).session == Holding(s, after);
      InputsAreTaken(c, s, after, inputs[1..]);
    }
  }

  /** A whole recording in the session: the draft becomes exactly what the recorder makes of the
      inputs, whichever of them it accepts, and stopping, at any time, settles it and gives it
      back. Nothing else of the session changes. */
  lemma {:induction false} RecordingsReachTheDraft(c: Config, s: Session, policy: R.DelayPolicy, inputs: seq<R.Input>, now: nat)
    requires StartRecording(c, s, policy).ok
    ensures var started := StartRecording(c, s, policy).session;
      && s.macros.draft.Some? && R.New(c.caps, s.macros.draft.value, policy).Success?
      && var t := R.Record(R.Opened(c.caps, s.macros.draft.value, policy), c.caps, inputs);
         var recorded := TakeInputs(c, started, inputs);
         var stopped := StopRecording(c, recorded, now);
         && recorded == Holding(s, t)
         && R.Stop(t, c.caps, now).Success? && stopped.ok && stopped.command.None?
         && stopped.session == s.(macros := s.macros.(draft := Some(R.Stop(t, c.caps, now).value.1)))
  {
    hide R.Transition, R.Record, R.Kept, R.Stop, R.Suffix, R.Replay, R.StorableInterval;
    RecordingsStartExactly(c, s, policy);
    var begun := R.Opened(c.caps, s.macros.draft.value, policy);
    InputsAreTaken(c, s, begun, inputs);
    R.StopNeverFails(c.caps, s.macros.draft.value, policy, inputs, now);
    assert s.(macros := s.macros.(draft := s.macros.draft)) == s;
  }
}
