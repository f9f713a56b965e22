/** The selected macro slot against a device that others write to. */
module MacroSaving {
  import opened Wrappers
  import opened EditorLifecycle
  import opened Revisions
  import opened MacroProgram
  import opened MacroEditing

  // ------------------------------------------------------------ the device

  /** What a device shows of a slot: its stored content under its own names. */
  function Shown(caps: Capabilities, slot: string, stored: Snapshot<Content>): MacroSnapshot {
    MacroSnapshot(caps.backendId, slot, stored.revision, stored.content)
  }

  /** A write is checked in the order: stale, opaque, program, repeat count, revision number. */
  function DeviceApply(caps: Capabilities, slot: string, s: Stored<Content>, expected: MacroSnapshot, desired: Program)
    : Result<Stored<Content>, Refusal>
  {
    if Shown(caps, slot, s.snapshot) != expected then Failure(Stale)
    else if s.snapshot.content.OpaqueContent? then Failure(Invalid)
    else if !ValidProgram(caps, desired) || !caps.editableRepeatCounts.Contains(desired.repeatCount) then Failure(Invalid)
    else if s.number + 1 >= U64_LIMIT then Failure(Exhausted)
    else Success(Stored(s.initial, s.number + 1, Snapshot(RevisionOf(s.initial, s.number + 1), Programmed(desired))))
  }

  /** A slot takes a program exactly when it was planned against what the slot shows, neither
      the slot's nor the new content is out of the editor's reach, and the revisions last. It
      then shows that program under another revision, and a second write planned against the
      old snapshot is stale. */
  lemma {:induction false} AppliedExactly(
      caps: Capabilities, slot: string, s: Stored<Content>, expected: MacroSnapshot, desired: Program, later: Program)
    requires Numbered(s)
    ensures var done := DeviceApply(caps, slot, s, expected, desired);
      && (done.Success? <==>
            && Shown(caps, slot, s.snapshot) == expected && expected.content.Programmed? && ValidProgram(caps, desired)
            && caps.editableRepeatCounts.Contains(desired.repeatCount) && s.number + 1 < U64_LIMIT)
      && (done == Failure(Stale) <==> Shown(caps, slot, s.snapshot) != expected)
      && (done.Success? ==>
            && Shown(caps, slot, done.value.snapshot) == expected.(revision := done.value.snapshot.revision, content := Programmed(desired))
            && DeviceApply(caps, slot, done.value, expected, later) == Failure(Stale))
  {
    hide ValidProgram, RevisionOf;
    if s.number + 1 < U64_LIMIT && RevisionOf(s.initial, s.number + 1) == s.snapshot.revision {
      RevisionsDiffer(s.initial, s.number + 1, s.number);
    }
  }

  // ------------------------------------------------------------ the slot's editor

  type MacroStep = Step<MacroSnapshot, MacroEdit>

  /** A step of the slot's editor, or a whole program put in place of its draft, as an import
      or a recording does. */
  datatype SlotStep = Lifecycle(step: MacroStep) | Rewritten(program: Program)

  function TakeSlot(caps: Capabilities, slot: string, e: MacroEditor, s: SlotStep): MacroEditor {
    match s
    case Lifecycle(step) => Take(RulesFor(caps, slot), e, step)
    case Rewritten(program) => if e.draft.Some? then e.(draft := Some(program)) else e
  }

  function RunSlot(caps: Capabilities, slot: string, e: MacroEditor, steps: seq<SlotStep>): MacroEditor
    decreases |steps|
  {
    if steps == [] then e else RunSlot(caps, slot, TakeSlot(caps, slot, e, steps[0]), steps[1..])
  }

  /** The baseline is the slot's own, and only a program that can be read has a draft. */
  predicate OfSlot(caps: Capabilities, slot: string, e: MacroEditor) {
    && (e.baseline.Some? ==> ValidSnapshotFor(caps, e.baseline.value, slot))
    && (e.draft.Some? ==> e.baseline.Some? && e.baseline.value.content.Programmed?)
  }

  lemma {:induction false} TakeKeepsSlot(caps: Capabilities, slot: string, e: MacroEditor, s: SlotStep)
    requires OfSlot(caps, slot, e)
    ensures OfSlot(caps, slot, TakeSlot(caps, slot, e, s))
  {
    hide ValidProgram, Edited;
  }

  lemma {:induction false} RunKeepsSlot(caps: Capabilities, slot: string, e: MacroEditor, steps: seq<SlotStep>)
    requires OfSlot(caps, slot, e)
    ensures OfSlot(caps, slot, RunSlot(caps, slot, e, steps))
    decreases |steps|
  {
    hide OfSlot, TakeSlot;
    if steps != [] {
      TakeKeepsSlot(caps, slot, e, steps[0]);
      RunKeepsSlot(caps, slot, TakeSlot(caps, slot, e, steps[0]), steps[1..]);
    }
  }

  // ------------------------------------------------------------ saving

  lemma {:induction false} SlotSaves(caps: Capabilities, slot: string, s: Stored<Content>, e: MacroEditor, others: seq<Attempt<Content>>)
    requires Numbered(s) && OfSlot(caps, slot, e) && e.baseline == Some(Shown(caps, slot, s.snapshot))
    requires RequestApply(RulesFor(caps, slot), e).Success?
    ensures var (flying, expected, desired) := RequestApply(RulesFor(caps, slot), e).value;
      var done := DeviceApply(caps, slot, AfterAll(s, others), expected, desired);
      && (done.Success? <==> Accepted(s, others) == 0 && s.number + 1 < U64_LIMIT)
      && (done == Failure(Stale) <==> Accepted(s, others) > 0)
      && (done.Success? ==>
            && e.draft.Some? && done.value.snapshot.content == Programmed(e.draft.value)
            && ValidSnapshotFor(caps, Shown(caps, slot, done.value.snapshot), slot))
  {
    hide ValidProgram, RevisionOf;
    StaleMeansWritten(s, others);
  }

  /** A program saved from any reachable editor of the selected slot, imported, recorded or
      edited, against a device that others write to: the save succeeds exactly when no other
      write of the slot was accepted since the baseline was taken; the slot then holds exactly
      the submitted program. Whatever the user edited meanwhile, the editor ends ready with
      that draft, clean if it was not edited. */
  lemma {:induction false} SavedExactlyWhenCurrent(
      caps: Capabilities, slot: string, s: Stored<Content>, before: seq<SlotStep>, meanwhile: seq<MacroStep>, others: seq<Attempt<Content>>)
    requires Numbered(s) && forall step | step in meanwhile :: InFlight(step)
    requires var e := RunSlot(caps, slot, Fresh(), before);
      e.baseline == Some(Shown(caps, slot, s.snapshot)) && RequestApply(RulesFor(caps, slot), e).Success?
    ensures var e := RunSlot(caps, slot, Fresh(), before);
      var (flying, expected, desired) := RequestApply(RulesFor(caps, slot), e).value;
      var later := TakeAll(RulesFor(caps, slot), flying, meanwhile);
      var done := DeviceApply(caps, slot, AfterAll(s, others), expected, desired);
      && (done.Success? <==> Accepted(s, others) == 0 && s.number + 1 < U64_LIMIT)
      && (done == Failure(Stale) <==> Accepted(s, others) > 0)
      && (done.Success? ==>
            var result := Shown(caps, slot, done.value.snapshot);
            && ProgramOf(result.content) == e.draft
            && AcceptApply(RulesFor(caps, slot), later, Success(result)) == Editor(Some(result), later.draft, None, Ready)
            && (meanwhile == [] ==> later.draft == e.draft))
  {
    hide RunSlot, DeviceApply, TakeAll, RequestApply, AcceptApply, ValidSnapshotFor, OfSlot, RevisionOf;
    var e := RunSlot(caps, slot, Fresh(), before);
    FreshIsOfSlot(caps, slot);
    RunKeepsSlot(caps, slot, Fresh(), before);
    SlotSaves(caps, slot, s, e, others);
    var (flying, expected, desired) := RequestApply(RulesFor(caps, slot), e).value;
    var done := DeviceApply(caps, slot, AfterAll(s, others), expected, desired);
    Submits(caps, slot, e);
    NoSteps(caps, slot, flying);
    if done.Success? { EditsInFlightRemain(RulesFor(caps, slot), e, meanwhile, Shown(caps, slot, done.value.snapshot)); }
  }

  lemma {:induction false} FreshIsOfSlot(caps: Capabilities, slot: string)
    ensures OfSlot(caps, slot, Fresh())
  {
  }

  lemma {:induction false} Submits(caps: Capabilities, slot: string, e: MacroEditor)
    requires RequestApply(RulesFor(caps, slot), e).Success?
    ensures RequestApply(RulesFor(caps, slot), e).value.0 == e.(submitted := e.draft) && e.draft.Some?
  {
  }

  lemma {:induction false} NoSteps(caps: Capabilities, slot: string, e: MacroEditor)
    ensures TakeAll(RulesFor(caps, slot), e, []) == e
  {
  }
}
