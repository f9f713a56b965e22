/** The selected macro slot as an editor feature: atomic program edits, slot-bound snapshots
    and the cache of which slots are occupied. */
module MacroEditing {
  import opened Wrappers
  import opened EditorLifecycle
  import opened MacroProgram
  import Revisions

  datatype Content = Programmed(program: Program) | OpaqueContent

  datatype MacroSnapshot = MacroSnapshot(
    backendId: string, slot: string, revision: seq<Revisions.RevisionByte>, content: Content)

  datatype MacroEdit =
    | Insert(at: nat, event: Event)
    | Replace(at: nat, event: Event)
    | Remove(at: nat)
    | Shift(from: nat, to: nat)
    | Repeat(count: U32)
    | Clear

  type MacroEditor = Editor<MacroSnapshot, Program>
  type MacroRules = Rules<MacroSnapshot, Program, MacroEdit, Program>

  function EditedEvents(events: seq<Event>, edit: MacroEdit): Option<seq<Event>> {
    match edit
    case Insert(at, event) => if at <= |events| then Some(events[..at] + [event] + events[at..]) else None
    case Replace(at, event) => if at < |events| then Some(events[at := event]) else None
    case Remove(at) => if at < |events| then Some(events[..at] + events[at + 1..]) else None
    case Shift(from, to) =>
      if from < |events| && to < |events| then
        var rest := events[..from] + events[from + 1..];
        Some(rest[..to] + [events[from]] + rest[to..])
      else None
    case Repeat(_) => Some(events)
    case Clear => Some([])
  }

  /** The program after an edit, when its index exists and the result is valid. */
  function Edited(caps: Capabilities, program: Program, edit: MacroEdit): (next: Option<Program>)
    ensures next.Some? ==> ValidProgram(caps, next.value)
  {
    var events := EditedEvents(program.events, edit);
    if events.None? then None
    else
      var next := Program(if edit.Repeat? then edit.count else program.repeatCount, events.value);
      if ValidProgram(caps, next) then Some(next) else None
  }

  /** Moving an event keeps all of them, puts it at its destination in the final sequence
      and keeps the others in order; the reverse move undoes it. */
  lemma {:induction false} ShiftMovesOneEvent(events: seq<Event>, from: nat, to: nat)
    requires from < |events| && to < |events|
    ensures var moved := EditedEvents(events, Shift(from, to));
      && moved.Some? && |moved.value| == |events| && moved.value[to] == events[from]
      && multiset(moved.value) == multiset(events)
      && moved.value[..to] + moved.value[to + 1..] == events[..from] + events[from + 1..]
      && EditedEvents(moved.value, Shift(to, from)) == Some(events)
  {
    var rest := events[..from] + events[from + 1..];
    var moved := rest[..to] + [events[from]] + rest[to..];
    assert moved[..to] + moved[to + 1..] == rest;
    assert rest[..from] + [events[from]] + rest[from..] == events;
    assert multiset(moved) == multiset(rest[..to] + rest[to..]) + multiset{events[from]};
    assert rest[..to] + rest[to..] == rest;
    assert multiset(events) == multiset(rest[..from] + [events[from]] + rest[from..]);
    assert rest[..from] + rest[from..] == rest;
  }

  /** The edit that takes back `edit`, which was made to `program`. Nothing takes back a
      clearing. */
  function Undo(program: Program, edit: MacroEdit): MacroEdit {
    match edit
    case Insert(at, _) => Remove(at)
    case Replace(at, _) => if at < |program.events| then Replace(at, program.events[at]) else edit
    case Remove(at) => if at < |program.events| then Insert(at, program.events[at]) else edit
    case Shift(from, to) => Shift(to, from)
    case Repeat(_) => Repeat(program.repeatCount)
    case Clear => Clear
  }

  /** Every accepted edit but a clearing is taken back by a single edit, which is accepted in
      turn, so that an edit loses nothing but the event it names; an inserted or replacing
      event stands where it was put, and only a change of the repeat count changes it. */
  lemma {:induction false} EditsAreUndone(caps: Capabilities, program: Program, edit: MacroEdit)
    requires ValidProgram(caps, program) && Edited(caps, program, edit).Some?
    ensures var next := Edited(caps, program, edit).value;
      && ValidProgram(caps, next)
      && (!edit.Clear? ==> Edited(caps, next, Undo(program, edit)) == Some(program))
      && (edit.Clear? ==> next.events == [])
      && (edit.Insert? || edit.Replace? ==> edit.at < |next.events| && next.events[edit.at] == edit.event)
      && next.repeatCount == (if edit.Repeat? then edit.count else program.repeatCount)
  {
    hide ValidProgram;
    var events, next := program.events, EditedEvents(program.events, edit).value;
    match edit
    case Insert(at, event) => assert next[..at] + next[at + 1..] == events;
    case Replace(at, event) => assert next[at := events[at]] == events;
    case Remove(at) => assert next[..at] + [events[at]] + next[at..] == events;
    case Shift(from, to) => ShiftMovesOneEvent(events, from, to);
    case Repeat(_) =>
    case Clear =>
  }

  predicate ValidSnapshotFor(caps: Capabilities, snapshot: MacroSnapshot, slot: string) {
    && snapshot.backendId == caps.backendId && snapshot.slot == slot && slot in caps.slots
    && (snapshot.content.Programmed? ==> ValidProgram(caps, snapshot.content.program))
  }

  function ProgramOf(content: Content): Option<Program> {
    if content.Programmed? then Some(content.program) else None
  }

  function EditedDraft(caps: Capabilities, draft: Option<Program>, edit: MacroEdit): Option<Option<Program>> {
    if draft.None? then None
    else
      var next := Edited(caps, draft.value, edit);
      if next.None? || !caps.editableRepeatCounts.Contains(next.value.repeatCount) then None else Some(next)
  }

  /** An edit is taken exactly when there is a program, it names an existing event (an
      insertion may also name the end) and the result is valid with a repeat count that may be
      edited. */
  lemma {:induction false} EditedExactly(caps: Capabilities, draft: Option<Program>, edit: MacroEdit)
    ensures EditedDraft(caps, draft, edit).Some? <==>
      && draft.Some?
      && var n := |draft.value.events|;
         var reached :=
           (match edit
            case Insert(at, _) => at <= n
            case Replace(at, _) => at < n
            case Remove(at) => at < n
            case Shift(from, to) => from < n && to < n
            case _ => true);
         && reached
         && var next := Program(if edit.Repeat? then edit.count else draft.value.repeatCount, EditedEvents(draft.value.events, edit).value);
            ValidProgram(caps, next) && caps.editableRepeatCounts.Contains(next.repeatCount)
    ensures EditedDraft(caps, draft, edit).Some? ==> EditedDraft(caps, draft, edit).value.Some?
  {
    hide ValidProgram;
  }

  function RulesFor(caps: Capabilities, slot: string): MacroRules {
    Rules(
      (s: MacroSnapshot) => ProgramOf(s.content),
      (l: MacroSnapshot, r: MacroSnapshot) => l == r,
      (s: MacroSnapshot, reception: Reception) => ValidSnapshotFor(caps, s, slot),
      (s: MacroSnapshot, draft: Option<Program>, submitted: Option<Program>, edit: MacroEdit) => EditedDraft(caps, draft, edit),
      (s: MacroSnapshot, draft: Program) =>
        if caps.editableRepeatCounts.Contains(draft.repeatCount) && ValidProgram(caps, draft) then Some(draft) else None)
  }
}

/** Occupancy summaries of the macro slots and passive discovery. */
module MacroLibrary {
  import opened Wrappers
  import opened EditorLifecycle
  import opened MacroProgram
  import opened MacroEditing

  datatype Occupancy = Unknown | Empty | Configured | Opaque

  /** A discovery under way; `refreshed` slots have been observed since it began. */
  datatype Scan = Scan(generation: nat, operation: nat, refreshed: set<string>)

  datatype Library = Library(slots: map<string, Occupancy>, failed: bool, scan: Option<Scan>)

  function Classified(content: Content): (o: Occupancy)
    ensures o != Unknown
  {
    match content
    case Programmed(program) => if program.events == [] then Empty else Configured
    case OpaqueContent => Opaque
  }

  /** What an answer says of a slot's content. */
  predicate Tells(o: Occupancy, content: Content) {
    match o
    case Unknown => true
    case Empty => content.Programmed? && content.program.events == []
    case Configured => content.Programmed? && content.program.events != []
    case Opaque => content.OpaqueContent?
  }

  lemma {:induction false} ClassifiedTells(content: Content)
    ensures Tells(Classified(content), content)
  {
  }

  function NewLibrary(slots: seq<string>): Library {
    Library(map slot | slot in slots :: Unknown, false, None)
  }

  function Cancel(lib: Library): Library {
    lib.(scan := None)
  }

  function BeginScan(lib: Library, generation: nat, operation: nat): Library {
    lib.(scan := Some(Scan(generation, operation, {})))
  }

  function Observe(lib: Library, snapshot: MacroSnapshot): Library {
    if snapshot.slot in lib.slots then lib.(slots := lib.slots[snapshot.slot := Classified(snapshot.content)]) else lib
  }

  function Forgotten(lib: Library): Library {
    Library(map slot | slot in lib.slots :: Unknown, false, None)
  }

  predicate DistinctSlots(snapshots: seq<MacroSnapshot>) {
    forall i, j :: 0 <= i < j < |snapshots| ==> snapshots[i].slot != snapshots[j].slot
  }

  /** A complete catalog: valid for its own slots, each slot once, as many as there are. */
  predicate CompleteCatalog(lib: Library, caps: Capabilities, snapshots: seq<MacroSnapshot>) {
    && (forall s | s in snapshots :: ValidSnapshotFor(caps, s, s.slot))
    && DistinctSlots(snapshots) && |snapshots| == |lib.slots|
  }

  function ObserveAll(lib: Library, snapshots: seq<MacroSnapshot>, refreshed: set<string>): Library
    decreases |snapshots|
  {
    if snapshots == [] then lib
    else ObserveAll(if snapshots[0].slot in refreshed then lib else Observe(lib, snapshots[0]), snapshots[1..], refreshed)
  }

  /** The library after a catalog result for its scan, and whether it was accepted. */
  function AcceptCatalog(lib: Library, caps: Capabilities, result: Option<seq<MacroSnapshot>>): (Library, bool)
    requires lib.scan.Some?
  {
    var done := lib.(scan := None);
    if result.None? || !CompleteCatalog(lib, caps, result.value) then (done.(failed := true), false)
    else (ObserveAll(done, result.value, lib.scan.value.refreshed).(failed := false), true)
  }

  predicate Uncertain(problem: Problem) {
    match problem
    case ApplyFailed(recovery) => recovery == Recovery.Failed || recovery == Recovery.Unverified
    case InvalidApplyResult | ApplyReadbackMismatch => true
    case _ => false
  }

  /** The library after the selected slot's editor took a completion. */
  function ObserveEditor(lib: Library, e: MacroEditor, slot: string): Library
    requires !e.status.Unloaded? && (e.status.Ready? ==> e.baseline.Some?)
  {
    if e.status.Unverified? then
      if Uncertain(e.status.problem) && slot in lib.slots then lib.(slots := lib.slots[slot := Unknown]) else lib
    else
      var snapshot := if e.status.Ready? then e.baseline.value else e.status.device;
      var seen := Observe(lib, snapshot);
      if seen.scan.None? then seen
      else seen.(scan := Some(seen.scan.value.(refreshed := seen.scan.value.refreshed + {snapshot.slot})))
  }

  // ------------------------------------------------------------ choosing a slot

  /** The first unbound slot with the wanted occupancy. */
  function FirstUnbound(lib: Library, slots: seq<string>, bound: set<string>, wanted: Occupancy): Option<string> {
    if slots == [] then None
    else if slots[0] !in bound && slots[0] in lib.slots && lib.slots[slots[0]] == wanted then Some(slots[0])
    else FirstUnbound(lib, slots[1..], bound, wanted)
  }

  lemma {:induction false} FirstUnboundIsFirst(lib: Library, slots: seq<string>, bound: set<string>, wanted: Occupancy)
    ensures match FirstUnbound(lib, slots, bound, wanted)
      case Some(slot) =>
        exists i :: 0 <= i < |slots| && slots[i] == slot && slot !in bound && slot in lib.slots && lib.slots[slot] == wanted
          && forall j :: 0 <= j < i ==> slots[j] in bound || slots[j] !in lib.slots || lib.slots[slots[j]] != wanted
      case None => forall slot | slot in slots :: slot in bound || slot !in lib.slots || lib.slots[slot] != wanted
    decreases |slots|
  {
    if slots != [] {
      FirstUnboundIsFirst(lib, slots[1..], bound, wanted);
      var found := FirstUnbound(lib, slots[1..], bound, wanted);
      if slots[0] !in bound && slots[0] in lib.slots && lib.slots[slots[0]] == wanted {
        assert slots[0] == FirstUnbound(lib, slots, bound, wanted).value;
      } else if found.Some? {
        var i :| 0 <= i < |slots| - 1 && slots[1..][i] == found.value && found.value !in bound
          && found.value in lib.slots && lib.slots[found.value] == wanted
          && forall j :: 0 <= j < i ==> slots[1..][j] in bound || slots[1..][j] !in lib.slots || lib.slots[slots[1..][j]] != wanted;
        assert slots[i + 1] == found.value;
        assert forall j :: 1 <= j < i + 1 ==> slots[j] == slots[1..][j - 1];
      }
    }
  }

  /** The first unbound slot known to be empty, else the first unbound unknown one. */
  function Candidate(lib: Library, slots: seq<string>, bound: set<string>): Option<string> {
    var empty := FirstUnbound(lib, slots, bound, Empty);
    if empty.Some? then empty else FirstUnbound(lib, slots, bound, Unknown)
  }

  // ------------------------------------------------------------ what observations show

  lemma {:induction false} ObserveAllShows(lib: Library, snapshots: seq<MacroSnapshot>, refreshed: set<string>, slot: string)
    requires DistinctSlots(snapshots)
    ensures var after := ObserveAll(lib, snapshots, refreshed);
      && after == lib.(slots := after.slots) && after.slots.Keys == lib.slots.Keys
      && (slot in lib.slots && (slot in refreshed || forall x | x in snapshots :: x.slot != slot) ==> after.slots[slot] == lib.slots[slot])
      && (forall x | x in snapshots && x.slot == slot && slot in lib.slots && slot !in refreshed ::
            after.slots[slot] != Unknown && Tells(after.slots[slot], x.content))
    decreases |snapshots|
  {
    if snapshots != [] {
      var first, rest := snapshots[0], snapshots[1..];
      var next := if first.slot in refreshed then lib else Observe(lib, first);
      assert snapshots == [first] + rest;
      assert DistinctSlots(rest) && forall x | x in rest :: x.slot != first.slot by { FirstIsAlone(snapshots); }
      ObserveAllShows(next, rest, refreshed, slot);
      ClassifiedTells(first.content);
    }
  }

  lemma {:induction false} FirstIsAlone(snapshots: seq<MacroSnapshot>)
    requires snapshots != [] && DistinctSlots(snapshots)
    ensures DistinctSlots(snapshots[1..]) && forall x | x in snapshots[1..] :: x.slot != snapshots[0].slot
  {
    forall x | x in snapshots[1..]
      ensures x.slot != snapshots[0].slot
    {
      var i :| 0 <= i < |snapshots| - 1 && snapshots[1..][i] == x;
      assert snapshots[i + 1] == x;
    }
    assert forall i :: 0 <= i < |snapshots| - 1 ==> snapshots[1..][i] == snapshots[i + 1];
  }

  /** A catalog is accepted exactly when it has one valid snapshot for each of as many slots as
      there are; then every slot that it covers and that was not refreshed since the scan began
      shows what its snapshot holds, and every other slot what it showed. */
  lemma {:induction false} CatalogShows(lib: Library, caps: Capabilities, result: Option<seq<MacroSnapshot>>, slot: string)
    requires lib.scan.Some? && slot in lib.slots
    ensures var (after, accepted) := AcceptCatalog(lib, caps, result);
      && after.scan.None? && after.slots.Keys == lib.slots.Keys && (accepted <==> !after.failed)
      && (accepted <==>
            && result.Some? && (forall x | x in result.value :: ValidSnapshotFor(caps, x, x.slot))
            && (forall i, j :: 0 <= i < j < |result.value| ==> result.value[i].slot != result.value[j].slot)
            && |result.value| == |lib.slots|)
      && (!accepted ==> after.slots == lib.slots)
      && (accepted ==>
            && (forall x | x in result.value && x.slot == slot && slot !in lib.scan.value.refreshed ::
                  after.slots[slot] != Unknown && Tells(after.slots[slot], x.content))
            && (slot in lib.scan.value.refreshed || (forall x | x in result.value :: x.slot != slot) ==>
                  after.slots[slot] == lib.slots[slot]))
  {
    hide ValidSnapshotFor, ObserveAll, Tells;
    if result.Some? && CompleteCatalog(lib.(scan := None), caps, result.value) {
      ObserveAllShows(lib.(scan := None), result.value, lib.scan.value.refreshed, slot);
    }
  }

  /** The selected slot's editor makes its slot known: ready or in conflict, its slot shows what
      was read and a scan under way will not overwrite it; after a write of unknown outcome its
      slot is unknown; any other problem changes nothing. No other slot is touched. */
  lemma {:induction false} EditorShows(lib: Library, e: MacroEditor, slot: string)
    requires !e.status.Unloaded? && (e.status.Ready? ==> e.baseline.Some?)
    ensures var after := ObserveEditor(lib, e, slot);
      && after.slots.Keys == lib.slots.Keys && after.failed == lib.failed
      && (!e.status.Unverified? ==>
            var seen := if e.status.Ready? then e.baseline.value else e.status.device;
            && (seen.slot in lib.slots ==> after.slots[seen.slot] != Unknown && Tells(after.slots[seen.slot], seen.content))
            && (forall x | x in lib.slots && x != seen.slot :: after.slots[x] == lib.slots[x])
            && (lib.scan.Some? <==> after.scan.Some?)
            && (lib.scan.Some? ==>
                  after.scan.value == lib.scan.value.(refreshed := lib.scan.value.refreshed + {seen.slot})))
      && (e.status.Unverified? ==>
            var problem := e.status.problem;
            var inDoubt := problem.InvalidApplyResult? || problem.ApplyReadbackMismatch?
                           || (problem.ApplyFailed? && (problem.recovery == Recovery.Failed || problem.recovery == Recovery.Unverified));
            && after == lib.(slots := after.slots)
            && (forall x | x in lib.slots :: after.slots[x] == if inDoubt && x == slot then Unknown else lib.slots[x]))
  {
    if !e.status.Unverified? {
      ClassifiedTells(if e.status.Ready? then e.baseline.value.content else e.status.device.content);
    }
  }
}
