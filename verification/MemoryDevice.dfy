/** The in-memory device: every feature is a stored value with its own revision counter. */
module MemoryDevice {
  import opened Wrappers
  import opened Revisions
  import K = KeymapEditing
  import S = SettingsEditing
  import P = MacroProgram
  import E = MacroEditing
  import M = MacroSaving

  /** Every feature's write is one revisioned write of the value it asks for. */
  lemma {:induction false} AppliesAreWrites(
      d: K.Descriptor, keys: Stored<K.Bindings>, keysExpected: Snapshot<K.Bindings>, changes: seq<K.Change>,
      sc: S.Capabilities, settings: Stored<S.Content>, settingsExpected: Snapshot<S.Content>, edit: S.Change,
      mc: P.Capabilities, slot: string, stored: Stored<E.Content>, slotExpected: E.MacroSnapshot, desired: P.Program)
    ensures var done := K.DeviceApply(d, keys, keysExpected, changes);
      done.Success? ==> TryWrite(keys, keysExpected, Some(K.PutAll(keys.snapshot.content, changes))) == done
    ensures var done := S.DeviceApply(sc, settings, settingsExpected, edit);
      done.Success? ==> TryWrite(settings, settingsExpected, Some(done.value.snapshot.content)) == done
    ensures var done := M.DeviceApply(mc, slot, stored, slotExpected, desired);
      done.Success? ==>
        TryWrite(stored, Snapshot(slotExpected.revision, slotExpected.content), Some(E.Programmed(desired))) == done
  {
    hide RevisionOf, P.ValidProgram, K.PutAll, K.ValidChanges, K.ValidState, S.ValidContent, S.ValidValue;
  }

  class Memory {
    const descriptor: K.Descriptor
    const macroCapabilities: P.Capabilities
    const settingsCapabilities: S.Capabilities
    const initialRevision: seq<RevisionByte>
    var state: Snapshot<K.Bindings>
    var revisionNumber: U64
    var macros: map<string, Stored<E.Content>>
    var settings: Stored<S.Content>

    constructor (descriptor: K.Descriptor, state: Snapshot<K.Bindings>, macroCapabilities: P.Capabilities,
                 macros: map<string, Snapshot<E.Content>>, settingsCapabilities: S.Capabilities, settings: Snapshot<S.Content>)
      ensures Keymap() == Opened(state)
      ensures this.macros == map slot | slot in macros :: Opened(macros[slot])
      ensures this.settings == Opened(settings)
      ensures this.descriptor == descriptor && this.macroCapabilities == macroCapabilities
      ensures this.settingsCapabilities == settingsCapabilities
    {
      this.descriptor, this.macroCapabilities, this.settingsCapabilities := descriptor, macroCapabilities, settingsCapabilities;
      initialRevision, this.state, revisionNumber := state.revision, state, 0;
      this.macros := map slot | slot in macros :: Opened(macros[slot]);
      this.settings := Opened(settings);
    }

    function Keymap(): Stored<K.Bindings>
      reads this
    {
      Stored(initialRevision, revisionNumber, state)
    }

    /** A rejected write leaves the key map as it was; an accepted one replaces it whole. */
    method Apply(expected: Snapshot<K.Bindings>, changes: seq<K.Change>) returns (r: Result<Snapshot<K.Bindings>, Refusal>)
      modifies this`state, this`revisionNumber
      ensures var done := K.DeviceApply(descriptor, old(Keymap()), expected, changes);
        if done.Success? then Keymap() == done.value && r == Success(done.value.snapshot)
        else Keymap() == old(Keymap()) && r == Failure(done.error)
    {
      hide K.ValidChanges, K.ValidState, RevisionOf;
      if expected != state {
        return Failure(Stale);
      }
      if !K.ValidChanges(descriptor, changes) {
        return Failure(Invalid);
      }
      if revisionNumber + 1 >= U64_LIMIT {
        return Failure(Exhausted);
      }
      var next := state.content;
      for i := 0 to |changes|
        invariant K.PutAll(next, changes[i..]) == K.PutAll(state.content, changes)
        invariant state == old(state) && revisionNumber == old(revisionNumber)
      {
        assert changes[i..][0] == changes[i] && changes[i..][1..] == changes[i + 1..];
        next := K.Put(next, changes[i]);
      }
      if !K.ValidState(descriptor, next) {
        return Failure(Invalid);
      }
      state := Snapshot(RevisionOf(initialRevision, revisionNumber + 1), next);
      revisionNumber := revisionNumber + 1;
      return Success(state);
    }

    /** Only the slot that the expected snapshot names changes; an unknown slot is refused. */
    method ApplyMacro(expected: E.MacroSnapshot, desired: P.Program) returns (r: Result<E.MacroSnapshot, Refusal>)
      modifies this`macros
      ensures expected.slot !in old(macros) ==> macros == old(macros) && r == Failure(Invalid)
      ensures expected.slot in old(macros) ==>
        var done := M.DeviceApply(macroCapabilities, expected.slot, old(macros)[expected.slot], expected, desired);
        if done.Success? then
          && macros == old(macros)[expected.slot := done.value]
          && r == Success(M.Shown(macroCapabilities, expected.slot, done.value.snapshot))
        else macros == old(macros) && r == Failure(done.error)
    {
      hide P.ValidProgram, RevisionOf;
      var slot := expected.slot;
      if slot !in macros {
        return Failure(Invalid);
      }
      var stored := macros[slot];
      if M.Shown(macroCapabilities, slot, stored.snapshot) != expected {
        return Failure(Stale);
      }
      if stored.snapshot.content.OpaqueContent? {
        return Failure(Invalid);
      }
      var valid := P.ValidateProgram(macroCapabilities, desired);
      if !valid || !macroCapabilities.editableRepeatCounts.Contains(desired.repeatCount) {
        return Failure(Invalid);
      }
      if stored.number + 1 >= U64_LIMIT {
        return Failure(Exhausted);
      }
      var next := Snapshot(RevisionOf(stored.initial, stored.number + 1), E.Programmed(desired));
      macros := macros[slot := Stored(stored.initial, stored.number + 1, next)];
      return Success(M.Shown(macroCapabilities, slot, next));
    }

    method ApplySetting(expected: Snapshot<S.Content>, edit: S.Change) returns (r: Result<Snapshot<S.Content>, Refusal>)
      modifies this`settings
      ensures var done := S.DeviceApply(settingsCapabilities, old(settings), expected, edit);
        if done.Success? then settings == done.value && r == Success(done.value.snapshot)
        else settings == old(settings) && r == Failure(done.error)
    {
      hide S.ValidValue, S.ValidContent, RevisionOf;
      if settings.snapshot != expected {
        return Failure(Stale);
      }
      if settings.snapshot.content.Opaque? {
        return Failure(Invalid);
      }
      if !S.ValidValue(settingsCapabilities, edit) || edit.id !in settings.snapshot.content.values {
        return Failure(Invalid);
      }
      if settings.number + 1 >= U64_LIMIT {
        return Failure(Exhausted);
      }
      var values := settings.snapshot.content.values[edit.id := edit.value];
      var content := settings.snapshot.content.(values := values);
      if !S.ValidContent(settingsCapabilities, content) {
        return Failure(Invalid);
      }
      settings := Stored(settings.initial, settings.number + 1, Snapshot(RevisionOf(settings.initial, settings.number + 1), content));
      return Success(settings.snapshot);
    }
  }
}
