# Byakko, verified

A Dafny model of the state machines with which Byakko reads, edits and writes a keyboard's
configuration, and proofs of what they promise: that a reported verdict is true of the
keyboard, that unsaved edits survive, that a recording can always be stopped, that a cache
never shows what is not there.

The code it models works by changing objects step by step, and so does the model: classes
with the source's fields, whose methods are proved to change them exactly as a step of a
state machine on values does. The theorems are about whole runs of those state machines.

## What is modelled

- **Browser transactions** (`Wrappers`, `SettingsCodec`, `MacroCodec`, `Nia87`, `BrowserPlanner`,
  `BrowserTermination`, `BrowserWorld`, `KeymapVerdicts`, `ImageVerdicts`, `TransportVerdicts`,
  `ReadVerdicts`, `ReadbackVerdicts`, `BrowserBackups`, `BrowserOperation`). The planner emits
  backup, write and exchange effects and takes arbitrary outcomes. `BrowserWorld` puts it against a
  keyboard that answers reads truthfully or not at all, and on which a write that fails may or may
  not have landed.
- **Host lighting** (`LightingCodec`, `HostPlanner`): start, updates, frames and stop around one
  saved baseline, composed into a whole activity.
- **Macro recording** (`MacroProgram`, `Recording`, `Recorder`): each accepted transition reserves
  the worst-case encoded size of stopping.
- **Editors and the memory device** (`Editor`, `Revisions`, `KeymapEditing`, `SettingsEditing`,
  `MacroEditing`, `MacroSaving`, `MemoryDevice`): baseline, draft, submitted value, and revisioned writes with
  other writers about.
- **Session, worker and occupancy cache** (`Session`, `SessionSafety`, `SessionDrafts`,
  `SessionCalls`, `SessionCommands`, `SessionOutcomes`, `SessionObject`, `Worker`, `LibraryObject`,
  `Occupancy`, `OccupancyHonesty`, `OccupancyScans`): one pending ticket behind independently owned
  editors, correlated completions, and a passive scan that races foreground writes. Threads are
  interleaved atomic steps.
- **Tester and input queue** (`TesterInput`, `Tester`, `TesterLedger`, `TesterObject`).
- **Parsers and signal** (`UsbDescriptors`, `UsbEndpoints`, `AudioBands`, `PythonBytes`, `Orbits`,
  `ChunkedBody`, `HttpStream`, `WireFields`, `CutRecordings`).

## Where the code does less than it might seem

- A settings draft can differ in two fields when a read is accepted between a save and its
  result, and then no save can be planned (`SettingsEditing.ReadDuringSaveBreaksPlanning`;
  `SettingsEditing.SaveIsPlannedExactly` is the exact condition). The session never lets a read
  meet a save, so the editor's promise holds there (`SessionSafety.WritesMatchTickets`).
- Stopping host lighting compares the read-back bytes with the saved ones, but writes what it
  recognized in the saved ones. For a recognized baseline that the writer would spell
  differently, such as a preset color kept as a palette index, a stop in which everything
  succeeds is still reported as unverified (`HostPlanner.PaletteRunIsLeftInDoubt` is a whole such
  run). `HostPlanner.HostRunIsTrue` gives the exact condition.
- The recovery verdict "failed" needs a keyboard that drops an acknowledged write or misreports
  its content: on any other, a restoration that was written and read back always matches, so
  the verdict never occurs (`KeymapVerdicts.KeymapVerdictIsTrue` and its neighbours). On a
  keyboard whose setters may do anything, it is reported only when it is true
  (`ReadbackVerdicts.VerdictsRestOnReadbacks`).
- A negative chunk size or content length, which Python's `int` accepts, can send the capture
  analyser's loops backwards. As long as the sizes a loop meets are at least minus five, and the
  lengths at least minus 23, it returns (`ChunkedBody.SizesMetEnd`, `HttpStream.LengthsMetEnd`); one
  below either bound it can go round for ever (`ChunkedBody.NegativeSizeCanStall`,
  `HttpStream.NegativeLengthCanStall`). Exactly, the loop over a body returns if and only if no
  position of its cursor comes up twice (`ChunkedBody.BodyEndsExactly`), and the loop over the
  messages if and only if moreover every body it meets returns (`HttpStream.StreamEndsExactly`).

## How to read it

Each file says at its head what it models. A state machine's functions come first, then
the invariants, then the theorems; objects that refine it are in their own module. In a
theorem, `Run`, `Play`, `Record` or `RunAll` is a whole run. Rust panics are an explicit step or
outcome, and the theorems show that it is never reached. Counters of 64 bits are numbers with the
checked-add failure as a branch.

The table lists the results first. The rows at its end that begin with "Refinement" are not
results of their own: each says that a method which updates its object in place does exactly what
the step of the same name does on values, so that the results hold of the objects too.

## Model

| member | source | states |
|---|---|---|
| `BrowserTermination.EveryRunCompletesOnce` | crates/byakko-web/src/executor.rs:943-975 | For every request and every sequence of effect outcomes, well-formed or not: the planner never reaches its own `expect` or `unreachable!`, it has completed after a number of advances fixed by the request, and once complete nothing changes any more. |
| `BrowserTermination.AdvanceShortens` | crates/byakko-web/src/executor.rs:805-975 | The lexicographic measure behind that: each outcome strictly shortens what stage, queue and replies still to expand can cost. |
| `BrowserTermination.StartIsValid` | crates/byakko-web/src/executor.rs:1095-1168 | Every request opens in a valid state within its bound, with no setter sent, and a transaction shows its backup before anything else. |
| `BrowserTermination.NoSetterBeforeBackup` | crates/byakko-web/src/executor.rs:943-975 | In every run a setter is shown only after the backup was acknowledged, and never for a request that only reads. |
| `BrowserTermination.SequenceDoneWithin` | crates/byakko-web/src/executor.rs:1330-1449 | When a stage has no effects left it always yields a further step; the `expect` behind it cannot fire. |
| `BrowserTermination.FailStepWithin` | crates/byakko-web/src/executor.rs:805-878 | A failed effect in any stage leads to a next stage, never a panic, within what the failed one still had to spend. |
| `KeymapVerdicts.KeymapVerdictIsTrue` | crates/byakko-web/src/executor.rs:173-235 | Against a keyboard that may or may not keep each failed write: success means both key maps equal the target, a verified recovery means they equal the originals, "not attempted" means no setter was sent, and "unverified" that one was tried and every slot holds its original binding or its intended one. On such a keyboard "failed" is never reported, and nothing but the key maps changes. |
| `KeymapVerdicts.SmoothKeymapApplies` | crates/byakko-web/src/executor.rs:214-235 | If every effect succeeds the verdict is success and the keyboard holds the target: the queued differences, folded over the original, give it. Reserved slots 126 and 127 are shown equal, not assumed so. |
| `KeymapVerdicts.SmoothRecoveryIsVerified` | crates/byakko-web/src/executor.rs:402-540 | Once recovery has begun, after any landed part of the change, recovery effects that succeed restore both maps and are reported as verified. |
| `KeymapVerdicts.KeyWritesReach` | crates/byakko-web/src/executor.rs:214-235 | Writing the differences of two maps makes a layer equal to the goal wherever it already agreed with the goal outside them. |
| `KeymapVerdicts.RestorationsReach` | crates/byakko-protocol/src/nia87/keymap_policy.rs:7-38 | A restoration is refused exactly when what was intended or observed differs from the original in a reserved slot; otherwise it gives back the original layer, from an observation or, without one, from what was intended. |
| `KeymapVerdicts.DraftKeepsReserved` | crates/byakko-protocol/src/nia87/keymap_policy.rs:7-38 | No accepted list of changes touches a protected slot of either layer, the Fn system slots among them, or the firmware version or the profile. |
| `KeymapVerdicts.DraftIsExact` | crates/byakko-protocol/src/nia87/adapter.rs:297-340 | Every position of an accepted draft holds the binding of the change that names it, and what it held before when none does. |
| `KeymapVerdicts.DraftRefusesExactly` | crates/byakko-protocol/src/nia87/adapter.rs:297-340 | A list of changes is refused exactly when one of them has no binding, names a protected slot, or names a position that is taken already. |
| `ImageVerdicts.MacroVerdictIsTrue` | crates/byakko-web/src/executor.rs:237-281 | The verdict on a macro names what the slot holds: the target, the exact 256 original bytes, or an untouched keyboard; "unverified" means a setter was tried and the six bytes no page carries are still the original ones. No other slot or section ever changes. |
| `ImageVerdicts.SmoothMacroApplies` | crates/byakko-web/src/executor.rs:574-630 | If every effect succeeds the macro is applied and reported so. |
| `ImageVerdicts.MacroRecoveryRestoresEveryByte` | crates/byakko-web/src/executor.rs:542-630 | For any landed prefix of the five pages, the failing page landed or not: recovery effects that succeed restore all 256 bytes and are reported as verified, although the pages carry only 250. |
| `ImageVerdicts.FivePagesReach` | crates/byakko-protocol/src/rongyuan/yc500/macro_reports.rs:35-56 | The five pages rewrite a whole slot as long as the six bytes they do not carry agree. |
| `ImageVerdicts.SettingsVerdictIsTrue` | crates/byakko-web/src/executor.rs:327-352 | The verdict on a one-field change is true of all four settings replies; "unverified" means a setter was tried and the keyboard holds all the original settings or all the intended ones. |
| `ImageVerdicts.SmoothSettings` | crates/byakko-web/src/executor.rs:632-711 | Effects that succeed apply the change, or complete a verified recovery of all four replies. |
| `TransportVerdicts.LightingVerdictIsTrue` | crates/byakko-web/src/executor.rs:283-325 | Lighting is written without a readback: success means the keyboard holds the submitted bytes, "not attempted" that nothing was sent, and nothing but the lighting section ever changes. |
| `TransportVerdicts.PictureVerdictIsTrue` | crates/byakko-web/src/executor.rs:354-400 | The same for a picture, written in seven pages, with success for every run of successful effects. |
| `TransportVerdicts.PicturePagesLand` | crates/byakko-protocol/src/nia87/lighting.rs:325-347 | The seven pages carry every byte of the picture. |
| `ReadVerdicts.ReadsAreTrue` | crates/byakko-web/src/executor.rs:713-803 | Reads never change the keyboard and report its content or a failure; with effects that succeed they report it: every slot of a catalog, every section of an archive. |
| `BrowserBackups.BackupsPreserve` | crates/byakko-web/src/executor.rs:173-400 | In every play, whenever a backup is shown, its before-image is what the keyboard holds at that very moment, section by section, and no setter has been sent. |
| `BrowserBackups.RecordsAreKept` | crates/byakko-web/src/executor.rs:173-400 | What a transaction that began with this backup comes to, for key maps, macros, settings, lighting and pictures: a success reports the recorded target and has put exactly that in place of the recorded image; after a verified recovery the recorded image is back; nothing else has changed. |
| `BrowserBackups.KeyWritesArePaced` | crates/byakko-web/src/executor.rs:214-235 | Every key setter is given a second. |
| `BrowserBackups.MacroWritesArePaced` | crates/byakko-web/src/executor.rs:257-271 | Every macro page is given 30 milliseconds, and the fifth, which the keyboard stores, two seconds more. |
| `BrowserBackups.PictureWritesArePaced` | crates/byakko-web/src/executor.rs:391-399 | Every picture page waits 20 milliseconds first. |
| `ReadbackVerdicts.VerdictsRestOnReadbacks` | crates/byakko-web/src/executor.rs:402-711 | Even if setters do anything whatever to the keyboard, acknowledged or not, as long as reads are truthful: a key map, macro or settings success is reported only of a keyboard that holds exactly the target, a verified recovery only of one that holds exactly the original, and a failed one only of one that holds something else. |
| `BrowserWorld.LongPlayCompletes` | crates/byakko-web/src/executor.rs:943-975 | Against any keyboard, enough effects of any outcome complete the operation. |
| `BrowserWorld.KeymapReadingStep` | crates/byakko-web/src/executor.rs:1229-1282 | A faithful reply is always the one asked for, is stored, and asks for exactly the pages still missing. |
| `Nia87.MatrixPagesRoundTrip` | crates/byakko-protocol/src/rongyuan/yc500/matrix.rs:34-50 | Paging a key matrix out and reading its eight pages back loses no slot. |
| `MacroCodec.DecodeInvertsEncode` | crates/byakko-protocol/src/rongyuan/yc500/macro_program.rs:34-176 | Every program the encoder accepts is read back exactly, zero delays included. |
| `MacroCodec.EncodesExactly` | crates/byakko-protocol/src/rongyuan/yc500/macro_program.rs:34-176 | A program is encoded exactly if every event has a code and all of them fit, with the repeat count before them and the bytes that stay zero behind. |
| `SettingsCodec.PlannedChangeIsReversible` | crates/byakko-protocol/src/nia87/settings.rs:151-197 | A planned change reaches its target from either side of the write, and its recovery report reaches the original from either side. |
| `SettingsCodec.PlannedChangeShows` | crates/byakko-protocol/src/nia87/settings.rs:151-197 | The settings a plan aims for show the requested field at the requested value. |
| `SettingsCodec.PlansExactly` | crates/byakko-protocol/src/nia87/settings.rs:151-197 | A change is planned exactly if both it and its undoing can be written: the value asked for and the one that is there are in the range of their setter. |
| `HostPlanner.StartIsTrue` | crates/byakko-web/src/host.rs:71-121 | A start completes within five effects. It is running only with the keyboard read back as asked; a refusal has sent no setter; a failure after a setter has sent exactly one restoration and is verified only when the keyboard is byte for byte as before. |
| `HostPlanner.HostRunIsTrue` | crates/byakko-web/src/host.rs:71-218 | A whole activity: a start that succeeded, any updates and frames whatever became of them, and a stop. The stop is always possible and sends nothing but the saved setting; it reports the baseline as restored only with the keyboard byte for byte as before the start; and when its effects succeed it does so if and only if the writer itself would have produced the baseline bytes. |
| `HostPlanner.PaletteRunIsLeftInDoubt` | crates/byakko-web/src/host.rs:71-166 | The failing case as a whole run: with a preset color kept as a palette index, a start and a stop in which every effect succeeds end unverified, the keyboard showing the same setting in other bytes. |
| `HostPlanner.StopIsTrue` | crates/byakko-web/src/host.rs:123-166 | A stop from any activity sends only the saved setting, and reports the baseline as restored only after reading that very baseline back, or at once, sending nothing, when the record already shows it. `HostPlanner.HostRunIsTrue` shows that the latter never happens after a start. |
| `HostPlanner.StopVerifiesExactlyCanonical` | crates/byakko-web/src/host.rs:296-425 | With every effect succeeding, whatever setting the keyboard shows by then, a stop is reported as restored if and only if the saved setting bytes are ones the writer itself produces or the record already shows them. Other recognized baselines stay in doubt although the lighting is equivalent. |
| `HostPlanner.BaselinesNeverChange` | crates/byakko-web/src/host.rs:168-218 | Over any updates and frames, whatever becomes of them, the ticket and both baselines stay as they were, the mode stays the started one, and neither the record nor the keyboard changes outside the setting bytes. |
| `HostPlanner.UpdateShowsSetting` | crates/byakko-web/src/host.rs:168-189 | An update is refused exactly for another activity, an invalid setting, a changed effect or a mode that is not one of the two for music. If its setter succeeds, the keyboard has been sent the requested setting once and shows it, and nothing else of its lighting has changed; if not, the caller is told and the record stays. |
| `HostPlanner.FeedShowsFrame` | crates/byakko-web/src/host.rs:191-218 | A frame is refused exactly when the active mode takes none; else that very report is shown, once, and neither the lighting nor the record changes. |
| `HostPlanner.KeyboardShowsLastAsked` | crates/byakko-web/src/host.rs:168-218 | As long as every update succeeds, the keyboard shows the setting asked for last. |
| `HostPlanner.ReadbacksAreJudged` | crates/byakko-web/src/host.rs:337-424 | Whatever has become of the keyboard, a readback is judged by what it shows: a start runs exactly if it shows the target over the saved lighting, a restoration is verified exactly if it shows the saved bytes and has failed if it shows others, a stop has restored the baseline exactly if it shows the target and is that very baseline; without a reading each stays in doubt. |
| `HostPlanner.BackupsNameLighting` | crates/byakko-web/src/host.rs:71-166 | The backup before a start's setter holds the lighting the keyboard showed and the setting asked for; the one before a stop's, the lighting recorded and the saved setting. |
| `HostPlanner.RecordFollowsKeyboard` | crates/byakko-web/src/host.rs:168-218 | As long as the updates succeed, the recorded lighting is what the keyboard shows. |
| `LightingCodec.WrittenIsCanonical` | crates/byakko-protocol/src/nia87/lighting.rs:269-299 | What the writer produced is read back as something it would write again. |
| `LightingCodec.WrittenIsRead` | crates/byakko-protocol/src/nia87/lighting.rs:150-299 | Every valid setting is read back as it was written, if and only if its color is not the one that the wire spells like white. |
| `LightingCodec.PaletteColorIsNotCanonical` | crates/byakko-protocol/src/nia87/lighting.rs:150-222 | A concrete recognized reply, a preset color stored as a palette index, whose setting is written back with different bytes. |
| `Recording.StopNeverFails` | crates/byakko-core/src/recorder/macros.rs:78-156 | After any inputs, accepted or not, a recording can be stopped at any time, even one before its last event. Earlier events stay as they were; behind them come the accepted edges and the releases, each press finding its key up and each release finding it down, and nothing is left held. Clamping is reported exactly when the last wait could not be stored. |
| `Recording.WaitsMeasureTime` | crates/byakko-core/src/recorder/macros.rs:17-37 | Under measured waits the recorded waits add up to the time from the first accepted edge to the last; under a fixed wait every event gets it. |
| `Recording.RecordedExactly` | crates/byakko-core/src/recorder/macros.rs:78-126 | In every recording an input is refused if it is no edge, ignored as a duplicate if it repeats what its key already does, refused if it comes at a time whose distance from the last recorded edge cannot be stored, or if what is recorded would not be valid however it might end; and in every other case it is recorded, behind what was recorded before. |
| `Recording.OpensExactly` | crates/byakko-core/src/recorder/macros.rs:57-72 | A recording opens exactly on a valid program, when the wait behind each edge and the terminal one can be stored and a fixed wait is not zero. |
| `Recording.StopMeasuresTime` | crates/byakko-core/src/recorder/macros.rs:128-156 | Stopping at a time that can be measured records the time from the first edge to the stop, when something is still held, and else to the last edge; one terminal wait comes last. |
| `Recording.AfterIsFaithful` | crates/byakko-core/src/recorder/macros.rs:78-126 | An accepted transition extends the recording by exactly its edge and settles the wait before it; a refused one changes nothing. |
| `Recording.ReserveCostsMost` | crates/byakko-core/src/recorder/macros.rs:198-205 | No storable wait costs more bytes than the one held in reserve, gaps and thresholds of the budget included. |
| `Recording.CheaperWaitFits` | crates/byakko-core/src/recorder/macros.rs:128-156 | A settled program stays valid when its last wait becomes a cheaper storable one: why the reserve is enough. |
| `MacroProgram.ValidateProgram` | crates/byakko-core/src/validation/macros.rs:87-140 | The loop over the events accepts exactly the valid programs, the byte budget adding up per event. |
| `EditorLifecycle.UnsavedEditsSurvive` | crates/byakko-core/src/editor/mod.rs:74-177 | Over any run of reads, save requests, save results, connections and disconnections a draft with unsaved edits is never replaced: it stays until an accepted baseline shows exactly that draft or its user edits it. |
| `EditorLifecycle.EditsInFlightRemain` | crates/byakko-core/src/editor/mod.rs:100-177 | After an accepted save request, any run of edits, reverts, further requests, reads and invalidations, and then the result: the draft is what the last accepted edit made of it, and is dirty exactly when it differs from what was submitted. Only a read that finds nothing unsaved can bring another draft. |
| `EditorLifecycle.SavedMeansSubmitted` | crates/byakko-core/src/editor/mod.rs:146-177 | However the draft was edited meanwhile, a result counts as saved if and only if it is valid and shows exactly what was submitted when the save was requested; otherwise the baseline stays and a new read is asked for. |
| `EditorLifecycle.EditsAreSaved` | crates/byakko-core/src/editor/mod.rs:84-114 | An edit is refused exactly unless the editor is ready, has a baseline and its feature allows it; accepted, a save can follow exactly when the draft differs from the baseline and its feature plans a write, which is the one planned against that baseline. |
| `EditorLifecycle.RevertShowsBaseline` | crates/byakko-core/src/editor/mod.rs:93-99 | A revert is refused exactly during a save or without a baseline; accepted, the draft shows the baseline and nothing is unsaved. |
| `EditorLifecycle.ReadsTakenExactly` | crates/byakko-core/src/editor/mod.rs:118-145 | A read is taken exactly when it is good and does not show under unsaved edits that the device was changed; otherwise a conflict names what the device holds, or another read is asked for, and nothing else changes. |
| `EditorLifecycle.ConflictsAreResolved` | crates/byakko-core/src/editor/mod.rs:77-145 | The way out of a conflict: until it is reverted and read again, or the device found with the old baseline, the editor takes no edit and no save; then it is ready with nothing unsaved, or with its draft as it was. |
| `EditorLifecycle.StaleEditorsRecover` | crates/byakko-core/src/editor/mod.rs:77-145 | After the loss of a connection an editor takes no edit and no save before a good read; with the same baseline found, its user goes on where they were. |
| `Revisions.NoLostUpdate` | crates/byakko-devices/src/memory.rs:294-325 | A write planned against a snapshot is accepted only if no other write was accepted since, and is refused as stale exactly if one was. |
| `Revisions.StaleMeansWritten` | crates/byakko-devices/src/memory.rs:294-325 | A snapshot is stale exactly when a write came after it, even if later writes restored the same content. |
| `Revisions.RevisionsDiffer` | crates/byakko-devices/src/memory.rs:312-325 | Revisions of different writes differ: the initial one followed by eight big-endian bytes determines the count. |
| `Revisions.BigEndianRoundTrip` | crates/byakko-devices/src/memory.rs:312-325 | Big-endian bytes determine their number. |
| `Revisions.WritesAreCounted` | crates/byakko-devices/src/memory.rs:294-325 | The counter moves by exactly the accepted writes. |
| `KeymapEditing.AppliedExactly` | crates/byakko-devices/src/memory.rs:294-325 | On a valid key map a write is accepted exactly when it was planned against the current snapshot, names known, writable positions, each once, and the revisions last; each named position is then bound as asked and every other as before. A stale write is called stale whatever it asks for. |
| `MacroSaving.AppliedExactly` | crates/byakko-devices/src/memory.rs:337-380 | A slot takes a program exactly when it was planned against what the slot shows, the content on either side is in the editor's reach and the revisions last; a second write planned against the old snapshot is stale. |
| `SettingsEditing.AppliedExactly` | crates/byakko-devices/src/memory.rs:543-583 | A setting is written exactly when it was planned against the current snapshot, the content may be edited, the value fits its field and the revisions last; that field has the value, every other what it had. |
| `KeymapEditing.DifferenceRebuildsDraft` | crates/byakko-core/src/editor/keymap.rs:39-59 | The sparse difference loses nothing: put over its baseline it gives the draft. |
| `KeymapEditing.SavedExactlyWhenCurrent` | crates/byakko-core/src/editor/keymap.rs:69-95 | For every reachable editor, with the user editing on while the save is in flight: a requested save succeeds exactly when no other write was accepted since the baseline; the device then holds exactly the submitted bindings and the editor ends ready with the draft as edited since. |
| `KeymapEditing.StagedExactly` | crates/byakko-core/src/editor/keymap.rs:60-89 | An edit is taken exactly if its position is known and writable and its action offered; it changes that binding and no other. |
| `MacroSaving.SavedExactlyWhenCurrent` | crates/byakko-core/src/editor/macros.rs:77-87 | The same for the selected macro slot, its draft edited, imported or recorded: a requested save succeeds exactly when no other write of the slot was accepted since the baseline; the slot then holds exactly the submitted program and the editor ends ready with the draft as edited since. |
| `SettingsEditing.SaveIsAlwaysPlanned` | crates/byakko-core/src/editor/settings.rs:18-81 | In every run, edits back to the original during a save included, a dirty ready editor can be saved and the one-field write rebuilds the draft, provided no read is accepted between a save and its result. |
| `SettingsEditing.SaveIsPlannedExactly` | crates/byakko-core/src/editor/settings.rs:73-81 | In every run whatsoever a save can be planned if and only if the editor is ready, nothing is submitted, and draft and baseline differ in exactly one field. |
| `SettingsEditing.ReadDuringSaveBreaksPlanning` | crates/byakko-core/src/editor/settings.rs:18-81 | Why that proviso is needed: a concrete run with such a read leaves two fields staged, and no save can be planned. `SessionSafety.WritesMatchTickets` shows the session never reads then. |
| `SettingsEditing.SavedExactlyWhenCurrent` | crates/byakko-core/src/editor/settings.rs:73-81 | For a setting, in every run in which a save could be requested at all, with the user editing on while it is in flight: it is saved exactly when no other write was accepted since the baseline; the device then holds exactly the submitted values and the editor ends ready. |
| `SettingsEditing.ValidContentIsComplete` | crates/byakko-core/src/validation/settings.rs:56-76 | A valid editable snapshot has a value for every declared field and no other. |
| `SettingsEditing.StagedExactly` | crates/byakko-core/src/editor/settings.rs:42-72 | In an orderly run an edit is taken exactly if its value fits its field and no other field is staged or submitted; it sets that field and no other. |
| `SettingsEditing.FitsExactly` | crates/byakko-core/src/validation/settings.rs:30-55 | The numbers a field takes are those reached from its minimum in whole steps up to its maximum, and zero if that turns it off. |
| `MacroEditing.ShiftMovesOneEvent` | crates/byakko-core/src/editor/macros.rs:252-275 | Moving an event keeps all of them, places it, keeps the others in order, and the reverse move undoes it. |
| `MacroEditing.EditsAreUndone` | crates/byakko-core/src/editor/macros.rs:252-275 | Every accepted edit but a clearing is taken back exactly by one edit that is accepted in turn, so it loses nothing but the event it names; the program stays valid, an inserted or replacing event stands where it was put, and only a change of the repeat count changes that. |
| `MacroEditing.EditedExactly` | crates/byakko-core/src/editor/macros.rs:55-76 | An edit is taken exactly when there is a program, it names an existing event, and the result is valid with a repeat count that may be edited. |
| `MemoryDevice.AppliesAreWrites` | crates/byakko-devices/src/memory.rs:294-583 | Every feature of the device writes through one revisioned write of the value asked for. |
| `SessionSafety.WritesMatchTickets` | crates/byakko-core/src/session.rs:392-488 | In every run a feature has a submitted value exactly while its save is the pending ticket, and recording, host lighting and a pending ticket exclude each other. |
| `SessionSafety.NoCompletionCountsTwice` | crates/byakko-core/src/session.rs:1039-1193 | Once a completion had an effect, that completion and every other with its operation number is ignored in all later states. |
| `SessionSafety.OtherGenerationsAreIgnored` | crates/byakko-core/src/session.rs:1039-1050 | A completion of another connection changes nothing, whatever it carries. |
| `SessionSafety.DisconnectAlwaysEnds` | crates/byakko-core/src/session.rs:419-488 | In every run losing the device succeeds and ends the recording, the host activity and the pending save. |
| `SessionDrafts.UnsavedEditsSurvive` | crates/byakko-core/src/session.rs:79-1267 | In every run of calls and completions, save-then-bind and picture preparation included: a draft with unsaved edits stays, whatever arrives, until nothing of it is unsaved or its user edits that very feature. |
| `SessionDrafts.UnsavedMacrosSurvive` | crates/byakko-core/src/session.rs:79-1267 | In every run nothing that arrives changes the selected macro with unsaved edits but its user: by an edit, an import, a revert, a recorded input or the end of a recording. |
| `SessionDrafts.ConnectionsKeepDrafts` | crates/byakko-core/src/session.rs:392-488 | Connecting and disconnecting keep every draft; only a macro being recorded is settled. |
| `SessionDrafts.CompletionsKeepDirtyDrafts` | crates/byakko-core/src/session.rs:1039-1193 | In every run no completion changes a dirty draft, whatever it completes and whichever workflow waits for it. |
| `SessionSafety.RunIsGood` | crates/byakko-core/src/session.rs:79-1267 | The session invariant holds in every reachable state. |
| `SessionSafety.DisconnectIsGood` | crates/byakko-core/src/session.rs:419-488 | Disconnecting keeps it. |
| `SessionSafety.AcceptIsGood` | crates/byakko-core/src/session.rs:1039-1193 | Taking any completion keeps it. |
| `SessionCommands.CallsSayWhatIsStaged` | crates/byakko-core/src/session.rs:489-936 | Whatever a call asks of the device is what the call is for, carries the next number and says what is staged: a save names its feature, carries the editor's baseline as what must still be held and the planned write of its draft, and submits that draft; a read names its feature, a scan every slot. No other call asks anything. |
| `SessionCommands.CompletionsSayWhatIsStaged` | crates/byakko-core/src/session.rs:1039-1193 | Likewise what a completion lets a workflow ask for: after the macro of a binding, the save of the key map with the binding staged; for a picture, the lighting or picture it still needs. |
| `SessionCommands.SavesReachTheDevice` | crates/byakko-core/src/session.rs:504-511 | A save in any run, carried out by a device that others write to: it is accepted exactly when the device still holds the editor's baseline; the device then holds what was submitted and the editor is ready on exactly that. Otherwise the device is untouched, and the draft stays. |
| `SessionCommands.KeySpeaks` | crates/byakko-core/src/session.rs:1205-1234 | Binding a saved macro stages the binding and saves exactly that key map. |
| `SessionCalls.EditsTakenExactly` | crates/byakko-core/src/session.rs:937-951 | An edit is taken exactly if nothing but a background read or its own save is going on, its editor takes it and no picture selector forbids it; it changes that editor alone. |
| `SessionCalls.RevertsTakenExactly` | crates/byakko-core/src/session.rs:500-503 | A revert is taken exactly while nothing is going on and there is a baseline, which the draft then shows. |
| `SessionCalls.SlotCallsTakenExactly` | crates/byakko-core/src/session.rs:512-536 | The selected macro is edited under the same guard; another slot is selected exactly while nothing is going on and nothing is unsaved, and starts unread. |
| `SessionCalls.ImportsTakenExactly` | crates/byakko-core/src/editor/macros.rs:225-251 | A file is imported exactly while nothing is going on, into a ready slot with a program, when it was made from that slot and revision and holds a valid program that is unchanged or may be edited; the draft is then that program. |
| `SessionCalls.ConnectsExactly` | crates/byakko-core/src/session.rs:392-418 | A connection is taken exactly while nothing is going on and the counter lasts; every editor that had nothing worse to say asks for a read and every slot is unknown. |
| `SessionCalls.HostStartsExactly` | crates/byakko-core/src/session.rs:277-304 | Host lighting starts exactly while nothing is going on, on a connected device without a scan, for a mode its plan allows; it takes the next number. |
| `SessionCalls.RecordingsStartExactly` | crates/byakko-core/src/session.rs:339-350 | A recording is lent the draft exactly while nothing is going on, the slot is ready, its repeat count may be edited and the recorder opens on it. |
| `SessionCalls.RecordingsReachTheDraft` | crates/byakko-core/src/session.rs:339-377 | A whole recording in the session: the draft becomes exactly what the recorder makes of the inputs, and stopping at any time settles it and gives it back. Nothing else changes. |
| `SessionOutcomes.PlainsAreReported` | crates/byakko-core/src/session.rs:1039-1193 | A due completion is taken exactly if it is for the feature and direction waited for; the editor then is what its lifecycle makes of it, the outcome what its status says, and no other editor changes but a picture read for another lighting. |
| `SessionOutcomes.MacrosAreReported` | crates/byakko-core/src/session.rs:1039-1193 | The same for the selected macro slot. |
| `SessionOutcomes.CapturesAndCatalogsAreReported` | crates/byakko-core/src/session.rs:1051-1110 | A capture leaves every editor alone; a scan's result reaches nothing but the library, and the outcome says whether it was taken. |
| `SessionOutcomes.BindingsGoOn` | crates/byakko-core/src/session.rs:1205-1234 | When the macro of a binding is saved the key map follows: it shows the binding already, or the binding is saved, or a failure says that the macro was. When it is not, the key map is left alone and the failure says so. |
| `SessionOutcomes.BindingsEnd` | crates/byakko-core/src/session.rs:1205-1234 | A binding succeeded exactly if the key map was saved, and either way the caller is told whether a macro was saved before. |
| `SessionOutcomes.PreparationsDecide` | crates/byakko-core/src/workflow/picture_preparation.rs:87-119 | After the lighting was read for a picture its plan decides on what was read; a failed read or a conflict ends the preparation with no lighting changed. |
| `SessionOutcomes.PreparationsGoOn` | crates/byakko-core/src/workflow/picture_preparation.rs:87-119 | When the lighting was saved for a picture, the picture is read next; when it was not, the failure says that no lighting was changed. |
| `SessionOutcomes.PreparationsEnd` | crates/byakko-core/src/workflow/picture_preparation.rs:87-135 | A preparation succeeded exactly if the picture is ready at its end, and a failure says whether the lighting was changed for it. |
| `SessionOutcomes.StepsExactly` | crates/byakko-core/src/session.rs:893-912 | A planned step leads to the read or save it names, and nowhere exactly if the plan refuses or the effect cannot be staged and saved. |
| `SessionOutcomes.ObservationsLeaveEditing` | crates/byakko-core/src/session.rs:201-222 | During a background read everything may be edited that could be before; during one that was asked for nothing may. |
| `SessionOutcomes.HostsRunExactly` | crates/byakko-core/src/workflow/host.rs:141-192 | A stop remembers whether the device had started, a start reported afterwards clears that, and events for another ticket change nothing. |
| `SessionOutcomes.HostsEndExactly` | crates/byakko-core/src/workflow/host.rs:166-229 | With the saved lighting found back on the device its editor is ready on it; found different or unreadable, or after a failure that may have touched the device, it asks for a read and says why. Nothing else of the session changes, and unsaved lighting stays. |
| `SessionOutcomes.HostRunsEnd` | crates/byakko-core/src/workflow/host.rs:135-229 | A whole activity, stopped before or after the device reports its start, ends with the session free and, the saved lighting found back, its editor ready. |
| `OccupancyHonesty.OccupancyNeverLies` | crates/byakko-core/src/library/macros.rs:79-161 | In every interleaving of session calls, the FIFO worker, the passive scan and saves, with bounced, cancelled, disconnected and retired operations: a known slot without a save of its own in flight is shown as empty if and only if the keyboard holds a program without events in it, as configured if and only if one with events, as opaque if and only if opaque content. |
| `OccupancyHonesty.CandidateIsFree` | crates/byakko-core/src/library/macros.rs:56-78 | In every such run the slot offered for a new macro is one of those asked for and bound to nothing. If it is shown as empty, no save of its own being in flight, the keyboard holds a program without events there; else it is unknown and no unbound one is shown as empty. Nothing is offered only if every unbound one is known to hold something. |
| `MacroLibrary.CatalogShows` | crates/byakko-core/src/library/macros.rs:95-136 | A catalog is accepted exactly when it has one valid snapshot for each of as many slots as there are; then every slot not refreshed since the scan began shows what its snapshot holds, and every other what it showed. |
| `MacroLibrary.EditorShows` | crates/byakko-core/src/library/macros.rs:137-161 | Ready or in conflict, the selected slot shows what was read; after a write of unknown outcome it is unknown; any other problem changes nothing, and no other slot is touched. |
| `OccupancyScans.UndisturbedScansShowAll` | crates/byakko-devices/src/executor.rs:182-211 | A scan that nothing disturbs, against a keyboard that answers every read, ends with every slot known and shown as the keyboard holds it. |
| `OccupancyScans.FirstScanShowsAll` | crates/byakko-devices/src/executor.rs:84-211 | From the very start: after connecting, the first such scan shows every slot. |
| `OccupancyScans.EveryCommandIsAnsweredOnce` | crates/byakko-devices/src/executor.rs:84-211 | In every run of the worker each command it takes is answered exactly once, under its own numbers; only a scan may still owe its answer, and at most one does. |
| `OccupancyScans.CommandsAnsweredOnce` | crates/byakko-devices/src/executor.rs:118-182 | A command is refused exactly while host lighting holds the device, or for another connection, or when it is not newer than the last one let through; a refused one reaches no device and is answered as not attempted, any other is executed once. |
| `OccupancyScans.ScansGoOnExactly` | crates/byakko-devices/src/executor.rs:182-211 | A scan goes on exactly while it is current, not cancelled, incomplete and its slot can be read; it ends with what it read, or as failed, and never touches the device. |
| `OccupancyHonesty.WriteKeeps` | crates/byakko-devices/src/executor.rs:150-209 | A macro write that changes its slot leaves nothing believed from before it: an overlapping scan is ended. |
| `OccupancyHonesty.AnswerKeeps` | crates/byakko-devices/src/executor.rs:84-209 | Every other worker step keeps the invariant. |
| `OccupancyHonesty.DeliveryTakes` | crates/byakko-core/src/session.rs:1039-1193 | What a delivered completion makes the session show is true of the keyboard. |
| `OccupancyHonesty.RefusalTakes` | crates/byakko-devices/src/executor.rs:257-285 | A refused submission shows no slot anew. |
| `MacroLibrary.FirstUnboundIsFirst` | crates/byakko-core/src/library/macros.rs:56-78 | The candidate is the first slot of the wanted kind that nothing is bound to; no candidate means there is none. |
| `TesterInput.NothingIsLostInSilence` | crates/byakko-devices/src/tester_input.rs:101-145 | For every interleaving of producer and consumer: what is received is what was produced, in order, and samples with no discontinuity between them were as far apart in the source. |
| `TesterInput.NothingIsLostAtFirst` | crates/byakko-devices/src/tester_input.rs:101-145 | Up to the first discontinuity nothing at all is lost. |
| `TesterInput.SentExactly` | crates/byakko-devices/src/tester_input.rs:115-145 | A send says that its consumer is there exactly while it is. The sample is queued exactly when there is room for it behind the marker that may be owed; without room for both the marker alone may go, and what did not go is owed. |
| `TesterInput.RoomMeansReceived` | crates/byakko-devices/src/tester_input.rs:101-145 | In every run a sample that is sent while there is room behind the marker owed is received, behind everything queued before it. |
| `KeyTester.HistoriesAreTrue` | crates/byakko-core/src/model/tester.rs:97-217 | Over every run of inputs, pauses, resumptions and resets the two bounded histories are the last 32 and 128 entries of the whole history, held and released keys are disjoint, the candidate count is the sum over the keys and the length of the history, and the peak bounds the held keys. |
| `KeyTester.NothingSaturates` | crates/byakko-core/src/model/tester.rs:97-191 | In no reachable state does any input subtract a later time from an earlier one. |
| `KeyTester.TailPush` | crates/byakko-core/src/model/tester.rs:262-267 | Pushing within a limit keeps the end of what pushing without one would hold. |
| `KeyLedger.TotalsAreTrue` | crates/byakko-core/src/model/tester.rs:97-217 | The running totals mean what they say: after every run they are what a ledger of the unbroken chain of edges yields when it is read again, presses, releases, repeats, known holds, chatter candidates and spacings alike. |
| `KeyTester.PeakIsMostHeld` | crates/byakko-core/src/model/tester.rs:97-217 | After every run the peak is exactly the most keys that were held at once, counted anew from each reset. |
| `UsbEndpoints.InspectionIsExact` | crates/byakko-devices/src/tester_usb.rs:66-160 | Endpoints are reported exactly when one configuration block matches, its bytes split into descriptors, exactly one setting matches and is a HID one, it declares as many endpoints as follow it, all are acceptable, and the interrupt IN ones among them, in order and with distinct addresses, are those reported. |
| `UsbEndpoints.InterruptEndpoints` | crates/byakko-devices/src/tester_usb.rs:66-160 | The two loops stay in bounds, end, and compute that specification, error kind included. |
| `UsbDescriptors.SelectConfiguration` | crates/byakko-devices/src/tester_usb.rs:74-101 | The first loop finds the only matching configuration block, and refuses a second. |
| `UsbDescriptors.SplitInvertsJoin` | crates/byakko-devices/src/tester_usb.rs:107-114 | Splitting bytes into descriptors is the exact inverse of joining well-formed ones. |
| `UsbDescriptors.IntervalsFollowTheStandard` | crates/byakko-devices/src/tester_usb.rs:55-62 | Intervals follow section 9.6.6 of the USB 2.0 specification: milliseconds on slow buses, doubling microframes on fast ones, nothing outside the valid values. |
| `UsbEndpoints.AddressesFollowTheStandard` | crates/byakko-devices/src/tester_usb.rs:116-160 | An endpoint address is acceptable exactly if it is a number from one to fifteen, with 128 added for IN (section 9.6.6 of the USB 2.0 specification). |
| `UsbEndpoints.TypesFollowTheStandard` | crates/byakko-devices/src/tester_usb.rs:116-160 | An acceptable endpoint is an interrupt IN one exactly if its address is an IN one and the two lowest bits of its attributes are both set. |
| `Probe.PowerIsSpectral` | crates/byakko-core/src/projection/audio.rs:50-64 | Over exact reals the recurrence measures the squared modulus of the window's Fourier sum at the angle whose doubled cosine is the coefficient; so it is never negative. |
| `Probe.RecurrenceIsSpectrum` | crates/byakko-core/src/projection/audio.rs:54-60 | The last two values of the recurrence carry that sum, turned forward to the newest sample. |
| `AudioBands.Bands.Push` | crates/byakko-core/src/projection/audio.rs:35-44 | The ring holds the last 2048 samples oldest first, clamped, with zero for what is not finite. |
| `AudioBands.Bands.Silence` | crates/byakko-core/src/projection/audio.rs:46-51 | Silence leaves the window that pushing as many zeros leaves, in at most one window of work. |
| `AudioBands.Bands.Measure` | crates/byakko-core/src/projection/audio.rs:53-64 | The loop over the ring computes that power of the tapered window. |
| `AudioBands.SilenceIsDark` | crates/byakko-core/src/projection/audio.rs:46-64 | A silent window has no power in any band. |
| `ChunkedBody.CodedIsRead` | Research/tools/rpc_analyze.py:56-87 | The parser inverts chunked coding (section 7.1 of RFC 9112) for every list of chunks, spelling of the sizes, extensions and trailers, whatever surrounds them. |
| `ChunkedBody.BodyEndsExactly` | Research/tools/rpc_analyze.py:56-87 | For every recording and every declared size, negative ones included: the loop over the chunks returns if and only if it never comes to a position twice; and if not, no number of turns is enough. |
| `ChunkedBody.SizesMetEnd` | Research/tools/rpc_analyze.py:56-87 | Whatever the chunks contain: when no size that the loop meets is negative, or only down to minus five, it returns, and a complete body ends behind its start. |
| `ChunkedBody.ForwardTurnsEnd` | Research/tools/rpc_analyze.py:63-87 | When every turn that the loop makes and that goes on goes forward, it returns; positions it never comes to do not matter. |
| `ChunkedBody.TurnsForwardExactly` | Research/tools/rpc_analyze.py:63-87 | A turn that goes on goes forward if and only if the chunk with its two closing bytes ends past the place where the turn began, as it does for every size from minus five up. |
| `ChunkedBody.MinusTwoGoesOn` | Research/tools/rpc_analyze.py:63-87 | A size of minus two is not refused: it takes an empty chunk and goes on just behind its size line. |
| `ChunkedBody.ParseChunkedBody` | Research/tools/rpc_analyze.py:56-87 | The loop computes exactly that reading, on all recordings on which it returns. |
| `ChunkedBody.NegativeSizeCanStall` | Research/tools/rpc_analyze.py:63-87 | That bound is sharp: concrete bytes on which the loop meets no size below minus six and comes back to the same position for ever. |
| `HttpStream.StreamIsRead` | Research/tools/rpc_analyze.py:90-145 | Every recording of well-framed messages is read back message by message, with their headers, bodies and byte ranges, and nothing left over. |
| `HttpStream.HeadersExactly` | Research/tools/rpc_analyze.py:42-53 | A name is among the headers exactly if some field has it, in any letter case and with any spaces around it; what counts is the stripped value of the last such field. |
| `HttpStream.FramingExactly` | Research/tools/rpc_analyze.py:98-121 | A body is in chunks exactly if its transfer encoding mentions the word in any letter case; otherwise its length is what its declared length says, if that is a number. |
| `CutRecordings.CutStreamIsRead` | Research/tools/rpc_analyze.py:90-145 | A recording that breaks off anywhere gives every message that is complete by then, after them the one it ends in, marked incomplete and with what was recorded of its content, and counts as left over only the part of a head. |
| `CutRecordings.CutCodingIsRead` | Research/tools/rpc_analyze.py:56-87 | A chunked body that breaks off anywhere is read as the chunks complete by then and reported as incomplete. |
| `CutRecordings.CutFieldsAreRead` | Research/tools/rpc_analyze.py:236-281 | Wire fields that break off anywhere are read up to the cut, with one problem that names the field it falls in, unless its very key is broken. |
| `CutRecordings.KeysExactly` | Research/tools/rpc_analyze.py:242-281 | A key is bad exactly when it takes more than ten bytes, its number zero exactly below eight, and its shape unsupported exactly when it is none of the four. |
| `HttpStream.StreamEndsExactly` | Research/tools/rpc_analyze.py:90-145 | For every recording and every declared length, negative ones included: the loop over the messages returns if and only if no message begins where an earlier one began and every chunked body it meets returns. |
| `HttpStream.GoesForwardExactly` | Research/tools/rpc_analyze.py:102-145 | A message with a declared length goes forward if and only if that length reaches behind the place where the message began. |
| `HttpStream.LengthsMetEnd` | Research/tools/rpc_analyze.py:90-145 | Whatever the bodies contain: when no length and no chunk size that the loop meets is negative, or only down to minus 23 and minus five, it returns. |
| `HttpStream.ForwardMessagesEnd` | Research/tools/rpc_analyze.py:90-145 | When every message the loop comes to and reads past leads forward and every body it meets returns, it returns; positions it never comes to do not matter. |
| `HttpStream.RangesAreContiguous` | Research/tools/rpc_analyze.py:90-145 | On every recording the loop returns from, negative lengths and sizes included: each message begins where the one before it ended, only the last may be incomplete, and the last range and the trailing bytes end no later than the data. |
| `HttpStream.ParseHttpStream` | Research/tools/rpc_analyze.py:90-145 | The loop computes exactly that reading, on all recordings on which it returns. |
| `HttpStream.NegativeLengthCanStall` | Research/tools/rpc_analyze.py:102-112 | That bound is sharp: a concrete message of length minus 24, which the loop reads again and again. |
| `HttpStream.NegativeLengthCanEnd` | Research/tools/rpc_analyze.py:102-112 | A concrete message with a negative length on which the loop goes forward and returns. |
| `WireFields.FieldsAreRead` | Research/tools/rpc_analyze.py:236-281 | Reading a list of written fields gives it back without errors if and only if every field number is positive and no number needs more than ten bytes. |
| `WireFields.DecodeWireFields` | Research/tools/rpc_analyze.py:236-281 | The loop ends and computes that reading, with the error of the first bad field. |
| `WireFields.ReadsExactlyVarints` | Research/tools/rpc_analyze.py:223-233 | A number is read exactly when its bytes are a varint of at most the allowed length, and then with its value and end. |
| `WireFields.VarintRoundTrip` | Research/tools/rpc_analyze.py:223-233 | Reading undoes writing exactly for numbers below two to the seventieth. |
| `WireFields.ReadVarint` | Research/tools/rpc_analyze.py:223-233 | The loop computes that; a shifted group never meets a bit already set, so the source's `or` is an addition. |
| `PythonBytes.NumbersAreRead` | Research/tools/rpc_analyze.py:63-67 | Plain digits are read with their positional value, whatever the base. |
| `PythonBytes.NumbersExactly` | Research/tools/rpc_analyze.py:63-67 | Bytes or text are read as a number if and only if they are spaces, a sign, a base prefix and digits with single underscores between them, each but the digits optional; the value is that of the digits with the sign. |
| `BrowserObject.BrowserOperation.constructor` | crates/byakko-web/src/executor.rs:911-933 | Refinement. A new operation is in the state `BrowserPlanner.Start` describes. |
| `BrowserObject.BrowserOperation.Advance` | crates/byakko-web/src/executor.rs:943-975 | Refinement. The object with its fields updated in place refines the state machine the theorems are about, so they hold of it; the methods below do the same stage by stage. |
| `BrowserObject.BrowserOperation.QueueKeyWrites` | crates/byakko-web/src/executor.rs:214-235 | Refinement. The loop over the slots queues exactly the differing writable ones, in order. |
| `BrowserObject.BrowserOperation.QueueMacroWrites` | crates/byakko-web/src/executor.rs:257-271 | Refinement. The loop over the pages queues all of them, the settling delay behind the last. |
| `BrowserObject.BrowserOperation.QueuePictureWrites` | crates/byakko-web/src/executor.rs:391-399 | Refinement. The loop over the pages queues all seven. |
| `BrowserObject.BrowserOperation.StartKeymap` | crates/byakko-web/src/executor.rs:173-212 | Refinement. The opening of a keymap transaction. |
| `BrowserObject.BrowserOperation.StartMacro` | crates/byakko-web/src/executor.rs:237-281 | Refinement. The opening of a macro transaction. |
| `BrowserObject.BrowserOperation.StartLighting` | crates/byakko-web/src/executor.rs:283-325 | Refinement. The opening of a lighting transaction. |
| `BrowserObject.BrowserOperation.StartSettings` | crates/byakko-web/src/executor.rs:327-352 | Refinement. The opening of a settings transaction. |
| `BrowserObject.BrowserOperation.StartPicture` | crates/byakko-web/src/executor.rs:354-400 | Refinement. The opening of a picture transaction. |
| `BrowserObject.BrowserOperation.BeginKeyRecovery` | crates/byakko-web/src/executor.rs:402-416 | Refinement. The first observation of a keymap recovery. |
| `BrowserObject.BrowserOperation.KeymapStageDone` | crates/byakko-web/src/executor.rs:418-540 | Refinement. Every stage of a keymap transaction: observe, restore, observe, restore, verify. |
| `BrowserObject.BrowserOperation.BeginMacroRecovery` | crates/byakko-web/src/executor.rs:542-572 | Refinement. The start of a macro recovery. |
| `BrowserObject.BrowserOperation.MacroStageDone` | crates/byakko-web/src/executor.rs:574-630 | Refinement. Every stage of a macro transaction. |
| `BrowserObject.BrowserOperation.BeginSettingsRecovery` | crates/byakko-web/src/executor.rs:632-650 | Refinement. The start of a settings recovery. |
| `BrowserObject.BrowserOperation.SettingsStageDone` | crates/byakko-web/src/executor.rs:652-711 | Refinement. Every stage of a settings transaction. |
| `BrowserObject.BrowserOperation.ArchiveStageDone` | crates/byakko-web/src/executor.rs:713-803 | Refinement. The stages of an archive capture. |
| `BrowserObject.BrowserOperation.FailStep` | crates/byakko-web/src/executor.rs:805-878 | Refinement. What a failed effect leads to in each stage. |
| `BrowserObject.BrowserOperation.EffectError` | crates/byakko-web/src/executor.rs:880-909 | Refinement. How an error that says whether its setter was sent is taken. |
| `BrowserObject.BrowserOperation.AcceptReply` | crates/byakko-web/src/executor.rs:1229-1282 | Refinement. Storing a reply under the opcode it answers, and the pages it makes known. |
| `BrowserObject.BrowserOperation.SequenceDone` | crates/byakko-web/src/executor.rs:1330-1449 | Refinement. The end of a queue in each plan. |
| `BrowserObject.BrowserOperation.Next` | crates/byakko-web/src/executor.rs:1318-1328 | Refinement. The choice of the next step. |
| `HostObject.BrowserHostOperation.EffectDone` | crates/byakko-web/src/host.rs:296-335 | Refinement. The object refines the state machine of the theorems above: an acknowledged effect. |
| `HostObject.BrowserHostOperation.ExchangeDone` | crates/byakko-web/src/host.rs:337-424 | Refinement. The readbacks of a start, a stop and a restoration. |
| `HostObject.BrowserHostOperation.BeginRestore` | crates/byakko-web/src/host.rs:426-440 | Refinement. The single restoration of a failed start. |
| `HostObject.BrowserHostOperation.EffectError` | crates/byakko-web/src/host.rs:442-481 | Refinement. A failed effect at every stage. |
| `HostObject.BrowserHostOperation.Advance` | crates/byakko-web/src/host.rs:224-264 | Refinement. One whole turn. |
| `RecorderObject.MacroRecorder.Start` | crates/byakko-core/src/recorder/macros.rs:57-72 | Refinement. The checks that open a recording. |
| `RecorderObject.MacroRecorder.Transition` | crates/byakko-core/src/recorder/macros.rs:78-126 | Refinement. Works on the draft in place, truncating and restoring its own trial suffix, and ends with exactly the state of `Recording.After`. |
| `RecorderObject.MacroRecorder.Stop` | crates/byakko-core/src/recorder/macros.rs:128-156 | Refinement. Settling and releasing. |
| `RecorderObject.MacroRecorder.AppendReleases` | crates/byakko-core/src/recorder/macros.rs:178-196 | Refinement. The loop appends one release per held key, the newest first, each with the terminal wait. |
| `EditorObject.FeatureEditor.Edit` | crates/byakko-core/src/editor/mod.rs:84-92 | Refinement. The editor object refines the lifecycle of the theorems above: an edit, refused unless ready. |
| `EditorObject.FeatureEditor.Revert` | crates/byakko-core/src/editor/mod.rs:93-99 | Refinement. A revert. |
| `EditorObject.FeatureEditor.RequestApply` | crates/byakko-core/src/editor/mod.rs:100-114 | Refinement. A request to save. |
| `EditorObject.FeatureEditor.CancelApply` | crates/byakko-core/src/editor/mod.rs:115-117 | Refinement. A cancelled save. |
| `EditorObject.FeatureEditor.AcceptRead` | crates/byakko-core/src/editor/mod.rs:118-145 | Refinement. Taking a read. |
| `EditorObject.FeatureEditor.AcceptApply` | crates/byakko-core/src/editor/mod.rs:146-177 | Refinement. Taking a save result. |
| `EditorObject.FeatureEditor.Invalidate` | crates/byakko-core/src/editor/mod.rs:77-83 | Refinement. The loss of a baseline. |
| `MemoryDevice.Memory.Apply` | crates/byakko-devices/src/memory.rs:294-325 | Refinement. A rejected keymap write leaves state and counter as they were; an accepted one puts all changes and advances the counter. |
| `MemoryDevice.Memory.ApplyMacro` | crates/byakko-devices/src/memory.rs:337-380 | Refinement. Only the slot that the expected snapshot names changes; an unknown slot is refused. |
| `MemoryDevice.Memory.ApplySetting` | crates/byakko-devices/src/memory.rs:543-583 | Refinement. One field changes, or nothing does. |
| `SessionObject.EditingSession.Connect` | crates/byakko-core/src/session.rs:392-417 | Refinement. The session object refines the model the theorems are about: a new connection and its checked counters. |
| `SessionObject.EditingSession.Disconnect` | crates/byakko-core/src/session.rs:419-488 | Refinement. Losing the device. |
| `SessionObject.EditingSession.Begin` | crates/byakko-core/src/session.rs:981-1037 | Refinement. Issuing a ticket, or none when the counter is exhausted. |
| `SessionObject.EditingSession.Accept` | crates/byakko-core/src/session.rs:1039-1193 | Refinement. Correlating and taking a completion. |
| `SessionObject.EditingSession.Observe` | crates/byakko-core/src/session.rs:201-222 | Refinement. A read that must not disturb unsaved work. |
| `SessionObject.EditingSession.EditPlain` | crates/byakko-core/src/session.rs:496-499 | Refinement. Editing one of the plain features. |
| `SessionObject.EditingSession.RevertPlain` | crates/byakko-core/src/session.rs:500-503 | Refinement. Reverting one. |
| `SessionObject.EditingSession.SavePlain` | crates/byakko-core/src/session.rs:504-511 | Refinement. Saving one. |
| `SessionObject.EditingSession.EditSlot` | crates/byakko-core/src/session.rs:528-536 | Refinement. Editing the selected macro. |
| `SessionObject.EditingSession.SelectSlot` | crates/byakko-core/src/session.rs:512-515 | Refinement. Selecting another slot. |
| `SessionObject.EditingSession.SaveSlot` | crates/byakko-core/src/session.rs:560-571 | Refinement. Saving the selected macro. |
| `SessionObject.EditingSession.RequestCatalog` | crates/byakko-core/src/session.rs:572-601 | Refinement. The passive scan request. |
| `SessionObject.EditingSession.StartRecording` | crates/byakko-core/src/session.rs:339-350 | Refinement. Opening a recording. |
| `SessionObject.EditingSession.RecordInput` | crates/byakko-core/src/session.rs:351-364 | Refinement. One recorded input. |
| `SessionObject.EditingSession.StopRecording` | crates/byakko-core/src/session.rs:365-377 | Refinement. Ending a recording. |
| `SessionObject.EditingSession.StartHost` | crates/byakko-core/src/session.rs:277-304 | Refinement. Starting host lighting. |
| `SessionObject.EditingSession.AcceptHost` | crates/byakko-core/src/session.rs:333-338 | Refinement. Host lighting events. |
| `SessionObject.EditingSession.SaveAndAssign` | crates/byakko-core/src/session.rs:602-636 | Refinement. The save-then-bind workflow. |
| `SessionObject.EditingSession.AssignmentTurn` | crates/byakko-core/src/session.rs:1205-1234 | Refinement. Its second step. |
| `SessionObject.EditingSession.PreparePicture` | crates/byakko-core/src/session.rs:873-912 | Refinement. The picture preparation workflow. |
| `SessionObject.EditingSession.PreparationTurn` | crates/byakko-core/src/session.rs:913-936 | Refinement. Its further steps. |
| `LibraryObject.SlotLibrary.BeginScan` | crates/byakko-core/src/library/macros.rs:49-55 | Refinement. The cache object refines the model: a scan begins. |
| `LibraryObject.SlotLibrary.CheckCatalog` | crates/byakko-core/src/library/macros.rs:95-136 | Refinement. The loop accepts exactly the complete catalogs: valid for their slots, each slot once. |
| `LibraryObject.SlotLibrary.AcceptScan` | crates/byakko-core/src/library/macros.rs:95-136 | Refinement. Taking a scan result; slots refreshed since it began keep their newer state. |
| `LibraryObject.SlotLibrary.ObserveEditor` | crates/byakko-core/src/library/macros.rs:137-161 | Refinement. What the selected slot's editor makes known. |
| `LibraryObject.SlotLibrary.Candidate` | crates/byakko-core/src/library/macros.rs:56-78 | Refinement. The search loops find the first free slot, empty ones before unknown ones. |
| `LibraryObject.SlotLibrary.Invalidate` | crates/byakko-core/src/library/macros.rs:88-94 | Refinement. Forgetting every slot. |
| `WorkerObject.CommandWorker.HandleCommand` | crates/byakko-devices/src/executor.rs:118-182 | Refinement. One dequeued command: refused when stale, duplicate or barred by host lighting, taken as the new scan, or executed once and answered once. |
| `WorkerObject.CommandWorker.ContinueScan` | crates/byakko-devices/src/executor.rs:182-211 | Refinement. One turn of the passive scan. |
| `WorkerObject.CommandWorker.GiveToHost` | crates/byakko-devices/src/executor.rs:95-117 | Refinement. Host lighting ends the scan before it takes the device. |
| `TesterInput.Sink.Flush` | crates/byakko-devices/src/tester_input.rs:115-128 | Refinement. The sink object refines the model: the marker owed for lost samples. |
| `TesterInput.Sink.Send` | crates/byakko-devices/src/tester_input.rs:129-145 | Refinement. Sending behind the marker, or losing and remembering it. |
| `TesterObject.Push` | crates/byakko-core/src/model/tester.rs:262-267 | Refinement. The bounded push keeps the end of the sequence. |
| `TesterObject.KeyboardTester.Accept` | crates/byakko-core/src/model/tester.rs:97-191 | Refinement. The tester object refines the model, input by input. |
| `TesterObject.KeyboardTester.Press` | crates/byakko-core/src/model/tester.rs:119-149 | Refinement. A make, with its chatter candidate. |
| `TesterObject.KeyboardTester.Release` | crates/byakko-core/src/model/tester.rs:150-168 | Refinement. A break. |
| `TesterObject.KeyboardTester.ForgetPresses` | crates/byakko-core/src/model/tester.rs:102-109 | Refinement. The loop over the held keys forgets when, not whether, they were pressed. |
| `TesterObject.KeyboardTester.Pause` | crates/byakko-core/src/model/tester.rs:193-199 | Refinement. A pause. |
| `TesterObject.KeyboardTester.Reset` | crates/byakko-core/src/model/tester.rs:203-217 | Refinement. A reset. |

## Left out

- Bytes of report headers, checksums and framing: a write report keeps the fields the device acts on. The lighting setter's checksum byte is not modelled.
- Portable action codecs, labels, schemas and key layout: a keymap action is its four wire bytes or has none. The editor's actions are compared, not interpreted.
- JSON, wasm bindings, error texts and causes: outcomes keep their data and kind. Delays are annotations; there is no clock.
- Archive review and restoration: the session only captures archives. What a capture contains is opaque to the session.
- HID, sockets, audio and input back ends, notifications and the device lock: their results are parameters.
- Threads: interleaved atomic steps. The command queue of two and the response queue of one are unbounded, which only adds interleavings; a full queue is the refusal `Bounce`.
- Host lighting's own thread: it takes the device between two commands and returns it; what it does in between is `HostPlanner`'s business in the browser and not modelled for the native worker.
- The session's optional features: all are configured. `refresh_next`, `requires_manual_read` and `update_host` are left out, being queries or changing nothing modelled here. What the workflow planners plan is a parameter of the session, but their refusal of a dirty draft is modelled; the lighting-picture check is a parameter; so are the plain features' rules, whose snapshots and values are opaque numbers there.
- SessionObject.EditingSession: holds its editors, recorder and cache as values; their objects that change in place are `EditorObject.FeatureEditor`, `RecorderObject.MacroRecorder` and `LibraryObject.SlotLibrary`.
- SettingsEditing.SaveIsAlwaysPlanned: excludes runs in which a read is accepted during a save, where it is false.
- KeymapEditing.DifferenceRebuildsDraft: lists the differences in descriptor order, where the source follows its sorted maps; the result does not depend on it.
- Macro bindings, choice labels and document metadata: `validate_capabilities` and import keep what concerns programs.
- The memory device's lighting, picture and archive: same pattern as the three features modelled. So are the checks with which it is configured; a stored macro carries the names of its device and slot.
- AudioBands.Bands.Measure: is about exact reals. Rounding of 32-bit floats, smoothing, decibels and quantization are left out; the coefficients and the taper, which need a cosine, are parameters.
- ChunkedBody.ParseChunkedBody: is a method only for the recordings on which the loop returns, since a method must return; what happens on the others is `ChunkedBody.BodyEndsExactly`.
- HttpStream.ParseHttpStream: likewise, with `HttpStream.StreamEndsExactly`.
- PythonBytes.NumbersAreRead: Python's limit on very long decimal numerals is left out, and text is Latin-1 bytes.
- gRPC frames, base64 segments, HID report grouping and summaries of the capture analyser: easy members beside the parsers.
- The display forms, autosave timing, keyboard layout tables, command line and embeds: presentation.
