/** Key maps as the editor and a revisioned device see them: sparse differences are planned
    against a baseline and applied only to that very baseline. */
module KeymapEditing {
  import opened Wrappers
  import opened EditorLifecycle
  import opened Revisions

  datatype Action =
    | Key(usage: nat)
    | Disabled
    | Macro(slot: nat, mode: nat)
    | Shortcut(modifiers: seq<nat>, key: nat)
    | Named(id: string)
    | Opaque(backendId: string, data: seq<nat>, caption: string)

  type Layer = map<string, Action>
  type Bindings = map<string, Layer>

  datatype Change = Change(layer: string, key: string, action: Action)

  /** `offered` says which actions the backend advertises for programming. */
  datatype Descriptor = Descriptor(
    layers: seq<string>, keys: seq<string>, writable: set<(string, string)>, offered: Action -> bool)

  predicate Unique(ids: seq<string>) {
    && ids != [] && "" !in ids
    && forall i, j :: 0 <= i < j < |ids| ==> ids[i] != ids[j]
  }

  function SetOf(ids: seq<string>): set<string> {
    set id | id in ids
  }

  predicate Shaped(d: Descriptor, b: Bindings) {
    b.Keys == SetOf(d.layers) && forall layer | layer in b :: b[layer].Keys == SetOf(d.keys)
  }

  predicate ValidState(d: Descriptor, b: Bindings) {
    Unique(d.layers) && Unique(d.keys) && Shaped(d, b)
  }

  predicate ValidChange(d: Descriptor, c: Change) {
    c.layer in d.layers && c.key in d.keys && (c.layer, c.key) in d.writable
  }

  /** Known, writable positions, each at most once. */
  predicate ValidChanges(d: Descriptor, changes: seq<Change>) {
    && (forall c | c in changes :: ValidChange(d, c))
    && forall i, j :: 0 <= i < j < |changes| ==> (changes[i].layer, changes[i].key) != (changes[j].layer, changes[j].key)
  }

  // ------------------------------------------------------------ differences

  function LayerOf(b: Bindings, layer: string): Layer {
    if layer in b then b[layer] else map[]
  }

  function LayerChanges(layer: string, keys: seq<string>, base: Layer, draft: Layer): (changes: seq<Change>)
    ensures forall c | c in changes :: c.layer == layer && c.key in keys
  {
    if keys == [] then []
    else
      (if keys[0] in draft && !(keys[0] in base && base[keys[0]] == draft[keys[0]])
       then [Change(layer, keys[0], draft[keys[0]])] else [])
      + LayerChanges(layer, keys[1..], base, draft)
  }

  /** Every binding of `draft` that `base` does not already have. */
  function Changes(layers: seq<string>, keys: seq<string>, base: Bindings, draft: Bindings): (changes: seq<Change>)
    ensures forall c | c in changes :: c.layer in layers && c.key in keys
  {
    if layers == [] then []
    else LayerChanges(layers[0], keys, LayerOf(base, layers[0]), LayerOf(draft, layers[0])) + Changes(layers[1..], keys, base, draft)
  }

  function Put(b: Bindings, c: Change): Bindings {
    b[c.layer := LayerOf(b, c.layer)[c.key := c.action]]
  }

  function PutAll(b: Bindings, changes: seq<Change>): Bindings
    decreases |changes|
  {
    if changes == [] then b else PutAll(Put(b, changes[0]), changes[1..])
  }

  lemma {:induction false} PutAllAppend(b: Bindings, first: seq<Change>, rest: seq<Change>)
    ensures PutAll(b, first + rest) == PutAll(PutAll(b, first), rest)
    decreases |first|
  {
    if first == [] {
      assert first + rest == rest;
    } else {
      assert (first + rest)[1..] == first[1..] + rest;
      PutAllAppend(Put(b, first[0]), first[1..], rest);
    }
  }

  /** Putting a layer's differences makes that layer equal to the draft's. */
  lemma {:induction false} LayerRebuilt(b: Bindings, layer: string, keys: seq<string>, base: Layer, draft: Layer)
    requires layer in b && b[layer].Keys == base.Keys == draft.Keys && forall key | key in keys :: key in draft
    requires forall key | key in draft :: (key !in keys || base[key] == draft[key]) ==> b[layer][key] == draft[key]
    ensures PutAll(b, LayerChanges(layer, keys, base, draft)) == b[layer := draft]
    decreases |keys|
  {
    if keys == [] {
      assert b[layer] == draft;
    } else if base[keys[0]] == draft[keys[0]] {
      assert LayerChanges(layer, keys, base, draft) == LayerChanges(layer, keys[1..], base, draft);
      LayerRebuilt(b, layer, keys[1..], base, draft);
    } else {
      var change := Change(layer, keys[0], draft[keys[0]]);
      var rest := LayerChanges(layer, keys[1..], base, draft);
      assert LayerChanges(layer, keys, base, draft) == [change] + rest;
      assert ([change] + rest)[1..] == rest;
      LayerRebuilt(Put(b, change), layer, keys[1..], base, draft);
      assert Put(b, change)[layer := draft] == b[layer := draft];
    }
  }

  predicate Filled(b: Bindings, keys: seq<string>) {
    forall layer | layer in b :: b[layer].Keys == SetOf(keys)
  }

  /** The layers still listed are the baseline's, the others already the draft's. */
  predicate Midway(b: Bindings, layers: seq<string>, base: Bindings, draft: Bindings) {
    && b.Keys == base.Keys && b.Keys == draft.Keys
    && (forall i, j :: 0 <= i < j < |layers| ==> layers[i] != layers[j])
    && (forall layer | layer in layers :: layer in b)
    && forall layer | layer in b :: b[layer] == if layer in layers then base[layer] else draft[layer]
  }

  lemma {:induction false} MidwayNext(b: Bindings, layers: seq<string>, base: Bindings, draft: Bindings)
    requires Midway(b, layers, base, draft) && layers != []
    ensures layers[0] in b && b[layers[0]] == base[layers[0]]
    ensures Midway(b[layers[0] := draft[layers[0]]], layers[1..], base, draft)
  {
    assert layers[0] in layers;
    assert layers[0] !in layers[1..];
    assert forall layer :: layer in layers <==> layer == layers[0] || layer in layers[1..];
    var next := b[layers[0] := draft[layers[0]]];
    assert next.Keys == b.Keys;
  }

  lemma {:induction false} LayersRebuilt(b: Bindings, layers: seq<string>, keys: seq<string>, base: Bindings, draft: Bindings)
    requires Midway(b, layers, base, draft) && Filled(base, keys) && Filled(draft, keys)
    ensures PutAll(b, Changes(layers, keys, base, draft)) == draft
    decreases |layers|
  {
    if layers == [] {
      assert b == draft;
    } else {
      hide LayerChanges, Put, Midway, SetOf;
      MidwayNext(b, layers, base, draft);
      var layer := layers[0];
      KnownLayer(b, layers, base, draft, layer);
      var first, rest := LayerChanges(layer, keys, base[layer], draft[layer]), Changes(layers[1..], keys, base, draft);
      OneLayerRebuilt(b, layer, keys, base[layer], draft[layer]);
      PutAllAppend(b, first, rest);
      LayersRebuilt(b[layer := draft[layer]], layers[1..], keys, base, draft);
    }
  }

  lemma {:induction false} KnownLayer(b: Bindings, layers: seq<string>, base: Bindings, draft: Bindings, layer: string)
    requires Midway(b, layers, base, draft) && layer in b
    ensures layer in base && layer in draft
  {
    assert layer in b.Keys;
  }

  lemma {:induction false} OneLayerRebuilt(b: Bindings, layer: string, keys: seq<string>, base: Layer, draft: Layer)
    requires layer in b && b[layer] == base && base.Keys == draft.Keys == SetOf(keys)
    ensures PutAll(b, LayerChanges(layer, keys, base, draft)) == b[layer := draft]
  {
    hide LayerChanges, Put, PutAll;
    assert forall key :: key in keys <==> key in SetOf(keys);
    LayerRebuilt(b, layer, keys, base, draft);
  }

  /** The sparse difference loses nothing: applied to its baseline it gives the draft. */
  lemma {:induction false} DifferenceRebuildsDraft(d: Descriptor, base: Bindings, draft: Bindings)
    requires ValidState(d, base) && Shaped(d, draft)
    ensures PutAll(base, Changes(d.layers, d.keys, base, draft)) == draft
  {
    LayersRebuilt(base, d.layers, d.keys, base, draft);
  }

  // ------------------------------------------------------------ the editor's rules

  function Staged(d: Descriptor, draft: Option<Bindings>, change: Change): Option<Option<Bindings>> {
    if !ValidChange(d, change) || !d.offered(change.action) then None
    else if draft.None? || change.layer !in draft.value || change.key !in draft.value[change.layer] then None
    else Some(Some(Put(draft.value, change)))
  }

  /** An edit is taken exactly if its position is known and writable, its action is offered and
      the draft has that position; it changes that binding and no other. */
  lemma {:induction false} StagedExactly(d: Descriptor, draft: Option<Bindings>, change: Change)
    ensures Staged(d, draft, change).Some? <==>
      && change.layer in d.layers && change.key in d.keys && (change.layer, change.key) in d.writable && d.offered(change.action)
      && draft.Some? && change.layer in draft.value && change.key in draft.value[change.layer]
    ensures Staged(d, draft, change).Some? ==>
      var after := Staged(d, draft, change).value;
      && after.Some? && after.value.Keys == draft.value.Keys && after.value[change.layer][change.key] == change.action
      && forall layer | layer in draft.value ::
           && after.value[layer].Keys == draft.value[layer].Keys
           && forall key | key in draft.value[layer] && !(layer == change.layer && key == change.key) ::
                after.value[layer][key] == draft.value[layer][key]
  {
  }

  function Planned(d: Descriptor, base: Bindings, draft: Bindings): Option<seq<Change>> {
    var changes := Changes(d.layers, d.keys, base, draft);
    if ValidChanges(d, changes) then Some(changes) else None
  }

  type KeymapRules = Rules<Snapshot<Bindings>, Bindings, Change, seq<Change>>
  type KeymapEditor = Editor<Snapshot<Bindings>, Bindings>

  function RulesFor(d: Descriptor): KeymapRules {
    Rules(
      (s: Snapshot<Bindings>) => Some(s.content),
      (l: Snapshot<Bindings>, r: Snapshot<Bindings>) => l == r,
      (s: Snapshot<Bindings>, reception: Reception) => ValidState(d, s.content),
      (s: Snapshot<Bindings>, draft: Option<Bindings>, submitted: Option<Bindings>, change: Change) => Staged(d, draft, change),
      (s: Snapshot<Bindings>, draft: Bindings) => Planned(d, s.content, draft))
  }

  /** Complete maps throughout, from the first accepted read on. */
  predicate Complete(d: Descriptor, e: KeymapEditor) {
    && (e.baseline.Some? ==> ValidState(d, e.baseline.value.content))
    && (e.draft.Some? ==> Shaped(d, e.draft.value))
    && (e.submitted.Some? ==> Shaped(d, e.submitted.value))
  }

  type KeymapStep = Step<Snapshot<Bindings>, Change>

  lemma {:induction false} CompleteKept(d: Descriptor, e: KeymapEditor, step: KeymapStep)
    requires Complete(d, e)
    ensures Complete(d, Take(RulesFor(d), e, step))
  {
    hide PutAll, Changes, ValidChanges, Put, Shaped, AcceptRead;
    if step.User? && e.draft.Some? && step.edit.layer in e.draft.value && step.edit.key in e.draft.value[step.edit.layer] {
      PutKeepsShape(d, e.draft.value, step.edit);
    }
    if e.baseline.Some? { ValidIsShaped(d, e.baseline.value.content); }
    if step.Device? && step.h.Reading? { ReadStaysComplete(d, e, step.h.read); }
  }

  lemma {:induction false} ValidIsShaped(d: Descriptor, b: Bindings)
    requires ValidState(d, b)
    ensures Shaped(d, b)
  {
  }

  lemma {:induction false} RunStaysComplete(d: Descriptor, e: KeymapEditor, steps: seq<KeymapStep>)
    requires Complete(d, e)
    ensures Complete(d, TakeAll(RulesFor(d), e, steps))
    decreases |steps|
  {
    hide Complete, Take, RulesFor;
    if steps != [] {
      CompleteKept(d, e, steps[0]);
      RunStaysComplete(d, Take(RulesFor(d), e, steps[0]), steps[1..]);
    }
  }

  lemma {:induction false} ReadStaysComplete(d: Descriptor, e: KeymapEditor, read: Option<Snapshot<Bindings>>)
    requires Complete(d, e)
    ensures Complete(d, AcceptRead(RulesFor(d), e, read))
  {
    hide PutAll, Changes, ValidChanges, Put, Shaped, Staged, Planned;
  }

  lemma {:induction false} PutKeepsShape(d: Descriptor, b: Bindings, c: Change)
    requires c.layer in b && c.key in b[c.layer]
    ensures Shaped(d, b) ==> Shaped(d, Put(b, c))
  {
    var layer := b[c.layer][c.key := c.action];
    assert layer.Keys == b[c.layer].Keys;
    assert b[c.layer := layer].Keys == b.Keys;
  }

  // ------------------------------------------------------------ the device

  /** A write is checked in the order: stale, changes, revision number, resulting state. */
  function DeviceApply(d: Descriptor, s: Stored<Bindings>, expected: Snapshot<Bindings>, changes: seq<Change>)
    : Result<Stored<Bindings>, Refusal>
  {
    if s.snapshot != expected then Failure(Stale)
    else if !ValidChanges(d, changes) then Failure(Invalid)
    else if s.number + 1 >= U64_LIMIT then Failure(Exhausted)
    else
      var next := PutAll(s.snapshot.content, changes);
      if !ValidState(d, next) then Failure(Invalid)
      else Success(Stored(s.initial, s.number + 1, Snapshot(RevisionOf(s.initial, s.number + 1), next)))
  }

  /** Changes at distinct existing positions bind each of them as its own change says, and
      every other position stays. */
  lemma {:induction false} ChangesBind(b: Bindings, changes: seq<Change>, layer: string, key: string)
    requires forall c | c in changes :: c.layer in b && c.key in b[c.layer]
    requires forall i, j :: 0 <= i < j < |changes| ==> (changes[i].layer, changes[i].key) != (changes[j].layer, changes[j].key)
    requires layer in b && key in b[layer]
    ensures var after := PutAll(b, changes);
      && after.Keys == b.Keys && after[layer].Keys == b[layer].Keys
      && (forall c | c in changes && c.layer == layer && c.key == key :: after[layer][key] == c.action)
      && ((forall c | c in changes :: c.layer != layer || c.key != key) ==> after[layer][key] == b[layer][key])
    decreases |changes|
  {
    if changes != [] {
      var first, rest := changes[0], changes[1..];
      assert changes == [first] + rest && first in changes;
      var next := Put(b, first);
      assert next.Keys == b.Keys && forall x | x in b :: next[x].Keys == b[x].Keys;
      assert forall i :: 0 <= i < |rest| ==> rest[i] == changes[i + 1];
      ChangesBind(next, rest, layer, key);
      if first.layer == layer && first.key == key {
        forall c | c in rest
          ensures c.layer != layer || c.key != key
        {
          var i :| 0 <= i < |rest| && rest[i] == c;
          assert changes[i + 1] == c;
        }
      }
    }
  }

  /** On a valid key map a write is accepted exactly when it was planned against the current
      snapshot, names known, writable positions, each once, and the revisions last. The map
      then has each named position bound as asked and is the same everywhere else. A stale
      write is called stale whatever it asks for. */
  lemma {:induction false} AppliedExactly(
      d: Descriptor, s: Stored<Bindings>, expected: Snapshot<Bindings>, changes: seq<Change>, layer: string, key: string)
    requires ValidState(d, s.snapshot.content) && layer in d.layers && key in d.keys
    ensures var done, before := DeviceApply(d, s, expected, changes), s.snapshot.content;
      var named :=
        && (forall c | c in changes :: c.layer in d.layers && c.key in d.keys && (c.layer, c.key) in d.writable)
        && (forall i, j :: 0 <= i < j < |changes| ==> (changes[i].layer, changes[i].key) != (changes[j].layer, changes[j].key));
      && (done == Failure(Stale) <==> s.snapshot != expected)
      && (done == Failure(Invalid) <==> s.snapshot == expected && !named)
      && (done == Failure(Exhausted) <==> s.snapshot == expected && named && s.number + 1 >= U64_LIMIT)
      && (done.Success? ==>
            && var after := done.value.snapshot.content;
            && ValidState(d, after)
            && (forall c | c in changes && c.layer == layer && c.key == key :: after[layer][key] == c.action)
            && ((forall c | c in changes :: c.layer != layer || c.key != key) ==> after[layer][key] == before[layer][key]))
  {
    hide PutAll, RevisionOf, ValidState;
    if ValidChanges(d, changes) { ChangesStayValid(d, s.snapshot.content, changes, layer, key); }
  }

  lemma {:induction false} ChangesStayValid(d: Descriptor, b: Bindings, changes: seq<Change>, layer: string, key: string)
    requires ValidState(d, b) && ValidChanges(d, changes) && layer in d.layers && key in d.keys
    ensures layer in b && key in b[layer] && ValidState(d, PutAll(b, changes))
    ensures var after := PutAll(b, changes);
      && (forall c | c in changes && c.layer == layer && c.key == key :: after[layer][key] == c.action)
      && ((forall c | c in changes :: c.layer != layer || c.key != key) ==> after[layer][key] == b[layer][key])
  {
    hide PutAll, Unique;
    forall c | c in changes
      ensures c.layer in b && c.key in b[c.layer]
    {
      assert ValidChange(d, c);
    }
    ChangesBind(b, changes, layer, key);
    forall x | x in d.layers
      ensures PutAll(b, changes)[x].Keys == SetOf(d.keys)
    {
      ChangesBind(b, changes, x, key);
    }
  }

  lemma {:induction false} CompleteSaves(d: Descriptor, s: Stored<Bindings>, e: KeymapEditor, others: seq<Attempt<Bindings>>)
    requires Numbered(s) && e.baseline == Some(s.snapshot) && Complete(d, e) && RequestApply(RulesFor(d), e).Success?
    ensures var (flying, expected, changes) := RequestApply(RulesFor(d), e).value;
      var done := DeviceApply(d, AfterAll(s, others), expected, changes);
      && (done.Success? <==> Accepted(s, others) == 0 && s.number + 1 < U64_LIMIT)
      && (done == Failure(Stale) <==> Accepted(s, others) > 0)
      && (done.Success? ==> done.value.snapshot.content == e.draft.value && ValidState(d, done.value.snapshot.content))
  {
    hide PutAll, Changes, ValidChanges, RevisionOf;
    StaleMeansWritten(s, others);
    DifferenceRebuildsDraft(d, s.snapshot.content, e.draft.value);
  }

  /** A save requested by any reachable editor, against a device that others write to: it
      succeeds exactly when no other write was accepted since the baseline was taken; the
      device then holds exactly the submitted bindings. Whatever the user edited meanwhile,
      the editor ends ready with that draft, clean if it was not edited. */
  lemma {:induction false} SavedExactlyWhenCurrent(
      d: Descriptor, s: Stored<Bindings>, before: seq<KeymapStep>, meanwhile: seq<KeymapStep>, others: seq<Attempt<Bindings>>)
    requires Numbered(s) && forall step | step in meanwhile :: InFlight(step)
    requires var e := TakeAll(RulesFor(d), Fresh(), before); e.baseline == Some(s.snapshot) && RequestApply(RulesFor(d), e).Success?
    ensures var e := TakeAll(RulesFor(d), Fresh(), before);
      var (flying, expected, changes) := RequestApply(RulesFor(d), e).value;
      var later := TakeAll(RulesFor(d), flying, meanwhile);
      var done := DeviceApply(d, AfterAll(s, others), expected, changes);
      && (done.Success? <==> Accepted(s, others) == 0 && s.number + 1 < U64_LIMIT)
      && (done == Failure(Stale) <==> Accepted(s, others) > 0)
      && (done.Success? ==>
            && done.value.snapshot.content == e.draft.value
            && AcceptApply(RulesFor(d), later, Success(done.value.snapshot)) == Editor(Some(done.value.snapshot), later.draft, None, Ready)
            && (meanwhile == [] ==> later.draft == e.draft))
  {
    hide PutAll, Changes, ValidChanges, RevisionOf, DeviceApply, TakeAll, RequestApply, ValidState, AcceptApply;
    var e := TakeAll(RulesFor(d), Fresh(), before);
    RunStaysComplete(d, Fresh(), before);
    CompleteSaves(d, s, e, others);
    var (flying, expected, changes) := RequestApply(RulesFor(d), e).value;
    var done := DeviceApply(d, AfterAll(s, others), expected, changes);
    Submits(d, e);
    NoSteps(d, flying);
    if done.Success? { EditsInFlightRemain(RulesFor(d), e, meanwhile, done.value.snapshot); }
  }

  lemma {:induction false} Submits(d: Descriptor, e: KeymapEditor)
    requires RequestApply(RulesFor(d), e).Success?
    ensures RequestApply(RulesFor(d), e).value.0 == e.(submitted := e.draft) && e.draft.Some?
  {
  }

  lemma {:induction false} NoSteps(d: Descriptor, e: KeymapEditor)
    ensures TakeAll(RulesFor(d), e, []) == e
  {
  }
}
