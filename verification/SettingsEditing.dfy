/** Scalar settings: a whole baseline, one-field writes, and why a staged save can always be
    planned. */
module SettingsEditing {
  import opened Wrappers
  import opened EditorLifecycle
  import opened Revisions

  datatype Value = Toggle(on: bool) | Number(n: nat)

  datatype Kind = ToggleKind | NumberKind(min: nat, max: nat, step: nat, disabledZero: bool)

  datatype Field = Field(id: string, kind: Kind)

  datatype Capabilities = Capabilities(backendId: string, fields: seq<Field>)

  type Values = map<string, Value>

  datatype Content = Editable(backendId: string, values: Values) | Opaque(backendId: string)

  datatype Change = Change(id: string, value: Value)

  predicate ValidKind(kind: Kind) {
    kind.NumberKind? ==>
      kind.step != 0 && kind.min <= kind.max && !(kind.disabledZero && kind.min == 0) && (kind.max - kind.min) % kind.step == 0
  }

  predicate ValidCapabilities(caps: Capabilities) {
    && caps.backendId != "" && caps.fields != []
    && (forall f | f in caps.fields :: f.id != "" && ValidKind(f.kind))
    && forall i, j :: 0 <= i < j < |caps.fields| ==> caps.fields[i].id != caps.fields[j].id
  }

  predicate Fits(kind: Kind, value: Value) {
    match kind
    case ToggleKind => value.Toggle?
    case NumberKind(min, max, step, disabledZero) =>
      && value.Number? && step != 0
      && ((disabledZero && value.n == 0) || (min <= value.n <= max && (value.n - min) % step == 0))
  }

  /** `k` whole steps from the minimum. */
  predicate Reached(min: nat, step: nat, k: nat, n: nat) {
    n == min + k * step
  }

  /** The numbers a field takes are those reached from its minimum in whole steps up to its
      maximum, and zero if that turns it off. A valid field takes both of its limits. */
  lemma {:induction false} FitsExactly(kind: Kind, value: Value)
    requires kind.NumberKind? && kind.step != 0
    ensures Fits(kind, value) <==>
      value.Number?
      && ((value.n == 0 && kind.disabledZero) || exists k: nat :: Reached(kind.min, kind.step, k, value.n) && value.n <= kind.max)
    ensures ValidKind(kind) ==> Fits(kind, Number(kind.min)) && Fits(kind, Number(kind.max))
  {
    if value.Number? && value.n >= kind.min {
      var k := (value.n - kind.min) / kind.step;
      WholeSteps(value.n - kind.min, kind.step, k);
      if Fits(kind, value) && !(value.n == 0 && kind.disabledZero) { assert Reached(kind.min, kind.step, k, value.n); }
    }
    forall k: nat | value.Number? && Reached(kind.min, kind.step, k, value.n)
      ensures value.n >= kind.min && (value.n - kind.min) % kind.step == 0
    {
      WholeSteps(value.n - kind.min, kind.step, k);
    }
  }

  lemma {:induction false} WholeSteps(a: nat, step: nat, k: nat)
    requires step != 0
    ensures k == a / step && a % step == 0 ==> a == k * step
    ensures a == k * step ==> a % step == 0
  {
    if a == k * step { OneQuotient(k, a / step, step, a % step); }
  }

  lemma {:induction false} OneQuotient(k: nat, q: nat, step: nat, r: nat)
    requires k * step == q * step + r && r < step
    ensures r == 0
  {
    if k > q {
      Longer(k, q, step);
    } else if k < q {
      Longer(q, k, step);
    }
  }

  lemma {:induction false} Longer(k: nat, q: nat, step: nat)
    requires k > q
    ensures k * step >= q * step + step
    decreases k
  {
    assert k * step == (k - 1) * step + step;
    if k > q + 1 { Longer(k - 1, q, step); }
  }

  predicate ValidValue(caps: Capabilities, c: Change) {
    exists i :: 0 <= i < |caps.fields| && caps.fields[i].id == c.id && Fits(caps.fields[i].kind, c.value)
  }

  predicate AllValid(caps: Capabilities, values: Values) {
    forall id | id in values :: ValidValue(caps, Change(id, values[id]))
  }

  predicate ValidContent(caps: Capabilities, content: Content) {
    && content.backendId == caps.backendId
    && (content.Editable? ==> |content.values| == |caps.fields| && AllValid(caps, content.values))
  }

  function ValuesOf(content: Content): Option<Values> {
    if content.Editable? then Some(content.values) else None
  }

  /** The changed fields of a draft, in the order of `ids`. */
  function Changes(ids: seq<string>, original: Values, draft: Values): (changes: seq<Change>) {
    if ids == [] then []
    else
      (if ids[0] in draft && !(ids[0] in original && original[ids[0]] == draft[ids[0]]) then [Change(ids[0], draft[ids[0]])] else [])
      + Changes(ids[1..], original, draft)
  }

  function FieldIds(caps: Capabilities): (ids: seq<string>)
    ensures |ids| == |caps.fields| && forall i :: 0 <= i < |ids| ==> ids[i] == caps.fields[i].id
  {
    seq(|caps.fields|, i requires 0 <= i < |caps.fields| => caps.fields[i].id)
  }

  function SetOf(ids: seq<string>): set<string> {
    set id | id in ids
  }

  function Ids(caps: Capabilities): set<string> {
    SetOf(FieldIds(caps))
  }

  predicate OtherField(changes: seq<Change>, id: string) {
    changes != [] && changes[0].id != id
  }

  /** An edit may only touch the field that is already submitted or staged, if any. */
  function Staged(caps: Capabilities, original: Option<Values>, draft: Option<Values>, submitted: Option<Values>, edit: Change)
    : Option<Option<Values>>
  {
    if !ValidValue(caps, edit) || original.None? then None
    else if submitted.Some? && OtherField(Changes(FieldIds(caps), original.value, submitted.value), edit.id) then None
    else if draft.None? then None
    else if OtherField(Changes(FieldIds(caps), original.value, draft.value), edit.id) then None
    else if edit.id !in draft.value then None
    else Some(Some(draft.value[edit.id := edit.value]))
  }

  function Planned(caps: Capabilities, original: Option<Values>, draft: Values): Option<Change> {
    if original.None? then None
    else
      var changes := Changes(FieldIds(caps), original.value, draft);
      if |changes| == 1 then Some(changes[0]) else None
  }

  type SettingsSnapshot = Snapshot<Content>
  type SettingsEditor = Editor<SettingsSnapshot, Values>
  type SettingsRules = Rules<SettingsSnapshot, Values, Change, Change>

  function RulesFor(caps: Capabilities): SettingsRules {
    Rules(
      (s: SettingsSnapshot) => ValuesOf(s.content),
      (l: SettingsSnapshot, r: SettingsSnapshot) => l == r,
      (s: SettingsSnapshot, reception: Reception) => ValidContent(caps, s.content),
      (s: SettingsSnapshot, draft: Option<Values>, submitted: Option<Values>, edit: Change) =>
        Staged(caps, ValuesOf(s.content), draft, submitted, edit),
      (s: SettingsSnapshot, draft: Values) => Planned(caps, ValuesOf(s.content), draft))
  }

  // ------------------------------------------------------------ one field at a time

  /** The fields in which two complete value maps differ. */
  function Differing(original: Values, draft: Values): set<string> {
    set id | id in draft && !(id in original && original[id] == draft[id])
  }

  lemma {:induction false} SetOfStep(ids: seq<string>)
    requires ids != [] && forall i, j :: 0 <= i < j < |ids| ==> ids[i] != ids[j]
    ensures SetOf(ids) == SetOf(ids[1..]) + {ids[0]} && ids[0] !in SetOf(ids[1..])
  {
    assert ids == [ids[0]] + ids[1..];
  }

  lemma {:induction false} DistinctSize(ids: seq<string>)
    requires forall i, j :: 0 <= i < j < |ids| ==> ids[i] != ids[j]
    ensures |SetOf(ids)| == |ids|
    decreases |ids|
  {
    if ids != [] {
      SetOfStep(ids);
      DistinctSize(ids[1..]);
    }
  }

  lemma {:induction false} SubsetOfSameSize(a: set<string>, b: set<string>)
    requires a <= b && |a| == |b|
    ensures a == b
  {
    assert b == a + (b - a);
    assert |b| == |a| + |b - a|;
  }

  lemma {:induction false} SizeOfSubset(a: set<string>, b: set<string>)
    requires a <= b
    ensures |a| <= |b|
  {
    assert b == a + (b - a);
  }

  /** A valid editable snapshot has a value for every field and no other. */
  lemma {:induction false} ValidContentIsComplete(caps: Capabilities, content: Content)
    requires ValidCapabilities(caps) && ValidContent(caps, content) && content.Editable?
    ensures content.values.Keys == Ids(caps)
  {
    DistinctSize(FieldIds(caps));
    forall id | id in content.values
      ensures id in Ids(caps)
    {
      var i :| 0 <= i < |caps.fields| && caps.fields[i].id == id;
      assert FieldIds(caps)[i] == id;
    }
    SubsetOfSameSize(content.values.Keys, Ids(caps));
  }

  /** The list of changes has one entry for each differing field. */
  lemma {:induction false} ChangesCount(ids: seq<string>, original: Values, draft: Values)
    requires forall i, j :: 0 <= i < j < |ids| ==> ids[i] != ids[j]
    ensures |Changes(ids, original, draft)| == |Differing(original, draft) * SetOf(ids)|
    decreases |ids|
  {
    hide Differing;
    if ids == [] {
      assert Differing(original, draft) * SetOf(ids) == {};
    } else {
      SetOfStep(ids);
      ChangesCount(ids[1..], original, draft);
      OneMore(Differing(original, draft), SetOf(ids[1..]), ids[0]);
      DiffersAt(original, draft, ids[0]);
    }
  }

  lemma {:induction false} DiffersAt(original: Values, draft: Values, id: string)
    ensures id in Differing(original, draft) <==> id in draft && !(id in original && original[id] == draft[id])
  {
  }

  lemma {:induction false} OneMore(s: set<string>, rest: set<string>, id: string)
    requires id !in rest
    ensures |s * (rest + {id})| == |s * rest| + if id in s then 1 else 0
  {
    assert s * (rest + {id}) == (s * rest) + (if id in s then {id} else {});
  }

  lemma {:induction false} ChangesDiffer(ids: seq<string>, original: Values, draft: Values)
    ensures forall c | c in Changes(ids, original, draft) :: c.id in Differing(original, draft) && draft[c.id] == c.value
    decreases |ids|
  {
    if ids != [] {
      ChangesDiffer(ids[1..], original, draft);
    }
  }

  lemma {:induction false} FieldChanges(caps: Capabilities, original: Values, draft: Values)
    requires ValidCapabilities(caps) && draft.Keys == Ids(caps)
    ensures |Changes(FieldIds(caps), original, draft)| == |Differing(original, draft)|
    ensures forall c | c in Changes(FieldIds(caps), original, draft) :: c.id in Differing(original, draft) && draft[c.id] == c.value
  {
    hide Changes;
    var ids := FieldIds(caps);
    ChangesCount(ids, original, draft);
    ChangesDiffer(ids, original, draft);
    assert Differing(original, draft) * SetOf(ids) == Differing(original, draft);
  }

  /** Complete maps throughout, at most one staged field, and while a write is submitted
      that field is the submitted one. */
  ghost predicate OneField(caps: Capabilities, e: SettingsEditor) {
    && ValidCapabilities(caps)
    && (e.baseline.Some? ==> ValidContent(caps, e.baseline.value.content))
    && (e.draft.Some? ==>
          && e.baseline.Some? && e.baseline.value.content.Editable? && e.draft.value.Keys == Ids(caps)
          && AllValid(caps, e.draft.value)
          && |Differing(e.baseline.value.content.values, e.draft.value)| <= 1)
    && (e.submitted.Some? ==>
          && e.draft.Some? && e.submitted.value.Keys == Ids(caps)
          && |Differing(e.baseline.value.content.values, e.submitted.value)| == 1
          && Differing(e.baseline.value.content.values, e.draft.value) <= Differing(e.baseline.value.content.values, e.submitted.value))
  }

  lemma {:induction false} OneElement(s: set<string>, id: string)
    requires id in s && |s| <= 1
    ensures s == {id}
  {
    SubsetOfSameSize({id}, s);
  }

  lemma {:induction false} AtMostOne(s: set<string>, id: string)
    requires s <= {id}
    ensures |s| <= 1
  {
    SizeOfSubset(s, {id});
  }

  lemma {:induction false} EditKeepsOneField(caps: Capabilities, e: SettingsEditor, edit: Change)
    requires OneField(caps, e) && Edit(RulesFor(caps), e, edit).Success?
    ensures OneField(caps, Edit(RulesFor(caps), e, edit).value)
  {
    hide Changes, ValidValue, ValidContent, Ids;
    var original, draft := e.baseline.value.content.values, e.draft.value;
    var next := draft[edit.id := edit.value];
    var before, after := Differing(original, draft), Differing(original, next);
    FieldChanges(caps, original, draft);
    assert next.Keys == draft.Keys;
    assert after <= before + {edit.id};
    SettledField(caps, original, draft, edit.id);
    assert before <= {edit.id};
    AtMostOne(after, edit.id);
    if e.submitted.Some? {
      var submitted := Differing(original, e.submitted.value);
      SettledField(caps, original, e.submitted.value, edit.id);
      assert submitted <= {edit.id};
      var only :| only in submitted;
      assert submitted == {edit.id};
    }
  }

  /** If the first change of a map with at most one concerns field `id`, only that field
      can differ. */
  lemma {:induction false} SettledField(caps: Capabilities, original: Values, values: Values, id: string)
    requires ValidCapabilities(caps) && values.Keys == Ids(caps) && |Differing(original, values)| <= 1
    requires !OtherField(Changes(FieldIds(caps), original, values), id)
    ensures Differing(original, values) <= {id}
  {
    hide Ids;
    FieldChanges(caps, original, values);
    var changes := Changes(FieldIds(caps), original, values);
    if changes != [] {
      assert changes[0] in changes;
      OneElement(Differing(original, values), changes[0].id);
    }
  }

  /** In an orderly run an edit is taken exactly if its value fits its field and no other field
      is staged or submitted; it sets that field and no other. */
  lemma {:induction false} StagedExactly(caps: Capabilities, e: SettingsEditor, edit: Change)
    requires OneField(caps, e) && e.draft.Some?
    ensures var original, done := e.baseline.value.content.values, Edit(RulesFor(caps), e, edit);
      && (done.Success? <==>
            && e.status.Ready? && ValidValue(caps, edit) && Differing(original, e.draft.value) <= {edit.id}
            && (e.submitted.Some? ==> Differing(original, e.submitted.value) <= {edit.id}))
      && (done.Success? ==> edit.id in e.draft.value && done.value == e.(draft := Some(e.draft.value[edit.id := edit.value])))
  {
    hide Changes, ValidContent, Ids, OtherField, Differing;
    var original, draft := e.baseline.value.content.values, e.draft.value;
    OtherExactly(caps, original, draft, edit.id);
    if e.submitted.Some? { OtherExactly(caps, original, e.submitted.value, edit.id); }
    if ValidValue(caps, edit) { FieldIsDrafted(caps, draft, edit); }
  }

  lemma {:induction false} OtherExactly(caps: Capabilities, original: Values, values: Values, id: string)
    requires ValidCapabilities(caps) && values.Keys == Ids(caps) && |Differing(original, values)| <= 1
    ensures OtherField(Changes(FieldIds(caps), original, values), id) <==> !(Differing(original, values) <= {id})
  {
    hide Ids, Changes, Differing;
    FieldChanges(caps, original, values);
    var changes := Changes(FieldIds(caps), original, values);
    if OtherField(changes, id) {
      assert changes[0] in changes;
    } else {
      SettledField(caps, original, values, id);
    }
  }

  lemma {:induction false} FieldIsDrafted(caps: Capabilities, draft: Values, edit: Change)
    requires draft.Keys == Ids(caps) && ValidValue(caps, edit)
    ensures edit.id in draft
  {
    var i :| 0 <= i < |caps.fields| && caps.fields[i].id == edit.id;
    assert FieldIds(caps)[i] == edit.id;
    assert edit.id in Ids(caps);
  }

  lemma {:induction false} SaveKeepsOneField(caps: Capabilities, e: SettingsEditor)
    requires OneField(caps, e) && RequestApply(RulesFor(caps), e).Success?
    ensures OneField(caps, RequestApply(RulesFor(caps), e).value.0)
  {
    hide Changes, ValidValue, ValidContent, Ids;
    FieldChanges(caps, e.baseline.value.content.values, e.draft.value);
  }

  lemma {:induction false} ResultKeepsOneField(caps: Capabilities, e: SettingsEditor, result: Result<SettingsSnapshot, Recovery>)
    requires OneField(caps, e)
    ensures OneField(caps, AcceptApply(RulesFor(caps), e, result))
  {
    hide Changes, ValidValue, ValidContent, Ids;
    if AcceptApply(RulesFor(caps), e, result).status.Ready? {
      var original, draft, saved := e.baseline.value.content.values, e.draft.value, e.submitted.value;
      var field :| field in Differing(original, saved);
      OneElement(Differing(original, saved), field);
      assert Differing(saved, draft) <= {field};
      AtMostOne(Differing(saved, draft), field);
    }
  }

  lemma {:induction false} ReadKeepsOneField(caps: Capabilities, e: SettingsEditor, read: Option<SettingsSnapshot>)
    requires OneField(caps, e) && e.submitted.None?
    ensures OneField(caps, AcceptRead(RulesFor(caps), e, read))
  {
    hide Changes, ValidValue, AllValid, Ids;
    if read.Some? && ValidContent(caps, read.value.content) && read.value.content.Editable? {
      ValidContentIsComplete(caps, read.value.content);
      assert Differing(read.value.content.values, read.value.content.values) == {};
    }
  }

  type SettingsStep = Step<SettingsSnapshot, Change>

  /** No read result arrives while a write is submitted. */
  predicate Orderly(caps: Capabilities, e: SettingsEditor, steps: seq<SettingsStep>)
    decreases |steps|
  {
    steps == [] ||
    (!(steps[0].Device? && steps[0].h.Reading? && e.submitted.Some?) && Orderly(caps, Take(RulesFor(caps), e, steps[0]), steps[1..]))
  }

  lemma {:induction false} TakeKeepsOneField(caps: Capabilities, e: SettingsEditor, step: SettingsStep)
    requires OneField(caps, e) && Orderly(caps, e, [step])
    ensures OneField(caps, Take(RulesFor(caps), e, step))
  {
    hide Changes, ValidValue, AllValid, Ids, Edit, AcceptRead, AcceptApply, RequestApply;
    match step
    case User(edit) => if Edit(RulesFor(caps), e, edit).Success? { EditKeepsOneField(caps, e, edit); }
    case Requested => if RequestApply(RulesFor(caps), e).Success? { SaveKeepsOneField(caps, e); }
    case Device(h) =>
      match h {
        case Reading(read) => ReadKeepsOneField(caps, e, read);
        case Applied(result) => ResultKeepsOneField(caps, e, result);
        case Invalidated =>
        case Cancelled =>
      }
    case Reverted =>
      if e.baseline.Some? && e.baseline.value.content.Editable? {
        ValidContentIsComplete(caps, e.baseline.value.content);
        assert Differing(e.baseline.value.content.values, e.baseline.value.content.values) == {};
      }
  }

  lemma {:induction false} StepsKeepOneField(caps: Capabilities, e: SettingsEditor, steps: seq<SettingsStep>)
    requires OneField(caps, e) && Orderly(caps, e, steps)
    ensures OneField(caps, TakeAll(RulesFor(caps), e, steps))
    decreases |steps|
  {
    hide OneField;
    if steps != [] {
      TakeKeepsOneField(caps, e, steps[0]);
      StepsKeepOneField(caps, Take(RulesFor(caps), e, steps[0]), steps[1..]);
    }
  }

  /** In every run from a fresh editor, edits back to the original value during a save
      included, a dirty ready editor can be saved: the one-field write is always planned,
      and putting it over the baseline gives exactly the draft. */
  lemma {:induction false} SaveIsAlwaysPlanned(caps: Capabilities, steps: seq<SettingsStep>)
    requires ValidCapabilities(caps) && Orderly(caps, Fresh(), steps)
    ensures var e := TakeAll(RulesFor(caps), Fresh(), steps);
      Dirty(RulesFor(caps), e) && e.status.Ready? && e.submitted.None? ==>
        && RequestApply(RulesFor(caps), e).Success?
        && var write := RequestApply(RulesFor(caps), e).value.2;
           e.baseline.value.content.values[write.id := write.value] == e.draft.value
  {
    hide Changes, ValidValue, Ids;
    StepsKeepOneField(caps, Fresh(), steps);
    var e := TakeAll(RulesFor(caps), Fresh(), steps);
    if Dirty(RulesFor(caps), e) {
      DirtyIsPlanned(caps, e);
    }
  }

  lemma {:induction false} DirtyIsPlanned(caps: Capabilities, e: SettingsEditor)
    requires OneField(caps, e) && Dirty(RulesFor(caps), e)
    ensures var write := Planned(caps, ValuesOf(e.baseline.value.content), e.draft.value);
      write.Some? && e.baseline.value.content.values[write.value.id := write.value.value] == e.draft.value
  {
    hide Changes, ValidValue, Ids;
    var original, draft := e.baseline.value.content.values, e.draft.value;
    ValidContentIsComplete(caps, e.baseline.value.content);
    FieldChanges(caps, original, draft);
    if Differing(original, draft) == {} {
      SameOutside(original, draft, "", Toggle(false));
    }
    var changes := Changes(FieldIds(caps), original, draft);
    assert changes[0] in changes;
    OneElement(Differing(original, draft), changes[0].id);
    SameOutside(original, draft, changes[0].id, changes[0].value);
  }

  lemma {:induction false} SameOutside(original: Values, draft: Values, id: string, value: Value)
    requires original.Keys == draft.Keys
    ensures Differing(original, draft) == {} ==> original == draft
    ensures Differing(original, draft) == {id} && id in draft && draft[id] == value ==> original[id := value] == draft
  {
    assert forall other :: other in draft && other !in Differing(original, draft) ==> other in original && original[other] == draft[other];
  }

  // ------------------------------------------------------------ why reads must wait

  const TWO_TOGGLES := Capabilities("k", [Field("a", ToggleKind), Field("b", ToggleKind)])

  function Toggles(a: bool, b: bool, revision: RevisionByte): SettingsSnapshot {
    Snapshot([revision], Editable("k", map["a" := Toggle(a), "b" := Toggle(b)]))
  }

  /** Complete maps, whatever arrives when. */
  ghost predicate Whole(caps: Capabilities, e: SettingsEditor) {
    && ValidCapabilities(caps)
    && (e.baseline.Some? ==> ValidContent(caps, e.baseline.value.content))
    && (e.draft.Some? ==>
          e.baseline.Some? && e.baseline.value.content.Editable? && e.draft.value.Keys == Ids(caps) && AllValid(caps, e.draft.value))
  }

  lemma {:induction false} TakeKeepsWhole(caps: Capabilities, e: SettingsEditor, step: SettingsStep)
    requires Whole(caps, e)
    ensures Whole(caps, Take(RulesFor(caps), e, step))
  {
    hide Changes, ValidValue, Ids, OtherField;
    if e.baseline.Some? && e.baseline.value.content.Editable? { ValidContentIsComplete(caps, e.baseline.value.content); }
    if step.Device? && step.h.Reading? && step.h.read.Some? && step.h.read.value.content.Editable?
       && ValidContent(caps, step.h.read.value.content)
    {
      ValidContentIsComplete(caps, step.h.read.value.content);
    }
  }

  lemma {:induction false} StepsKeepWhole(caps: Capabilities, e: SettingsEditor, steps: seq<SettingsStep>)
    requires Whole(caps, e)
    ensures Whole(caps, TakeAll(RulesFor(caps), e, steps))
    decreases |steps|
  {
    hide Whole, Take;
    if steps != [] {
      TakeKeepsWhole(caps, e, steps[0]);
      StepsKeepWhole(caps, Take(RulesFor(caps), e, steps[0]), steps[1..]);
    }
  }

  /** The exact condition, in every run whatsoever: a save can be planned if and only if the
      editor is ready, nothing is submitted, and draft and baseline differ in one field. */
  lemma {:induction false} SaveIsPlannedExactly(caps: Capabilities, steps: seq<SettingsStep>)
    requires ValidCapabilities(caps)
    ensures var e := TakeAll(RulesFor(caps), Fresh(), steps);
      RequestApply(RulesFor(caps), e).Success? <==>
        && e.status.Ready? && e.submitted.None? && e.draft.Some? && e.baseline.Some? && e.baseline.value.content.Editable?
        && |Differing(e.baseline.value.content.values, e.draft.value)| == 1
  {
    hide Changes, ValidValue, ValidContent, Ids, Differing;
    StepsKeepWhole(caps, Fresh(), steps);
    var e := TakeAll(RulesFor(caps), Fresh(), steps);
    if e.draft.Some? {
      var original := e.baseline.value.content.values;
      FieldChanges(caps, original, e.draft.value);
      if original == e.draft.value { NothingDiffers(original); }
    }
  }

  lemma {:induction false} NothingDiffers(values: Values)
    ensures Differing(values, values) == {}
  {
  }

  /** The order matters: a read accepted between a save and its result can leave two fields
      staged, and then no save can be planned. */
  lemma {:induction false} ReadDuringSaveBreaksPlanning()
    ensures var caps := TWO_TOGGLES;
      var steps := [
        Device(Reading(Some(Toggles(false, false, 0)))), User(Change("a", Toggle(true))), Requested, User(Change("a", Toggle(false))),
        Device(Reading(Some(Toggles(false, true, 1)))), Device(Applied(Success(Toggles(true, false, 2))))];
      var e := TakeAll(RulesFor(caps), Fresh(), steps);
      && ValidCapabilities(caps) && Dirty(RulesFor(caps), e) && e.status.Ready? && e.submitted.None?
      && RequestApply(RulesFor(caps), e) == Failure(Refused)
  {
    hide Take, Dirty, RequestApply, TakeAll, ValidContent, ValidCapabilities, RulesFor;
    var caps := TWO_TOGGLES;
    var first, second, third := Toggles(false, false, 0), Toggles(false, true, 1), Toggles(true, false, 2);
    TogglesAreValid(false, false, 0);
    TogglesAreValid(false, true, 1);
    TogglesAreValid(true, false, 2);
    TogglesRead(Fresh(), first);
    var e1 := Editor(Some(first), Some(first.content.values), None, Ready);
    ToggleStaged(e1, false, true);
    var e2 := e1.(draft := Some(third.content.values));
    ToggleSaved(e2);
    var e3 := e2.(submitted := e2.draft);
    ToggleStaged(e3, true, false);
    var e4 := e3.(draft := Some(first.content.values));
    TogglesRead(e4, second);
    var e5 := e4.(baseline := Some(second), draft := Some(second.content.values));
    TogglesApplied(e5, third);
    SixSteps(Fresh(), Device(Reading(Some(first))), User(Change("a", Toggle(true))), Requested, User(Change("a", Toggle(false))),
             Device(Reading(Some(second))), Device(Applied(Success(third))));
    TwoFieldsStaged(e5.(baseline := Some(third), submitted := None));
  }

  lemma {:induction false} SixSteps(
      s: SettingsEditor, a: SettingsStep, b: SettingsStep, c: SettingsStep, d: SettingsStep, e: SettingsStep, f: SettingsStep)
    ensures var rules := RulesFor(TWO_TOGGLES);
      TakeAll(rules, s, [a, b, c, d, e, f]) == Take(rules, Take(rules, Take(rules, Take(rules, Take(rules, Take(rules, s, a), b), c), d), e), f)
  {
    hide Take, TakeAll;
    var caps := TWO_TOGGLES;
    var s1 := Take(RulesFor(caps), s, a);
    var s2 := Take(RulesFor(caps), s1, b);
    var s3 := Take(RulesFor(caps), s2, c);
    var s4 := Take(RulesFor(caps), s3, d);
    var s5 := Take(RulesFor(caps), s4, e);
    FirstStep(s, a, [b, c, d, e, f]);
    FirstStep(s1, b, [c, d, e, f]);
    FirstStep(s2, c, [d, e, f]);
    FirstStep(s3, d, [e, f]);
    FirstStep(s4, e, [f]);
    FirstStep(s5, f, []);
    assert [a, b, c, d, e, f] == [a] + [b, c, d, e, f] && [b, c, d, e, f] == [b] + [c, d, e, f];
    assert [c, d, e, f] == [c] + [d, e, f] && [d, e, f] == [d] + [e, f] && [e, f] == [e] + [f] && [f] == [f] + [];
  }

  lemma {:induction false} FirstStep(s: SettingsEditor, first: SettingsStep, rest: seq<SettingsStep>)
    ensures TakeAll(RulesFor(TWO_TOGGLES), s, [first] + rest) == TakeAll(RulesFor(TWO_TOGGLES), Take(RulesFor(TWO_TOGGLES), s, first), rest)
    ensures TakeAll(RulesFor(TWO_TOGGLES), s, []) == s
    ensures rest == [] ==> TakeAll(RulesFor(TWO_TOGGLES), s, [first] + rest) == Take(RulesFor(TWO_TOGGLES), s, first)
  {
    hide Take;
    assert ([first] + rest)[1..] == rest;
  }

  lemma {:induction false} TogglesRead(e: SettingsEditor, read: SettingsSnapshot)
    requires e.baseline.Some? ==> ValuesOf(e.baseline.value.content) == e.draft
    requires e.baseline.None? ==> e.draft.None?
    requires ValidContent(TWO_TOGGLES, read.content)
    ensures Take(RulesFor(TWO_TOGGLES), e, Device(Reading(Some(read))))
            == Editor(Some(read), ValuesOf(read.content), e.submitted, Ready)
  {
    hide ValidContent;
  }

  lemma {:induction false} ToggleStaged(e: SettingsEditor, from: bool, to: bool)
    requires e.baseline == Some(Toggles(false, false, 0)) && e.status.Ready? && e.draft == Some(Toggles(from, false, 0).content.values)
    requires e.submitted.Some? ==> e.submitted.value == Toggles(true, false, 0).content.values
    ensures Take(RulesFor(TWO_TOGGLES), e, User(Change("a", Toggle(to)))) == e.(draft := Some(Toggles(to, false, 0).content.values))
  {
    hide Changes, FieldIds;
    TogglesChange(false, false, from, false);
    TogglesChange(false, false, true, false);
    assert TWO_TOGGLES.fields[0].id == "a" && Fits(TWO_TOGGLES.fields[0].kind, Toggle(to));
    assert ValidValue(TWO_TOGGLES, Change("a", Toggle(to)));
    assert e.draft.value["a" := Toggle(to)] == Toggles(to, false, 0).content.values;
  }

  lemma {:induction false} ToggleSaved(e: SettingsEditor)
    requires e.baseline == Some(Toggles(false, false, 0)) && e.status.Ready? && e.submitted.None?
    requires e.draft == Some(Toggles(true, false, 0).content.values)
    ensures Take(RulesFor(TWO_TOGGLES), e, Requested) == e.(submitted := e.draft)
  {
    hide Changes, FieldIds;
    TogglesChange(false, false, true, false);
    assert e.draft.value["a"] != Toggles(false, false, 0).content.values["a"];
  }

  lemma {:induction false} TogglesApplied(e: SettingsEditor, result: SettingsSnapshot)
    requires ValidContent(TWO_TOGGLES, result.content) && e.submitted.Some? && ValuesOf(result.content) == e.submitted
    ensures Take(RulesFor(TWO_TOGGLES), e, Device(Applied(Success(result)))) == e.(baseline := Some(result), submitted := None, status := Ready)
  {
    hide ValidContent;
  }

  lemma {:induction false} TwoFieldsStaged(e: SettingsEditor)
    requires e.baseline == Some(Toggles(true, false, 2)) && e.draft == Some(Toggles(false, true, 1).content.values)
    requires e.status.Ready? && e.submitted.None?
    ensures Dirty(RulesFor(TWO_TOGGLES), e) && RequestApply(RulesFor(TWO_TOGGLES), e) == Failure(Refused)
  {
    hide Changes, FieldIds;
    TogglesChange(true, false, false, true);
    assert e.draft.value["a"] != e.baseline.value.content.values["a"];
  }

  lemma {:induction false} TogglesAreValid(a: bool, b: bool, revision: RevisionByte)
    ensures ValidCapabilities(TWO_TOGGLES) && ValidContent(TWO_TOGGLES, Toggles(a, b, revision).content)
  {
    var caps := TWO_TOGGLES;
    assert caps.fields[0] == Field("a", ToggleKind) && caps.fields[1] == Field("b", ToggleKind);
    assert Fits(caps.fields[0].kind, Toggle(a)) && Fits(caps.fields[1].kind, Toggle(b));
    var values := Toggles(a, b, revision).content.values;
    assert values.Keys == {"a", "b"};
    assert |values| == |values.Keys|;
  }

  lemma {:induction false} TogglesChange(a: bool, b: bool, c: bool, d: bool)
    ensures Changes(FieldIds(TWO_TOGGLES), Toggles(a, b, 0).content.values, Toggles(c, d, 0).content.values)
            == (if a != c then [Change("a", Toggle(c))] else []) + (if b != d then [Change("b", Toggle(d))] else [])
  {
    var from, to := Toggles(a, b, 0).content.values, Toggles(c, d, 0).content.values;
    assert FieldIds(TWO_TOGGLES) == ["a", "b"];
    assert ["a", "b"][1..] == ["b"] && ["b"][1..] == [];
    assert Changes([], from, to) == [];
    assert Changes(["b"], from, to) == if b != d then [Change("b", Toggle(d))] else [];
  }

  // ------------------------------------------------------------ the device

  function DeviceApply(caps: Capabilities, s: Stored<Content>, expected: SettingsSnapshot, edit: Change): Result<Stored<Content>, Refusal> {
    if s.snapshot != expected then Failure(Stale)
    else if s.snapshot.content.Opaque? || !ValidValue(caps, edit) || edit.id !in s.snapshot.content.values then Failure(Invalid)
    else if s.number + 1 >= U64_LIMIT then Failure(Exhausted)
    else
      var next := s.snapshot.content.(values := s.snapshot.content.values[edit.id := edit.value]);
      if !ValidContent(caps, next) then Failure(Invalid)
      else Success(Stored(s.initial, s.number + 1, Snapshot(RevisionOf(s.initial, s.number + 1), next)))
  }

  /** On valid content a write is accepted exactly when it was planned against the current
      snapshot, the content may be edited, the value fits its field and the revisions last;
      that field then has the value, every other one what it had, and the content is valid. */
  lemma {:induction false} AppliedExactly(caps: Capabilities, s: Stored<Content>, expected: SettingsSnapshot, edit: Change)
    requires ValidCapabilities(caps) && ValidContent(caps, s.snapshot.content)
    ensures var done := DeviceApply(caps, s, expected, edit);
      && (done.Success? <==>
            && s.snapshot == expected && s.snapshot.content.Editable? && s.number + 1 < U64_LIMIT
            && exists i :: 0 <= i < |caps.fields| && caps.fields[i].id == edit.id && Fits(caps.fields[i].kind, edit.value))
      && (done == Failure(Stale) <==> s.snapshot != expected)
      && (done.Success? ==>
            && edit.id in s.snapshot.content.values && ValidContent(caps, done.value.snapshot.content)
            && done.value.snapshot.content ==
                 Editable(s.snapshot.content.backendId, s.snapshot.content.values[edit.id := edit.value]))
  {
    hide RevisionOf, Fits, ValidContent, ValidCapabilities;
    if s.snapshot.content.Editable? && ValidValue(caps, edit) { FieldStaysValid(caps, s.snapshot.content, edit); }
  }

  lemma {:induction false} FieldStaysValid(caps: Capabilities, content: Content, edit: Change)
    requires ValidCapabilities(caps) && ValidContent(caps, content) && content.Editable? && ValidValue(caps, edit)
    ensures edit.id in content.values && ValidContent(caps, content.(values := content.values[edit.id := edit.value]))
  {
    hide ValidValue, ValidCapabilities, Ids;
    ValidContentIsComplete(caps, content);
    FieldIsDrafted(caps, content.values, edit);
    var next := content.values[edit.id := edit.value];
    assert next.Keys == content.values.Keys;
    assert AllValid(caps, next) by {
      forall id | id in next
        ensures ValidValue(caps, Change(id, next[id]))
      {
        if id == edit.id { assert Change(id, next[id]) == edit; }
      }
    }
    PutStaysValid(caps, content, next);
  }

  lemma {:induction false} PutStaysValid(caps: Capabilities, content: Content, draft: Values)
    requires ValidContent(caps, content) && content.Editable? && AllValid(caps, draft) && draft.Keys == content.values.Keys
    ensures ValidContent(caps, content.(values := draft))
  {
    hide AllValid;
    assert |draft| == |draft.Keys| && |content.values| == |content.values.Keys|;
  }

  lemma {:induction false} OneFieldSaves(caps: Capabilities, s: Stored<Content>, e: SettingsEditor, others: seq<Attempt<Content>>)
    requires Numbered(s) && OneField(caps, e) && e.baseline == Some(s.snapshot)
    requires Dirty(RulesFor(caps), e) && e.status.Ready? && e.submitted.None?
    ensures RequestApply(RulesFor(caps), e).Success?
    ensures var (flying, expected, write) := RequestApply(RulesFor(caps), e).value;
      var done := DeviceApply(caps, AfterAll(s, others), expected, write);
      && (done.Success? <==> Accepted(s, others) == 0 && s.number + 1 < U64_LIMIT)
      && (done == Failure(Stale) <==> Accepted(s, others) > 0)
      && (done.Success? ==> ValuesOf(done.value.snapshot.content) == e.draft && ValidContent(caps, done.value.snapshot.content))
  {
    hide Changes, ValidValue, Ids, RevisionOf, Differing;
    StaleMeansWritten(s, others);
    DirtyIsPlanned(caps, e);
    var content, draft := s.snapshot.content, e.draft.value;
    ValidContentIsComplete(caps, content);
    PutStaysValid(caps, content, draft);
    var write := Planned(caps, ValuesOf(content), draft).value;
    assert write.id in draft && draft[write.id] == write.value by { assert content.values[write.id := write.value] == draft; }
    assert write.id in content.values.Keys;
  }

  lemma {:induction false} RequestedIsOneField(caps: Capabilities, before: seq<SettingsStep>)
    requires ValidCapabilities(caps)
    ensures var e := TakeAll(RulesFor(caps), Fresh(), before);
      RequestApply(RulesFor(caps), e).Success? ==> OneField(caps, e) && Dirty(RulesFor(caps), e) && e.status.Ready? && e.submitted.None?
  {
    hide TakeAll, Changes, ValidValue, ValidContent, AllValid, Ids, Differing;
    SaveIsPlannedExactly(caps, before);
    StepsKeepWhole(caps, Fresh(), before);
  }

  /** A setting requested by any reachable editor, against a device that others write to: it
      succeeds exactly when no other write was accepted since the baseline was taken; the
      device then holds exactly the submitted values. Whatever the user edited meanwhile, the
      editor ends ready with that draft, clean if it was not edited. */
  lemma {:induction false} SavedExactlyWhenCurrent(
      caps: Capabilities, s: Stored<Content>, before: seq<SettingsStep>, meanwhile: seq<SettingsStep>, others: seq<Attempt<Content>>)
    requires ValidCapabilities(caps) && Numbered(s) && forall step | step in meanwhile :: InFlight(step)
    requires var e := TakeAll(RulesFor(caps), Fresh(), before); e.baseline == Some(s.snapshot) && RequestApply(RulesFor(caps), e).Success?
    ensures var e := TakeAll(RulesFor(caps), Fresh(), before);
      var (flying, expected, write) := RequestApply(RulesFor(caps), e).value;
      var later := TakeAll(RulesFor(caps), flying, meanwhile);
      var done := DeviceApply(caps, AfterAll(s, others), expected, write);
      && (done.Success? <==> Accepted(s, others) == 0 && s.number + 1 < U64_LIMIT)
      && (done == Failure(Stale) <==> Accepted(s, others) > 0)
      && (done.Success? ==>
            && ValuesOf(done.value.snapshot.content) == e.draft
            && AcceptApply(RulesFor(caps), later, Success(done.value.snapshot)) == Editor(Some(done.value.snapshot), later.draft, None, Ready)
            && (meanwhile == [] ==> later.draft == e.draft))
  {
    hide DeviceApply, TakeAll, RequestApply, AcceptApply, ValidContent, OneField, Planned, RevisionOf;
    var e := TakeAll(RulesFor(caps), Fresh(), before);
    RequestedIsOneField(caps, before);
    OneFieldSaves(caps, s, e, others);
    var (flying, expected, write) := RequestApply(RulesFor(caps), e).value;
    var done := DeviceApply(caps, AfterAll(s, others), expected, write);
    Submits(caps, e);
    NothingTaken(caps, flying);
    if done.Success? {
      EditsInFlightRemain(RulesFor(caps), e, meanwhile, done.value.snapshot);
    }
  }

  lemma {:induction false} Submits(caps: Capabilities, e: SettingsEditor)
    ensures RequestApply(RulesFor(caps), e).Success? ==> RequestApply(RulesFor(caps), e).value.0 == e.(submitted := e.draft)
  {
  }

  lemma {:induction false} NothingTaken(caps: Capabilities, e: SettingsEditor)
    ensures TakeAll(RulesFor(caps), e, []) == e
  {
  }
}
