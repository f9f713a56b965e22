/** Macro programs as every backend sees them: events checked one by one against the
    backend's capabilities, and an additive byte budget for the whole. */
module MacroProgram {
  import opened Wrappers

  const U32_LIMIT: nat := 0x1_0000_0000

  type U32 = n: nat | n < U32_LIMIT

  /** An inclusive range; empty when it ends before it starts. */
  datatype Range = Range(start: int, end: int) {
    predicate Contains(n: int) {
      start <= n <= end
    }

    predicate Empty() {
      end < start
    }
  }

  type U32Range = r: Range | 0 <= r.start < U32_LIMIT && 0 <= r.end < U32_LIMIT witness Range(0, 0)

  datatype Action =
    | Key(usage: nat, pressed: bool)
    | Button(button: nat, pressed: bool)
    | Move(dx: int, dy: int)
    | Backend(backendId: string, id: string, pressed: bool)

  datatype Event = Event(action: Action, delayMs: U32)

  datatype Program = Program(repeatCount: U32, events: seq<Event>)

  datatype ByteBudget = ByteBudget(
    limit: U32, overhead: U32, key: U32, button: U32, movement: U32, backend: U32, inlineDelays: U32Range, extendedDelay: U32)

  datatype Capabilities = Capabilities(
    backendId: string, slots: seq<string>, repeatCounts: U32Range, editableRepeatCounts: U32Range, delaysMs: U32Range,
    keys: Option<Range>, buttons: seq<nat>, movement: Option<Range>, backendActions: seq<string>, budget: Option<ByteBudget>)

  predicate Distinct<T(==)>(s: seq<T>) {
    forall i, j :: 0 <= i < j < |s| ==> s[i] != s[j]
  }

  predicate ValidChoices(ids: seq<string>) {
    Distinct(ids) && "" !in ids
  }

  predicate ValidBudget(caps: Capabilities, budget: ByteBudget) {
    && budget.overhead <= budget.limit && !budget.inlineDelays.Empty()
    && !(caps.keys.Some? && budget.key == 0) && !(caps.buttons != [] && budget.button == 0)
    && !(caps.movement.Some? && budget.movement == 0) && !(caps.backendActions != [] && budget.backend == 0)
  }

  predicate ValidCapabilities(caps: Capabilities) {
    && caps.backendId != "" && caps.slots != [] && ValidChoices(caps.slots) && ValidChoices(caps.backendActions)
    && !caps.repeatCounts.Empty() && !caps.editableRepeatCounts.Empty()
    && caps.repeatCounts.Contains(caps.editableRepeatCounts.start) && caps.repeatCounts.Contains(caps.editableRepeatCounts.end)
    && !caps.delaysMs.Empty()
    && (caps.keys.Some? ==> !caps.keys.value.Empty()) && (caps.movement.Some? ==> !caps.movement.value.Empty())
    && Distinct(caps.buttons) && 0 !in caps.buttons
    && (caps.budget.Some? ==> ValidBudget(caps, caps.budget.value))
  }

  predicate SupportedAction(caps: Capabilities, action: Action) {
    match action
    case Key(usage, _) => caps.keys.Some? && caps.keys.value.Contains(usage)
    case Button(button, _) => button in caps.buttons
    case Move(dx, dy) => caps.movement.Some? && caps.movement.value.Contains(dx) && caps.movement.value.Contains(dy)
    case Backend(backendId, id, _) => backendId == caps.backendId && id in caps.backendActions
  }

  predicate SupportedEvent(caps: Capabilities, event: Event) {
    caps.delaysMs.Contains(event.delayMs) && SupportedAction(caps, event.action)
  }

  function ActionCost(budget: ByteBudget, action: Action): U32 {
    match action
    case Key(_, _) => budget.key
    case Button(_, _) => budget.button
    case Move(_, _) => budget.movement
    case Backend(_, _, _) => budget.backend
  }

  function DelayCost(budget: ByteBudget, delay: int): U32 {
    if budget.inlineDelays.Contains(delay) then 0 else budget.extendedDelay
  }

  function EventCost(budget: ByteBudget, event: Event): nat {
    ActionCost(budget, event.action) + DelayCost(budget, event.delayMs)
  }

  function EventsCost(budget: ByteBudget, events: seq<Event>): nat {
    if events == [] then 0 else EventCost(budget, events[0]) + EventsCost(budget, events[1..])
  }

  lemma {:induction false} EventsCostAppend(budget: ByteBudget, a: seq<Event>, b: seq<Event>)
    ensures EventsCost(budget, a + b) == EventsCost(budget, a) + EventsCost(budget, b)
    decreases |a|
  {
    if a == [] {
      assert a + b == b;
    } else {
      assert (a + b)[1..] == a[1..] + b;
      EventsCostAppend(budget, a[1..], b);
    }
  }

  predicate WithinBudget(caps: Capabilities, events: seq<Event>) {
    caps.budget.Some? ==> caps.budget.value.overhead + EventsCost(caps.budget.value, events) <= caps.budget.value.limit
  }

  predicate ValidProgram(caps: Capabilities, program: Program) {
    && ValidCapabilities(caps) && caps.repeatCounts.Contains(program.repeatCount)
    && (forall e | e in program.events :: SupportedEvent(caps, e))
    && WithinBudget(caps, program.events)
  }

  /** Addition of 32-bit sizes, absent when it overflows. */
  function CheckedAdd(a: U32, b: U32): (sum: Option<U32>)
    ensures sum == if a + b < U32_LIMIT then Some(a + b) else None
  {
    if a + b < U32_LIMIT then Some(a + b) else None
  }

  /** The size check runs event by event on 32-bit sizes; it accepts exactly the programs
      that fit as a whole. */
  method ValidateProgram(caps: Capabilities, program: Program) returns (ok: bool)
    ensures ok <==> ValidProgram(caps, program)
  {
    if !ValidCapabilities(caps) || !caps.repeatCounts.Contains(program.repeatCount) {
      return false;
    }
    var size: U32 := if caps.budget.Some? then caps.budget.value.overhead else 0;
    for i := 0 to |program.events|
      invariant forall e | e in program.events[..i] :: SupportedEvent(caps, e)
      invariant caps.budget.Some? ==>
        size as int == caps.budget.value.overhead + EventsCost(caps.budget.value, program.events[..i]) && size <= caps.budget.value.limit
    {
      var event := program.events[i];
      if !SupportedEvent(caps, event) {
        return false;
      }
      if caps.budget.Some? {
        var budget := caps.budget.value;
        PrefixCost(budget, program.events, i);
        var withAction := CheckedAdd(size, ActionCost(budget, event.action));
        if withAction.None? {
          return false;
        }
        var withDelay := CheckedAdd(withAction.value, DelayCost(budget, event.delayMs));
        if withDelay.None? || withDelay.value > budget.limit {
          return false;
        }
        size := withDelay.value;
      }
      assert program.events[..i + 1] == program.events[..i] + [event];
    }
    assert program.events[..|program.events|] == program.events;
    return true;
  }

  lemma {:induction false} PrefixCost(budget: ByteBudget, events: seq<Event>, i: nat)
    requires i < |events|
    ensures EventsCost(budget, events[..i + 1]) == EventsCost(budget, events[..i]) + EventCost(budget, events[i])
    ensures EventsCost(budget, events[..i + 1]) <= EventsCost(budget, events)
  {
    EventsCostAppend(budget, events[..i], [events[i]]);
    assert events[..i] + [events[i]] == events[..i + 1];
    EventsCostAppend(budget, events[..i + 1], events[i + 1..]);
    assert events[..i + 1] + events[i + 1..] == events;
    assert EventsCost(budget, [events[i]]) == EventCost(budget, events[i]) + EventsCost(budget, [events[i]][1..]);
  }
}
