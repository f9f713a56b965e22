/** Append-only macro recording: what one accepted transition and one stop do to the draft,
    what a whole recording amounts to, and why stopping can never be refused. */
module Recording {
  import opened Wrappers
  import opened MacroProgram

  datatype DelayPolicy = Measured(terminalMs: U32) | Fixed(ms: U32)

  /** `last` is the index of the last recorded event and when it happened. */
  datatype Recorder = Recorder(policy: DelayPolicy, last: Option<(nat, nat)>, held: seq<Action>)

  datatype Recorded = Accepted | Duplicate

  datatype StopOutcome = Complete | TimingClamped

  datatype Problem = InvalidProgram | UnsupportedWaits | ZeroFixedDelay | NotAnEdge | BadInterval

  /** One captured edge and its supplied millisecond timestamp. */
  datatype Input = Input(action: Action, at: nat)

  /** The recorder together with the draft it was lent. */
  datatype Take = Take(recorder: Recorder, draft: Program)

  // ------------------------------------------------------------ the operations

  function Terminal(policy: DelayPolicy): U32 {
    if policy.Measured? then policy.terminalMs else policy.ms
  }

  function Provisional(policy: DelayPolicy): U32 {
    if policy.Measured? then 0 else policy.ms
  }

  function Interval(policy: DelayPolicy, now: nat, previous: nat): Option<U32> {
    if policy.Fixed? then Some(policy.ms)
    else if now < previous || now - previous >= U32_LIMIT then None
    else Some(now - previous)
  }

  /** The interval, when the backend can store it. */
  function StorableInterval(caps: Capabilities, policy: DelayPolicy, now: nat, previous: nat): Option<U32> {
    var interval := Interval(policy, now, previous);
    if interval.Some? && caps.delaysMs.Contains(interval.value) then interval else None
  }

  predicate Edge(action: Action) {
    action.Key? || action.Button?
  }

  /** The edge of the same key or button with the given direction. */
  function Turned(action: Action, pressed: bool): (edge: Action)
    requires Edge(action)
    ensures Edge(edge) && edge.pressed == pressed
  {
    match action
    case Key(usage, _) => Key(usage, pressed)
    case Button(button, _) => Button(button, pressed)
  }

  function Without(held: seq<Action>, key: Action): (rest: seq<Action>)
    ensures forall a | a in rest :: a in held
  {
    if held == [] then []
    else (if held[0] == key then [] else [held[0]]) + Without(held[1..], key)
  }

  /** Releases of everything held, newest first; only the last one waits. */
  function Releases(held: seq<Action>, terminal: U32): (events: seq<Event>)
    requires forall a | a in held :: Edge(a)
    ensures |events| == |held|
    ensures forall i :: 0 <= i < |held| ==>
      events[i] == Event(Turned(held[|held| - 1 - i], false), if i + 1 == |held| then terminal else 0)
  {
    seq(|held|, i requires 0 <= i < |held| =>
      Event(Turned(held[|held| - 1 - i], false), if i + 1 == |held| then terminal else 0))
  }

  /** The wait no storable wait costs more than. */
  function LargestWaitCost(caps: Capabilities): U32 {
    if caps.budget.Some? && !caps.budget.value.inlineDelays.Contains(caps.delaysMs.start)
    then caps.delaysMs.start else caps.delaysMs.end
  }

  function WithDelay(events: seq<Event>, index: nat, delay: U32): (after: seq<Event>)
    requires index < |events|
    ensures |after| == |events|
  {
    events[index := events[index].(delayMs := delay)]
  }

  function New(caps: Capabilities, draft: Program, policy: DelayPolicy): Result<Recorder, Problem> {
    if !ValidProgram(caps, draft) then Failure(InvalidProgram)
    else if !caps.delaysMs.Contains(0) || !caps.delaysMs.Contains(Terminal(policy)) then Failure(UnsupportedWaits)
    else if policy == Fixed(0) then Failure(ZeroFixedDelay)
    else Success(Recorder(policy, None, []))
  }

  /** The recorder holds edges only, and the event it would amend is in the draft. */
  predicate Lent(r: Recorder, draft: Program) {
    && (forall a | a in r.held :: Edge(a) && a.pressed)
    && (r.last.Some? ==> r.last.value.0 < |draft.events|)
  }

  predicate StoresWaits(caps: Capabilities, policy: DelayPolicy) {
    caps.delaysMs.Contains(0) && caps.delaysMs.Contains(Terminal(policy))
  }

  /** The draft as the last stored event settles: its own wait, then every release. */
  function Settled(r: Recorder, draft: Program, delay: U32): Program
    requires Lent(r, draft) && r.last.Some?
  {
    draft.(events := WithDelay(draft.events, r.last.value.0, delay) + Releases(r.held, Terminal(r.policy)))
  }

  /** The wait that is reserved behind the last event while recording goes on. */
  function Reserve(caps: Capabilities, r: Recorder): (delay: U32)
    requires StoresWaits(caps, r.policy)
    ensures caps.delaysMs.Contains(delay)
  {
    if r.held != [] && r.policy.Measured? then LargestWaitCost(caps) else Terminal(r.policy)
  }

  function Toggled(held: seq<Action>, action: Action): (after: seq<Action>)
    requires Edge(action)
  {
    var key := Turned(action, true);
    if action.pressed then held + [key] else Without(held, key)
  }

  /** The take once `action` at `now` is appended behind a settled previous event. */
  function Appended(t: Take, action: Action, now: nat, delay: U32): (after: Take)
    requires Lent(t.recorder, t.draft) && Edge(action)
    ensures Lent(after.recorder, after.draft)
  {
    var r := t.recorder;
    var events := if r.last.Some? then WithDelay(t.draft.events, r.last.value.0, delay) else t.draft.events;
    ToggledHolds(r.held, action);
    Take(Recorder(r.policy, Some((|events|, now)), Toggled(r.held, action)),
         t.draft.(events := events + [Event(action, Provisional(r.policy))]))
  }

  lemma {:induction false} ToggledHolds(held: seq<Action>, action: Action)
    requires Edge(action) && forall a | a in held :: Edge(a) && a.pressed
    ensures forall a | a in Toggled(held, action) :: Edge(a) && a.pressed
  {
  }

  function Transition(t: Take, caps: Capabilities, action: Action, now: nat): Result<(Recorded, Take), Problem>
    requires Lent(t.recorder, t.draft) && StoresWaits(caps, t.recorder.policy)
  {
    var r := t.recorder;
    if !Edge(action) then Failure(NotAnEdge)
    else if (Turned(action, true) in r.held) == action.pressed then Success((Duplicate, t))
    else
      var delay := if r.last.Some? then StorableInterval(caps, r.policy, now, r.last.value.1) else Some(0);
      if delay.None? then Failure(BadInterval)
      else
        var after := Appended(t, action, now, delay.value);
        if !ValidProgram(caps, after.draft) then Failure(InvalidProgram)
        else if !ValidProgram(caps, Settled(after.recorder, after.draft, Reserve(caps, after.recorder))) then Failure(InvalidProgram)
        else Success((Accepted, after))
  }

  /** The wait a stop writes behind the last event. */
  function StopDelay(r: Recorder, caps: Capabilities, now: nat): U32
    requires r.last.Some?
  {
    if r.held == [] then Terminal(r.policy)
    else
      var interval := StorableInterval(caps, r.policy, now, r.last.value.1);
      if interval.Some? then interval.value else 0
  }

  function Stop(t: Take, caps: Capabilities, now: nat): Result<(StopOutcome, Program), Problem>
    requires Lent(t.recorder, t.draft) && StoresWaits(caps, t.recorder.policy)
  {
    var r := t.recorder;
    if r.last.None? then Success((Complete, t.draft))
    else
      var stopped := Settled(r, t.draft, StopDelay(r, caps, now));
      if !ValidProgram(caps, stopped) then Failure(InvalidProgram)
      else Success((if r.held != [] && StorableInterval(caps, r.policy, now, r.last.value.1).None? then TimingClamped else Complete,
                    stopped))
  }

  // ------------------------------------------------------------ whole recordings

  /** A transition that is refused or repeated leaves recorder and draft as they were. */
  ghost function After(t: Take, caps: Capabilities, input: Input): (after: Take)
    requires Lent(t.recorder, t.draft) && StoresWaits(caps, t.recorder.policy)
    ensures Lent(after.recorder, after.draft) && after.recorder.policy == t.recorder.policy
  {
    var done := Transition(t, caps, input.action, input.at);
    if done.Success? then done.value.1 else t
  }

  ghost predicate Takes(t: Take, caps: Capabilities, input: Input)
    requires Lent(t.recorder, t.draft) && StoresWaits(caps, t.recorder.policy)
  {
    var done := Transition(t, caps, input.action, input.at);
    done.Success? && done.value.0.Accepted?
  }

  ghost function Record(t: Take, caps: Capabilities, inputs: seq<Input>): (after: Take)
    requires Lent(t.recorder, t.draft) && StoresWaits(caps, t.recorder.policy)
    ensures Lent(after.recorder, after.draft) && after.recorder.policy == t.recorder.policy
    decreases |inputs|
  {
    if inputs == [] then t else Record(After(t, caps, inputs[0]), caps, inputs[1..])
  }

  /** The inputs that were accepted along the way, in order. */
  ghost function Kept(t: Take, caps: Capabilities, inputs: seq<Input>): (kept: seq<Input>)
    requires Lent(t.recorder, t.draft) && StoresWaits(caps, t.recorder.policy)
    decreases |inputs|
  {
    if inputs == [] then []
    else (if Takes(t, caps, inputs[0]) then [inputs[0]] else []) + Kept(After(t, caps, inputs[0]), caps, inputs[1..])
  }

  /** The wait between two recorded edges. */
  function Gap(policy: DelayPolicy, from: nat, to: nat): U32 {
    var interval := Interval(policy, to, from);
    if interval.Some? then interval.value else 0
  }

  /** What a recording of `kept` adds to a draft: each edge, and the time to the next one. */
  function Tape(policy: DelayPolicy, kept: seq<Input>): (events: seq<Event>)
    ensures |events| == |kept|
  {
    seq(|kept|, i requires 0 <= i < |kept| =>
      Event(kept[i].action, if i + 1 < |kept| then Gap(policy, kept[i].at, kept[i + 1].at) else Provisional(policy)))
  }

  /** What is held after a sequence of edges, when each press finds its key up and each
      release finds it down; absent when some edge does not. */
  function Replay(actions: seq<Action>, held: set<Action>): Option<set<Action>>
    decreases |actions|
  {
    if actions == [] then Some(held)
    else if !Edge(actions[0]) || (Turned(actions[0], true) in held) == actions[0].pressed then None
    else
      var key := Turned(actions[0], true);
      Replay(actions[1..], if actions[0].pressed then held + {key} else held - {key})
  }

  function Actions(events: seq<Event>): (actions: seq<Action>)
    ensures |actions| == |events| && forall i :: 0 <= i < |events| ==> actions[i] == events[i].action
  {
    seq(|events|, i requires 0 <= i < |events| => events[i].action)
  }

  function Waits(events: seq<Event>): nat {
    if events == [] then 0 else events[0].delayMs + Waits(events[1..])
  }

  function SetOf(held: seq<Action>): set<Action> {
    set a | a in held
  }

  /** Each gap was storable, so under measured waits time never ran backwards. */
  predicate Timely(caps: Capabilities, policy: DelayPolicy, kept: seq<Input>) {
    forall i :: 0 <= i && i + 1 < |kept| ==> StorableInterval(caps, policy, kept[i + 1].at, kept[i].at).Some?
  }

  /** The whole state of a recording in terms of the inputs it kept. */
  ghost predicate Faithful(t: Take, caps: Capabilities, base: Program, kept: seq<Input>) {
    && Lent(t.recorder, t.draft) && Distinct(t.recorder.held)
    && t.draft == base.(events := base.events + Tape(t.recorder.policy, kept))
    && t.recorder.last == (if kept == [] then None else Some((|base.events| + |kept| - 1, kept[|kept| - 1].at)))
    && Replay(Actions(Tape(t.recorder.policy, kept)), {}) == Some(SetOf(t.recorder.held))
    && Timely(caps, t.recorder.policy, kept)
    && (kept == [] ==> t.recorder.held == [])
  }

  /** Room is kept for stopping at once. */
  ghost predicate Stoppable(t: Take, caps: Capabilities) {
    && Lent(t.recorder, t.draft) && StoresWaits(caps, t.recorder.policy)
    && (t.recorder.last.Some? ==> ValidProgram(caps, Settled(t.recorder, t.draft, Reserve(caps, t.recorder))))
    && ValidProgram(caps, t.draft)
  }

  lemma {:induction false} ReplayAppend(a: seq<Action>, b: seq<Action>, held: set<Action>)
    ensures Replay(a + b, held) == (if Replay(a, held).None? then None else Replay(b, Replay(a, held).value))
    decreases |a|
  {
    if a == [] {
      assert a + b == b;
    } else {
      assert (a + b)[1..] == a[1..] + b;
      if Edge(a[0]) {
        var key := Turned(a[0], true);
        ReplayAppend(a[1..], b, if a[0].pressed then held + {key} else held - {key});
      }
    }
  }

  lemma {:induction false} WithoutRemoves(held: seq<Action>, key: Action)
    requires Distinct(held)
    ensures Distinct(Without(held, key)) && SetOf(Without(held, key)) == SetOf(held) - {key}
  {
    if held != [] {
      WithoutRemoves(held[1..], key);
      var rest := Without(held[1..], key);
      assert SetOf(held) == {held[0]} + SetOf(held[1..]);
      assert forall a :: a in rest <==> a in SetOf(rest);
      assert held[0] !in held[1..];
      var whole := (if held[0] == key then [] else [held[0]]) + rest;
      assert forall a :: a in whole <==> a in rest || (held[0] != key && a == held[0]);
    }
  }

  lemma {:induction false} ToggledSet(held: seq<Action>, action: Action)
    requires Edge(action) && Distinct(held) && (Turned(action, true) in held) != action.pressed
    ensures Distinct(Toggled(held, action))
    ensures Replay([action], SetOf(held)) == Some(SetOf(Toggled(held, action)))
  {
    var key := Turned(action, true);
    WithoutRemoves(held, key);
    assert SetOf(held + [key]) == SetOf(held) + {key};
    assert key in SetOf(held) <==> key in held;
    assert [action][1..] == [];
    assert Replay([action], SetOf(held)) == Replay([], if action.pressed then SetOf(held) + {key} else SetOf(held) - {key});
  }

  lemma {:induction false} TapeGrows(policy: DelayPolicy, kept: seq<Input>, next: Input)
    ensures var tape := Tape(policy, kept);
      Tape(policy, kept + [next])
      == (if kept == [] then tape else WithDelay(tape, |kept| - 1, Gap(policy, kept[|kept| - 1].at, next.at)))
         + [Event(next.action, Provisional(policy))]
  {
  }

  lemma {:induction false} TapeActions(policy: DelayPolicy, kept: seq<Input>, next: Input)
    ensures Actions(Tape(policy, kept + [next])) == Actions(Tape(policy, kept)) + [next.action]
  {
  }

  lemma {:induction false} AfterIsStoppable(t: Take, caps: Capabilities, input: Input)
    requires Stoppable(t, caps)
    ensures Stoppable(After(t, caps, input), caps)
  {
    hide ValidProgram, Reserve, Settled, Toggled, WithDelay;
  }

  /** One accepted transition extends the tape by exactly its edge and settles the wait
      before it; anything else changes nothing. */
  lemma {:induction false} AfterIsFaithful(t: Take, caps: Capabilities, base: Program, kept: seq<Input>, input: Input)
    requires Faithful(t, caps, base, kept) && Stoppable(t, caps)
    ensures var after := After(t, caps, input);
      && Stoppable(after, caps)
      && Faithful(after, caps, base, if Takes(t, caps, input) then kept + [input] else kept)
      && (!Takes(t, caps, input) ==> after == t)
  {
    hide ValidProgram, Replay, Tape, Without, Distinct, Reserve, Actions, Settled;
    AfterIsStoppable(t, caps, input);
    if Takes(t, caps, input) {
      var r := t.recorder;
      ToggledSet(r.held, input.action);
      ReplayAppend(Actions(Tape(r.policy, kept)), [input.action], {});
      TapeActions(r.policy, kept, input);
      TapeGrows(r.policy, kept, input);
      if kept != [] {
        var gap := Gap(r.policy, kept[|kept| - 1].at, input.at);
        assert WithDelay(base.events + Tape(r.policy, kept), r.last.value.0, gap)
               == base.events + WithDelay(Tape(r.policy, kept), |kept| - 1, gap);
      }
    }
  }

  lemma {:induction false} RecordIsFaithful(t: Take, caps: Capabilities, base: Program, kept: seq<Input>, inputs: seq<Input>)
    requires Faithful(t, caps, base, kept) && Stoppable(t, caps)
    ensures Stoppable(Record(t, caps, inputs), caps)
    ensures Faithful(Record(t, caps, inputs), caps, base, kept + Kept(t, caps, inputs))
    decreases |inputs|
  {
    hide After, Takes, ValidProgram, Tape, Replay, Distinct, Actions, Settled;
    if inputs == [] {
      assert kept + [] == kept;
    } else {
      AfterIsFaithful(t, caps, base, kept, inputs[0]);
      var now := if Takes(t, caps, inputs[0]) then kept + [inputs[0]] else kept;
      RecordIsFaithful(After(t, caps, inputs[0]), caps, base, now, inputs[1..]);
      assert now + Kept(After(t, caps, inputs[0]), caps, inputs[1..]) == kept + Kept(t, caps, inputs);
    }
  }

  // ------------------------------------------------------------ what is recorded

  function Edges(kept: seq<Input>): (actions: seq<Action>)
    ensures |actions| == |kept| && forall i :: 0 <= i < |kept| ==> actions[i] == kept[i].action
  {
    seq(|kept|, i requires 0 <= i < |kept| => kept[i].action)
  }

  predicate Turns(action: Action, key: Action) {
    Edge(action) && Turned(action, true) == key
  }

  /** The keys whose last edge was a press, in the order of those presses. */
  function Down(actions: seq<Action>): (keys: seq<Action>)
    ensures forall a | a in keys :: Edge(a) && a.pressed
  {
    if actions == [] then []
    else
      var later := Down(actions[1..]);
      if Edge(actions[0]) && actions[0].pressed && !exists b :: b in actions[1..] && Turns(b, actions[0])
      then [actions[0]] + later else later
  }

  lemma {:induction false} DownGrows(actions: seq<Action>, next: Action)
    requires Edge(next)
    ensures Down(actions + [next]) == Without(Down(actions), Turned(next, true)) + (if next.pressed then [next] else [])
    decreases |actions|
  {
    if actions == [] {
      assert actions + [next] == [next] && [next][1..] == [];
    } else {
      var rest := actions[1..];
      assert (actions + [next])[1..] == rest + [next];
      DownGrows(rest, next);
      TurnedAfter(rest, next, actions[0]);
    }
  }

  /** Whether some later action turns a key of `a`, with one action more. */
  lemma {:induction false} TurnedAfter(rest: seq<Action>, next: Action, a: Action)
    ensures (exists b :: b in rest + [next] && Turns(b, a)) <==> (exists b :: b in rest && Turns(b, a)) || Turns(next, a)
  {
    hide Turns;
    assert next in rest + [next];
    forall b | b in rest
      ensures b in rest + [next]
    {
    }
  }

  lemma {:induction false} WithoutAbsent(held: seq<Action>, key: Action)
    requires key !in held
    ensures Without(held, key) == held
  {
    if held != [] { WithoutAbsent(held[1..], key); }
  }

  lemma {:induction false} HeldIsDown(t: Take, caps: Capabilities, input: Input, kept: seq<Input>)
    requires Lent(t.recorder, t.draft) && StoresWaits(caps, t.recorder.policy) && t.recorder.held == Down(Edges(kept))
    ensures var after := After(t, caps, input);
      after.recorder.held == Down(Edges(if Takes(t, caps, input) then kept + [input] else kept))
  {
    hide ValidProgram, Down, Settled, Reserve;
    if Takes(t, caps, input) {
      assert Edges(kept + [input]) == Edges(kept) + [input.action];
      DownGrows(Edges(kept), input.action);
      if input.action.pressed { WithoutAbsent(t.recorder.held, input.action); }
    }
  }

  lemma {:induction false} RecordHoldsDown(t: Take, caps: Capabilities, kept: seq<Input>, inputs: seq<Input>)
    requires Lent(t.recorder, t.draft) && StoresWaits(caps, t.recorder.policy) && t.recorder.held == Down(Edges(kept))
    ensures Record(t, caps, inputs).recorder.held == Down(Edges(kept + Kept(t, caps, inputs)))
    decreases |inputs|
  {
    hide After, Takes, Down, Edges;
    if inputs == [] {
      assert kept + [] == kept;
    } else {
      HeldIsDown(t, caps, inputs[0], kept);
      var now := if Takes(t, caps, inputs[0]) then kept + [inputs[0]] else kept;
      RecordHoldsDown(After(t, caps, inputs[0]), caps, now, inputs[1..]);
      assert now + Kept(After(t, caps, inputs[0]), caps, inputs[1..]) == kept + Kept(t, caps, inputs);
    }
  }

  /** What a recording of `kept` comes to if it ends with `wait` behind its last edge: the
      edges, then everything that is down released, newest first. */
  function Ended(base: Program, policy: DelayPolicy, kept: seq<Input>, wait: U32): Program
    requires kept != []
  {
    base.(events := base.events + WithDelay(Tape(policy, kept), |kept| - 1, wait) + Releases(Down(Edges(kept)), Terminal(policy)))
  }

  /** The waits it may end with: any storable one while something is held and waits are
      measured, and else the terminal one. */
  predicate MayEndWith(caps: Capabilities, policy: DelayPolicy, kept: seq<Input>, wait: U32) {
    if policy.Measured? && Down(Edges(kept)) != [] then caps.delaysMs.Contains(wait) else wait == Terminal(policy)
  }

  /** Under measured waits, edges may follow each other at distances that can be stored. */
  predicate Spaced(caps: Capabilities, policy: DelayPolicy, kept: seq<Input>, at: nat) {
    policy.Measured? && kept != [] ==>
      var from := kept[|kept| - 1].at;
      from <= at && at - from < U32_LIMIT && caps.delaysMs.Contains(at - from)
  }

  /** Whether a recording of `kept` fits, and fits however it ends. */
  ghost predicate Fits(caps: Capabilities, base: Program, policy: DelayPolicy, kept: seq<Input>)
    requires kept != []
  {
    && ValidProgram(caps, base.(events := base.events + Tape(policy, kept)))
    && forall wait: U32 | MayEndWith(caps, policy, kept, wait) :: ValidProgram(caps, Ended(base, policy, kept, wait))
  }

  // ------------------------------------------------------------ stopping

  lemma {:induction false} WithDelayCost(budget: ByteBudget, events: seq<Event>, index: nat, delay: U32)
    requires index < |events|
    ensures EventsCost(budget, WithDelay(events, index, delay)) + DelayCost(budget, events[index].delayMs)
            == EventsCost(budget, events) + DelayCost(budget, delay)
  {
    var after := WithDelay(events, index, delay);
    if index == 0 {
      assert after[1..] == events[1..];
    } else {
      assert after[1..] == WithDelay(events[1..], index - 1, delay);
      WithDelayCost(budget, events[1..], index - 1, delay);
    }
  }

  /** No storable wait costs more bytes than the one held in reserve. */
  lemma {:induction false} ReserveCostsMost(caps: Capabilities, budget: ByteBudget, delay: int)
    requires caps.budget == Some(budget) && caps.delaysMs.Contains(delay)
    ensures DelayCost(budget, delay) <= DelayCost(budget, LargestWaitCost(caps))
  {
  }

  /** A settled program stays valid when its last wait becomes a cheaper storable one. */
  lemma {:induction false} CheaperWaitFits(caps: Capabilities, r: Recorder, draft: Program, reserve: U32, delay: U32)
    requires Lent(r, draft) && r.last.Some? && ValidProgram(caps, Settled(r, draft, reserve))
    requires caps.delaysMs.Contains(delay)
    requires caps.budget.Some? ==> DelayCost(caps.budget.value, delay) <= DelayCost(caps.budget.value, reserve)
    ensures ValidProgram(caps, Settled(r, draft, delay))
  {
    hide ValidCapabilities;
    var index, releases := r.last.value.0, Releases(r.held, Terminal(r.policy));
    var full, less := Settled(r, draft, reserve).events, Settled(r, draft, delay).events;
    assert less == WithDelay(full, index, delay);
    if caps.budget.Some? {
      WithDelayCost(caps.budget.value, full, index, delay);
    }
    forall e | e in less
      ensures SupportedEvent(caps, e)
    {
      var i :| 0 <= i < |less| && less[i] == e;
      assert full[i] in full;
    }
  }

  lemma {:induction false} StopSucceeds(t: Take, caps: Capabilities, now: nat)
    requires Stoppable(t, caps)
    ensures Stop(t, caps, now).Success?
  {
    hide ValidProgram, Settled, DelayCost;
    var r := t.recorder;
    if r.last.Some? {
      var delay := StopDelay(r, caps, now);
      if caps.budget.Some? && r.held != [] && r.policy.Measured? {
        ReserveCostsMost(caps, caps.budget.value, delay);
      }
      CheaperWaitFits(caps, r, t.draft, Reserve(caps, r), delay);
    }
  }

  lemma {:induction false} ReleasesReplay(held: seq<Action>, terminal: U32)
    requires Distinct(held) && forall a | a in held :: Edge(a) && a.pressed
    ensures Replay(Actions(Releases(held, terminal)), SetOf(held)) == Some({})
    decreases |held|
  {
    var actions := Actions(Releases(held, terminal));
    if held == [] {
      assert SetOf(held) == {};
    } else {
      var key, rest := held[|held| - 1], held[..|held| - 1];
      assert actions[0] == Turned(key, false) && Turned(actions[0], true) == key;
      assert SetOf(held) - {key} == SetOf(rest);
      assert actions[1..] == Actions(Releases(rest, terminal));
      ReleasesReplay(rest, terminal);
    }
  }

  lemma {:induction false} SuffixReplays(r: Recorder, tape: seq<Event>, delay: U32)
    requires tape != [] && Distinct(r.held) && forall a | a in r.held :: Edge(a) && a.pressed
    requires Replay(Actions(tape), {}) == Some(SetOf(r.held))
    ensures Replay(Actions(WithDelay(tape, |tape| - 1, delay) + Releases(r.held, Terminal(r.policy))), {}) == Some({})
  {
    hide Replay, Releases;
    var releases := Releases(r.held, Terminal(r.policy));
    assert Actions(WithDelay(tape, |tape| - 1, delay) + releases) == Actions(tape) + Actions(releases);
    ReleasesReplay(r.held, Terminal(r.policy));
    ReplayAppend(Actions(tape), Actions(releases), {});
  }

  /** What `Stop` writes behind the existing events. */
  ghost function Suffix(t: Take, caps: Capabilities, kept: seq<Input>, now: nat): (events: seq<Event>)
    requires Lent(t.recorder, t.draft) && (kept != [] ==> t.recorder.last.Some?)
  {
    var r := t.recorder;
    if kept == [] then []
    else WithDelay(Tape(r.policy, kept), |kept| - 1, StopDelay(r, caps, now)) + Releases(r.held, Terminal(r.policy))
  }

  /** A recording opens exactly on a valid program, when the wait behind each edge and the
      terminal one can be stored and a fixed wait is not zero. */
  lemma {:induction false} OpensExactly(caps: Capabilities, draft: Program, policy: DelayPolicy)
    ensures New(caps, draft, policy).Success? <==>
      && ValidProgram(caps, draft) && caps.delaysMs.Contains(0)
      && (match policy
          case Measured(terminal) => caps.delaysMs.Contains(terminal)
          case Fixed(ms) => ms > 0 && caps.delaysMs.Contains(ms))
    ensures New(caps, draft, policy).Success? ==> New(caps, draft, policy).value == Recorder(policy, None, [])
  {
    hide ValidProgram;
  }

  function Opened(caps: Capabilities, base: Program, policy: DelayPolicy): (t: Take)
    requires New(caps, base, policy).Success?
    ensures Lent(t.recorder, t.draft) && StoresWaits(caps, t.recorder.policy)
  {
    Take(New(caps, base, policy).value, base)
  }

  lemma {:induction false} OpenedIsFaithful(caps: Capabilities, base: Program, policy: DelayPolicy)
    requires New(caps, base, policy).Success?
    ensures Faithful(Opened(caps, base, policy), caps, base, []) && Stoppable(Opened(caps, base, policy), caps)
  {
    hide ValidProgram;
    assert base.events + Tape(policy, []) == base.events;
    assert SetOf([]) == {};
  }

  /** After any inputs, accepted or not, a recording can be stopped at any time, even one
      before its last event. The events that were there before stay as they were; behind
      them come the accepted edges and the releases, each press finding its key up, each
      release finding it down, and nothing is left held. */
  lemma {:induction false} StopNeverFails(caps: Capabilities, base: Program, policy: DelayPolicy, inputs: seq<Input>, now: nat)
    requires New(caps, base, policy).Success?
    ensures var t := Record(Opened(caps, base, policy), caps, inputs);
      var kept := Kept(Opened(caps, base, policy), caps, inputs);
      var stopped := Stop(t, caps, now);
      && stopped.Success? && (kept != [] ==> t.recorder.last.Some?)
      && stopped.value.1 == base.(events := base.events + Suffix(t, caps, kept, now))
      && ValidProgram(caps, stopped.value.1)
      && Replay(Actions(Suffix(t, caps, kept, now)), {}) == Some({})
      && (stopped.value.0.TimingClamped? <==>
            kept != [] && t.recorder.held != [] && StorableInterval(caps, policy, now, kept[|kept| - 1].at).None?)
  {
    hide ValidProgram, Record, Kept, Replay, Releases, StopDelay, StorableInterval, Tape, SetOf, Distinct, WithDelay;
    var begun := Opened(caps, base, policy);
    OpenedIsFaithful(caps, base, policy);
    RecordIsFaithful(begun, caps, base, [], inputs);
    var t, kept := Record(begun, caps, inputs), Kept(begun, caps, inputs);
    assert [] + kept == kept;
    StopSucceeds(t, caps, now);
    if kept == [] {
      assert base.events + [] == base.events;
      NothingReplays();
    } else {
      var tape, delay := Tape(policy, kept), StopDelay(t.recorder, caps, now);
      DelayInTape(base.events, tape, delay);
      SuffixReplays(t.recorder, tape, delay);
      assert base.events + WithDelay(tape, |kept| - 1, delay) + Releases(t.recorder.held, Terminal(policy))
             == base.events + Suffix(t, caps, kept, now);
    }
  }

  lemma {:induction false} FitsExactly(t: Take, caps: Capabilities, base: Program, kept: seq<Input>)
    requires Faithful(t, caps, base, kept) && kept != [] && t.recorder.held == Down(Edges(kept))
    requires StoresWaits(caps, t.recorder.policy)
    ensures Fits(caps, base, t.recorder.policy, kept) <==>
      ValidProgram(caps, t.draft) && ValidProgram(caps, Settled(t.recorder, t.draft, Reserve(caps, t.recorder)))
  {
    hide ValidProgram, Tape, Releases, Replay, Distinct, DelayCost, Down, WithDelay;
    var r, reserve := t.recorder, Reserve(caps, t.recorder);
    forall wait: U32
      ensures Ended(base, r.policy, kept, wait) == Settled(r, t.draft, wait)
    {
      DelayInTape(base.events, Tape(r.policy, kept), wait);
    }
    if ValidProgram(caps, Settled(r, t.draft, reserve)) {
      forall wait: U32 | MayEndWith(caps, r.policy, kept, wait)
        ensures ValidProgram(caps, Ended(base, r.policy, kept, wait))
      {
        if caps.budget.Some? && r.policy.Measured? && r.held != [] { ReserveCostsMost(caps, caps.budget.value, wait); }
        CheaperWaitFits(caps, r, t.draft, reserve, wait);
      }
    }
    assert MayEndWith(caps, r.policy, kept, reserve);
  }

  /** The exact condition, in every recording: an input is no edge, or repeats what its key
      already does and is ignored, or comes at a time whose distance cannot be stored, or
      would not fit however the recording might end; and in every other case it is recorded,
      behind what was recorded before. */
  lemma {:induction false} RecordedExactly(caps: Capabilities, base: Program, policy: DelayPolicy, inputs: seq<Input>, input: Input)
    requires New(caps, base, policy).Success?
    ensures var t := Record(Opened(caps, base, policy), caps, inputs);
      var kept := Kept(Opened(caps, base, policy), caps, inputs);
      var done := Transition(t, caps, input.action, input.at);
      if !Edge(input.action) then done == Failure(NotAnEdge)
      else if Replay(Edges(kept + [input]), {}).None? then done == Success((Duplicate, t))
      else if !Spaced(caps, policy, kept, input.at) then done == Failure(BadInterval)
      else if !Fits(caps, base, policy, kept + [input]) then done == Failure(InvalidProgram)
      else
        && done.Success? && done.value.0 == Accepted
        && done.value.1.draft == base.(events := base.events + Tape(policy, kept + [input]))
  {
    hide ValidProgram, Record, Kept, Replay, Tape, Settled, Reserve, Fits, Distinct, StorableInterval, Down, Appended;
    var begun := Opened(caps, base, policy);
    OpenedIsFaithful(caps, base, policy);
    RecordIsFaithful(begun, caps, base, [], inputs);
    NothingDown();
    RecordHoldsDown(begun, caps, [], inputs);
    var t, kept := Record(begun, caps, inputs), Kept(begun, caps, inputs);
    assert [] + kept == kept;
    TransitionExactly(t, caps, base, kept, input);
    SpacedIsStorable(caps, policy, kept, input.at);
  }

  lemma {:induction false} SpacedIsStorable(caps: Capabilities, policy: DelayPolicy, kept: seq<Input>, at: nat)
    requires StoresWaits(caps, policy)
    ensures Spaced(caps, policy, kept, at) <==> (kept != [] ==> StorableInterval(caps, policy, at, kept[|kept| - 1].at).Some?)
  {
  }

  lemma {:induction false} NothingDown()
    ensures Down(Edges([])) == []
  {
  }

  lemma {:induction false} TransitionExactly(t: Take, caps: Capabilities, base: Program, kept: seq<Input>, input: Input)
    requires Faithful(t, caps, base, kept) && Stoppable(t, caps) && t.recorder.held == Down(Edges(kept))
    ensures var done := Transition(t, caps, input.action, input.at);
      var policy := t.recorder.policy;
      if !Edge(input.action) then done == Failure(NotAnEdge)
      else if Replay(Edges(kept + [input]), {}).None? then done == Success((Duplicate, t))
      else if kept != [] && StorableInterval(caps, policy, input.at, kept[|kept| - 1].at).None? then done == Failure(BadInterval)
      else if !Fits(caps, base, policy, kept + [input]) then done == Failure(InvalidProgram)
      else
        && done.Success? && done.value.0 == Accepted
        && done.value.1.draft == base.(events := base.events + Tape(policy, kept + [input]))
  {
    hide ValidProgram, Tape, Settled, Reserve, Fits, Distinct, StorableInterval, Down, Appended;
    if Edge(input.action) {
      TurnsIts(t, caps, base, kept, input);
      var r := t.recorder;
      var delay := if r.last.Some? then StorableInterval(caps, r.policy, input.at, r.last.value.1) else Some(0);
      if (Turned(input.action, true) in r.held) != input.action.pressed && delay.Some? {
        var after := Appended(t, input.action, input.at, delay.value);
        AppendedIsFaithful(t, caps, base, kept, input, delay.value);
        FitsExactly(after, caps, base, kept + [input]);
      }
    }
  }

  /** Replaying one more edge fails exactly when its key already stands that way. */
  lemma {:induction false} TurnsIts(t: Take, caps: Capabilities, base: Program, kept: seq<Input>, input: Input)
    requires Faithful(t, caps, base, kept) && Edge(input.action)
    ensures Replay(Edges(kept + [input]), {}).None? <==> (Turned(input.action, true) in t.recorder.held) == input.action.pressed
  {
    hide Tape, Distinct;
    assert Edges(kept + [input]) == Edges(kept) + [input.action];
    assert Edges(kept) == Actions(Tape(t.recorder.policy, kept)) by { TapeEdges(t.recorder.policy, kept); }
    ReplayAppend(Edges(kept), [input.action], {});
    assert [input.action][1..] == [];
  }

  lemma {:induction false} TapeEdges(policy: DelayPolicy, kept: seq<Input>)
    ensures Actions(Tape(policy, kept)) == Edges(kept)
  {
  }

  lemma {:induction false} AppendedIsFaithful(t: Take, caps: Capabilities, base: Program, kept: seq<Input>, input: Input, delay: U32)
    requires Faithful(t, caps, base, kept) && t.recorder.held == Down(Edges(kept)) && Edge(input.action)
    requires (Turned(input.action, true) in t.recorder.held) != input.action.pressed
    requires kept != [] ==> StorableInterval(caps, t.recorder.policy, input.at, kept[|kept| - 1].at) == Some(delay)
    ensures var after := Appended(t, input.action, input.at, delay);
      && Faithful(after, caps, base, kept + [input]) && after.recorder.held == Down(Edges(kept + [input]))
      && after.recorder.policy == t.recorder.policy
  {
    hide ValidProgram, Replay, Tape, Without, Distinct, Reserve, Actions, Settled, Down;
    var r := t.recorder;
    ToggledSet(r.held, input.action);
    ReplayAppend(Actions(Tape(r.policy, kept)), [input.action], {});
    TapeActions(r.policy, kept, input);
    TapeGrows(r.policy, kept, input);
    if kept != [] {
      assert WithDelay(base.events + Tape(r.policy, kept), r.last.value.0, delay)
             == base.events + WithDelay(Tape(r.policy, kept), |kept| - 1, delay);
    }
    assert Edges(kept + [input]) == Edges(kept) + [input.action];
    DownGrows(Edges(kept), input.action);
    if input.action.pressed { WithoutAbsent(r.held, input.action); }
  }

  lemma {:induction false} DelayInTape(base: seq<Event>, tape: seq<Event>, delay: U32)
    requires tape != []
    ensures WithDelay(base + tape, |base| + |tape| - 1, delay) == base + WithDelay(tape, |tape| - 1, delay)
  {
  }

  lemma {:induction false} NothingReplays()
    ensures Replay(Actions([]), {}) == Some({})
  {
  }

  lemma {:induction false} WaitsAppend(a: seq<Event>, b: seq<Event>)
    ensures Waits(a + b) == Waits(a) + Waits(b)
    decreases |a|
  {
    if a == [] {
      assert a + b == b;
    } else {
      assert (a + b)[1..] == a[1..] + b;
      WaitsAppend(a[1..], b);
    }
  }

  lemma {:induction false} TapeWaits(caps: Capabilities, policy: DelayPolicy, kept: seq<Input>)
    requires policy.Measured? && kept != [] && Timely(caps, policy, kept)
    ensures Waits(Tape(policy, kept)) == kept[|kept| - 1].at - kept[0].at
    decreases |kept|
  {
    hide Interval, Tape, Gap;
    var tape := Tape(policy, kept);
    TapeSplits(policy, kept);
    if |kept| == 1 {
      assert Waits(tape) == Waits(tape[1..]);
    } else {
      var rest := kept[1..];
      assert forall i :: 0 <= i < |rest| ==> rest[i] == kept[i + 1];
      GapMeasures(caps, policy, kept[0].at, kept[1].at);
      TapeWaits(caps, policy, rest);
    }
  }

  lemma {:induction false} LastWait(events: seq<Event>, delay: U32)
    requires events != []
    ensures Waits(WithDelay(events, |events| - 1, delay)) + events[|events| - 1].delayMs == Waits(events) + delay
    decreases |events|
  {
    var after := WithDelay(events, |events| - 1, delay);
    if |events| > 1 {
      assert after[1..] == WithDelay(events[1..], |events| - 2, delay);
      LastWait(events[1..], delay);
    } else {
      assert after[1..] == events[1..] == [];
    }
  }

  lemma {:induction false} ReleasesWait(held: seq<Action>, terminal: U32)
    requires forall a | a in held :: Edge(a)
    ensures Waits(Releases(held, terminal)) == if held == [] then 0 else terminal
    decreases |held|
  {
    var events := Releases(held, terminal);
    if |held| > 1 {
      var rest := held[..|held| - 1];
      assert events[1..] == Releases(rest, terminal);
      ReleasesWait(rest, terminal);
    } else if |held| == 1 {
      assert events[1..] == [];
    }
  }

  /** Stopping at a time that can be measured records the time from the first edge to the stop,
      when something is still held, and else to the last edge; when that time cannot be stored
      the stop itself takes none. One terminal wait comes last. Under a fixed wait the last
      edge gets it, and so does the last release. */
  lemma {:induction false} StopMeasuresTime(caps: Capabilities, base: Program, policy: DelayPolicy, inputs: seq<Input>, now: nat)
    requires New(caps, base, policy).Success?
    ensures var kept := Kept(Opened(caps, base, policy), caps, inputs);
      var stopped := Stop(Record(Opened(caps, base, policy), caps, inputs), caps, now);
      kept != [] && stopped.Success? && |stopped.value.1.events| >= |base.events| ==>
        var added := Waits(stopped.value.1.events[|base.events|..]);
        var down := Down(Edges(kept));
        var last := kept[|kept| - 1].at;
        match policy
        case Measured(terminal) =>
          added == last - kept[0].at + terminal
                   + if down != [] && last <= now && now - last < U32_LIMIT && caps.delaysMs.Contains(now - last) then now - last else 0
        case Fixed(ms) => added == |kept| * ms + if down != [] then ms else 0
  {
    hide ValidProgram, Record, Kept, Replay, StorableInterval, Tape, Distinct, Down, WithDelay, Releases, Waits;
    var begun := Opened(caps, base, policy);
    OpenedIsFaithful(caps, base, policy);
    RecordIsFaithful(begun, caps, base, [], inputs);
    NothingDown();
    RecordHoldsDown(begun, caps, [], inputs);
    StopNeverFails(caps, base, policy, inputs, now);
    var t, kept := Record(begun, caps, inputs), Kept(begun, caps, inputs);
    assert [] + kept == kept;
    if kept != [] {
      var tape, r := Tape(policy, kept), t.recorder;
      var wait := StopDelay(r, caps, now);
      LastWait(tape, wait);
      ReleasesWait(r.held, Terminal(policy));
      WaitsAppend(WithDelay(tape, |kept| - 1, wait), Releases(r.held, Terminal(policy)));
      assert (base.events + Suffix(t, caps, kept, now))[|base.events|..] == Suffix(t, caps, kept, now);
      LastProvisional(policy, kept);
      StopWaits(caps, policy, r, kept, now);
      if policy.Measured? { TapeWaits(caps, policy, kept); } else { FixedWaits(policy, kept); }
    }
  }

  lemma {:induction false} LastProvisional(policy: DelayPolicy, kept: seq<Input>)
    requires kept != []
    ensures Tape(policy, kept)[|kept| - 1].delayMs == if policy.Measured? then 0 else policy.ms
  {
  }

  lemma {:induction false} StopWaits(caps: Capabilities, policy: DelayPolicy, r: Recorder, kept: seq<Input>, now: nat)
    requires r.policy == policy && kept != [] && r.last.Some? && r.last.value.1 == kept[|kept| - 1].at && StoresWaits(caps, policy)
    ensures var last := kept[|kept| - 1].at;
      StopDelay(r, caps, now) ==
        if r.held == [] then (if policy.Measured? then policy.terminalMs else policy.ms)
        else if policy.Fixed? then policy.ms
        else if last <= now && now - last < U32_LIMIT && caps.delaysMs.Contains(now - last) then now - last else 0
  {
  }

  lemma {:induction false} FixedWaits(policy: DelayPolicy, kept: seq<Input>)
    requires policy.Fixed?
    ensures Waits(Tape(policy, kept)) == |kept| * policy.ms
    decreases |kept|
  {
    if kept != [] {
      assert Tape(policy, kept)[1..] == Tape(policy, kept[1..]);
      FixedWaits(policy, kept[1..]);
    }
  }

  lemma {:induction false} TapeSplits(policy: DelayPolicy, kept: seq<Input>)
    requires policy.Measured? && kept != []
    ensures var tape := Tape(policy, kept);
      && tape[1..] == Tape(policy, kept[1..])
      && tape[0].delayMs == if |kept| == 1 then 0 else Gap(policy, kept[0].at, kept[1].at)
  {
  }

  lemma {:induction false} GapMeasures(caps: Capabilities, policy: DelayPolicy, from: nat, to: nat)
    requires policy.Measured? && StorableInterval(caps, policy, to, from).Some?
    ensures from <= to && Gap(policy, from, to) == to - from
  {
  }

  /** Under measured waits the recorded waits add up to the time from the first accepted
      edge to the last; under a fixed wait every event gets it. */
  lemma {:induction false} WaitsMeasureTime(caps: Capabilities, base: Program, policy: DelayPolicy, inputs: seq<Input>)
    requires New(caps, base, policy).Success?
    ensures var t := Record(Opened(caps, base, policy), caps, inputs);
      var kept := Kept(Opened(caps, base, policy), caps, inputs);
      && |t.draft.events| == |base.events| + |kept|
      && (policy.Measured? && kept != [] ==>
            Waits(t.draft.events[|base.events|..]) == kept[|kept| - 1].at - kept[0].at)
      && (policy.Fixed? ==> forall e | e in t.draft.events[|base.events|..] :: e.delayMs == policy.ms)
  {
    hide ValidProgram, Record, Kept, Replay, StorableInterval, Tape, Timely, Distinct, Settled;
    var begun := Opened(caps, base, policy);
    OpenedIsFaithful(caps, base, policy);
    RecordIsFaithful(begun, caps, base, [], inputs);
    var t, kept := Record(begun, caps, inputs), Kept(begun, caps, inputs);
    assert [] + kept == kept;
    assert t.draft.events[|base.events|..] == Tape(policy, kept);
    if policy.Fixed? {
      FixedTape(policy, kept);
    } else if kept != [] {
      TapeWaits(caps, policy, kept);
    }
  }

  lemma {:induction false} FixedTape(policy: DelayPolicy, kept: seq<Input>)
    requires policy.Fixed?
    ensures forall e | e in Tape(policy, kept) :: e.delayMs == policy.ms
  {
  }
}
