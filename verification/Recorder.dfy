/** The recorder object: it builds a candidate beside the draft it was lent and commits
    both together or neither. */
module RecorderObject {
  import opened Wrappers
  import opened MacroProgram
  import opened Recording

  class MacroRecorder {
    const policy: DelayPolicy
    var last: Option<(nat, nat)>
    var held: seq<Action>

    ghost function State(): Recorder
      reads this
    {
      Recorder(policy, last, held)
    }

    constructor (policy: DelayPolicy)
      ensures State() == Recorder(policy, None, [])
    {
      this.policy, last, held := policy, None, [];
    }

    static method Start(caps: Capabilities, draft: Program, policy: DelayPolicy) returns (r: Result<MacroRecorder, Problem>)
      ensures r.Success? ==> fresh(r.value) && New(caps, draft, policy) == Success(r.value.State())
      ensures r.Failure? ==> New(caps, draft, policy) == Failure(r.error)
    {
      var valid := ValidateProgram(caps, draft);
      if !valid {
        return Failure(InvalidProgram);
      }
      if !caps.delaysMs.Contains(0) || !caps.delaysMs.Contains(Terminal(policy)) {
        return Failure(UnsupportedWaits);
      }
      if policy == Fixed(0) {
        return Failure(ZeroFixedDelay);
      }
      var recorder := new MacroRecorder(policy);
      return Success(recorder);
    }

    /** Truncating the settled candidate and making its last wait provisional again gives
        back the events as they were appended. */
    static lemma {:induction false} CutBack(events: seq<Event>, end: nat, reserve: U32, provisional: U32, releases: seq<Event>)
      requires |events| == end + 1 && events[end].delayMs == provisional
      ensures WithDelay((WithDelay(events, end, reserve) + releases)[..end + 1], end, provisional) == events
    {
      assert (WithDelay(events, end, reserve) + releases)[..end + 1] == WithDelay(events, end, reserve);
    }

    method Transition(caps: Capabilities, draft: Program, action: Action, now: nat)
      returns (outcome: Result<Recorded, Problem>, after: Program)
      requires Lent(State(), draft) && StoresWaits(caps, policy)
      modifies this
      ensures var done := Recording.Transition(Take(old(State()), draft), caps, action, now);
        if done.Success? then outcome == Success(done.value.0) && done.value.1 == Take(State(), after)
        else outcome == Failure(done.error) && State() == old(State()) && after == draft
    {
      hide ValidProgram, Without, StorableInterval, LargestWaitCost, WithDelay, Releases;
      after := draft;
      if !Edge(action) {
        return Failure(NotAnEdge), draft;
      }
      var key := Turned(action, true);
      if (key in held) == action.pressed {
        return Success(Duplicate), draft;
      }
      var delay: Option<U32> := Some(0);
      var events := draft.events;
      if last.Some? {
        delay := StorableInterval(caps, policy, now, last.value.1);
        if delay.None? {
          return Failure(BadInterval), draft;
        }
        events := WithDelay(events, last.value.0, delay.value);
      }
      var keys := if action.pressed then held + [key] else Without(held, key);
      ToggledHolds(held, action);
      ghost var expected := Appended(Take(State(), draft), action, now, delay.value);
      events := events + [Event(action, Provisional(policy))];
      assert expected == Take(Recorder(policy, Some((|events| - 1, now)), keys), draft.(events := events));
      var fits := ValidateProgram(caps, draft.(events := events));
      if !fits {
        return Failure(InvalidProgram), draft;
      }
      var end := |events| - 1;
      var reserve := if keys != [] && policy.Measured? then LargestWaitCost(caps) else Terminal(policy);
      var stopped := AppendReleases(draft.(events := WithDelay(events, end, reserve)), keys, Terminal(policy));
      fits := ValidateProgram(caps, stopped);
      if !fits {
        return Failure(InvalidProgram), draft;
      }
      CutBack(events, end, reserve, Provisional(policy), Releases(keys, Terminal(policy)));
      var kept := WithDelay(stopped.events[..end + 1], end, Provisional(policy));
      last, held := Some((end, now)), keys;
      return Success(Accepted), draft.(events := kept);
    }

    method Stop(caps: Capabilities, draft: Program, now: nat) returns (outcome: Result<StopOutcome, Problem>, after: Program)
      requires Lent(State(), draft) && StoresWaits(caps, policy)
      ensures var done := Recording.Stop(Take(State(), draft), caps, now);
        if done.Success? then outcome == Success(done.value.0) && after == done.value.1
        else outcome == Failure(done.error) && after == draft
    {
      if last.None? {
        return Success(Complete), draft;
      }
      var (index, at) := last.value;
      var interval := StorableInterval(caps, policy, now, at);
      var delay := if held == [] then Terminal(policy) else if interval.Some? then interval.value else 0;
      var candidate := AppendReleases(draft.(events := WithDelay(draft.events, index, delay)), held, Terminal(policy));
      var fits := ValidateProgram(caps, candidate);
      if !fits {
        return Failure(InvalidProgram), draft;
      }
      return Success(if held != [] && interval.None? then TimingClamped else Complete), candidate;
    }

    static method AppendReleases(program: Program, held: seq<Action>, terminal: U32) returns (after: Program)
      requires forall a | a in held :: Edge(a)
      ensures after == program.(events := program.events + Releases(held, terminal))
    {
      var events := program.events;
      for index := 0 to |held|
        invariant events == program.events + Releases(held, terminal)[..index]
      {
        var key := held[|held| - 1 - index];
        events := events + [Event(Turned(key, false), if index + 1 == |held| then terminal else 0)];
      }
      after := program.(events := events);
    }
  }
}
