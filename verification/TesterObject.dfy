/** The tester as the object the view holds: its fields change in place, input by input. */
module TesterObject {
  import opened Wrappers
  import opened KeyTester

  /** Appends within a limit, dropping the oldest item of a full queue. */
  method Push<T>(items: seq<T>, item: T, limit: nat) returns (after: seq<T>)
    requires limit > 0
    ensures |items| <= limit ==> after == Tail(items + [item], limit)
    ensures after == PushBounded(items, item, Some(limit))
  {
    after := items;
    if |after| == limit { after := after[1..]; }
    after := after + [item];
  }

  class KeyboardTester {
    var held: map<nat, Option<nat>>
    var tested: set<nat>
    var stats: map<nat, KeyStats>
    var peak: nat
    var paused: bool
    var threshold: nat
    var lastEdge: Option<nat>
    var released: map<nat, Released>
    var candidates: seq<Candidate>
    var candidateCount: nat
    var lastInput: Option<Input>
    var intervals: seq<Interval>

    ghost function State(): Tester
      reads this
    {
      Tester(held, tested, stats, peak, paused, threshold, lastEdge, released, candidates, candidateCount, lastInput, intervals)
    }

    constructor ()
      ensures State() == FRESH
    {
      held, tested, stats, peak, paused := map[], {}, map[], 0, false;
      threshold, lastEdge, released, candidates := DEFAULT_THRESHOLD, None, map[], [];
      candidateCount, lastInput, intervals := 0, None, [];
    }

    method Accept(input: Input)
      modifies this
      ensures State() == KeyTester.Accept(old(State()), input, SHIPPED)
    {
      hide StatsOf, Pressed, ReleasedKey, Rewound, Spaced, Repeated;
      if paused { return; }
      lastInput := Some(input);
      Rewind(input.at);
      if input.kind.Press? {
        if input.usage in held {
          lastInput := Some(input.(kind := Repeat));
          CountRepeat(input.usage);
          return;
        }
        Press(input);
      } else if input.kind.Release? {
        Release(input);
      } else {
        if input.usage in held { CountRepeat(input.usage); }
        return;
      }
      Space(input);
    }

    method Rewind(at: nat)
      modifies this
      ensures State() == Rewound(old(State()), at)
    {
      hide Unknown;
      if lastEdge.Some? && at < lastEdge.value {
        released := map[];
        ForgetPresses();
        lastEdge := None;
      }
    }

    method CountRepeat(usage: nat)
      modifies this`stats
      ensures State() == Repeated(old(State()), usage)
    {
      hide StatsOf;
      var s := StatsOf(stats, usage);
      stats := stats[usage := s.(repeats := s.repeats + 1)];
    }

    method Space(input: Input)
      modifies this`intervals, this`lastEdge
      ensures State() == Spaced(old(State()), input, Some(MAX_INTERVALS))
    {
      hide PushBounded;
      if lastEdge.Some? {
        var since := SaturatingSub(input.at, lastEdge.value);
        intervals := Push(intervals, Interval(input.usage, input.kind, since), MAX_INTERVALS);
      }
      lastEdge := Some(input.at);
    }

    method ForgetPresses()
      modifies this`held
      ensures held == Unknown(old(held))
    {
      var left := held.Keys;
      while left != {}
        invariant left <= held.Keys == old(held).Keys
        invariant forall usage | usage in held :: held[usage] == if usage in left then old(held)[usage] else None
        decreases |left|
      {
        var usage :| usage in left;
        held := held[usage := None];
        left := left - {usage};
      }
    }

    method Press(input: Input)
      modifies this
      ensures State() == Pressed(old(State()), input, Some(MAX_CANDIDATES))
    {
      hide Rejoined, StatsOf;
      Rejoin(input);
      held := held[input.usage := Some(input.at)];
      tested := tested + {input.usage};
      var s := StatsOf(stats, input.usage);
      stats := stats[input.usage := s.(presses := s.presses + 1)];
      if |held| > peak { peak := |held|; }
    }

    method Rejoin(input: Input)
      modifies this
      ensures State() == Rejoined(old(State()), input, Some(MAX_CANDIDATES))
    {
      hide Noted, WithoutKey;
      if input.usage in released {
        var previous := released[input.usage];
        released := WithoutKey(released, input.usage);
        var gap := SaturatingSub(input.at, previous.at);
        if gap <= threshold { Note(Candidate(input.usage, previous.makeDuration, gap, input.at)); }
      }
    }

    method Note(item: Candidate)
      modifies this
      ensures State() == Noted(old(State()), item, Some(MAX_CANDIDATES))
    {
      hide StatsOf, PushBounded;
      candidateCount := candidateCount + 1;
      var s := StatsOf(stats, item.usage);
      stats := stats[item.usage := s.(candidates := s.candidates + 1)];
      candidates := Push(candidates, item, MAX_CANDIDATES);
    }

    method Release(input: Input)
      modifies this
      ensures State() == ReleasedKey(old(State()), input)
    {
      hide StatsOf, WithoutKey;
      tested := tested + {input.usage};
      var s := StatsOf(stats, input.usage);
      s := s.(releases := s.releases + 1);
      if input.usage in held {
        var pressed := held[input.usage];
        held := WithoutKey(held, input.usage);
        if pressed.Some? {
          var duration := SaturatingSub(input.at, pressed.value);
          s := s.(lastHold := Some(duration));
          released := released[input.usage := Released(input.at, duration)];
        }
      } else {
        released := WithoutKey(released, input.usage);
        NoSuchKey(held, input.usage);
      }
      stats := stats[input.usage := s];
    }

    static lemma {:induction false} NoSuchKey<T>(m: map<nat, T>, usage: nat)
      requires usage !in m
      ensures WithoutKey(m, usage) == m
    {
    }

    method Pause()
      modifies this
      ensures State() == KeyTester.Pause(old(State()))
    {
      paused, held, released, lastEdge := true, map[], map[], None;
    }

    method Resume()
      modifies this`paused
      ensures !paused
    {
      paused := false;
    }

    method Reset()
      modifies this
      ensures State() == KeyTester.Reset(old(State()))
    {
      hide Unknown;
      ClearHistories();
      tested, stats, peak, released, lastEdge := {}, map[], |held|, map[], None;
      ForgetPresses();
    }

    method ClearHistories()
      modifies this`candidates, this`candidateCount, this`lastInput, this`intervals
      ensures State() == old(State()).(candidates := [], candidateCount := 0, lastInput := None, intervals := [])
    {
      candidates, candidateCount, lastInput, intervals := [], 0, None, [];
    }
  }
}
