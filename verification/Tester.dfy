/** Accounting of local key events: presses, releases, chatter candidates and spacing. The
    two histories are bounded; an unbounded tester says what they are the tail of. */
module KeyTester {
  import opened Wrappers

  const MAX_CANDIDATES: nat := 32
  const MAX_INTERVALS: nat := 128
  const DEFAULT_THRESHOLD: nat := 20000

  datatype Kind = Press | Release | Repeat

  datatype Input = Input(usage: nat, kind: Kind, at: nat)

  datatype KeyStats = KeyStats(presses: nat, releases: nat, repeats: nat, candidates: nat, lastHold: Option<nat>)

  datatype Candidate = Candidate(usage: nat, makeDuration: nat, gap: nat, at: nat)

  datatype Interval = Interval(usage: nat, kind: Kind, sincePrevious: nat)

  datatype Released = Released(at: nat, makeDuration: nat)

  const NO_STATS := KeyStats(0, 0, 0, 0, None)

  /** `held` maps each held key to when it was pressed, if that is known. */
  datatype Tester = Tester(
    held: map<nat, Option<nat>>, tested: set<nat>, stats: map<nat, KeyStats>, peak: nat, paused: bool, threshold: nat,
    lastEdge: Option<nat>, released: map<nat, Released>, candidates: seq<Candidate>, candidateCount: nat,
    lastInput: Option<Input>, intervals: seq<Interval>)

  const FRESH := Tester(map[], {}, map[], 0, false, DEFAULT_THRESHOLD, None, map[], [], 0, None, [])

  /** How much history is kept; absent means all of it. */
  type Limit = Option<nat>

  const SHIPPED: (Limit, Limit) := (Some(MAX_CANDIDATES), Some(MAX_INTERVALS))
  const EVERYTHING: (Limit, Limit) := (None, None)

  // ------------------------------------------------------------ the operations

  function StatsOf(stats: map<nat, KeyStats>, usage: nat): KeyStats {
    if usage in stats then stats[usage] else NO_STATS
  }

  function WithStats(t: Tester, usage: nat, s: KeyStats): Tester {
    t.(stats := t.stats[usage := s])
  }

  function SaturatingSub(a: nat, b: nat): nat {
    if a >= b then a - b else 0
  }

  function PushBounded<T>(items: seq<T>, item: T, limit: Limit): (after: seq<T>)
    ensures limit.Some? && limit.value > 0 && |items| <= limit.value ==> |after| <= limit.value
  {
    if limit.Some? && |items| == limit.value && items != [] then items[1..] + [item] else items + [item]
  }

  function WithoutKey<T>(m: map<nat, T>, usage: nat): map<nat, T> {
    m - {usage}
  }

  function Unknown(held: map<nat, Option<nat>>): map<nat, Option<nat>> {
    map usage | usage in held :: None
  }

  /** A clock that went back breaks every chain; held keys stay held. */
  function Rewound(t: Tester, at: nat): Tester {
    if t.lastEdge.Some? && at < t.lastEdge.value
    then t.(released := map[], held := Unknown(t.held), lastEdge := None) else t
  }

  /** A press too soon after the key's release: one more candidate. */
  function Noted(t: Tester, item: Candidate, limit: Limit): Tester {
    var s := StatsOf(t.stats, item.usage);
    WithStats(t, item.usage, s.(candidates := s.candidates + 1)).(
      candidateCount := t.candidateCount + 1, candidates := PushBounded(t.candidates, item, limit))
  }

  function Rejoined(t: Tester, input: Input, limit: Limit): Tester {
    if input.usage !in t.released then t
    else
      var previous := t.released[input.usage];
      var gap := SaturatingSub(input.at, previous.at);
      var freed := t.(released := WithoutKey(t.released, input.usage));
      if gap > t.threshold then freed
      else Noted(freed, Candidate(input.usage, previous.makeDuration, gap, input.at), limit)
  }

  function Made(t: Tester, input: Input): Tester {
    var s := StatsOf(t.stats, input.usage);
    var held := t.held[input.usage := Some(input.at)];
    WithStats(t, input.usage, s.(presses := s.presses + 1)).(
      held := held, tested := t.tested + {input.usage}, peak := if |held| > t.peak then |held| else t.peak)
  }

  function Pressed(t: Tester, input: Input, limit: Limit): Tester {
    Made(Rejoined(t, input, limit), input)
  }

  /** How long the key was down, when that is known. */
  function Hold(t: Tester, input: Input): Option<nat> {
    if input.usage in t.held && t.held[input.usage].Some? then Some(SaturatingSub(input.at, t.held[input.usage].value)) else None
  }

  function ReleasedKey(t: Tester, input: Input): Tester {
    var s := StatsOf(t.stats, input.usage);
    var hold := Hold(t, input);
    WithStats(t, input.usage, s.(releases := s.releases + 1, lastHold := if hold.Some? then hold else s.lastHold)).(
      tested := t.tested + {input.usage}, held := WithoutKey(t.held, input.usage),
      released :=
        if hold.Some? then t.released[input.usage := Released(input.at, hold.value)]
        else if input.usage in t.held then t.released
        else WithoutKey(t.released, input.usage))
  }

  function Repeated(t: Tester, usage: nat): Tester {
    var s := StatsOf(t.stats, usage);
    WithStats(t, usage, s.(repeats := s.repeats + 1))
  }

  /** The edge's distance from the one before it. */
  function Spaced(t: Tester, input: Input, limit: Limit): Tester {
    var noted :=
      if t.lastEdge.None? then t
      else t.(intervals := PushBounded(t.intervals, Interval(input.usage, input.kind, SaturatingSub(input.at, t.lastEdge.value)), limit));
    noted.(lastEdge := Some(input.at))
  }

  function Accept(t: Tester, input: Input, limits: (Limit, Limit)): Tester {
    if t.paused then t
    else
      var now := Rewound(t.(lastInput := Some(input)), input.at);
      match input.kind
      case Press =>
        if input.usage in now.held then Repeated(now.(lastInput := Some(input.(kind := Repeat))), input.usage)
        else Spaced(Pressed(now, input, limits.0), input, limits.1)
      case Release => Spaced(ReleasedKey(now, input), input, limits.1)
      case Repeat => if input.usage in now.held then Repeated(now, input.usage) else now
  }

  function Pause(t: Tester): Tester {
    t.(paused := true, held := map[], released := map[], lastEdge := None)
  }

  function Reset(t: Tester): Tester {
    t.(tested := {}, stats := map[], peak := |t.held|, released := map[], lastEdge := None, candidates := [], candidateCount := 0,
       lastInput := None, intervals := [], held := Unknown(t.held))
  }

  datatype Event = Observed(input: Input) | Paused | Resumed | ResetAll | ThresholdSet(threshold: nat)

  function Step(t: Tester, e: Event, limits: (Limit, Limit)): Tester {
    match e
    case Observed(input) => Accept(t, input, limits)
    case Paused => Pause(t)
    case Resumed => t.(paused := false)
    case ResetAll => Reset(t)
    case ThresholdSet(threshold) => t.(threshold := threshold)
  }

  function Run(t: Tester, events: seq<Event>, limits: (Limit, Limit)): Tester
    decreases |events|
  {
    if events == [] then t else Run(Step(t, events[0], limits), events[1..], limits)
  }

  // ------------------------------------------------------------ bounded histories

  function Tail<T>(items: seq<T>, count: nat): seq<T> {
    if |items| <= count then items else items[|items| - count..]
  }

  /** The shipped tester's state for an unbounded one. */
  function Shown(t: Tester): Tester {
    t.(candidates := Tail(t.candidates, MAX_CANDIDATES), intervals := Tail(t.intervals, MAX_INTERVALS))
  }

  lemma {:induction false} TailPush<T>(items: seq<T>, item: T, count: nat)
    requires count > 0
    ensures PushBounded(Tail(items, count), item, Some(count)) == Tail(PushBounded(items, item, None), count)
  {
  }

  lemma {:induction false} StepShows(t: Tester, e: Event)
    ensures Step(Shown(t), e, SHIPPED) == Shown(Step(t, e, EVERYTHING))
  {
    hide Tail, PushBounded, SaturatingSub;
    NoTail<Candidate>(MAX_CANDIDATES);
    NoTail<Interval>(MAX_INTERVALS);
    if e.Observed? && !t.paused {
      AcceptShows(t, e.input);
    }
  }

  lemma {:induction false} NoTail<T>(count: nat)
    ensures Tail<T>([], count) == []
  {
  }

  lemma {:induction false} AcceptShows(t: Tester, input: Input)
    requires !t.paused
    ensures Accept(Shown(t), input, SHIPPED) == Shown(Accept(t, input, EVERYTHING))
  {
    hide Pressed, ReleasedKey, Spaced, Tail, Repeated;
    var now := Rewound(t.(lastInput := Some(input)), input.at);
    assert Rewound(Shown(t).(lastInput := Some(input)), input.at) == Shown(now);
    RepeatedShows(now, input.usage);
    RepeatedShows(now.(lastInput := Some(input.(kind := Repeat))), input.usage);
    PressedShows(now, input);
    ReleasedShows(now, input);
    SpacedShows(Pressed(now, input, None), input);
    SpacedShows(ReleasedKey(now, input), input);
  }

  lemma {:induction false} RepeatedShows(t: Tester, usage: nat)
    ensures Repeated(Shown(t), usage) == Shown(Repeated(t, usage))
  {
  }

  lemma {:induction false} NotedShows(t: Tester, item: Candidate)
    ensures Noted(Shown(t), item, Some(MAX_CANDIDATES)) == Shown(Noted(t, item, None))
  {
    hide Tail, PushBounded;
    TailPush(t.candidates, item, MAX_CANDIDATES);
  }

  lemma {:induction false} RejoinedShows(t: Tester, input: Input)
    ensures Rejoined(Shown(t), input, Some(MAX_CANDIDATES)) == Shown(Rejoined(t, input, None))
  {
    hide Tail, Noted, WithoutKey;
    if input.usage in t.released {
      var previous := t.released[input.usage];
      var gap := SaturatingSub(input.at, previous.at);
      NotedShows(t.(released := WithoutKey(t.released, input.usage)), Candidate(input.usage, previous.makeDuration, gap, input.at));
    }
  }

  lemma {:induction false} PressedShows(t: Tester, input: Input)
    ensures Pressed(Shown(t), input, Some(MAX_CANDIDATES)) == Shown(Pressed(t, input, None))
  {
    hide Tail, Rejoined;
    RejoinedShows(t, input);
  }

  lemma {:induction false} ReleasedShows(t: Tester, input: Input)
    ensures ReleasedKey(Shown(t), input) == Shown(ReleasedKey(t, input))
  {
    hide Tail, WithoutKey, StatsOf;
  }

  lemma {:induction false} SpacedShows(t: Tester, input: Input)
    ensures Spaced(Shown(t), input, Some(MAX_INTERVALS)) == Shown(Spaced(t, input, None))
  {
    hide Tail, PushBounded;
    if t.lastEdge.Some? {
      TailPush(t.intervals, Interval(input.usage, input.kind, SaturatingSub(input.at, t.lastEdge.value)), MAX_INTERVALS);
    }
  }

  lemma {:induction false} RunShows(t: Tester, events: seq<Event>)
    ensures Run(Shown(t), events, SHIPPED) == Shown(Run(t, events, EVERYTHING))
    decreases |events|
  {
    hide Step, Shown;
    if events != [] {
      StepShows(t, events[0]);
      RunShows(Step(t, events[0], EVERYTHING), events[1..]);
    }
  }

  // ------------------------------------------------------------ accounting

  function Count(candidates: seq<Candidate>, usage: nat): nat {
    if candidates == [] then 0
    else Count(candidates[..|candidates| - 1], usage) + if candidates[|candidates| - 1].usage == usage then 1 else 0
  }

  ghost function Sum(stats: map<nat, KeyStats>): nat {
    if stats == map[] then 0
    else
      var usage :| usage in stats;
      stats[usage].candidates + Sum(stats - {usage})
  }

  lemma {:induction false} SumTakesAny(stats: map<nat, KeyStats>, usage: nat)
    requires usage in stats
    ensures Sum(stats) == stats[usage].candidates + Sum(stats - {usage})
    decreases |stats|
  {
    var first :| first in stats && Sum(stats) == stats[first].candidates + Sum(stats - {first});
    if first != usage {
      SumTakesAny(stats - {first}, usage);
      SumTakesAny(stats - {usage}, first);
      assert stats - {first} - {usage} == stats - {usage} - {first};
    }
  }

  lemma {:induction false} SumAfter(stats: map<nat, KeyStats>, usage: nat, s: KeyStats)
    ensures Sum(stats[usage := s]) == Sum(stats) - (if usage in stats then stats[usage].candidates else 0) + s.candidates
  {
    var after := stats[usage := s];
    SumTakesAny(after, usage);
    if usage in stats { SumTakesAny(stats, usage); }
    assert after - {usage} == stats - {usage};
    if usage !in stats { assert stats - {usage} == stats; }
  }

  /** Books are balanced: candidates by key and in total, and nothing is both held and
      released. All known times lie at or before the last edge. */
  ghost predicate Balanced(t: Tester) {
    && t.candidateCount == |t.candidates| && t.candidateCount == Sum(t.stats)
    && (forall usage: nat :: StatsOf(t.stats, usage).candidates == Count(t.candidates, usage))
    && t.held.Keys !! t.released.Keys
    && |t.held| <= t.peak
  }

  ghost predicate Timely(t: Tester) {
    match t.lastEdge
    case None => t.released == map[] && forall usage | usage in t.held :: t.held[usage].None?
    case Some(last) =>
      && (forall usage | usage in t.held :: t.held[usage].Some? ==> t.held[usage].value <= last)
      && (forall usage | usage in t.released :: t.released[usage].at <= last)
  }

  /** Whether accepting `input` would subtract a later time from an earlier one. */
  ghost predicate Saturates(t: Tester, input: Input) {
    var now := Rewound(t, input.at);
    !t.paused && !input.kind.Repeat? &&
    (|| (input.usage in now.released && input.at < now.released[input.usage].at)
     || (input.usage in now.held && now.held[input.usage].Some? && input.at < now.held[input.usage].value)
     || (now.lastEdge.Some? && input.at < now.lastEdge.value))
  }

  lemma {:induction false} TimelySubtracts(t: Tester, input: Input)
    requires Timely(t)
    ensures !Saturates(t, input)
  {
  }

  lemma {:induction false} RepeatedBalances(t: Tester, usage: nat)
    requires Balanced(t)
    ensures Balanced(Repeated(t, usage))
  {
    hide Count, Sum;
    var s := StatsOf(t.stats, usage);
    SumAfter(t.stats, usage, s.(repeats := s.repeats + 1));
  }

  lemma {:induction false} CountPush(candidates: seq<Candidate>, item: Candidate, usage: nat)
    ensures Count(candidates + [item], usage) == Count(candidates, usage) + if item.usage == usage then 1 else 0
  {
    assert (candidates + [item])[..|candidates|] == candidates;
  }

  lemma {:induction false} NotedBalances(t: Tester, item: Candidate)
    requires Balanced(t)
    ensures Balanced(Noted(t, item, None))
  {
    hide Sum, Count;
    var s := StatsOf(t.stats, item.usage);
    SumAfter(t.stats, item.usage, s.(candidates := s.candidates + 1));
    forall usage: nat
      ensures Count(t.candidates + [item], usage) == Count(t.candidates, usage) + if item.usage == usage then 1 else 0
    {
      CountPush(t.candidates, item, usage);
    }
  }

  /** Any change to a key's numbers other than its candidates keeps the books. */
  lemma {:induction false} StatsBalance(t: Tester, usage: nat, s: KeyStats)
    requires Balanced(t) && s.candidates == StatsOf(t.stats, usage).candidates
    ensures Balanced(WithStats(t, usage, s))
  {
    hide Sum, Count;
    SumAfter(t.stats, usage, s);
  }

  lemma {:induction false} RejoinedBalances(t: Tester, input: Input)
    requires Balanced(t)
    ensures var after := Rejoined(t, input, None);
      Balanced(after) && after.held == t.held && input.usage !in after.released
  {
    hide Sum, Count, StatsOf;
    if input.usage in t.released {
      var previous := t.released[input.usage];
      var freed := t.(released := WithoutKey(t.released, input.usage));
      assert Balanced(freed);
      NotedBalances(freed, Candidate(input.usage, previous.makeDuration, SaturatingSub(input.at, previous.at), input.at));
    }
  }

  lemma {:induction false} MadeBalances(t: Tester, input: Input)
    requires Balanced(t) && input.usage !in t.released
    ensures Balanced(Made(t, input))
  {
    hide Sum, Count;
    var s := StatsOf(t.stats, input.usage);
    StatsBalance(t, input.usage, s.(presses := s.presses + 1));
  }

  lemma {:induction false} ReleasedBalances(t: Tester, input: Input)
    requires Balanced(t)
    ensures Balanced(ReleasedKey(t, input))
  {
    hide Sum, Count;
    var s := StatsOf(t.stats, input.usage);
    var hold := Hold(t, input);
    StatsBalance(t, input.usage, s.(releases := s.releases + 1, lastHold := if hold.Some? then hold else s.lastHold));
    Fewer(t.held, input.usage);
  }

  lemma {:induction false} Fewer<T>(m: map<nat, T>, usage: nat)
    ensures |WithoutKey(m, usage)| <= |m|
  {
    if usage in m { assert m == WithoutKey(m, usage)[usage := m[usage]]; } else { assert WithoutKey(m, usage) == m; }
  }

  lemma {:induction false} UnknownKeepsCount(held: map<nat, Option<nat>>)
    ensures |Unknown(held)| == |held|
  {
    assert Unknown(held).Keys == held.Keys;
    assert |held.Keys| == |held| && |Unknown(held).Keys| == |Unknown(held)|;
  }

  lemma {:induction false} RewoundBalances(t: Tester, input: Input)
    requires Balanced(t)
    ensures Balanced(Rewound(t.(lastInput := Some(input)), input.at))
  {
    hide Sum, Count, StatsOf, Unknown;
    UnknownKeepsCount(t.held);
    UnknownKeys(t.held);
  }

  lemma {:induction false} SpacedBalances(t: Tester, input: Input)
    requires Balanced(t)
    ensures Balanced(Spaced(t, input, None))
  {
    hide Sum, Count, StatsOf, PushBounded;
  }

  lemma {:induction false} AcceptBalances(t: Tester, input: Input)
    requires Balanced(t)
    ensures Balanced(Accept(t, input, EVERYTHING))
  {
    hide Balanced, StatsOf, Rejoined, ReleasedKey, Made, Rewound, Spaced, Repeated;
    RewoundBalances(t, input);
    var now := Rewound(t.(lastInput := Some(input)), input.at);
    RepeatedBalances(now, input.usage);
    ShownInputBalances(now, input.(kind := Repeat));
    RepeatedBalances(now.(lastInput := Some(input.(kind := Repeat))), input.usage);
    RejoinedBalances(now, input);
    MadeBalances(Rejoined(now, input, None), input);
    ReleasedBalances(now, input);
    SpacedBalances(Pressed(now, input, None), input);
    SpacedBalances(ReleasedKey(now, input), input);
  }

  lemma {:induction false} ShownInputBalances(t: Tester, input: Input)
    requires Balanced(t)
    ensures Balanced(t.(lastInput := Some(input)))
  {
    hide Sum, Count, StatsOf;
  }

  lemma {:induction false} UnknownKeys(held: map<nat, Option<nat>>)
    ensures Unknown(held).Keys == held.Keys
  {
  }

  /** Every time that is remembered lies at or before `at`. */
  ghost predicate Before(t: Tester, at: nat) {
    && (forall usage | usage in t.held :: t.held[usage].Some? ==> t.held[usage].value <= at)
    && (forall usage | usage in t.released :: t.released[usage].at <= at)
  }

  lemma {:induction false} RewoundComesAfter(t: Tester, input: Input)
    requires Timely(t)
    ensures var now := Rewound(t.(lastInput := Some(input)), input.at); Timely(now) && Before(now, input.at)
  {
  }

  lemma {:induction false} PressedComesAfter(t: Tester, input: Input)
    requires Before(t, input.at)
    ensures Before(Pressed(t, input, None), input.at)
  {
    hide PushBounded, StatsOf;
    var rejoined := Rejoined(t, input, None);
    assert Before(rejoined, input.at);
    hide Rejoined;
  }

  lemma {:induction false} ReleasedComesAfter(t: Tester, input: Input)
    requires Before(t, input.at)
    ensures Before(ReleasedKey(t, input), input.at)
  {
    hide StatsOf;
  }

  lemma {:induction false} SpacedIsTimely(t: Tester, input: Input)
    requires Before(t, input.at)
    ensures Timely(Spaced(t, input, None))
  {
    hide PushBounded;
  }

  lemma {:induction false} RepeatedIsTimely(t: Tester, usage: nat, shown: Option<Input>)
    requires Timely(t)
    ensures Timely(Repeated(t.(lastInput := shown), usage))
  {
    hide StatsOf;
  }

  lemma {:induction false} AcceptIsTimely(t: Tester, input: Input)
    requires Timely(t)
    ensures Timely(Accept(t, input, EVERYTHING))
  {
    hide Timely, Rewound, Pressed, ReleasedKey, Spaced, Repeated, Before;
    RewoundComesAfter(t, input);
    var now := Rewound(t.(lastInput := Some(input)), input.at);
    RepeatedIsTimely(now, input.usage, now.lastInput);
    assert now.(lastInput := now.lastInput) == now;
    RepeatedIsTimely(now, input.usage, Some(input.(kind := Repeat)));
    PressedComesAfter(now, input);
    SpacedIsTimely(Pressed(now, input, None), input);
    ReleasedComesAfter(now, input);
    SpacedIsTimely(ReleasedKey(now, input), input);
  }

  lemma {:induction false} NoneCounted(usage: nat)
    ensures Count([], usage) == 0 && Sum(map[]) == 0
  {
  }

  lemma {:induction false} StepBalances(t: Tester, e: Event)
    requires Balanced(t) && Timely(t)
    ensures var after := Step(t, e, EVERYTHING); Balanced(after) && Timely(after)
  {
    hide Sum, Count, Accept;
    match e
    case Observed(input) => AcceptBalances(t, input); AcceptIsTimely(t, input);
    case ResetAll =>
      forall usage: nat ensures Count([], usage) == 0 { NoneCounted(usage); }
      NoneCounted(0);
      UnknownKeepsCount(t.held);
    case _ =>
  }

  lemma {:induction false} RunBalances(t: Tester, events: seq<Event>)
    requires Balanced(t) && Timely(t)
    ensures var after := Run(t, events, EVERYTHING); Balanced(after) && Timely(after)
    decreases |events|
  {
    hide Balanced, Timely, Step;
    if events != [] {
      StepBalances(t, events[0]);
      RunBalances(Step(t, events[0], EVERYTHING), events[1..]);
    }
  }

  /** Every run of the shipped tester shows the ends of a history whose books balance. */
  lemma {:induction false} HistoriesAreTrue(events: seq<Event>)
    ensures var whole := Run(FRESH, events, EVERYTHING);
      && Run(FRESH, events, SHIPPED) == Shown(whole)
      && Balanced(whole) && Timely(whole)
  {
    hide Run;
    assert Shown(FRESH) == FRESH;
    RunShows(FRESH, events);
    assert Balanced(FRESH) by {
      forall usage: nat ensures Count([], usage) == 0 { NoneCounted(usage); }
      NoneCounted(0);
    }
    RunBalances(FRESH, events);
  }

  /** No reachable tester, offered any input, subtracts a later time from an earlier one. */
  lemma {:induction false} NothingSaturates(events: seq<Event>, input: Input)
    ensures !Saturates(Run(FRESH, events, SHIPPED), input)
  {
    hide Run, Balanced, Tail;
    HistoriesAreTrue(events);
    TimelySubtracts(Run(FRESH, events, EVERYTHING), input);
  }

  // ------------------------------------------------------------ the peak

  lemma {:induction false} RunLast(t: Tester, events: seq<Event>, e: Event, limits: (Limit, Limit))
    ensures Run(t, events + [e], limits) == Step(Run(t, events, limits), e, limits)
    decreases |events|
  {
    hide Step;
    if events == [] {
      assert [] + [e] == [e] && [e][1..] == [];
    } else {
      assert (events + [e])[1..] == events[1..] + [e];
      RunLast(Step(t, events[0], limits), events[1..], e, limits);
    }
  }

  /** The most keys held at once since the last reset, or since the beginning. */
  function MostHeld(events: seq<Event>): nat
    decreases |events|
  {
    if events == [] then 0
    else
      var earlier, held := MostHeld(events[..|events| - 1]), |Run(FRESH, events, SHIPPED).held|;
      if events[|events| - 1].ResetAll? || held > earlier then held else earlier
  }

  // how each part of a step treats the held keys and the peak

  lemma {:induction false} RejoinedHolds(t: Tester, input: Input, limit: Limit)
    ensures Rejoined(t, input, limit).held == t.held && Rejoined(t, input, limit).peak == t.peak
  {
  }

  lemma {:induction false} RepeatedHolds(t: Tester, usage: nat)
    ensures Repeated(t, usage).held == t.held && Repeated(t, usage).peak == t.peak
  {
    hide StatsOf;
  }

  lemma {:induction false} SpacedHolds(t: Tester, input: Input, limit: Limit)
    ensures Spaced(t, input, limit).held == t.held && Spaced(t, input, limit).peak == t.peak
  {
    hide PushBounded, SaturatingSub;
  }

  lemma {:induction false} ReleasedHolds(t: Tester, input: Input)
    ensures ReleasedKey(t, input).held == WithoutKey(t.held, input.usage) && ReleasedKey(t, input).peak == t.peak
  {
    hide StatsOf, Hold, WithoutKey;
  }

  lemma {:induction false} MadeHolds(t: Tester, input: Input)
    ensures var held := Made(t, input).held; Made(t, input).peak == if |held| > t.peak then |held| else t.peak
  {
    hide StatsOf;
  }

  lemma {:induction false} RewoundHolds(t: Tester, input: Input)
    ensures var now := Rewound(t.(lastInput := Some(input)), input.at); |now.held| == |t.held| && now.peak == t.peak
  {
    UnknownKeepsCount(t.held);
  }

  /** No step but a press holds more keys than before. */
  lemma {:induction false} AcceptPeaks(t: Tester, input: Input)
    requires t.peak >= |t.held|
    ensures var after := Accept(t, input, SHIPPED); after.peak == if |after.held| > t.peak then |after.held| else t.peak
  {
    hide Rejoined, Repeated, Spaced, ReleasedKey, Made, Rewound, WithoutKey;
    if !t.paused {
      RewoundHolds(t, input);
      var now := Rewound(t.(lastInput := Some(input)), input.at);
      Fewer(now.held, input.usage);
      RejoinedHolds(now, input, SHIPPED.0);
      RepeatedHolds(now, input.usage);
      RepeatedHolds(now.(lastInput := Some(input.(kind := Repeat))), input.usage);
      MadeHolds(Rejoined(now, input, SHIPPED.0), input);
      SpacedHolds(Pressed(now, input, SHIPPED.0), input, SHIPPED.1);
      ReleasedHolds(now, input);
      SpacedHolds(ReleasedKey(now, input), input, SHIPPED.1);
    }
  }

  lemma {:induction false} StepPeaks(t: Tester, e: Event)
    requires t.peak >= |t.held|
    ensures var after := Step(t, e, SHIPPED);
      after.peak == if e.ResetAll? || |after.held| > t.peak then |after.held| else t.peak
  {
    hide Accept;
    UnknownKeepsCount(t.held);
    if e.Observed? { AcceptPeaks(t, e.input); }
  }

  /** The peak is exactly the most keys that were held at once. */
  lemma {:induction false} PeakIsMostHeld(events: seq<Event>)
    ensures Run(FRESH, events, SHIPPED).peak == MostHeld(events) >= |Run(FRESH, events, SHIPPED).held|
    decreases |events|
  {
    hide Step;
    if events != [] {
      var before, last := events[..|events| - 1], events[|events| - 1];
      assert events == before + [last];
      PeakIsMostHeld(before);
      RunLast(FRESH, before, last, SHIPPED);
      StepPeaks(Run(FRESH, before, SHIPPED), last);
    }
  }
}
