/** What the tester's running totals mean: a ledger keeps the unbroken chain of edges and
    everything seen since the last reset, and answers by reading them again. */
module KeyLedger {
  import opened Wrappers
  import opened KeyTester

  /** `chain` holds the edges since the clock last went back, or since a pause or a reset;
      `seen` the inputs counted since the last reset, as they were counted. */
  datatype Ledger = Ledger(
    down: set<nat>, paused: bool, threshold: nat, chain: seq<Input>, seen: seq<Input>, found: seq<Candidate>,
    gaps: seq<Interval>)

  const EMPTY := Ledger({}, false, DEFAULT_THRESHOLD, [], [], [], [])

  /** When the key went down, if its latest edge in the chain says so. */
  function KnownPress(chain: seq<Input>, usage: nat): Option<nat> {
    if chain == [] then None
    else
      var last := chain[|chain| - 1];
      if last.usage != usage then KnownPress(chain[..|chain| - 1], usage)
      else if last.kind.Press? then Some(last.at) else None
  }

  /** The key's latest edge, when it is a release that ended a press in the chain. */
  function Turnaround(chain: seq<Input>, usage: nat): Option<Released> {
    if chain == [] then None
    else
      var last := chain[|chain| - 1];
      var before := chain[..|chain| - 1];
      if last.usage != usage then Turnaround(before, usage)
      else if last.kind.Release? && KnownPress(before, usage).Some?
      then Some(Released(last.at, SaturatingSub(last.at, KnownPress(before, usage).value)))
      else None
  }

  function LastAt(chain: seq<Input>): Option<nat> {
    if chain == [] then None else Some(chain[|chain| - 1].at)
  }

  function Bit(b: bool): nat {
    if b then 1 else 0
  }

  /** How often the key was counted with this kind. */
  function Tally(seen: seq<Input>, usage: nat, kind: Kind): nat {
    if seen == [] then 0
    else
      var last := seen[|seen| - 1];
      Tally(seen[..|seen| - 1], usage, kind) + Bit(last.usage == usage && last.kind == kind)
  }

  function Unbroken(l: Ledger, at: nat): Ledger {
    if LastAt(l.chain).Some? && at < LastAt(l.chain).value then l.(chain := []) else l
  }

  /** The key came back down within the threshold of going up. */
  function Chatter(l: Ledger, input: Input): seq<Candidate> {
    var turn := Turnaround(l.chain, input.usage);
    if turn.None? || SaturatingSub(input.at, turn.value.at) > l.threshold then []
    else [Candidate(input.usage, turn.value.makeDuration, SaturatingSub(input.at, turn.value.at), input.at)]
  }

  function Edge(l: Ledger, input: Input): Ledger {
    var gap :=
      if l.chain == [] then []
      else [Interval(input.usage, input.kind, SaturatingSub(input.at, LastAt(l.chain).value))];
    l.(down := if input.kind.Press? then l.down + {input.usage} else l.down - {input.usage}, chain := l.chain + [input],
       seen := l.seen + [input], found := if input.kind.Press? then l.found + Chatter(l, input) else l.found,
       gaps := l.gaps + gap)
  }

  function Observe(l: Ledger, input: Input): Ledger {
    if l.paused then l
    else
      var now := Unbroken(l, input.at);
      if !input.kind.Release? && input.usage in l.down then now.(seen := now.seen + [input.(kind := Repeat)])
      else if input.kind.Repeat? then now
      else Edge(now, input)
  }

  function LedgerStep(l: Ledger, e: Event): Ledger {
    match e
    case Observed(input) => Observe(l, input)
    case Paused => l.(paused := true, down := {}, chain := [])
    case Resumed => l.(paused := false)
    case ResetAll => l.(chain := [], seen := [], found := [], gaps := [])
    case ThresholdSet(threshold) => l.(threshold := threshold)
  }

  function LedgerRun(l: Ledger, events: seq<Event>): Ledger
    decreases |events|
  {
    if events == [] then l else LedgerRun(LedgerStep(l, events[0]), events[1..])
  }

  // ------------------------------------------------------------ what the totals mean

  function Known(t: Tester, usage: nat): Option<nat> {
    if usage in t.held then t.held[usage] else None
  }

  function Returned(t: Tester, usage: nat): Option<Released> {
    if usage in t.released then Some(t.released[usage]) else None
  }

  ghost predicate Chained(t: Tester, chain: seq<Input>) {
    && (forall usage: nat :: Known(t, usage) == KnownPress(chain, usage))
    && (forall usage: nat :: Returned(t, usage) == Turnaround(chain, usage))
  }

  ghost predicate Tallied(t: Tester, seen: seq<Input>) {
    && (forall usage: nat :: StatsOf(t.stats, usage).presses == Tally(seen, usage, Press))
    && (forall usage: nat :: StatsOf(t.stats, usage).releases == Tally(seen, usage, Release))
    && (forall usage: nat :: StatsOf(t.stats, usage).repeats == Tally(seen, usage, Repeat))
    && (forall usage: nat :: usage in t.tested <==> Tally(seen, usage, Press) + Tally(seen, usage, Release) > 0)
  }

  /** The tester's running state is what the ledger reads off its chain and its inputs. */
  ghost predicate Records(t: Tester, l: Ledger) {
    && t.held.Keys == l.down && t.paused == l.paused && t.threshold == l.threshold && t.lastEdge == LastAt(l.chain)
    && t.candidates == l.found && t.intervals == l.gaps
    && Chained(t, l.chain) && Tallied(t, l.seen)
  }

  lemma {:induction false} ChainPush(chain: seq<Input>, input: Input, usage: nat)
    ensures KnownPress(chain + [input], usage)
         == if input.usage != usage then KnownPress(chain, usage) else if input.kind.Press? then Some(input.at) else None
    ensures Turnaround(chain + [input], usage)
         == if input.usage != usage then Turnaround(chain, usage)
            else if input.kind.Release? && KnownPress(chain, usage).Some?
            then Some(Released(input.at, SaturatingSub(input.at, KnownPress(chain, usage).value))) else None
  {
    assert (chain + [input])[..|chain|] == chain;
  }

  lemma {:induction false} TallyPush(seen: seq<Input>, input: Input, usage: nat, kind: Kind)
    ensures Tally(seen + [input], usage, kind) == Tally(seen, usage, kind) + Bit(input.usage == usage && input.kind == kind)
  {
    assert (seen + [input])[..|seen|] == seen;
  }

  lemma {:induction false} RewoundRecords(t: Tester, l: Ledger, input: Input)
    requires Records(t, l)
    ensures Records(Rewound(t.(lastInput := Some(input)), input.at), Unbroken(l, input.at))
  {
    hide StatsOf, Tally;
    UnknownKeys(t.held);
  }

  /** Clearing up a key's earlier release touches nothing but that and the candidates. */
  lemma {:induction false} RejoinedKeeps(t: Tester, input: Input)
    ensures var after := Rejoined(t, input, None);
      && after.held == t.held && after.tested == t.tested && after.paused == t.paused && after.threshold == t.threshold
      && after.lastEdge == t.lastEdge && after.intervals == t.intervals && after.released == WithoutKey(t.released, input.usage)
      && (forall usage: nat :: StatsOf(after.stats, usage).presses == StatsOf(t.stats, usage).presses)
      && (forall usage: nat :: StatsOf(after.stats, usage).releases == StatsOf(t.stats, usage).releases)
      && (forall usage: nat :: StatsOf(after.stats, usage).repeats == StatsOf(t.stats, usage).repeats)
  {
  }

  lemma {:induction false} RejoinedFinds(t: Tester, l: Ledger, input: Input)
    requires Returned(t, input.usage) == Turnaround(l.chain, input.usage) && t.threshold == l.threshold
    ensures Rejoined(t, input, None).candidates == t.candidates + Chatter(l, input)
  {
    hide StatsOf, Turnaround;
  }

  lemma {:induction false} PressChains(t: Tester, chain: seq<Input>, input: Input)
    requires Chained(t, chain) && input.kind.Press?
    ensures Chained(Pressed(t, input, None), chain + [input])
  {
    hide StatsOf, Rejoined;
    RejoinedKeeps(t, input);
    forall usage: nat ensures Known(Pressed(t, input, None), usage) == KnownPress(chain + [input], usage)
                      ensures Returned(Pressed(t, input, None), usage) == Turnaround(chain + [input], usage) {
      ChainPush(chain, input, usage);
    }
  }

  lemma {:induction false} ReleaseChains(t: Tester, chain: seq<Input>, input: Input)
    requires Chained(t, chain) && input.kind.Release? && t.held.Keys !! t.released.Keys
    ensures Chained(ReleasedKey(t, input), chain + [input])
  {
    hide StatsOf;
    forall usage: nat ensures Known(ReleasedKey(t, input), usage) == KnownPress(chain + [input], usage)
                      ensures Returned(ReleasedKey(t, input), usage) == Turnaround(chain + [input], usage) {
      ChainPush(chain, input, usage);
    }
  }

  function Counted(input: Input, usage: nat, kind: Kind): nat {
    Bit(input.usage == usage && input.kind == kind)
  }

  /** `after` has counted one input more than `t`. */
  ghost predicate CountsOne(t: Tester, after: Tester, input: Input) {
    && (forall usage: nat :: StatsOf(after.stats, usage).presses == StatsOf(t.stats, usage).presses + Counted(input, usage, Press))
    && (forall usage: nat :: StatsOf(after.stats, usage).releases == StatsOf(t.stats, usage).releases + Counted(input, usage, Release))
    && (forall usage: nat :: StatsOf(after.stats, usage).repeats == StatsOf(t.stats, usage).repeats + Counted(input, usage, Repeat))
    && after.tested == if input.kind.Repeat? then t.tested else t.tested + {input.usage}
  }

  lemma {:induction false} CountedTallies(t: Tester, after: Tester, seen: seq<Input>, input: Input)
    requires Tallied(t, seen) && CountsOne(t, after, input)
    ensures Tallied(after, seen + [input])
  {
    hide StatsOf, Tally;
    forall usage: nat, kind: Kind ensures Tally(seen + [input], usage, kind)
        == Tally(seen, usage, kind) + Bit(input.usage == usage && input.kind == kind) {
      TallyPush(seen, input, usage, kind);
    }
  }

  lemma {:induction false} RepeatRecords(t: Tester, l: Ledger, input: Input)
    requires Records(t, l) && input.kind.Repeat?
    ensures Records(Repeated(t.(lastInput := Some(input)), input.usage), l.(seen := l.seen + [input]))
  {
    hide Tally;
    CountedTallies(t, Repeated(t.(lastInput := Some(input)), input.usage), l.seen, input);
  }

  lemma {:induction false} RejoinedTallies(t: Tester, seen: seq<Input>, input: Input)
    requires Tallied(t, seen)
    ensures Tallied(Rejoined(t, input, None), seen)
  {
    hide Tally, StatsOf, Rejoined;
    RejoinedKeeps(t, input);
  }

  lemma {:induction false} PressTallies(t: Tester, seen: seq<Input>, input: Input)
    requires Tallied(t, seen) && input.kind.Press?
    ensures Tallied(Pressed(t, input, None), seen + [input])
  {
    hide Tally, Rejoined, Tallied;
    RejoinedTallies(t, seen, input);
    CountedTallies(Rejoined(t, input, None), Pressed(t, input, None), seen, input);
  }

  lemma {:induction false} ReleaseTallies(t: Tester, seen: seq<Input>, input: Input)
    requires Tallied(t, seen) && input.kind.Release?
    ensures Tallied(ReleasedKey(t, input), seen + [input])
  {
    hide Tally, Tallied;
    CountedTallies(t, ReleasedKey(t, input), seen, input);
  }

  lemma {:induction false} PressKeeps(t: Tester, l: Ledger, input: Input)
    requires Returned(t, input.usage) == Turnaround(l.chain, input.usage) && t.threshold == l.threshold
    ensures var after := Pressed(t, input, None);
      && after.held.Keys == t.held.Keys + {input.usage} && after.paused == t.paused && after.threshold == t.threshold
      && after.lastEdge == t.lastEdge && after.intervals == t.intervals && after.candidates == t.candidates + Chatter(l, input)
  {
    hide StatsOf, Rejoined, Chatter;
    RejoinedKeeps(t, input);
    RejoinedFinds(t, l, input);
  }

  lemma {:induction false} PressRecords(t: Tester, l: Ledger, input: Input)
    requires Records(t, l) && input.kind.Press?
    ensures Records(Spaced(Pressed(t, input, None), input, None), Edge(l, input))
  {
    hide Tally, StatsOf, KnownPress, Turnaround, Pressed, Chatter;
    assert Returned(t, input.usage) == Turnaround(l.chain, input.usage);
    PressKeeps(t, l, input);
    PressChains(t, l.chain, input);
    PressTallies(t, l.seen, input);
    hide Chained, Tallied, Returned;
    SpacedKeeps(Pressed(t, input, None), input, l.chain + [input], l.seen + [input]);
  }

  lemma {:induction false} ReleaseRecords(t: Tester, l: Ledger, input: Input)
    requires Records(t, l) && input.kind.Release? && t.held.Keys !! t.released.Keys
    ensures Records(Spaced(ReleasedKey(t, input), input, None), Edge(l, input))
  {
    hide Tally, StatsOf, KnownPress, Turnaround;
    ReleaseChains(t, l.chain, input);
    ReleaseTallies(t, l.seen, input);
    hide Chained, Tallied;
    SpacedKeeps(ReleasedKey(t, input), input, l.chain + [input], l.seen + [input]);
  }

  lemma {:induction false} SpacedKeeps(t: Tester, input: Input, chain: seq<Input>, seen: seq<Input>)
    requires Chained(t, chain) && Tallied(t, seen)
    ensures Chained(Spaced(t, input, None), chain) && Tallied(Spaced(t, input, None), seen)
  {
    hide Tally, StatsOf, KnownPress, Turnaround;
  }

  lemma {:induction false} ResetRecords(t: Tester, l: Ledger)
    requires Records(t, l)
    ensures Records(Reset(t), l.(chain := [], seen := [], found := [], gaps := []))
  {
    UnknownKeys(t.held);
  }

  lemma {:induction false} ObserveRecords(t: Tester, l: Ledger, input: Input)
    requires Records(t, l) && Balanced(t) && !t.paused
    ensures Records(Accept(t, input, EVERYTHING), Observe(l, input))
  {
    hide Sum, Count, StatsOf, Pressed, ReleasedKey, Spaced, Edge, Repeated, Tally, Chained, Tallied;
    RewoundRecords(t, l, input);
    RewoundBalances(t, input);
    var now := Rewound(t.(lastInput := Some(input)), input.at);
    var unbroken := Unbroken(l, input.at);
    assert !l.paused && now.held.Keys == l.down && now.lastInput == Some(input);
    hide Records, Rewound, Unbroken;
    if input.kind.Release? {
      ReleaseRecords(now, unbroken, input);
    } else if input.usage in l.down {
      RepeatRecords(now, unbroken, input.(kind := Repeat));
      assert input.kind.Repeat? ==> input.(kind := Repeat) == input && now.(lastInput := Some(input)) == now;
    } else if input.kind.Press? {
      PressRecords(now, unbroken, input);
    }
  }

  lemma {:induction false} PauseRecords(t: Tester, l: Ledger)
    requires Records(t, l)
    ensures Records(Pause(t), l.(paused := true, down := {}, chain := []))
  {
    hide StatsOf, Tally;
  }

  lemma {:induction false} StepRecords(t: Tester, l: Ledger, e: Event)
    requires Records(t, l) && Balanced(t)
    ensures Records(Step(t, e, EVERYTHING), LedgerStep(l, e))
  {
    hide StatsOf, Sum, Count, Tally, KnownPress, Turnaround, Accept, Pause, Reset, Observe;
    match e
    case Observed(input) => if !t.paused { ObserveRecords(t, l, input); } else { PausedIgnores(t, l, input); }
    case ResetAll => ResetRecords(t, l);
    case Paused => PauseRecords(t, l);
    case _ =>
  }

  lemma {:induction false} PausedIgnores(t: Tester, l: Ledger, input: Input)
    requires t.paused && l.paused
    ensures Accept(t, input, EVERYTHING) == t && Observe(l, input) == l
  {
  }

  lemma {:induction false} RunRecords(t: Tester, l: Ledger, events: seq<Event>)
    requires Records(t, l) && Balanced(t) && Timely(t)
    ensures Records(Run(t, events, EVERYTHING), LedgerRun(l, events))
    decreases |events|
  {
    hide Records, Balanced, Timely, Step, LedgerStep;
    if events != [] {
      StepRecords(t, l, events[0]);
      StepBalances(t, events[0]);
      RunRecords(Step(t, events[0], EVERYTHING), LedgerStep(l, events[0]), events[1..]);
    }
  }

  /** After any run the shipped tester holds exactly what its ledger says, and the last
      entries of the two histories the ledger keeps in full. */
  lemma {:induction false} TotalsAreTrue(events: seq<Event>)
    ensures var t := Run(FRESH, events, SHIPPED); var l := LedgerRun(EMPTY, events);
      && Records(t.(candidates := l.found, intervals := l.gaps), l)
      && t.candidates == Tail(l.found, MAX_CANDIDATES) && t.intervals == Tail(l.gaps, MAX_INTERVALS)
      && t.candidateCount == |l.found|
  {
    hide Run, LedgerRun, Tail, Timely, Sum, Count, StatsOf, Tally, KnownPress, Turnaround;
    HistoriesAreTrue([]);
    HistoriesAreTrue(events);
    FreshRecords();
    RunRecords(FRESH, EMPTY, events);
    hide Chained, Tallied;
    var whole := Run(FRESH, events, EVERYTHING);
    SameRecords(whole, Run(FRESH, events, SHIPPED), LedgerRun(EMPTY, events));
  }

  lemma {:induction false} FreshRecords()
    ensures Records(FRESH, EMPTY) && Balanced(FRESH) && Timely(FRESH)
  {
    HistoriesAreTrue([]);
  }

  lemma {:induction false} SameRecords(whole: Tester, shown: Tester, l: Ledger)
    requires Records(whole, l) && shown == Shown(whole)
    ensures Records(shown.(candidates := l.found, intervals := l.gaps), l)
  {
    assert shown.(candidates := l.found, intervals := l.gaps) == whole;
  }
}
