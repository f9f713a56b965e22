/** The bounded, lossy queue between the input thread and its consumer: samples may be
    dropped, but never without a discontinuity in their place. */
module TesterInput {

  /** What a platform observes; its own gaps are discontinuities too. */
  datatype Sample = Input(usage: nat, kind: nat, at: nat) | Discontinuity | Error

  /** A queued sample with its position in the source, or the sink's own marker. */
  datatype Item = Sent(index: nat, sample: Sample) | Marker

  datatype Pipe = Pipe(capacity: nat, queue: seq<Item>, open: bool, lost: bool, sent: nat, received: seq<Item>)

  predicate IsGap(item: Item) {
    item.Marker? || item.sample.Discontinuity?
  }

  // ------------------------------------------------------------ the operations

  datatype Push = Accepted | Full | Disconnected

  function TrySend(p: Pipe, item: Item): (Pipe, Push) {
    if !p.open then (p, Disconnected)
    else if |p.queue| >= p.capacity then (p, Full)
    else (p.(queue := p.queue + [item]), Accepted)
  }

  function FlushGap(p: Pipe): (Pipe, bool) {
    if !p.lost then (p, true)
    else
      var (pushed, outcome) := TrySend(p, Marker);
      if outcome.Accepted? then (pushed.(lost := false), true) else (p, outcome.Full?)
  }

  function Offer(p: Pipe, sample: Sample): (Pipe, bool) {
    var (flushed, alive) := FlushGap(p);
    if !alive then (flushed, false)
    else if flushed.lost then (flushed, true)
    else
      var (pushed, outcome) := TrySend(flushed, Sent(p.sent, sample));
      match outcome
      case Accepted => (pushed, true)
      case Full => (flushed.(lost := true), true)
      case Disconnected => (flushed, false)
  }

  /** The producer hands over its next sample; the consumer takes the oldest one, or goes. */
  datatype Event = Produce(sample: Sample) | Consume | Close

  function Step(p: Pipe, e: Event): Pipe {
    match e
    case Produce(sample) => Offer(p, sample).0.(sent := p.sent + 1)
    case Consume => if p.queue == [] then p else p.(queue := p.queue[1..], received := p.received + [p.queue[0]])
    case Close => p.(open := false)
  }

  function Run(p: Pipe, events: seq<Event>): Pipe
    decreases |events|
  {
    if events == [] then p else Run(Step(p, events[0]), events[1..])
  }

  function Fresh(capacity: nat): Pipe {
    Pipe(capacity, [], true, false, 0, [])
  }

  /** The samples a producer hands over, in order. */
  function Produced(events: seq<Event>): (samples: seq<Sample>)
    decreases |events|
  {
    if events == [] then []
    else (if events[0].Produce? then [events[0].sample] else []) + Produced(events[1..])
  }

  // ------------------------------------------------------------ honesty

  /** Neighbours without a marker between them are neighbours in the source; across a marker
      the source position still grows. */
  predicate Linked(stream: seq<Item>) {
    && (forall i :: 0 <= i && i + 1 < |stream| && stream[i].Sent? && stream[i + 1].Sent? ==> stream[i + 1].index == stream[i].index + 1)
    && (forall i, j :: 0 <= i < j < |stream| && stream[i].Sent? && stream[j].Sent? ==> stream[i].index < stream[j].index)
  }

  /** `live` says that the next sample would follow the stream's end directly. */
  predicate HonestStream(stream: seq<Item>, sent: nat, live: bool) {
    && Linked(stream)
    && (forall i :: 0 <= i < |stream| && stream[i].Sent? ==> stream[i].index < sent)
    && (live && stream == [] ==> sent == 0)
    && (stream != [] && stream[0].Sent? ==> stream[0].index == 0)
    && (live && stream != [] && stream[|stream| - 1].Sent? ==> stream[|stream| - 1].index == sent - 1)
  }

  predicate Honest(p: Pipe) {
    HonestStream(p.received + p.queue, p.sent, p.open && !p.lost)
  }

  predicate CarriesAll(stream: seq<Item>, source: seq<Sample>) {
    forall i :: 0 <= i < |stream| && stream[i].Sent? ==>
      stream[i].index < |source| && stream[i].sample == source[stream[i].index]
  }

  predicate Carries(p: Pipe, source: seq<Sample>) {
    p.sent == |source| && CarriesAll(p.received + p.queue, source)
  }

  lemma {:induction false} SampleFollows(stream: seq<Item>, source: seq<Sample>, sample: Sample)
    requires HonestStream(stream, |source|, true) && CarriesAll(stream, source)
    ensures var longer := stream + [Sent(|source|, sample)];
      HonestStream(longer, |source| + 1, true) && CarriesAll(longer, source + [sample])
  {
    LinkedGrows(stream, Sent(|source|, sample));
  }

  lemma {:induction false} SampleSkipped(stream: seq<Item>, source: seq<Sample>, sample: Sample, live: bool)
    requires HonestStream(stream, |source|, live) && CarriesAll(stream, source)
    ensures HonestStream(stream, |source| + 1, false) && CarriesAll(stream, source + [sample])
  {
  }

  lemma {:induction false} MarkerFollows(stream: seq<Item>, source: seq<Sample>)
    requires HonestStream(stream, |source|, false) && CarriesAll(stream, source)
    ensures HonestStream(stream + [Marker], |source|, true) && CarriesAll(stream + [Marker], source)
  {
    LinkedGrows(stream, Marker);
  }

  lemma {:induction false} LinkedGrows(stream: seq<Item>, item: Item)
    requires Linked(stream)
    requires item.Sent? ==> forall i :: 0 <= i < |stream| && stream[i].Sent? ==> stream[i].index < item.index
    requires item.Sent? && stream != [] && stream[|stream| - 1].Sent? ==> item.index == stream[|stream| - 1].index + 1
    ensures Linked(stream + [item])
  {
  }

  lemma {:induction false} StepIsHonest(p: Pipe, e: Event, source: seq<Sample>)
    requires Honest(p) && Carries(p, source)
    ensures Honest(Step(p, e)) && Carries(Step(p, e), source + (if e.Produce? then [e.sample] else []))
  {
    hide HonestStream, CarriesAll;
    var stream := p.received + p.queue;
    match e
    case Produce(sample) => ProduceIsHonest(p, sample, source);
    case Consume =>
      if p.queue != [] { assert (p.received + [p.queue[0]]) + p.queue[1..] == stream; }
      assert source + [] == source;
    case Close =>
      LessLive(stream, p.sent, p.open && !p.lost);
      assert source + [] == source;
  }

  lemma {:induction false} LessLive(stream: seq<Item>, sent: nat, live: bool)
    requires HonestStream(stream, sent, live)
    ensures HonestStream(stream, sent, false)
  {
  }

  lemma {:induction false} ProduceIsHonest(p: Pipe, sample: Sample, source: seq<Sample>)
    requires Honest(p) && Carries(p, source)
    ensures Honest(Step(p, Produce(sample))) && Carries(Step(p, Produce(sample)), source + [sample])
  {
    hide HonestStream, CarriesAll;
    var stream, item := p.received + p.queue, Sent(p.sent, sample);
    SampleSkipped(stream, source, sample, p.open && !p.lost);
    if p.open && p.lost {
      MarkerFollows(stream, source);
      SampleFollows(stream + [Marker], source, sample);
      SampleSkipped(stream + [Marker], source, sample, true);
      assert p.received + (p.queue + [Marker]) == stream + [Marker];
      assert p.received + (p.queue + [Marker] + [item]) == stream + [Marker] + [item];
    } else if p.open {
      SampleFollows(stream, source, sample);
      assert p.received + (p.queue + [item]) == stream + [item];
    }
  }

  lemma {:induction false} RunIsHonest(p: Pipe, events: seq<Event>, source: seq<Sample>)
    requires Honest(p) && Carries(p, source)
    ensures Honest(Run(p, events)) && Carries(Run(p, events), source + Produced(events))
    decreases |events|
  {
    hide Honest, Carries, Step;
    if events == [] {
      assert source + [] == source;
    } else {
      StepIsHonest(p, events[0], source);
      var more := if events[0].Produce? then [events[0].sample] else [];
      RunIsHonest(Step(p, events[0]), events[1..], source + more);
      assert source + more + Produced(events[1..]) == source + Produced(events);
    }
  }

  lemma {:induction false} FreshIsHonest(capacity: nat)
    ensures Honest(Fresh(capacity)) && Carries(Fresh(capacity), [])
  {
  }

  lemma {:induction false} LinkedOrder(stream: seq<Item>)
    requires Linked(stream)
    ensures forall i, j :: 0 <= i < j < |stream| && stream[i].Sent? && stream[j].Sent? ==> stream[i].index < stream[j].index
  {
  }

  lemma {:induction false} UnmarkedStretch(stream: seq<Item>, first: nat, last: nat)
    requires Linked(stream) && first <= last < |stream| && forall k :: first <= k <= last ==> stream[k].Sent?
    ensures stream[last].index == stream[first].index + (last - first)
    decreases last
  {
    if last > first {
      UnmarkedStretch(stream, first, last - 1);
      assert stream[last - 1].Sent? && stream[last - 1 + 1].Sent?;
    }
  }

  /** For every interleaving of producer and consumer: what is received is what was
      produced, in order; and two received samples with no discontinuity between them were
      as far apart in the source, so nothing was lost in silence. */
  lemma {:induction false} NothingIsLostInSilence(capacity: nat, events: seq<Event>, first: nat, last: nat)
    ensures var p, source := Run(Fresh(capacity), events), Produced(events);
      && (forall k :: 0 <= k < |p.received| && p.received[k].Sent? ==>
            p.received[k].index < |source| && p.received[k].sample == source[p.received[k].index])
      && (first < last < |p.received| && p.received[first].Sent? && p.received[last].Sent? ==>
            p.received[first].index < p.received[last].index)
      && (first < last < |p.received| && (forall k :: first <= k <= last ==> !IsGap(p.received[k])) ==>
            p.received[last].index == p.received[first].index + (last - first))
  {
    hide Run, Produced, Linked;
    FreshIsHonest(capacity);
    RunIsHonest(Fresh(capacity), events, []);
    var p, source := Run(Fresh(capacity), events), Produced(events);
    assert [] + source == source;
    var stream := p.received + p.queue;
    LinkedOrder(stream);
    assert forall k :: 0 <= k < |p.received| ==> stream[k] == p.received[k];
    if first < last < |p.received| && forall k :: first <= k <= last ==> !IsGap(p.received[k]) {
      UnmarkedStretch(stream, first, last);
    }
  }

  /** And up to the first discontinuity nothing at all was lost. */
  lemma {:induction false} NothingIsLostAtFirst(capacity: nat, events: seq<Event>, k: nat)
    ensures var p, source := Run(Fresh(capacity), events), Produced(events);
      k < |p.received| && (forall i :: 0 <= i <= k ==> !IsGap(p.received[i])) ==>
        k < |source| && p.received[k].sample == source[k]
  {
    hide Run, Produced, HonestStream, CarriesAll;
    FreshIsHonest(capacity);
    RunIsHonest(Fresh(capacity), events, []);
    var p, source := Run(Fresh(capacity), events), Produced(events);
    assert [] + source == source;
    if k < |p.received| && forall i :: 0 <= i <= k ==> !IsGap(p.received[i]) {
      var stream, prefix := p.received + p.queue, p.received[..k + 1];
      assert stream[..k + 1] == prefix;
      FirstStretch(stream, source, p.sent, p.open && !p.lost, prefix);
      assert prefix[k] == p.received[k];
    }
  }

  lemma {:induction false} FirstStretch(stream: seq<Item>, source: seq<Sample>, sent: nat, live: bool, prefix: seq<Item>)
    requires HonestStream(stream, sent, live) && CarriesAll(stream, source)
    requires 0 < |prefix| <= |stream| && stream[..|prefix|] == prefix && forall k :: 0 <= k < |prefix| ==> !IsGap(prefix[k])
    ensures |prefix| <= |source| && !IsGap(prefix[|prefix| - 1]) && prefix[|prefix| - 1].sample == source[|prefix| - 1]
  {
    assert forall i :: 0 <= i < |prefix| ==> stream[i] == prefix[i] && stream[i].Sent?;
    UnmarkedStretch(stream, 0, |prefix| - 1);
  }

  // ------------------------------------------------------------ what gets through

  /** What the queue owes before the next sample. */
  function Owed(p: Pipe): seq<Item> {
    if p.lost then [Marker] else []
  }

  /** A send says that its consumer is there exactly while it is. The sample is queued exactly
      when there is room for it behind the marker that may be owed; without room for both the
      marker alone may go, and whatever did not go is owed or lost. */
  lemma {:induction false} SentExactly(p: Pipe, sample: Sample)
    ensures var (after, alive) := Offer(p, sample);
      && (alive <==> p.open)
      && after == p.(queue := after.queue, lost := after.lost)
      && after.queue ==
           (if !p.open then p.queue
            else if |p.queue + Owed(p)| < p.capacity then p.queue + Owed(p) + [Sent(p.sent, sample)]
            else if |p.queue| < p.capacity then p.queue + Owed(p)
            else p.queue)
      && (p.open ==> (after.lost <==> |p.queue + Owed(p)| >= p.capacity))
      && (!p.open ==> after.lost == p.lost)
  {
  }

  /** The consumer takes everything there is, in order. */
  lemma {:induction false} Drains(p: Pipe, times: nat)
    requires times <= |p.queue|
    ensures var after := Run(p, seq(times, _ => Consume));
      after == p.(queue := p.queue[times..], received := p.received + p.queue[..times])
    decreases times
  {
    var all := seq(times, _ => Consume);
    if times > 0 {
      var next := Step(p, Consume);
      assert all[0] == Consume && all[1..] == seq(times - 1, _ => Consume);
      Drains(next, times - 1);
      assert [p.queue[0]] + p.queue[1..][..times - 1] == p.queue[..times];
      assert p.received + [p.queue[0]] + p.queue[1..][..times - 1] == p.received + p.queue[..times];
    } else {
      assert p.received + p.queue[..0] == p.received && p.queue[0..] == p.queue;
    }
  }

  /** A sample that is sent while there is room behind the marker owed is received behind
      everything queued before it, in every run. */
  lemma {:induction false} RoomMeansReceived(capacity: nat, events: seq<Event>, sample: Sample)
    ensures var p := Run(Fresh(capacity), events);
      p.open && |p.queue + Owed(p)| < p.capacity ==>
        var ahead := p.queue + Owed(p);
        Run(Step(p, Produce(sample)), seq(|ahead| + 1, _ => Consume)).received
        == p.received + ahead + [Sent(|Produced(events)|, sample)]
  {
    hide Run, Produced, Offer;
    var p := Run(Fresh(capacity), events);
    FreshIsHonest(capacity);
    RunIsHonest(Fresh(capacity), events, []);
    assert [] + Produced(events) == Produced(events);
    SentExactly(p, sample);
    if p.open && |p.queue + Owed(p)| < p.capacity {
      var next := Step(p, Produce(sample));
      Drains(next, |next.queue|);
      assert next.queue[..|next.queue|] == next.queue;
      assert p.received + (p.queue + Owed(p) + [Sent(p.sent, sample)]) == p.received + (p.queue + Owed(p)) + [Sent(p.sent, sample)];
    }
  }

  // ------------------------------------------------------------ the object

  /** The producer's end. The channel's queue is shared with the consumer. */
  class Sink {
    const capacity: nat
    var queue: seq<Item>
    var open: bool
    var lost: bool
    ghost var sent: nat
    ghost var received: seq<Item>

    ghost function State(): Pipe
      reads this
    {
      Pipe(capacity, queue, open, lost, sent, received)
    }

    constructor (capacity: nat)
      ensures State() == Fresh(capacity)
    {
      this.capacity := capacity;
      queue, open, lost := [], true, false;
      sent, received := 0, [];
    }

    method TryPush(item: Item) returns (outcome: Push)
      modifies this`queue
      ensures (State(), outcome) == TrySend(old(State()), item)
    {
      if !open {
        return Disconnected;
      }
      if |queue| >= capacity {
        return Full;
      }
      queue := queue + [item];
      return Accepted;
    }

    method Flush() returns (alive: bool)
      modifies this`queue, this`lost
      ensures (State(), alive) == FlushGap(old(State()))
    {
      if !lost {
        return true;
      }
      var outcome := TryPush(Marker);
      if outcome.Accepted? {
        lost := false;
      }
      return !outcome.Disconnected?;
    }

    /** One sample; the position it carries is only there to state what the queue keeps. */
    method Send(index: nat, sample: Sample) returns (alive: bool)
      requires index == sent
      modifies this`queue, this`lost, this`sent
      ensures State() == Step(old(State()), Produce(sample)) && alive == Offer(old(State()), sample).1
    {
      alive := Flush();
      sent := sent + 1;
      if !alive || lost {
        return;
      }
      var outcome := TryPush(Sent(index, sample));
      if outcome.Full? {
        lost := true;
      }
      alive := !outcome.Disconnected?;
    }
  }
}
