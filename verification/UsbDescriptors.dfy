/** Which interrupt IN endpoints one interface setting of one USB configuration offers, read
    from the device's descriptor bytes (sections 9.5 and 9.6 of the USB 2.0 specification). */
module UsbDescriptors {
  import opened Wrappers
  import opened SettingsCodec

  datatype Speed = Low | Full | High | Super

  datatype Problem = Malformed | NoConfiguration | BadInterval | NothingToInspect

  datatype Endpoint = Endpoint(interface: Byte, alternate: Byte, address: Byte, bInterval: Byte, intervalUs: nat)

  const CONFIGURATION: Byte := 2
  const INTERFACE: Byte := 4
  const ENDPOINT: Byte := 5
  const HID_CLASS: Byte := 3

  // ------------------------------------------------------------ polling intervals

  function Doubled(times: nat): nat {
    if times == 0 then 1 else 2 * Doubled(times - 1)
  }

  function IntervalUs(speed: Speed, value: Byte): Option<nat> {
    if (speed.Low? || speed.Full?) && 1 <= value then Some(1000 * value)
    else if (speed.High? || speed.Super?) && 1 <= value <= 16 then Some(125 * Doubled(value - 1))
    else None
  }

  /** Slow buses count milliseconds; on fast ones each step doubles a microframe of 125 us. */
  lemma {:induction false} IntervalsFollowTheStandard(speed: Speed, value: Byte)
    ensures IntervalUs(speed, value).Some? <==> 1 <= value && ((speed.High? || speed.Super?) ==> value <= 16)
    ensures IntervalUs(speed, value).Some? ==> 125 <= IntervalUs(speed, value).value <= 4096000
    ensures (speed.Low? || speed.Full?) && IntervalUs(speed, value).Some? ==> IntervalUs(speed, value).value == 1000 * value
    ensures (speed.High? || speed.Super?) ==> IntervalUs(speed, 1) == Some(125) && IntervalUs(speed, 4) == Some(1000)
    ensures (speed.High? || speed.Super?) && 1 < value && IntervalUs(speed, value).Some?
      ==> IntervalUs(speed, value).value == 2 * IntervalUs(speed, value - 1).value
  {
    assert Doubled(1) == 2 && Doubled(3) == 2 * Doubled(2);
    if 1 <= value <= 16 { DoubledIsBounded(value - 1); }
  }

  lemma {:induction false} DoubledIsBounded(times: nat)
    requires times <= 15
    ensures 1 <= Doubled(times) <= 32768
    decreases 15 - times
  {
    if times == 15 {
      FiveTimes(10);
      FiveTimes(5);
      FiveTimes(0);
    } else {
      DoubledIsBounded(times + 1);
    }
  }

  lemma {:induction false} FiveTimes(times: nat)
    ensures Doubled(times + 5) == 32 * Doubled(times)
  {
    assert Doubled(times + 5) == 2 * Doubled(times + 4) == 4 * Doubled(times + 3) == 8 * Doubled(times + 2);
    assert Doubled(times + 2) == 2 * Doubled(times + 1);
  }

  // ------------------------------------------------------------ descriptors

  type Descriptor = seq<Byte>

  predicate WellFormed(d: Descriptor) {
    2 <= |d| && d[0] == |d|
  }

  /** The descriptor at the start of the bytes. */
  function Leading(bytes: seq<Byte>): Option<Descriptor> {
    if |bytes| < 2 || bytes[0] < 2 || bytes[0] > |bytes| then None else Some(bytes[..bytes[0]])
  }

  function Split(bytes: seq<Byte>): Option<seq<Descriptor>>
    decreases |bytes|
  {
    if bytes == [] then Some([])
    else if Leading(bytes).None? then None
    else
      var rest := Split(bytes[bytes[0]..]);
      if rest.None? then None else Some([Leading(bytes).value] + rest.value)
  }

  function Join(ds: seq<Descriptor>): seq<Byte> {
    if ds == [] then [] else ds[0] + Join(ds[1..])
  }

  lemma {:induction false} SplitInvertsJoin(bytes: seq<Byte>, ds: seq<Descriptor>)
    ensures Split(bytes) == Some(ds) <==> Join(ds) == bytes && forall d | d in ds :: WellFormed(d)
    decreases |bytes|
  {
    if ds == [] || !WellFormed(ds[0]) {
    } else if bytes == [] {
      assert |Join(ds)| >= 2;
    } else if Leading(bytes).None? {
      assert Join(ds)[0] == ds[0][0];
    } else {
      var tail := bytes[bytes[0]..];
      SplitInvertsJoin(tail, ds[1..]);
      assert ds == [ds[0]] + ds[1..];
      assert bytes == Leading(bytes).value + tail;
      if Join(ds) == bytes && WellFormed(ds[0]) {
        assert bytes[0] == ds[0][0];
        assert ds[0] == bytes[..bytes[0]] && Join(ds[1..]) == tail;
      }
      assert forall d :: d in ds <==> d == ds[0] || d in ds[1..];
    }
  }

  // ------------------------------------------------------------ the active configuration

  function TotalLength(d: Descriptor): nat
    requires |d| >= 4
  {
    d[2] as int + 256 * d[3] as int
  }

  /** The descriptor at the start, with everything a configuration descriptor brings along. */
  function Block(bytes: seq<Byte>): Option<seq<Byte>> {
    var d := Leading(bytes);
    if d.None? || d.value[1] != CONFIGURATION then d
    else if |d.value| < 9 || TotalLength(d.value) < |d.value| || TotalLength(d.value) > |bytes| then None
    else Some(bytes[..TotalLength(d.value)])
  }

  predicate HasHeader(block: seq<Byte>) {
    |block| >= 9 && 9 <= block[0] <= |block|
  }

  function Blocks(bytes: seq<Byte>): (r: Option<seq<seq<Byte>>>)
    ensures r.Some? ==> forall b | b in r.value :: |b| >= 2 && (b[1] == CONFIGURATION ==> HasHeader(b))
    decreases |bytes|
  {
    if bytes == [] then Some([])
    else if Block(bytes).None? then None
    else
      var rest := Blocks(bytes[|Block(bytes).value|..]);
      if rest.None? then None else Some([Block(bytes).value] + rest.value)
  }

  predicate IsConfiguration(block: seq<Byte>, value: Byte) {
    |block| >= 9 && block[1] == CONFIGURATION && block[5] == value
  }

  function Matching(blocks: seq<seq<Byte>>, value: Byte): (r: seq<seq<Byte>>)
    ensures forall b | b in r :: b in blocks && IsConfiguration(b, value)
  {
    if blocks == [] then []
    else (if IsConfiguration(blocks[0], value) then [blocks[0]] else []) + Matching(blocks[1..], value)
  }

  /** The only block of the wanted configuration. */
  function Selected(bytes: seq<Byte>, value: Byte): (r: Result<seq<Byte>, Problem>)
    ensures r.Success? ==> HasHeader(r.value) && IsConfiguration(r.value, value)
  {
    var blocks := Blocks(bytes);
    assert blocks.Some? ==> forall b | b in Matching(blocks.value, value) :: b in blocks.value && HasHeader(b);
    if blocks.None? || |Matching(blocks.value, value)| > 1 then Failure(Malformed)
    else if Matching(blocks.value, value) == [] then Failure(NoConfiguration)
    else Success(Matching(blocks.value, value)[0])
  }

  lemma {:induction false} MatchingSplits(a: seq<seq<Byte>>, b: seq<seq<Byte>>, value: Byte)
    ensures Matching(a + b, value) == Matching(a, value) + Matching(b, value)
  {
    if a == [] {
      assert a + b == b;
    } else {
      MatchingSplits(a[1..], b, value);
      hide IsConfiguration;
      assert (a + b)[1..] == a[1..] + b && (a + b)[0] == a[0];
      var first := if IsConfiguration(a[0], value) then [a[0]] else [];
      assert first + Matching(a[1..] + b, value) == first + Matching(a[1..], value) + Matching(b, value);
    }
  }

  function Joined(done: seq<seq<Byte>>, rest: Option<seq<seq<Byte>>>): Option<seq<seq<Byte>>> {
    if rest.None? then None else Some(done + rest.value)
  }

  /** At most one block matched so far. */
  ghost predicate Holds(selected: Option<seq<Byte>>, done: seq<seq<Byte>>, value: Byte) {
    Matching(done, value) == if selected.None? then [] else [selected.value]
  }

  lemma {:induction false} HoldsNext(selected: Option<seq<Byte>>, done: seq<seq<Byte>>, block: seq<Byte>, value: Byte)
    requires Holds(selected, done, value)
    ensures !IsConfiguration(block, value) ==> Holds(selected, done + [block], value)
    ensures IsConfiguration(block, value) && selected.None? ==> Holds(Some(block), done + [block], value)
    ensures IsConfiguration(block, value) && selected.Some? ==> |Matching(done + [block], value)| == 2
  {
    MatchingSplits(done, [block], value);
    assert [block][1..] == [];
  }

  lemma {:induction false} SecondMatch(bytes: seq<Byte>, at: nat, done: seq<seq<Byte>>, value: Byte)
    requires at <= |bytes| && Blocks(bytes) == Joined(done, Blocks(bytes[at..])) && |Matching(done, value)| == 2
    ensures Selected(bytes, value) == Failure(Malformed)
  {
    hide Blocks;
    if Blocks(bytes).Some? { MatchingSplits(done, Blocks(bytes[at..]).value, value); }
  }

  lemma {:induction false} AllRead(bytes: seq<Byte>, at: nat, done: seq<seq<Byte>>, selected: Option<seq<Byte>>, value: Byte)
    requires at == |bytes| && Blocks(bytes) == Joined(done, Blocks(bytes[at..])) && Holds(selected, done, value)
    ensures Selected(bytes, value) == if selected.None? then Failure(NoConfiguration) else Success(selected.value)
  {
    assert Blocks(bytes[at..]) == Some([]);
    assert done + [] == done;
  }

  method SelectConfiguration(bytes: seq<Byte>, configuration: Byte) returns (r: Result<seq<Byte>, Problem>)
    ensures r == Selected(bytes, configuration)
  {
    hide Matching, IsConfiguration, Blocks, Block, Leading, Selected, Holds;
    var at := 0;
    var selected: Option<seq<Byte>> := None;
    ghost var done: seq<seq<Byte>> := [];
    NothingRead(bytes, configuration);
    hide Joined;
    while at < |bytes|
      invariant 0 <= at <= |bytes|
      invariant Blocks(bytes) == Joined(done, Blocks(bytes[at..]))
      invariant Holds(selected, done, configuration)
      decreases |bytes| - at
    {
      BlocksNext(bytes, at, done);
      BlockAt(bytes, at);
      Unselectable(bytes, configuration);
      if at + 2 > |bytes| { return Failure(Malformed); }
      var length := bytes[at];
      if length < 2 || at + length > |bytes| { return Failure(Malformed); }
      var extent := length;
      if bytes[at + 1] == CONFIGURATION {
        if length < 9 { return Failure(Malformed); }
        var total := bytes[at + 2] as int + 256 * bytes[at + 3] as int;
        if total < length || at + total > |bytes| { return Failure(Malformed); }
        extent := total;
      }
      var block := bytes[at..at + extent];
      assert Block(bytes[at..]) == Some(block);
      ConfigurationOf(bytes, at, extent, configuration);
      HoldsNext(selected, done, block, configuration);
      if bytes[at + 1] == CONFIGURATION && bytes[at + 5] == configuration {
        if selected.Some? {
          SecondMatch(bytes, at + extent, done + [block], configuration);
          return Failure(Malformed);
        }
        selected := Some(block);
      }
      done := done + [block];
      at := at + extent;
    }
    AllRead(bytes, at, done, selected, configuration);
    if selected.None? { return Failure(NoConfiguration); }
    return Success(selected.value);
  }

  lemma {:induction false} NothingRead(bytes: seq<Byte>, value: Byte)
    ensures Holds(None, [], value) && Blocks(bytes) == Joined([], Blocks(bytes[0..]))
  {
    assert bytes[0..] == bytes;
    if Blocks(bytes).Some? { assert [] + Blocks(bytes).value == Blocks(bytes).value; }
  }

  lemma {:induction false} BlocksNext(bytes: seq<Byte>, at: nat, done: seq<seq<Byte>>)
    requires at < |bytes| && Blocks(bytes) == Joined(done, Blocks(bytes[at..]))
    ensures var block := Block(bytes[at..]);
      if block.None? then Blocks(bytes).None?
      else at + |block.value| <= |bytes| && Blocks(bytes) == Joined(done + [block.value], Blocks(bytes[at + |block.value|..]))
  {
    var block := Block(bytes[at..]);
    if block.Some? {
      assert bytes[at..][|block.value|..] == bytes[at + |block.value|..];
      var rest := Blocks(bytes[at + |block.value|..]);
      if rest.Some? { assert done + ([block.value] + rest.value) == done + [block.value] + rest.value; }
    }
  }

  lemma {:induction false} BlockAt(bytes: seq<Byte>, at: nat)
    requires at < |bytes|
    ensures
      if at + 2 > |bytes| || bytes[at] < 2 || at + bytes[at] > |bytes| then Block(bytes[at..]).None?
      else if bytes[at + 1] != CONFIGURATION then Block(bytes[at..]) == Some(bytes[at..at + bytes[at]])
      else if bytes[at] < 9 then Block(bytes[at..]).None?
      else
        var total := bytes[at + 2] as int + 256 * bytes[at + 3] as int;
        Block(bytes[at..]) == if total < bytes[at] || at + total > |bytes| then None else Some(bytes[at..at + total])
  {
    var rest := bytes[at..];
    if |rest| >= 2 && 2 <= rest[0] <= |rest| {
      assert rest[..rest[0]] == bytes[at..at + bytes[at]];
      if rest[1] == CONFIGURATION && rest[0] >= 9 {
        var total := rest[2] as int + 256 * rest[3] as int;
        if total <= |rest| { assert rest[..total] == bytes[at..at + total]; }
      }
    }
  }

  lemma {:induction false} Unselectable(bytes: seq<Byte>, value: Byte)
    ensures Blocks(bytes).None? ==> Selected(bytes, value) == Failure(Malformed)
    ensures Blocks(bytes).Some? && |Matching(Blocks(bytes).value, value)| > 1 ==> Selected(bytes, value) == Failure(Malformed)
  {
  }

  lemma {:induction false} ConfigurationOf(bytes: seq<Byte>, at: nat, extent: nat, value: Byte)
    requires at + 2 <= at + extent <= |bytes| && (bytes[at + 1] == CONFIGURATION ==> extent >= 9)
    ensures IsConfiguration(bytes[at..at + extent], value) <==> bytes[at + 1] == CONFIGURATION && bytes[at + 5] == value
  {
  }
}
