/** The scan over one configuration's descriptors, and what it finds. */
module UsbEndpoints {
  import opened Wrappers
  import opened SettingsCodec
  import opened UsbDescriptors

  datatype Wanted = Wanted(interface: Byte, alternate: Byte, speed: Speed)

  // ------------------------------------------------------------ single descriptors

  predicate IsTarget(d: Descriptor, w: Wanted) {
    |d| >= 9 && d[1] == INTERFACE && d[2] == w.interface && d[3] == w.alternate
  }

  /** Reserved bits clear and not endpoint zero. */
  predicate ValidAddress(address: Byte) {
    address / 16 % 8 == 0 && address % 16 != 0
  }

  predicate InterruptIn(d: Descriptor) {
    |d| >= 7 && d[2] >= 128 && d[2] % 16 != 0 && d[3] % 4 == 3
  }

  predicate Acceptable(d: Descriptor, w: Wanted) {
    |d| >= 7 && ValidAddress(d[2]) && (InterruptIn(d) ==> IntervalUs(w.speed, d[6]).Some?)
  }

  function Described(d: Descriptor, w: Wanted): Endpoint
    requires InterruptIn(d)
  {
    var interval := IntervalUs(w.speed, d[6]);
    Endpoint(w.interface, w.alternate, d[2], d[6], if interval.Some? then interval.value else 0)
  }

  function AddressOf(input: bool, number: nat): nat {
    number + if input then 128 else 0
  }

  function Attributes(upper: nat, transferType: nat): nat {
    4 * upper + transferType
  }

  /** An address is a number from one to fifteen, with 128 added for IN (section 9.6.6 of the
      USB 2.0 specification). */
  lemma {:induction false} AddressesFollowTheStandard(address: Byte)
    ensures ValidAddress(address) <==> exists input: bool, number: nat :: 1 <= number <= 15 && address == AddressOf(input, number)
  {
    if ValidAddress(address) { assert address == AddressOf(address >= 128, address % 16); }
  }

  /** An acceptable endpoint is an interrupt IN one exactly if its address is an IN one and the
      lowest two bits of its attributes, the transfer type, are both set. */
  lemma {:induction false} TypesFollowTheStandard(d: Descriptor)
    requires |d| >= 7 && ValidAddress(d[2])
    ensures InterruptIn(d) <==>
      (exists number: nat :: 1 <= number <= 15 && d[2] == AddressOf(true, number)) && exists upper: nat :: d[3] == Attributes(upper, 3)
  {
    if InterruptIn(d) {
      assert d[2] == AddressOf(true, d[2] % 16);
      assert d[3] == Attributes(d[3] / 4, 3);
    }
  }

  // ------------------------------------------------------------ the scan

  datatype Scan =
    | Scanning(target: bool, expected: Option<nat>, seen: nat, endpoints: seq<Endpoint>)
    | Rejected(problem: Problem)

  const START := Scanning(false, None, 0, [])

  function VisitInterface(s: Scan, d: Descriptor, w: Wanted): Scan
    requires s.Scanning?
  {
    if |d| < 9 then Rejected(Malformed)
    else if !(d[2] == w.interface && d[3] == w.alternate) then s.(target := false)
    else if s.expected.Some? || d[5] != HID_CLASS then Rejected(Malformed)
    else s.(target := true, expected := Some(d[4]))
  }

  function VisitEndpoint(s: Scan, d: Descriptor, w: Wanted): Scan
    requires s.Scanning?
  {
    if |d| < 7 || !ValidAddress(d[2]) then Rejected(Malformed)
    else if !InterruptIn(d) then s.(seen := s.seen + 1)
    else if exists e | e in s.endpoints :: e.address == d[2] then Rejected(Malformed)
    else if IntervalUs(w.speed, d[6]).None? then Rejected(BadInterval)
    else s.(seen := s.seen + 1, endpoints := s.endpoints + [Described(d, w)])
  }

  function Visit(s: Scan, d: Descriptor, w: Wanted): Scan
    requires s.Scanning? && |d| >= 2
  {
    if d[1] == INTERFACE then VisitInterface(s, d, w)
    else if d[1] == ENDPOINT && s.target then VisitEndpoint(s, d, w)
    else s
  }

  function ScanBytes(s: Scan, bytes: seq<Byte>, w: Wanted): Scan
    decreases |bytes|
  {
    if s.Rejected? || bytes == [] then s
    else if Leading(bytes).None? then Rejected(Malformed)
    else ScanBytes(Visit(s, Leading(bytes).value, w), bytes[bytes[0]..], w)
  }

  function Outcome(s: Scan): Result<seq<Endpoint>, Problem> {
    match s
    case Rejected(problem) => Failure(problem)
    case Scanning(_, expected, seen, endpoints) =>
      if expected != Some(seen) || endpoints == [] then Failure(NothingToInspect) else Success(endpoints)
  }

  function Inspected(bytes: seq<Byte>, configuration: Byte, w: Wanted): Result<seq<Endpoint>, Problem> {
    var config := Selected(bytes, configuration);
    if config.Failure? then Failure(config.error)
    else Outcome(ScanBytes(START, config.value[config.value[0]..], w))
  }

  method InterruptEndpoints(bytes: seq<Byte>, configuration: Byte, w: Wanted) returns (r: Result<seq<Endpoint>, Problem>)
    ensures r == Inspected(bytes, configuration, w)
  {
    hide IntervalUs, ValidAddress, InterruptIn, ScanBytes, Selected;
    var selected := SelectConfiguration(bytes, configuration);
    if selected.Failure? { return Failure(selected.error); }
    var config := selected.value;
    ghost var whole := ScanBytes(START, config[config[0]..], w);
    assert Inspected(bytes, configuration, w) == Outcome(whole);
    hide Inspected;
    var at: nat := config[0];
    var target := false;
    var expected: Option<nat> := None;
    var seen := 0;
    var endpoints: seq<Endpoint> := [];
    while at < |config|
      invariant config[0] <= at <= |config|
      invariant whole == ScanBytes(Scanning(target, expected, seen, endpoints), config[at..], w)
      decreases |config| - at
    {
      ghost var before := Scanning(target, expected, seen, endpoints);
      ScanNext(before, config, at, w);
      if at + 2 > |config| { return Failure(Malformed); }
      var length := config[at];
      if length < 2 || at + length > |config| { return Failure(Malformed); }
      var d := config[at..at + length];
      if config[at + 1] == INTERFACE {
        if length < 9 { return Failure(Malformed); }
        target := d[2] == w.interface && d[3] == w.alternate;
        if target {
          if expected.Some? || d[5] != HID_CLASS { return Failure(Malformed); }
          expected := Some(d[4]);
        }
      } else if config[at + 1] == ENDPOINT && target {
        if length < 7 { return Failure(Malformed); }
        seen := seen + 1;
        if !ValidAddress(d[2]) { return Failure(Malformed); }
        if InterruptIn(d) {
          if exists e | e in endpoints :: e.address == d[2] { return Failure(Malformed); }
          var interval := IntervalUs(w.speed, d[6]);
          if interval.None? { return Failure(BadInterval); }
          endpoints := endpoints + [Endpoint(w.interface, w.alternate, d[2], d[6], interval.value)];
        }
      }
      assert Visit(before, d, w) == Scanning(target, expected, seen, endpoints);
      at := at + length;
    }
    NothingLeft(Scanning(target, expected, seen, endpoints), config[at..], w);
    if expected != Some(seen) || endpoints == [] { return Failure(NothingToInspect); }
    return Success(endpoints);
  }

  lemma {:induction false} NothingLeft(s: Scan, bytes: seq<Byte>, w: Wanted)
    requires bytes == []
    ensures ScanBytes(s, bytes, w) == s
  {
  }

  lemma {:induction false} ScanNext(s: Scan, config: seq<Byte>, at: nat, w: Wanted)
    requires s.Scanning? && at < |config|
    ensures
      if at + 2 > |config| || config[at] < 2 || at + config[at] > |config| then ScanBytes(s, config[at..], w) == Rejected(Malformed)
      else
        var after := Visit(s, config[at..at + config[at]], w);
        ScanBytes(s, config[at..], w) == if after.Rejected? then after else ScanBytes(after, config[at + config[at]..], w)
  {
    hide Visit;
    var rest := config[at..];
    if |rest| >= 2 && 2 <= rest[0] <= |rest| {
      assert rest[..rest[0]] == config[at..at + config[at]];
      assert rest[rest[0]..] == config[at + config[at]..];
    }
  }

  // ------------------------------------------------------------ what it finds

  function ScanAll(s: Scan, ds: seq<Descriptor>, w: Wanted): Scan
    requires forall d | d in ds :: |d| >= 2
    decreases |ds|
  {
    if s.Rejected? || ds == [] then s else ScanAll(Visit(s, ds[0], w), ds[1..], w)
  }

  lemma {:induction false} ScansDescriptors(s: Scan, bytes: seq<Byte>, w: Wanted)
    requires s.Scanning?
    ensures Split(bytes).None? ==> ScanBytes(s, bytes, w).Rejected?
    ensures Split(bytes).Some? ==> forall d | d in Split(bytes).value :: |d| >= 2
    ensures Split(bytes).Some? ==> ScanBytes(s, bytes, w) == ScanAll(s, Split(bytes).value, w)
    decreases |bytes|
  {
    hide Visit;
    if bytes != [] && Leading(bytes).Some? {
      var after := Visit(s, Leading(bytes).value, w);
      var rest := bytes[bytes[0]..];
      if Split(rest).Some? { assert Split(bytes).value[1..] == Split(rest).value; }
      ScansDescriptors(if after.Scanning? then after else s, rest, w);
    }
  }

  /** The endpoint descriptors up to the next interface descriptor. */
  function Own(ds: seq<Descriptor>): seq<Descriptor>
    requires forall d | d in ds :: |d| >= 2
  {
    if ds == [] || ds[0][1] == INTERFACE then []
    else (if ds[0][1] == ENDPOINT then [ds[0]] else []) + Own(ds[1..])
  }

  function Reported(own: seq<Descriptor>, w: Wanted): seq<Endpoint> {
    if own == [] then [] else (if InterruptIn(own[0]) then [Described(own[0], w)] else []) + Reported(own[1..], w)
  }

  predicate Distinct(endpoints: seq<Endpoint>) {
    forall i, j :: 0 <= i < j < |endpoints| ==> endpoints[i].address != endpoints[j].address
  }

  predicate Foreign(ds: seq<Descriptor>, w: Wanted)
    requires forall d | d in ds :: |d| >= 2
  {
    forall d | d in ds && d[1] == INTERFACE :: |d| >= 9 && !IsTarget(d, w)
  }

  /** `endpoints` are the interrupt IN endpoints, in order, of the one setting at `t`: the
      only one with the wanted numbers, a HID one, with as many endpoints as it declares. */
  predicate Lists(ds: seq<Descriptor>, t: nat, w: Wanted, endpoints: seq<Endpoint>)
    requires forall d | d in ds :: |d| >= 2
  {
    && t < |ds| && IsTarget(ds[t], w) && ds[t][5] == HID_CLASS
    && Foreign(ds[..t], w) && Foreign(ds[t + 1..], w)
    && var own := Own(ds[t + 1..]);
      && ds[t][4] == |own| && (forall d | d in own :: Acceptable(d, w))
      && endpoints == Reported(own, w) && endpoints != [] && Distinct(endpoints)
  }

  /** Past the target: nothing counts any more, but another match is refused. */
  lemma {:induction false} AfterTarget(s: Scan, ds: seq<Descriptor>, w: Wanted)
    requires (forall d | d in ds :: |d| >= 2) && s.Scanning? && !s.target && s.expected.Some?
    ensures ScanAll(s, ds, w) == s || ScanAll(s, ds, w).Rejected?
    ensures ScanAll(s, ds, w) == s <==> Foreign(ds, w)
  {
    if ds != [] {
      assert ds == [ds[0]] + ds[1..];
      assert Foreign(ds, w) <==> (ds[0][1] == INTERFACE ==> |ds[0]| >= 9 && !IsTarget(ds[0], w)) && Foreign(ds[1..], w);
      AfterTarget(s, ds[1..], w);
    }
  }

  ghost predicate Joins(s: Scan, own: seq<Descriptor>, w: Wanted)
    requires s.Scanning?
  {
    (forall d | d in own :: Acceptable(d, w)) && Distinct(s.endpoints + Reported(own, w))
  }

  lemma {:induction false} JoinsNext(s: Scan, d: Descriptor, own: seq<Descriptor>, w: Wanted)
    requires s.Scanning? && Distinct(s.endpoints) && |d| >= 2
    ensures var after := VisitEndpoint(s, d, w);
      Joins(s, [d] + own, w) <==> after.Scanning? && Joins(after, own, w)
    ensures var after := VisitEndpoint(s, d, w);
      after.Scanning? ==>
        && Distinct(after.endpoints)
        && after.target == s.target && after.expected == s.expected && after.seen == s.seen + 1
        && after.endpoints + Reported(own, w) == s.endpoints + Reported([d] + own, w)
  {
    hide IntervalUs, ValidAddress;
    assert ([d] + own)[1..] == own;
    assert d in [d] + own && forall x :: x in [d] + own <==> x == d || x in own;
    if InterruptIn(d) {
      var item := Described(d, w);
      assert s.endpoints + Reported([d] + own, w) == s.endpoints + [item] + Reported(own, w);
      DistinctPrefix(s.endpoints, item, Reported(own, w));
    } else {
      assert Reported([d] + own, w) == Reported(own, w);
    }
  }

  lemma {:induction false} DistinctPrefix(before: seq<Endpoint>, item: Endpoint, rest: seq<Endpoint>)
    requires Distinct(before)
    ensures Distinct(before + [item]) <==> !exists e | e in before :: e.address == item.address
    ensures Distinct(before + [item] + rest) ==> Distinct(before + [item])
  {
    var all := before + [item];
    if e :| e in before && e.address == item.address {
      var i :| 0 <= i < |before| && before[i] == e;
      assert all[i].address == all[|before|].address;
    }
    if Distinct(all + rest) {
      forall i, j | 0 <= i < j < |all| ensures all[i].address != all[j].address {
        assert (all + rest)[i] == all[i] && (all + rest)[j] == all[j];
      }
    }
  }

  lemma {:induction false} ForeignSplits(ds: seq<Descriptor>, w: Wanted)
    requires (forall d | d in ds :: |d| >= 2) && ds != []
    ensures Foreign(ds, w) <==> (ds[0][1] == INTERFACE ==> |ds[0]| >= 9 && !IsTarget(ds[0], w)) && Foreign(ds[1..], w)
  {
    assert ds == [ds[0]] + ds[1..];
  }

  lemma {:induction false} NothingJoins(s: Scan, w: Wanted)
    requires s.Scanning? && Distinct(s.endpoints)
    ensures Joins(s, [], w) && s.endpoints + Reported([], w) == s.endpoints
  {
    assert s.endpoints + [] == s.endpoints;
  }

  lemma {:induction false} NothingForeign(w: Wanted)
    ensures Foreign([], w)
  {
  }

  lemma {:induction false} StaysRejected(s: Scan, ds: seq<Descriptor>, w: Wanted)
    requires s.Rejected? && forall d | d in ds :: |d| >= 2
    ensures ScanAll(s, ds, w) == s
  {
  }

  lemma {:induction false} LeavesTarget(s: Scan, ds: seq<Descriptor>, w: Wanted)
    requires (forall d | d in ds :: |d| >= 2) && s.Scanning? && s.target && s.expected.Some?
    requires ds != [] && ds[0][1] == INTERFACE
    ensures var after := ScanAll(s, ds, w);
      && (after.Scanning? <==> |ds[0]| >= 9 && !IsTarget(ds[0], w) && Foreign(ds[1..], w))
      && (after.Scanning? ==> after == s.(target := false))
  {
    AfterTarget(s.(target := false), ds[1..], w);
  }

  /** Inside the target: its endpoints are collected until the next interface. */
  lemma {:induction false} InTarget(s: Scan, ds: seq<Descriptor>, w: Wanted)
    requires (forall d | d in ds :: |d| >= 2) && s.Scanning? && s.target && s.expected.Some? && Distinct(s.endpoints)
    ensures var after := ScanAll(s, ds, w); var own := Own(ds);
      && (after.Scanning? <==> Foreign(ds, w) && Joins(s, own, w))
      && (after.Scanning? ==> after.expected == s.expected && after.seen == s.seen + |own|)
      && (after.Scanning? ==> after.endpoints == s.endpoints + Reported(own, w))
    decreases |ds|
  {
    hide VisitEndpoint, Foreign, Joins, Reported, Distinct, Acceptable, IsTarget;
    if ds == [] || ds[0][1] == INTERFACE { NothingJoins(s, w); }
    if ds == [] {
      assert Foreign(ds, w) by { NothingForeign(w); }
    } else {
      var rest := ds[1..];
      ForeignSplits(ds, w);
      if ds[0][1] == INTERFACE {
        LeavesTarget(s, ds, w);
      } else if ds[0][1] == ENDPOINT {
        var after := VisitEndpoint(s, ds[0], w);
        JoinsNext(s, ds[0], Own(rest), w);
        if after.Scanning? { InTarget(after, rest, w); } else { StaysRejected(after, rest, w); }
      } else {
        InTarget(s, rest, w);
        assert [] + Own(rest) == Own(rest);
      }
    }
  }
  lemma {:induction false} FromStart(ds: seq<Descriptor>, w: Wanted, endpoints: seq<Endpoint>)
    requires forall d | d in ds :: |d| >= 2
    ensures Outcome(ScanAll(START, ds, w)) == Success(endpoints) <==> exists t: nat :: Lists(ds, t, w, endpoints)
  {
    if ds == [] {
    } else {
      var d, rest := ds[0], ds[1..];
      assert ds == [d] + rest;
      if IsTarget(d, w) {
        TargetFirst(ds, w, endpoints);
      } else {
        FromStart(rest, w, endpoints);
        ForeignFirst(ds, w, endpoints);
      }
    }
  }

  lemma {:induction false} NotForeign(ds: seq<Descriptor>, t: nat, w: Wanted)
    requires (forall d | d in ds :: |d| >= 2) && 0 < t < |ds| && IsTarget(ds[0], w)
    ensures !Foreign(ds[..t], w)
  {
    assert ds[..t][0] == ds[0];
  }

  /** With the wanted setting first, only it can be listed. */
  lemma {:induction false} OnlyFirst(ds: seq<Descriptor>, t: nat, w: Wanted, endpoints: seq<Endpoint>)
    requires (forall d | d in ds :: |d| >= 2) && ds != [] && IsTarget(ds[0], w)
    ensures Lists(ds, t, w, endpoints) <==>
      && t == 0 && ds[0][5] == HID_CLASS && Foreign(ds[1..], w) && ds[0][4] == |Own(ds[1..])|
      && (forall d | d in Own(ds[1..]) :: Acceptable(d, w))
      && endpoints == Reported(Own(ds[1..]), w) && endpoints != [] && Distinct(endpoints)
  {
    hide Distinct, Acceptable, Reported, Own;
    if 0 < t < |ds| { NotForeign(ds, t, w); }
    assert ds[..0] == [];
  }

  lemma {:induction false} TargetFirst(ds: seq<Descriptor>, w: Wanted, endpoints: seq<Endpoint>)
    requires (forall d | d in ds :: |d| >= 2) && ds != [] && IsTarget(ds[0], w)
    ensures Outcome(ScanAll(START, ds, w)) == Success(endpoints) <==> exists t: nat :: Lists(ds, t, w, endpoints)
  {
    hide Lists, Acceptable, Reported, Own, Foreign, Distinct;
    var rest := ds[1..];
    forall t: nat
      ensures Lists(ds, t, w, endpoints) ==> t == 0
    {
      OnlyFirst(ds, t, w, endpoints);
    }
    OnlyFirst(ds, 0, w, endpoints);
    if ds[0][5] == HID_CLASS {
      var s := START.(target := true, expected := Some(ds[0][4] as nat));
      assert Visit(START, ds[0], w) == s;
      assert Distinct([]) by { NoneIsDistinct(); }
      InTarget(s, rest, w);
      assert [] + Reported(Own(rest), w) == Reported(Own(rest), w);
    }
  }

  lemma {:induction false} NoneIsDistinct()
    ensures Distinct([])
  {
  }

  lemma {:induction false} ListsShift(ds: seq<Descriptor>, t: nat, w: Wanted, endpoints: seq<Endpoint>)
    requires (forall d | d in ds :: |d| >= 2) && ds != [] && !IsTarget(ds[0], w)
    ensures !Lists(ds, 0, w, endpoints)
    ensures Lists(ds, t + 1, w, endpoints)
      <==> Lists(ds[1..], t, w, endpoints) && (ds[0][1] == INTERFACE ==> |ds[0]| >= 9)
  {
    hide Own, Reported, Distinct, Foreign, Acceptable;
    if t + 1 < |ds| {
      assert ds[t + 2..] == ds[1..][t + 1..];
      assert ds[..t + 1][1..] == ds[1..][..t];
      ForeignSplits(ds[..t + 1], w);
    }
  }

  lemma {:induction false} ForeignFirst(ds: seq<Descriptor>, w: Wanted, endpoints: seq<Endpoint>)
    requires (forall d | d in ds :: |d| >= 2) && ds != [] && !IsTarget(ds[0], w)
    ensures ds[0][1] == INTERFACE && |ds[0]| < 9 ==> !exists t: nat :: Lists(ds, t, w, endpoints)
    ensures !(ds[0][1] == INTERFACE && |ds[0]| < 9)
      ==> ((exists t: nat :: Lists(ds, t, w, endpoints)) <==> exists t: nat :: Lists(ds[1..], t, w, endpoints))
  {
    hide Lists;
    if t: nat :| Lists(ds, t, w, endpoints) {
      ListsShift(ds, if t > 0 then t - 1 else 0, w, endpoints);
      assert t > 0 && Lists(ds[1..], t - 1, w, endpoints);
    }
    if t: nat :| Lists(ds[1..], t, w, endpoints) { ListsShift(ds, t, w, endpoints); }
  }

  /** One configuration's bytes split into descriptors that list these endpoints. */
  ghost predicate Offers(config: seq<Byte>, w: Wanted, endpoints: seq<Endpoint>)
    requires HasHeader(config)
  {
    var ds := Split(config[config[0]..]);
    ds.Some? && (forall d | d in ds.value :: |d| >= 2) && exists t: nat :: Lists(ds.value, t, w, endpoints)
  }

  /** The endpoints are reported exactly when the one matching configuration offers them. */
  lemma {:induction false} InspectionIsExact(bytes: seq<Byte>, configuration: Byte, w: Wanted, endpoints: seq<Endpoint>)
    ensures Inspected(bytes, configuration, w) == Success(endpoints)
      <==> Selected(bytes, configuration).Success? && Offers(Selected(bytes, configuration).value, w, endpoints)
  {
    hide Selected, ScanAll, Lists, Split;
    var config := Selected(bytes, configuration);
    if config.Success? {
      var inner := config.value[config.value[0]..];
      ScansDescriptors(START, inner, w);
      if Split(inner).Some? { FromStart(Split(inner).value, w, endpoints); }
    }
  }
}
