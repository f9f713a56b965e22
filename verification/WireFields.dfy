/** Protobuf wire fields: variable-length numbers and the four payload shapes. */
module WireFields {
  import opened Wrappers
  import opened SettingsCodec
  import opened PythonBytes

  /** A number may take ten bytes: shifts of 0 to 63 bits. */
  const MAX_GROUPS: nat := 10

  function Power(n: nat): (r: nat)
    ensures r > 0
  {
    if n == 0 then 1 else 128 * Power(n - 1)
  }

  // ------------------------------------------------------------ numbers

  /** Groups of seven bits, least significant first; every byte but the last is marked. */
  predicate IsVarint(s: Bytes) {
    s != [] && s[|s| - 1] < 128 && forall i | 0 <= i < |s| - 1 :: s[i] >= 128
  }

  function Value(s: Bytes): nat {
    if s == [] then 0 else s[0] % 128 + 128 * Value(s[1..])
  }

  /** The shortest spelling. */
  function Varint(n: nat): (s: Bytes)
    ensures s != []
  {
    if n < 128 then [n] else [128 + n % 128] + Varint(n / 128)
  }

  /** The number at the cursor and where it ends, reading at most `groups` bytes. */
  function VarintAt(data: Bytes, cursor: nat, groups: nat): Option<(nat, nat)>
    decreases groups
  {
    if cursor >= |data| || groups == 0 then None
    else if data[cursor] < 128 then Some((data[cursor], cursor + 1))
    else
      var rest := VarintAt(data, cursor + 1, groups - 1);
      if rest.None? then None else Some((data[cursor] % 128 + 128 * rest.value.0, rest.value.1))
  }

  lemma {:induction false} ReadsExactlyVarints(data: Bytes, cursor: nat, groups: nat, end: nat, n: nat)
    ensures VarintAt(data, cursor, groups) == Some((n, end))
      <==> cursor < end <= |data| && end - cursor <= groups && IsVarint(data[cursor..end]) && n == Value(data[cursor..end])
    decreases groups
  {
    if cursor < |data| && groups > 0 {
      if data[cursor] < 128 {
        if cursor < end <= |data| { FirstEnds(data[cursor..end]); }
      } else {
        var rest := VarintAt(data, cursor + 1, groups - 1);
        if rest.Some? { ReadsExactlyVarints(data, cursor + 1, groups - 1, end, rest.value.0); }
        if cursor < end <= |data| {
          var s := data[cursor..end];
          assert s[1..] == data[cursor + 1..end];
          ReadsExactlyVarints(data, cursor + 1, groups - 1, end, Value(s[1..]));
          FirstMarked(s);
          assert Value(s) == data[cursor] % 128 + 128 * Value(s[1..]);
        }
      }
    }
  }

  lemma {:induction false} FirstEnds(s: Bytes)
    requires s != [] && s[0] < 128
    ensures IsVarint(s) <==> |s| == 1
    ensures |s| == 1 ==> Value(s) == s[0]
  {
  }

  lemma {:induction false} FirstMarked(s: Bytes)
    requires s != [] && s[0] >= 128
    ensures IsVarint(s) <==> IsVarint(s[1..])
  {
    if IsVarint(s[1..]) {
      forall i | 0 <= i < |s| - 1 ensures s[i] >= 128 { if i > 0 { assert s[1..][i - 1] == s[i]; } }
    }
  }

  lemma {:induction false} VarintsHaveValue(n: nat)
    ensures IsVarint(Varint(n)) && Value(Varint(n)) == n
  {
    if n >= 128 {
      VarintsHaveValue(n / 128);
      FirstMarked(Varint(n));
      assert Varint(n)[1..] == Varint(n / 128);
    } else {
      FirstEnds(Varint(n));
    }
  }

  /** A spelling has as many groups as its number needs. */
  lemma {:induction false} VarintLength(n: nat, groups: nat)
    requires groups > 0
    ensures |Varint(n)| <= groups <==> n < Power(groups)
  {
    if n >= 128 && groups > 1 {
      VarintLength(n / 128, groups - 1);
      assert n / 128 < Power(groups - 1) <==> n < 128 * Power(groups - 1);
    } else if n < 128 {
      assert Power(groups) == 128 * Power(groups - 1) >= 128;
    } else {
      assert Power(1) == 128 * Power(0) == 128;
      assert |Varint(n / 128)| >= 1;
    }
  }

  /** Reading undoes writing exactly for numbers below 2^70. */
  lemma {:induction false} VarintRoundTrip(before: Bytes, n: nat, rest: Bytes)
    ensures VarintAt(before + (Varint(n) + rest), |before|, MAX_GROUPS)
      == if n < Power(MAX_GROUPS) then Some((n, |before| + |Varint(n)|)) else None
  {
    hide Power, VarintAt, IsVarint, Value, Varint;
    var data := before + (Varint(n) + rest);
    var end := |before| + |Varint(n)|;
    assert data[|before|..end] == Varint(n);
    VarintsHaveValue(n);
    VarintLength(n, MAX_GROUPS);
    ReadsExactlyVarints(data, |before|, MAX_GROUPS, end, n);
    if n >= Power(MAX_GROUPS) { TooLong(data, |before|, end); }
  }

  lemma {:induction false} EndsOnlyOnce(data: Bytes, cursor: nat, early: nat, end: nat)
    requires cursor < early < end <= |data| && IsVarint(data[cursor..end])
    ensures !IsVarint(data[cursor..early])
  {
    var k := early - 1 - cursor;
    assert data[cursor..early][k] == data[cursor..end][k];
  }

  /** A number that takes more bytes than are read is refused. */
  lemma {:induction false} TooLong(data: Bytes, cursor: nat, end: nat)
    requires cursor + MAX_GROUPS < end <= |data| && IsVarint(data[cursor..end])
    ensures VarintAt(data, cursor, MAX_GROUPS).None?
  {
    hide VarintAt, Value, IsVarint;
    forall early | cursor < early < end ensures !IsVarint(data[cursor..early]) { EndsOnlyOnce(data, cursor, early, end); }
    var read := VarintAt(data, cursor, MAX_GROUPS);
    if read.Some? { ReadsExactlyVarints(data, cursor, MAX_GROUPS, read.value.1, read.value.0); }
  }

  /** A group in its place: the source shifts it there. */
  function Placed(group: nat, scale: nat): nat {
    group * scale
  }

  /** `scale` is two to the power of `shift`; the value stays below it, so that adding a
      placed group sets bits that were clear. */
  method ReadVarint(data: Bytes, start: nat) returns (r: Option<(nat, nat)>)
    ensures r == VarintAt(data, start, MAX_GROUPS)
  {
    hide Lifted, VarintAt, Placed;
    var cursor: nat, value: nat, shift: nat, scale: nat := start, 0, 0, 1;
    ghost var groups: nat := MAX_GROUPS;
    LiftedNothing(VarintAt(data, start, MAX_GROUPS));
    while cursor < |data| && shift <= 63
      invariant shift == 7 * (MAX_GROUPS - groups) && groups <= MAX_GROUPS && start <= cursor
      invariant value < scale
      invariant VarintAt(data, start, MAX_GROUPS) == Lifted(value, scale, VarintAt(data, cursor, groups))
      decreases groups
    {
      GroupRead(data, cursor, groups, value, scale);
      var byte := data[cursor];
      cursor := cursor + 1;
      value := value + Placed(byte % 128, scale);
      if byte < 128 { return Some((value, cursor)); }
      shift, scale, groups := shift + 7, 128 * scale, groups - 1;
    }
    NothingRead(data, cursor, groups, value, scale);
    return None;
  }

  lemma {:induction false} NothingRead(data: Bytes, cursor: nat, groups: nat, value: nat, scale: nat)
    requires cursor >= |data| || groups == 0
    ensures Lifted(value, scale, VarintAt(data, cursor, groups)).None?
  {
  }

  lemma {:induction false} GroupRead(data: Bytes, cursor: nat, groups: nat, value: nat, scale: nat)
    requires cursor < |data| && groups > 0 && value < scale
    ensures var byte := data[cursor]; var next := value + Placed(byte % 128, scale);
      && next < 128 * scale
      && Lifted(value, scale, VarintAt(data, cursor, groups)) ==
         if byte < 128 then Some((next, cursor + 1)) else Lifted(next, 128 * scale, VarintAt(data, cursor + 1, groups - 1))
  {
    var byte := data[cursor];
    StaysBelow(value, scale, byte % 128);
    var rest := VarintAt(data, cursor + 1, groups - 1);
    if byte >= 128 && rest.Some? { LiftedMore(value, scale, byte, rest); }
  }

  lemma {:induction false} LiftedNothing(rest: Option<(nat, nat)>)
    ensures Lifted(0, 1, rest) == rest
  {
  }

  lemma {:induction false} LiftedMore(low: nat, scale: nat, byte: Byte, rest: Option<(nat, nat)>)
    requires low < scale && rest.Some?
    ensures var here := Some((byte % 128 + 128 * rest.value.0, rest.value.1));
      Lifted(low, scale, here) == Lifted(low + Placed(byte % 128, scale), 128 * scale, rest)
  {
    Expands(low, scale, byte % 128, rest.value.0);
  }

  lemma {:induction false} Expands(low: nat, scale: nat, group: nat, high: nat)
    ensures low + scale * (group + 128 * high) == low + group * scale + 128 * scale * high
  {
    assert scale * (group + 128 * high) == scale * group + scale * (128 * high);
    assert scale * (128 * high) == 128 * scale * high;
  }

  lemma {:induction false} StaysBelow(low: nat, scale: nat, group: nat)
    requires low < scale && group < 128
    ensures low + Placed(group, scale) < 128 * scale
  {
    assert group * scale <= 127 * scale;
  }

  function Lifted(low: nat, scale: nat, rest: Option<(nat, nat)>): Option<(nat, nat)> {
    if rest.None? then None else Some((low + scale * rest.value.0, rest.value.1))
  }

  // ------------------------------------------------------------ fields

  datatype Field =
    | Varying(number: nat, value: nat)
    | Fixed64(number: nat, bytes: Bytes)
    | Delimited(number: nat, bytes: Bytes)
    | Fixed32(number: nat, bytes: Bytes)

  datatype Problem = BadKey | NumberZero | Truncated(number: nat, wire: nat) | Unsupported(number: nat, wire: nat)

  function Fixed(data: Bytes, cursor: nat, size: nat, number: nat, wire: nat): (r: Result<(Bytes, nat), Problem>)
    ensures r.Success? ==> r.value.1 == cursor + size <= |data|
  {
    if cursor + size > |data| then Failure(Truncated(number, wire)) else Success((data[cursor..cursor + size], cursor + size))
  }

  lemma {:induction false} VarintEnds(data: Bytes, cursor: nat, groups: nat)
    ensures var r := VarintAt(data, cursor, groups); r.Some? ==> cursor < r.value.1 <= |data|
    decreases groups
  {
    if groups > 0 { VarintEnds(data, cursor + 1, groups - 1); }
  }

  function Payload(data: Bytes, cursor: nat, number: nat, wire: nat): Result<(Field, nat), Problem> {
    if wire == 0 then
      var n := VarintAt(data, cursor, MAX_GROUPS);
      if n.None? then Failure(Truncated(number, wire)) else Success((Varying(number, n.value.0), n.value.1))
    else if wire == 1 then
      var b := Fixed(data, cursor, 8, number, wire);
      if b.Failure? then Failure(b.error) else Success((Fixed64(number, b.value.0), b.value.1))
    else if wire == 2 then
      var n := VarintAt(data, cursor, MAX_GROUPS);
      if n.None? then Failure(Truncated(number, wire))
      else
        var b := Fixed(data, n.value.1, n.value.0, number, wire);
        if b.Failure? then Failure(b.error) else Success((Delimited(number, b.value.0), b.value.1))
    else if wire == 5 then
      var b := Fixed(data, cursor, 4, number, wire);
      if b.Failure? then Failure(b.error) else Success((Fixed32(number, b.value.0), b.value.1))
    else Failure(Unsupported(number, wire))
  }

  function FieldAt(data: Bytes, cursor: nat): Result<(Field, nat), Problem> {
    var key := VarintAt(data, cursor, MAX_GROUPS);
    if key.None? then Failure(BadKey)
    else if key.value.0 / 8 == 0 then Failure(NumberZero)
    else Payload(data, key.value.1, key.value.0 / 8, key.value.0 % 8)
  }

  lemma {:induction false} FieldEnds(data: Bytes, cursor: nat)
    ensures var r := FieldAt(data, cursor); r.Success? ==> cursor < r.value.1 <= |data|
  {
    hide VarintAt;
    VarintEnds(data, cursor, MAX_GROUPS);
    var key := VarintAt(data, cursor, MAX_GROUPS);
    if key.Some? { VarintEnds(data, key.value.1, MAX_GROUPS); }
  }

  /** All fields up to the end or the first problem. */
  function FieldsFrom(data: Bytes, cursor: nat): (seq<Field>, seq<Problem>)
    decreases |data| - cursor
  {
    if cursor >= |data| then ([], [])
    else
      var r := FieldAt(data, cursor);
      if r.Failure? then ([], [r.error])
      else
        FieldEnds(data, cursor);
        var rest := FieldsFrom(data, r.value.1);
        ([r.value.0] + rest.0, rest.1)
  }

  method DecodeWireFields(data: Bytes) returns (fields: seq<Field>, errors: seq<Problem>)
    ensures (fields, errors) == FieldsFrom(data, 0)
  {
    hide VarintAt, Varint, FieldAt, FieldsFrom;
    fields, errors := [], [];
    var cursor: nat := 0;
    ghost var all := FieldsFrom(data, 0);
    assert [] + all.0 == all.0;
    while cursor < |data|
      invariant cursor <= |data| && errors == []
      invariant all.0 == fields + FieldsFrom(data, cursor).0 && all.1 == FieldsFrom(data, cursor).1
      decreases |data| - cursor
    {
      FieldSteps(data, cursor);
      assert fields + [] == fields && forall p: Problem :: errors + [p] == [p];
      var key := ReadVarint(data, cursor);
      if key.None? { errors := errors + [BadKey]; return; }
      var number, wire := key.value.0 / 8, key.value.0 % 8;
      cursor := key.value.1;
      if number == 0 { errors := errors + [NumberZero]; return; }
      var field: Field;
      if wire == 0 {
        var n := ReadVarint(data, cursor);
        if n.None? { errors := errors + [Truncated(number, wire)]; return; }
        field, cursor := Varying(number, n.value.0), n.value.1;
      } else if wire == 1 {
        if cursor + 8 > |data| { errors := errors + [Truncated(number, wire)]; return; }
        field, cursor := Fixed64(number, data[cursor..cursor + 8]), cursor + 8;
      } else if wire == 2 {
        var n := ReadVarint(data, cursor);
        if n.None? { errors := errors + [Truncated(number, wire)]; return; }
        cursor := n.value.1;
        var end := cursor + n.value.0;
        if end > |data| { errors := errors + [Truncated(number, wire)]; return; }
        field, cursor := Delimited(number, data[cursor..end]), end;
      } else if wire == 5 {
        if cursor + 4 > |data| { errors := errors + [Truncated(number, wire)]; return; }
        field, cursor := Fixed32(number, data[cursor..cursor + 4]), cursor + 4;
      } else {
        errors := errors + [Unsupported(number, wire)];
        return;
      }
      assert fields + ([field] + FieldsFrom(data, cursor).0) == fields + [field] + FieldsFrom(data, cursor).0;
      fields := fields + [field];
    }
    NoFieldsLeft(data);
    assert fields + [] == fields;
  }

  lemma {:induction false} NoFieldsLeft(data: Bytes)
    ensures FieldsFrom(data, |data|) == ([], [])
  {
  }

  lemma {:induction false} FieldSteps(data: Bytes, cursor: nat)
    requires cursor < |data|
    ensures var key := VarintAt(data, cursor, MAX_GROUPS);
      if key.None? then FieldsFrom(data, cursor) == ([], [BadKey])
      else if key.value.0 / 8 == 0 then FieldsFrom(data, cursor) == ([], [NumberZero])
      else
        var r := Payload(data, key.value.1, key.value.0 / 8, key.value.0 % 8);
        if r.Failure? then FieldsFrom(data, cursor) == ([], [r.error])
        else
          && cursor < r.value.1 <= |data|
          && FieldsFrom(data, cursor).0 == [r.value.0] + FieldsFrom(data, r.value.1).0
          && FieldsFrom(data, cursor).1 == FieldsFrom(data, r.value.1).1
  {
    hide VarintAt, Payload;
    FieldEnds(data, cursor);
  }

  // ------------------------------------------------------------ reading undoes writing

  function WireOf(f: Field): nat {
    match f
    case Varying(_, _) => 0
    case Fixed64(_, _) => 1
    case Delimited(_, _) => 2
    case Fixed32(_, _) => 5
  }

  /** Fixed payloads have their size; nothing else limits what can be written. */
  predicate WellSized(f: Field) {
    (f.Fixed64? ==> |f.bytes| == 8) && (f.Fixed32? ==> |f.bytes| == 4)
  }

  function PayloadBytes(f: Field): Bytes {
    match f
    case Varying(_, value) => Varint(value)
    case Delimited(_, bytes) => Varint(|bytes|) + bytes
    case Fixed64(_, bytes) => bytes
    case Fixed32(_, bytes) => bytes
  }

  function FieldBytes(f: Field): Bytes {
    Varint(8 * f.number + WireOf(f)) + PayloadBytes(f)
  }

  function AllBytes(fields: seq<Field>): Bytes {
    if fields == [] then [] else FieldBytes(fields[0]) + AllBytes(fields[1..])
  }

  /** What the reader accepts: a number above zero, and nothing that takes eleven bytes. */
  predicate Readable(f: Field) {
    && f.number > 0 && 8 * f.number + WireOf(f) < Power(MAX_GROUPS)
    && (f.Varying? ==> f.value < Power(MAX_GROUPS)) && (f.Delimited? ==> |f.bytes| < Power(MAX_GROUPS))
  }

  lemma {:induction false} PayloadIsRead(before: Bytes, f: Field, rest: Bytes)
    requires WellSized(f)
    ensures var data := before + (PayloadBytes(f) + rest);
      var r := Payload(data, |before|, f.number, WireOf(f));
      if (f.Varying? && f.value >= Power(MAX_GROUPS)) || (f.Delimited? && |f.bytes| >= Power(MAX_GROUPS)) then r.Failure?
      else r == Success((f, |before| + |PayloadBytes(f)|))
  {
    hide VarintAt, Varint, Power;
    var data := before + (PayloadBytes(f) + rest);
    match f
    case Varying(_, value) => VarintRoundTrip(before, value, rest);
    case Delimited(_, bytes) =>
      VarintRoundTrip(before, |bytes|, bytes + rest);
      assert PayloadBytes(f) + rest == Varint(|bytes|) + (bytes + rest);
      var at := |before| + |Varint(|bytes|)|;
      assert data[at..at + |bytes|] == bytes;
    case Fixed64(_, bytes) => assert data[|before|..|before| + 8] == bytes;
    case Fixed32(_, bytes) => assert data[|before|..|before| + 4] == bytes;
  }

  lemma {:induction false} FieldIsRead(before: Bytes, f: Field, rest: Bytes)
    requires WellSized(f)
    ensures var r := FieldAt(before + (FieldBytes(f) + rest), |before|);
      if Readable(f) then r == Success((f, |before| + |FieldBytes(f)|)) else r.Failure?
  {
    hide VarintAt, Varint, Power, Payload, PayloadBytes;
    var key := 8 * f.number + WireOf(f);
    assert key / 8 == f.number && key % 8 == WireOf(f);
    var tail := PayloadBytes(f) + rest;
    assert FieldBytes(f) + rest == Varint(key) + tail;
    VarintRoundTrip(before, key, tail);
    assert before + (Varint(key) + tail) == (before + Varint(key)) + tail;
    PayloadIsRead(before + Varint(key), f, rest);
  }

  /** Reading a list of written fields gives it back, without errors, exactly when each of
      them is readable. */
  lemma {:induction false} FieldsAreRead(before: Bytes, fields: seq<Field>)
    requires forall f | f in fields :: WellSized(f)
    ensures FieldsFrom(before + AllBytes(fields), |before|) == (fields, []) <==> forall f | f in fields :: Readable(f)
    ensures FieldsFrom(before + AllBytes(fields), |before|).1 == [] <==> forall f | f in fields :: Readable(f)
    decreases |fields|
  {
    hide FieldAt, FieldBytes, Readable, WellSized;
    if fields != [] {
      var f := fields[0];
      assert f in fields && fields == [f] + fields[1..];
      var data := before + AllBytes(fields);
      FieldIsRead(before, f, AllBytes(fields[1..]));
      FieldEnds(data, |before|);
      assert data == (before + FieldBytes(f)) + AllBytes(fields[1..]);
      assert |data| > |before| by { SomeBytes(f); }
      FieldsAreRead(before + FieldBytes(f), fields[1..]);
    }
  }

  lemma {:induction false} SomeBytes(f: Field)
    ensures FieldBytes(f) != []
  {
  }
}
