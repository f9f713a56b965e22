/** The messages of one recorded connection. */
module HttpStream {
  import opened Wrappers
  import opened PythonBytes
  import opened ChunkedBody
  import opened Orbits

  const CONTENT_LENGTH: Bytes := [99, 111, 110, 116, 101, 110, 116, 45, 108, 101, 110, 103, 116, 104]
  const TRANSFER_ENCODING: Bytes := [116, 114, 97, 110, 115, 102, 101, 114, 45, 101, 110, 99, 111, 100, 105, 110, 103]
  const CHUNKED: Bytes := [99, 104, 117, 110, 107, 101, 100]

  type Headers = map<Bytes, Bytes>

  datatype Message = Message(
    start: Bytes, headers: Headers, body: Bytes, chunked: bool, rawStart: int, rawEnd: int, complete: bool)

  // ------------------------------------------------------------ headers

  /** Fields by lower-case name, a later one in place of an earlier. */
  function HeadersOf(fields: seq<Bytes>): Headers {
    if fields == [] then map[]
    else
      var earlier := HeadersOf(fields[..|fields| - 1]);
      var field := fields[|fields| - 1];
      if COLON !in field then earlier
      else
        var name := Before(field, COLON);
        earlier[Lower(Strip(name, true)) := Strip(field[|name| + 1..], true)]
  }

  datatype Framing = Chunks | Length(count: int) | Unknown

  function FramingOf(h: Headers): Framing {
    if TRANSFER_ENCODING in h && Contains(Lower(h[TRANSFER_ENCODING]), CHUNKED) then Chunks
    else if CONTENT_LENGTH in h && IntOf(h[CONTENT_LENGTH], 10, true).Some? then Length(IntOf(h[CONTENT_LENGTH], 10, true).value)
    else Unknown
  }

  // ------------------------------------------------------------ what the headers say

  /** A field with this name, whose first colon stands at `k`. */
  predicate Names(field: Bytes, k: nat, name: Bytes) {
    k < |field| && field[k] == COLON && COLON !in field[..k] && Lower(Strip(field[..k], true)) == name
  }

  ghost predicate Nameless(field: Bytes, name: Bytes) {
    forall k: nat :: !Names(field, k, name)
  }

  /** The last field with this name. */
  ghost predicate LastNamed(fields: seq<Bytes>, i: nat, k: nat, name: Bytes) {
    && i < |fields| && Names(fields[i], k, name)
    && forall j :: i < j < |fields| ==> Nameless(fields[j], name)
  }

  /** The name's value is what stands behind this colon of this field. */
  predicate Gives(fields: seq<Bytes>, i: nat, k: nat, name: Bytes) {
    && i < |fields| && k < |fields[i]| && name in HeadersOf(fields)
    && HeadersOf(fields)[name] == Strip(fields[i][k + 1..], true)
  }

  /** A name is among the headers exactly if some field has it, in any letter case and with any
      spaces around it; what counts is the stripped value of the last such field. */
  lemma {:induction false} HeadersExactly(fields: seq<Bytes>, name: Bytes)
    ensures name in HeadersOf(fields) <==> exists i: nat, k: nat :: LastNamed(fields, i, k, name)
    ensures (forall field | field in fields :: Nameless(field, name)) <==> name !in HeadersOf(fields)
    ensures forall i: nat, k: nat | LastNamed(fields, i, k, name) :: Gives(fields, i, k, name)
    decreases |fields|
  {
    hide Names, Lower, Strip, LastNamed, Nameless, HeadersOf, Gives;
    if fields == [] {
      NoHeaders(name);
    } else {
      var before, last := fields[..|fields| - 1], fields[|fields| - 1];
      assert fields == before + [last];
      HeadersExactly(before, name);
      if Nameless(last, name) {
        forall i: nat, k: nat
          ensures LastNamed(fields, i, k, name) <==> LastNamed(before, i, k, name)
          ensures LastNamed(fields, i, k, name) && Gives(before, i, k, name) ==> Gives(fields, i, k, name)
        {
          SameLast(fields, i, k, name);
        }
        LastSaysNothing(fields, name);
      } else {
        LastSays(fields, name);
      }
    }
  }

  lemma {:induction false} NoHeaders(name: Bytes)
    ensures name !in HeadersOf([]) && forall i: nat, k: nat :: !LastNamed([], i, k, name)
  {
  }

  lemma {:induction false} LastSaysNothing(fields: seq<Bytes>, name: Bytes)
    requires fields != [] && Nameless(fields[|fields| - 1], name)
    ensures name in HeadersOf(fields) <==> name in HeadersOf(fields[..|fields| - 1])
    ensures name in HeadersOf(fields) ==> HeadersOf(fields)[name] == HeadersOf(fields[..|fields| - 1])[name]
  {
    hide Lower, Strip;
    var last := fields[|fields| - 1];
    if COLON in last {
      BeforeIsFirst(last);
      assert !Names(last, |Before(last, COLON)|, name);
    }
  }

  lemma {:induction false} SameLast(fields: seq<Bytes>, i: nat, k: nat, name: Bytes)
    requires fields != [] && Nameless(fields[|fields| - 1], name)
    ensures LastNamed(fields, i, k, name) <==> LastNamed(fields[..|fields| - 1], i, k, name)
    ensures LastNamed(fields, i, k, name) && Gives(fields[..|fields| - 1], i, k, name) ==> Gives(fields, i, k, name)
  {
    hide Names, HeadersOf, Strip;
    LastSaysNothing(fields, name);
    var before := fields[..|fields| - 1];
    assert forall j :: 0 <= j < |before| ==> before[j] == fields[j];
  }

  lemma {:induction false} LastSays(fields: seq<Bytes>, name: Bytes)
    requires fields != [] && !Nameless(fields[|fields| - 1], name)
    ensures name in HeadersOf(fields) && exists i: nat, k: nat :: LastNamed(fields, i, k, name)
    ensures forall i: nat, k: nat | LastNamed(fields, i, k, name) :: Gives(fields, i, k, name)
  {
    hide Lower, Strip;
    var n := |fields| - 1;
    var last := fields[n];
    var k: nat :| Names(last, k, name);
    assert LastNamed(fields, n, k, name);
    ColonIsFirst(last, k, name);
    forall i: nat, j: nat | LastNamed(fields, i, j, name)
      ensures i == n && j == k
    {
      if i == n { ColonIsFirst(last, j, name); }
    }
  }

  lemma {:induction false} ColonIsFirst(field: Bytes, k: nat, name: Bytes)
    requires Names(field, k, name)
    ensures COLON in field && Before(field, COLON) == field[..k]
  {
    assert field == field[..k] + field[k..] && field[k..][0] == COLON;
    BeforeStops(field[..k], COLON, field[k..]);
  }

  lemma {:induction false} BeforeIsFirst(field: Bytes)
    requires COLON in field
    ensures var k := |Before(field, COLON)|;
      k < |field| && field[k] == COLON && COLON !in field[..k] && field[..k] == Before(field, COLON)
    decreases |field|
  {
    if field[0] == COLON {
      assert field[..0] == [];
    } else {
      var rest := field[1..];
      assert field == [field[0]] + rest;
      BeforeIsFirst(rest);
      var k := |Before(rest, COLON)|;
      assert field[..k + 1] == [field[0]] + rest[..k];
    }
  }

  /** Some seven bytes of a value spell the word, in any letter case. */
  predicate Spells(value: Bytes, i: nat) {
    i + 7 <= |value| && forall k :: 0 <= k < 7 ==> value[i + k] == CHUNKED[k] || value[i + k] == CHUNKED[k] - 32
  }

  /** A body is in chunks exactly if its transfer encoding mentions the word; otherwise its
      length is what its declared length says, if that is a number, and nothing else is known
      of it. */
  lemma {:induction false} FramingExactly(h: Headers)
    ensures FramingOf(h).Chunks? <==> TRANSFER_ENCODING in h && exists i: nat :: Spells(h[TRANSFER_ENCODING], i)
    ensures forall n :: FramingOf(h) == Length(n) <==>
      !FramingOf(h).Chunks? && CONTENT_LENGTH in h && IntOf(h[CONTENT_LENGTH], 10, true) == Some(n)
  {
    hide IntOf;
    if TRANSFER_ENCODING in h {
      var value := h[TRANSFER_ENCODING];
      ContainsExactly(Lower(value), CHUNKED);
      forall i: nat
        ensures At(Lower(value), CHUNKED, i) <==> Spells(value, i)
      {
        SpellsLower(value, i);
      }
    }
  }

  lemma {:induction false} SpellsLower(value: Bytes, i: nat)
    ensures At(Lower(value), CHUNKED, i) <==> Spells(value, i)
  {
    if i + 7 <= |value| {
      var word := Lower(value)[i..i + 7];
      assert forall k :: 0 <= k < 7 ==> word[k] == Lower(value)[i + k];
      if forall k :: 0 <= k < 7 ==> word[k] == CHUNKED[k] {
        assert word == CHUNKED;
      }
    }
  }

  lemma {:induction false} ContainsExactly(data: Bytes, pattern: Bytes)
    ensures Contains(data, pattern) <==> exists i: nat :: At(data, pattern, i)
  {
    forall i: nat | At(data, pattern, i)
      ensures Contains(data, pattern)
    {
      FoundBefore(data, pattern, 0, i);
    }
  }

  lemma {:induction false} FoundBefore(data: Bytes, pattern: Bytes, start: nat, i: nat)
    requires start <= i && At(data, pattern, i)
    ensures Find(data, pattern, start).Some?
    decreases i - start
  {
    if start < i { FoundBefore(data, pattern, start + 1, i); }
  }

  // ------------------------------------------------------------ the loop

  datatype Head = Head(start: Bytes, headers: Headers, bodyStart: nat)

  function HeadAt(data: Bytes, cursor: int): (r: Option<Head>)
    ensures r.Some? ==> Clip(cursor, |data|) + 4 <= r.value.bodyStart <= |data|
  {
    var end := Find(data, BLANK, Clip(cursor, |data|));
    if end.None? then None
    else
      var lines := SplitLines(Slice(data, cursor, end.value));
      Some(Head(lines[0], HeadersOf(lines[1..]), end.value + 4))
  }

  /** One turn: it ends, leaves an open message, goes on behind a message, or never comes
      back from reading a body. */
  datatype Step =
    | Halt
    | Open(message: Message)
    | Next(message: Message, at: int)
    | Hangs

  function StepAt(data: Bytes, cursor: int): Step {
    var found := HeadAt(data, cursor);
    if found.None? then Halt
    else
      var head := found.value;
      var framing := FramingOf(head.headers);
      if framing.Chunks? then
        var read := Body(data, head.bodyStart);
        if read.Endless? then Hangs
        else if !read.complete then Open(Message(head.start, head.headers, read.body, true, cursor, |data|, false))
        else Next(Message(head.start, head.headers, read.body, true, cursor, read.end, true), read.end)
      else if framing.Length? then
        var end: int := head.bodyStart + framing.count;
        if end > |data| then Open(Message(head.start, head.headers, data[head.bodyStart..], false, cursor, |data|, false))
        else Next(Message(head.start, head.headers, Slice(data, head.bodyStart, end), false, cursor, end, true), end)
      else Halt
  }

  /** What the loop returns, or that it never does. */
  datatype Reading = Read(messages: seq<Message>, trailing: int) | NeverReturns

  function Onto(m: Message, rest: Reading): Reading {
    if rest.NeverReturns? then rest else Read([m] + rest.messages, rest.trailing)
  }

  function StreamWithin(data: Bytes, cursor: int, turns: nat): Reading
    decreases turns
  {
    if turns == 0 then NeverReturns
    else
      match StepAt(data, cursor)
      case Halt => Read([], |data| - cursor)
      case Open(m) => Read(if m.body == [] then [] else [m], 0)
      case Hangs => NeverReturns
      case Next(m, at) => Onto(m, StreamWithin(data, at, turns - 1))
  }

  /** A loop over these bytes that does not end within this many turns never ends; see
      `StreamEndsExactly`. */
  function StreamFrom(data: Bytes, cursor: int): Reading {
    StreamWithin(data, cursor, |data| + 2)
  }

  // ------------------------------------------------------------ when the loop ends

  lemma {:induction false} BodyEnds(data: Bytes, cursor: int, turns: nat)
    ensures var read := BodyWithin(data, cursor, turns); read.Parsed? && read.complete ==> 0 <= read.end <= |data|
    decreases turns
  {
    hide Turn;
    if turns > 0 {
      CompleteInside(data, cursor);
      if Turn(data, cursor).Take? { BodyEnds(data, Turn(data, cursor).next, turns - 1); }
    }
  }

  lemma {:induction false} CompleteInside(data: Bytes, cursor: int)
    ensures var move := Turn(data, cursor); move.Stop? && move.complete ==> 0 <= move.end <= |data|
  {
    hide DeclaredSize;
  }

  /** Where the message behind the one at a position begins. */
  function NextStart(data: Bytes): nat -> Option<nat> {
    (p: nat) => match StepAt(data, p) case Next(_, at) => Some(Clip(at, |data|)) case _ => None
  }

  /** A turn depends on where its cursor falls in the data, but for the range it notes. */
  lemma {:induction false} StepClips(data: Bytes, cursor: int)
    ensures var here, there := StepAt(data, cursor), StepAt(data, Clip(cursor, |data|));
      && (here.Halt? <==> there.Halt?) && (here.Open? <==> there.Open?) && (here.Hangs? <==> there.Hangs?)
      && (here.Next? ==> there.Next? && here.at == there.at)
  {
    hide Body, FramingOf, HeadersOf, SplitLines, Find;
    assert Slice(data, cursor, |data|) == Slice(data, Clip(cursor, |data|), |data|);
    assert HeadAt(data, cursor) == HeadAt(data, Clip(cursor, |data|));
  }

  /** Whether the loop is caught in a body on its turn number `turns`. */
  ghost predicate HangsAt(data: Bytes, start: nat, turns: nat) {
    var at := Orbit(NextStart(data), start, turns);
    at.Some? && StepAt(data, at.value).Hangs?
  }

  lemma {:induction false} HangsShift(data: Bytes, start: nat, turns: nat)
    ensures HangsAt(data, start, turns + 1)
      <==> NextStart(data)(start).Some? && HangsAt(data, NextStart(data)(start).value, turns)
  {
    hide StepAt;
    OrbitShift(NextStart(data), start, turns);
  }

  ghost predicate HangsBefore(data: Bytes, start: nat, turns: nat) {
    exists k: nat :: k < turns && HangsAt(data, start, k)
  }

  lemma {:induction false} HangsFirstOrLater(data: Bytes, start: nat, turns: nat)
    ensures HangsBefore(data, start, turns + 1) <==>
      || StepAt(data, start).Hangs?
      || (NextStart(data)(start).Some? && HangsBefore(data, NextStart(data)(start).value, turns))
  {
    hide StepAt;
    assert HangsAt(data, start, 0) <==> StepAt(data, start).Hangs?;
    if HangsBefore(data, start, turns + 1) {
      var k: nat :| k < turns + 1 && HangsAt(data, start, k);
      if k > 0 { HangsShift(data, start, k - 1); }
    }
    if NextStart(data)(start).Some? && HangsBefore(data, NextStart(data)(start).value, turns) {
      var k: nat :| k < turns && HangsAt(data, NextStart(data)(start).value, k);
      HangsShift(data, start, k);
    }
  }

  lemma {:induction false} StreamIsOrbit(data: Bytes, cursor: int, turns: nat)
    ensures var start := Clip(cursor, |data|);
      StreamWithin(data, cursor, turns).NeverReturns? <==>
        Orbit(NextStart(data), start, turns).Some? || HangsBefore(data, start, turns)
    decreases turns
  {
    hide StepAt, HangsBefore;
    var start := Clip(cursor, |data|);
    if turns == 0 {
      NothingHangs(data, start);
    } else {
      StepClips(data, cursor);
      OrbitShift(NextStart(data), start, turns - 1);
      HangsFirstOrLater(data, start, turns - 1);
      if StepAt(data, cursor).Next? { StreamIsOrbit(data, StepAt(data, cursor).at, turns - 1); }
    }
  }

  lemma {:induction false} NothingHangs(data: Bytes, start: nat)
    ensures !HangsBefore(data, start, 0)
  {
  }

  lemma {:induction false} StartsAreBounded(data: Bytes)
    ensures Bounded(NextStart(data), |data|)
  {
    hide StepAt;
  }

  /** The loop returns if and only if it never comes back to a position in the data and
      every body it reads comes back; see `BodyEndsExactly` for those. */
  lemma {:induction false} StreamEndsExactly(data: Bytes, cursor: int)
    ensures var start := Clip(cursor, |data|);
      StreamFrom(data, cursor).Read? <==>
        && (!exists i: nat, j: nat :: Repeats(NextStart(data), start, i, j))
        && !exists k: nat :: HangsAt(data, start, k)
    ensures StreamFrom(data, cursor).NeverReturns? ==> forall turns: nat :: StreamWithin(data, cursor, turns).NeverReturns?
  {
    hide StepAt, HangsAt, NextStart, StreamWithin;
    var start := Clip(cursor, |data|);
    var bound := |data| + 2;
    StartsAreBounded(data);
    EndsExactly(NextStart(data), start, |data|);
    StreamIsOrbit(data, cursor, bound);
    if Orbit(NextStart(data), start, bound).Some? { OrbitPrefix(NextStart(data), start, |data| + 1, bound); }
    forall k: nat | HangsAt(data, start, k)
      ensures Orbit(NextStart(data), start, |data| + 1).Some? || HangsBefore(data, start, bound)
    {
      LateHang(data, start, k);
    }
    forall turns: nat ensures StreamFrom(data, cursor).NeverReturns? ==> StreamWithin(data, cursor, turns).NeverReturns? {
      StreamIsOrbit(data, cursor, turns);
      if HangsBefore(data, start, bound) { HangsOrGoesOn(data, start, bound, turns); }
    }
  }

  lemma {:induction false} LateHang(data: Bytes, start: nat, k: nat)
    requires HangsAt(data, start, k)
    ensures Orbit(NextStart(data), start, |data| + 1).Some? || HangsBefore(data, start, |data| + 2)
  {
    hide StepAt, NextStart;
    if k > |data| { OrbitPrefix(NextStart(data), start, |data| + 1, k); }
  }

  /** Before the turn it is caught in, the loop goes on. */
  lemma {:induction false} HangsOrGoesOn(data: Bytes, start: nat, bound: nat, turns: nat)
    requires HangsBefore(data, start, bound)
    ensures Orbit(NextStart(data), start, turns).Some? || HangsBefore(data, start, turns)
  {
    hide StepAt, NextStart;
    var k: nat :| k < bound && HangsAt(data, start, k);
    if turns <= k { OrbitPrefix(NextStart(data), start, turns, k); }
  }

  lemma {:induction false} MoreMessages(data: Bytes, cursor: int, turns: nat)
    requires StreamWithin(data, cursor, turns).Read?
    ensures StreamWithin(data, cursor, turns + 1) == StreamWithin(data, cursor, turns)
    decreases turns
  {
    hide StepAt;
    if StepAt(data, cursor).Next? { MoreMessages(data, StepAt(data, cursor).at, turns - 1); }
  }

  /** A message goes forward exactly when its declared end lies behind its own start. */
  lemma {:induction false} GoesForwardExactly(data: Bytes, cursor: nat)
    requires cursor <= |data| && StepAt(data, cursor).Next?
    ensures var head := HeadAt(data, cursor).value; var framing := FramingOf(head.headers);
      && (framing.Length? ==> (StepAt(data, cursor).at > cursor <==> head.bodyStart + framing.count > cursor))
      && (framing.Chunks? ==> (StepAt(data, cursor).at > cursor <==> Body(data, head.bodyStart).end > cursor))
      && (framing.Length? && framing.count >= 0 ==> StepAt(data, cursor).at > cursor)
  {
    hide Body, FramingOf, HeadAt;
  }

  /** When every message the loop comes to leads forward and every body it meets comes back,
      it returns. */
  lemma {:induction false} ForwardMessagesEnd(data: Bytes, cursor: int)
    requires GoesForward(NextStart(data), Clip(cursor, |data|))
    requires forall k: nat :: !HangsAt(data, Clip(cursor, |data|), k)
    ensures StreamFrom(data, cursor).Read?
  {
    hide NextStart, StreamWithin, GoesForward, HangsAt;
    StartsAreBounded(data);
    ForwardEnds(NextStart(data), Clip(cursor, |data|), |data|);
    StreamIsOrbit(data, cursor, |data| + 1);
    MoreMessages(data, cursor, |data| + 1);
  }

  /** The message at a position, if there is one, declares a length of at least `length`, or
      its chunks all declare sizes of at least `size`. */
  ghost predicate DeclaresAtLeast(data: Bytes, p: nat, length: int, size: int) {
    var found := HeadAt(data, p);
    found.Some? ==>
      match FramingOf(found.value.headers)
      case Length(count) => count >= length
      case Chunks => SizesMet(data, found.value.bodyStart, size)
      case Unknown => true
  }

  /** So do all messages the loop meets. */
  ghost predicate LengthsMet(data: Bytes, cursor: int, length: int, size: int) {
    var start := Clip(cursor, |data|);
    forall k: nat :: Orbit(NextStart(data), start, k).Some? ==>
      DeclaresAtLeast(data, Orbit(NextStart(data), start, k).value, length, size)
  }

  const LEAST_LENGTH := -23

  /** The law for declared lengths: when no length and no chunk size that the loop meets is
      negative, or only down to minus 23 and minus five, it returns. What the bodies contain
      does not matter. */
  lemma {:induction false} LengthsMetEnd(data: Bytes, cursor: int, length: int, size: int)
    requires LengthsMet(data, cursor, length, size) && length >= LEAST_LENGTH && size >= LEAST_SIZE
    ensures StreamFrom(data, cursor).Read?
  {
    hide NextStart, DeclaresAtLeast, StreamWithin, StepAt;
    var next, start := NextStart(data), Clip(cursor, |data|);
    StartsAreBounded(data);
    forall k: nat | Orbit(next, start, k).Some?
      ensures Leads(next, Orbit(next, start, k).value) && !StepAt(data, Orbit(next, start, k).value).Hangs?
    {
      OrbitStays(next, start, k, |data|);
      MessageLeads(data, Orbit(next, start, k).value, length, size);
    }
    ForwardMessagesEnd(data, cursor);
  }

  lemma {:induction false} MessageLeads(data: Bytes, p: nat, length: int, size: int)
    requires p <= |data| && DeclaresAtLeast(data, p, length, size) && length >= LEAST_LENGTH && size >= LEAST_SIZE
    ensures Leads(NextStart(data), p) && !StepAt(data, p).Hangs?
  {
    hide Body, FramingOf, HeadAt, SizesMet;
    StepStays(data, p);
    var found := HeadAt(data, p);
    if found.Some? {
      match FramingOf(found.value.headers)
      case Length(count) => if count < 0 { NegativeLengthsTakeRoom(data, p); }
      case Chunks => SizesMetEnd(data, found.value.bodyStart, size);
      case Unknown =>
    }
  }

  /** A head with a negative length holds the name of that field, its colon, and as many bytes
      as the number takes, behind the line break that ends the start line. */
  lemma {:induction false} NegativeLengthsTakeRoom(data: Bytes, p: nat)
    requires p <= |data| && HeadAt(data, p).Some?
    requires var framing := FramingOf(HeadAt(data, p).value.headers); framing.Length? && framing.count < 0
    ensures var head := HeadAt(data, p).value; var count := FramingOf(head.headers).count;
      head.bodyStart >= p + if count <= -10 then 24 else 23
  {
    hide HeadersOf, IntOf, Find;
    var lines := SplitLines(Slice(data, p, HeadAt(data, p).value.bodyStart - 4));
    var headers := HeadersOf(lines[1..]);
    NegativesTakeRoom(headers[CONTENT_LENGTH], 10, true);
    var i := FieldFits(lines[1..], CONTENT_LENGTH);
    LineFits(Slice(data, p, HeadAt(data, p).value.bodyStart - 4), i + 1);
  }

  lemma {:induction false} FieldFits(fields: seq<Bytes>, name: Bytes) returns (i: nat)
    requires name in HeadersOf(fields)
    ensures i < |fields| && |fields[i]| >= |name| + 1 + |HeadersOf(fields)[name]|
    decreases |fields|
  {
    hide Strip, Lower;
    var earlier, field := fields[..|fields| - 1], fields[|fields| - 1];
    var named := Before(field, COLON);
    if COLON in field && Lower(Strip(named, true)) == name {
      StripIsShorter(named, true);
      StripIsShorter(field[|named| + 1..], true);
      LowerKeepsLength(Strip(named, true));
      i := |fields| - 1;
    } else {
      i := FieldFits(earlier, name);
    }
  }

  lemma {:induction false} LowerKeepsLength(s: Bytes)
    ensures |Lower(s)| == |s|
  {
  }

  lemma {:induction false} StepStays(data: Bytes, cursor: int)
    ensures StepAt(data, cursor).Next? ==> StepAt(data, cursor).at <= |data|
  {
    hide Body, FramingOf, HeadAt, BodyWithin;
    var found := HeadAt(data, cursor);
    if found.Some? { BodyIsInside(data, found.value.bodyStart); }
  }

  lemma {:induction false} BodyIsInside(data: Bytes, cursor: int)
    ensures Body(data, cursor).Parsed? && Body(data, cursor).complete ==> 0 <= Body(data, cursor).end <= |data|
  {
    BodyEnds(data, cursor, |data| + 2);
  }

  // ------------------------------------------------------------ the loop itself

  /** One turn, and the reading from where it goes on. */
  lemma {:induction false} StreamUnfolds(data: Bytes, cursor: int)
    ensures StreamFrom(data, cursor) ==
      match StepAt(data, cursor)
      case Halt => Read([], |data| - cursor)
      case Open(m) => Read(if m.body == [] then [] else [m], 0)
      case Hangs => NeverReturns
      case Next(m, at) => Onto(m, StreamFrom(data, at))
  {
    hide StepAt;
    if StepAt(data, cursor).Next? {
      var at := StepAt(data, cursor).at;
      if StreamWithin(data, at, |data| + 1).Read? {
        MoreMessages(data, at, |data| + 1);
      } else {
        StaysAway(data, at);
      }
    }
  }

  lemma {:induction false} StaysAway(data: Bytes, cursor: int)
    requires StreamWithin(data, cursor, |data| + 1).NeverReturns?
    ensures StreamWithin(data, cursor, |data| + 2).NeverReturns?
  {
    hide StepAt, StreamWithin, NextStart;
    var start := Clip(cursor, |data|);
    StartsAreBounded(data);
    EndsExactly(NextStart(data), start, |data|);
    StreamIsOrbit(data, cursor, |data| + 1);
    StreamIsOrbit(data, cursor, |data| + 2);
  }

  function Following(before: seq<Message>, rest: Reading): Reading {
    if rest.NeverReturns? then rest else Read(before + rest.messages, rest.trailing)
  }

  lemma {:induction false} FollowingMore(before: seq<Message>, m: Message, rest: Reading)
    ensures Following(before, Onto(m, rest)) == Following(before + [m], rest)
  {
    if rest.Read? { assert before + ([m] + rest.messages) == before + [m] + rest.messages; }
  }

  lemma {:induction false} FollowingNothing(rest: Reading)
    ensures Following([], rest) == rest
  {
    if rest.Read? { assert [] + rest.messages == rest.messages; }
  }

  /** For exactly the recordings on which the loop returns. */
  method ParseHttpStream(data: Bytes) returns (reading: Reading)
    requires StreamFrom(data, 0).Read?
    ensures reading == StreamFrom(data, 0)
  {
    hide Body, FramingOf, HeadAt, StreamFrom, StreamWithin, Onto;
    var messages: seq<Message> := [];
    var cursor: int := 0;
    ghost var turns: nat := |data| + 2;
    FollowingNothing(StreamFrom(data, 0));
    assert StreamWithin(data, cursor, turns).Read? by { StreamIsWithin(data, cursor); }
    while cursor < |data|
      invariant StreamFrom(data, 0) == Following(messages, StreamFrom(data, cursor))
      invariant StreamWithin(data, cursor, turns).Read?
      decreases turns
    {
      StreamUnfolds(data, cursor);
      StreamWithinUnfolds(data, cursor, turns);
      assert messages + [] == messages;
      var found := HeadAt(data, cursor);
      if found.None? { return Read(messages, |data| - cursor); }
      var head := found.value;
      var framing := FramingOf(head.headers);
      var body: Bytes, end: int, complete := [], 0, false;
      if framing.Chunks? {
        var read := ParseChunkedBody(data, head.bodyStart);
        body, end, complete := read.body, read.end, read.complete;
      } else if framing.Length? {
        end := head.bodyStart + framing.count;
        complete := end <= |data|;
        body := if complete then Slice(data, head.bodyStart, end) else data[head.bodyStart..];
      } else {
        return Read(messages, |data| - cursor);
      }
      if !complete {
        if body != [] {
          messages := messages + [Message(head.start, head.headers, body, framing.Chunks?, cursor, |data|, false)];
        }
        return Read(messages, 0);
      }
      var m := Message(head.start, head.headers, body, framing.Chunks?, cursor, end, true);
      FollowingMore(messages, m, StreamFrom(data, end));
      messages := messages + [m];
      cursor, turns := end, turns - 1;
    }
    StreamStops(data, cursor);
    assert messages + [] == messages;
    return Read(messages, |data| - cursor);
  }

  lemma {:induction false} StreamIsWithin(data: Bytes, cursor: int)
    ensures StreamFrom(data, cursor) == StreamWithin(data, cursor, |data| + 2)
  {
  }

  lemma {:induction false} StreamWithinUnfolds(data: Bytes, cursor: int, turns: nat)
    requires StreamWithin(data, cursor, turns).Read?
    ensures turns > 0 && !StepAt(data, cursor).Hangs?
    ensures StepAt(data, cursor).Next? ==> StreamWithin(data, StepAt(data, cursor).at, turns - 1).Read?
  {
    hide StepAt;
  }

  lemma {:induction false} StreamStops(data: Bytes, cursor: int)
    requires cursor >= |data| || HeadAt(data, cursor).None?
    ensures StreamFrom(data, cursor) == Read([], |data| - cursor)
  {
    StreamUnfolds(data, cursor);
  }

  // ------------------------------------------------------------ what every reading satisfies

  /** Each message begins where the one before it ended. */
  predicate Contiguous(messages: seq<Message>, origin: int) {
    messages == [] || (messages[0].rawStart == origin && Contiguous(messages[1..], messages[0].rawEnd))
  }

  function EndOf(messages: seq<Message>, origin: int): int {
    if messages == [] then origin else messages[|messages| - 1].rawEnd
  }

  /** Ranges are contiguous, only the last message may be incomplete, and the last range and
      the trailing bytes together end at most where the data does. */
  predicate Tidy(data: Bytes, cursor: int, reading: Reading) {
    reading.Read? ==>
      && Contiguous(reading.messages, cursor) && EndOf(reading.messages, cursor) + reading.trailing <= |data|
      && forall i | 0 <= i < |reading.messages| - 1 :: reading.messages[i].complete
  }

  /** On every recording the loop returns from, negative lengths and sizes included. */
  lemma {:induction false} RangesAreContiguous(data: Bytes, cursor: int, turns: nat)
    requires cursor <= |data|
    ensures Tidy(data, cursor, StreamWithin(data, cursor, turns))
    decreases turns
  {
    hide StepAt, Onto, Tidy;
    var reading := StreamWithin(data, cursor, turns);
    if turns == 0 {
      ShortIsTidy(data, cursor, reading);
    } else {
      StepShapes(data, cursor);
      var step := StepAt(data, cursor);
      if step.Next? {
        RangesAreContiguous(data, step.at, turns - 1);
        OntoIsTidy(data, step.message, StreamWithin(data, step.at, turns - 1));
      } else {
        ShortIsTidy(data, cursor, reading);
      }
    }
  }

  lemma {:induction false} StepShapes(data: Bytes, cursor: int)
    ensures var step := StepAt(data, cursor);
      && (step.Next? ==> step.message.complete && step.message.rawStart == cursor && step.message.rawEnd == step.at <= |data|)
      && (step.Open? ==> step.message.rawStart == cursor && step.message.rawEnd == |data|)
  {
    hide Body, FramingOf, HeadAt;
    StepStays(data, cursor);
  }

  lemma {:induction false} OntoIsTidy(data: Bytes, m: Message, rest: Reading)
    requires m.complete && Tidy(data, m.rawEnd, rest)
    ensures Tidy(data, m.rawStart, Onto(m, rest))
  {
    if rest.Read? { assert ([m] + rest.messages)[1..] == rest.messages; }
  }

  lemma {:induction false} ShortIsTidy(data: Bytes, cursor: int, reading: Reading)
    requires cursor <= |data|
    requires reading.Read? && reading.messages == [] ==> reading.trailing <= |data| - cursor
    requires reading.Read? && reading.messages != [] ==>
      |reading.messages| == 1 && reading.messages[0].rawStart == cursor && reading.messages[0].rawEnd == |data| && reading.trailing == 0
    ensures Tidy(data, cursor, reading)
  {
  }

  // ------------------------------------------------------------ reading undoes sending

  datatype Payload = Coding(chunks: seq<Chunk>, closing: Closing) | Plain(content: Bytes)

  datatype Sent = Sent(start: Bytes, fields: seq<Bytes>, payload: Payload)

  function PayloadBytes(p: Payload): Bytes {
    match p
    case Coding(chunks, closing) => Coded(chunks, closing)
    case Plain(content) => content
  }

  function Content(p: Payload): Bytes {
    match p
    case Coding(chunks, _) => Contents(chunks)
    case Plain(content) => content
  }

  /** Its header lines announce the way its body is framed. */
  predicate WellSent(s: Sent) {
    && IsLine(s.start) && (forall f | f in s.fields :: IsLine(f) && f != [])
    && match s.payload
       case Coding(chunks, closing) =>
         FramingOf(HeadersOf(s.fields)) == Chunks && (forall c | c in chunks :: Sendable(c)) && Closes(closing)
       case Plain(content) => FramingOf(HeadersOf(s.fields)) == Length(|content|)
  }

  function SentBytes(s: Sent): Bytes {
    Text([s.start] + s.fields) + BLANK + PayloadBytes(s.payload)
  }

  function Stream(sent: seq<Sent>): Bytes {
    if sent == [] then [] else SentBytes(sent[0]) + Stream(sent[1..])
  }

  function Received(s: Sent, at: nat): Message {
    Message(s.start, HeadersOf(s.fields), Content(s.payload), s.payload.Coding?, at, at + |SentBytes(s)|, true)
  }

  function AllReceived(sent: seq<Sent>, at: nat): seq<Message> {
    if sent == [] then [] else [Received(sent[0], at)] + AllReceived(sent[1..], at + |SentBytes(sent[0])|)
  }

  lemma {:induction false} HeadIsRead(before: Bytes, s: Sent, rest: Bytes)
    requires IsLine(s.start) && forall f | f in s.fields :: IsLine(f) && f != []
    ensures HeadAt(before + (Text([s.start] + s.fields) + BLANK + rest), |before|)
         == Some(Head(s.start, HeadersOf(s.fields), |before| + |Text([s.start] + s.fields)| + 4))
  {
    hide Find, Text, SplitLines, HeadersOf;
    var lines := [s.start] + s.fields;
    assert lines[1..] == s.fields;
    var data := before + (Text(lines) + BLANK + rest);
    BlankEndsBlock(lines, rest);
    FindShifts(before, Text(lines) + BLANK + rest, BLANK, 0);
    assert data[|before|..|before| + |Text(lines)|] == Text(lines);
    LinesSplit(lines);
  }

  lemma {:induction false} SentIsRead(before: Bytes, s: Sent, rest: Bytes)
    requires WellSent(s)
    ensures StreamFrom(before + (SentBytes(s) + rest), |before|)
         == Onto(Received(s, |before|), StreamFrom(before + (SentBytes(s) + rest), |before| + |SentBytes(s)|))
  {
    hide StreamFrom, HeadAt, FramingOf, HeadersOf, Text, Body, Coded, Sendable, Closes, Onto;
    var head := Text([s.start] + s.fields) + BLANK;
    var payload := PayloadBytes(s.payload);
    var data := before + (head + (payload + rest));
    assert SentBytes(s) + rest == head + (payload + rest);
    HeadIsRead(before, s, payload + rest);
    StreamUnfolds(data, |before|);
    assert data == (before + head) + (payload + rest);
    if s.payload.Coding? {
      CodedIsRead(before + head, s.payload.chunks, s.payload.closing, rest);
    } else {
      var at := |before| + |head|;
      assert data[at..at + |payload|] == payload;
    }
  }

  /** A recording of well-framed messages is read back message by message, nothing left over. */
  lemma {:induction false} StreamIsRead(before: Bytes, sent: seq<Sent>)
    requires forall s | s in sent :: WellSent(s)
    ensures StreamFrom(before + Stream(sent), |before|) == Read(AllReceived(sent, |before|), 0)
    decreases |sent|
  {
    hide WellSent, SentBytes, StreamFrom, Received;
    if sent == [] {
      StreamStops(before + [], |before|);
    } else {
      var s := sent[0];
      assert s in sent && forall x :: x in sent[1..] ==> x in sent;
      SentIsRead(before, s, Stream(sent[1..]));
      assert before + (SentBytes(s) + Stream(sent[1..])) == (before + SentBytes(s)) + Stream(sent[1..]);
      StreamIsRead(before + SentBytes(s), sent[1..]);
    }
  }

  /** A length of minus 24, one below what always leads forward, can hold the loop up for ever:
      this message ends where it began, and is read again and again. */
  lemma {:induction false} NegativeLengthCanStall()
    ensures exists data: Bytes ::
      && LengthsMet(data, 0, LEAST_LENGTH - 1, 0) && StepAt(data, 0).Next? && StepAt(data, 0).at == 0
      && StreamFrom(data, 0).NeverReturns?
  {
    hide HeadAt, HeadersOf, FramingOf, Find;
    var minus24: Bytes := [45, 50, 52];
    var field := CONTENT_LENGTH + [COLON] + minus24;
    var s := Sent([], [field], Plain([]));
    var lines := [s.start] + s.fields;
    assert lines[1..] == [field] && Text([field]) == field;
    var data: Bytes := [] + (Text(lines) + BLANK + []);
    HeadIsRead([], s, []);
    assert |Text(lines)| == 20;
    LengthField(minus24);
    FramesMinus24();
    assert StepAt(data, 0).Next? && StepAt(data, 0).at == 0;
    assert DeclaresAtLeast(data, 0, LEAST_LENGTH - 1, 0);
    hide StepAt, DeclaresAtLeast;
    forall k: nat ensures Orbit(NextStart(data), 0, k) == Some(0) { StaysPut(NextStart(data), 0, k); }
    assert Orbit(NextStart(data), 0, 0) == Some(0) == Orbit(NextStart(data), 0, 1);
    assert Repeats(NextStart(data), 0, 0, 1);
    StreamEndsExactly(data, 0);
  }

  lemma {:induction false} FramesMinus24()
    ensures FramingOf(map[CONTENT_LENGTH := [45, 50, 52]]) == Length(-24)
  {
    MinusTwentyFour();
    assert |TRANSFER_ENCODING| == 17 && |CONTENT_LENGTH| == 14;
  }

  lemma {:induction false} LengthField(value: Bytes)
    requires value != [] && !IsTextSpace(value[0]) && !IsTextSpace(value[|value| - 1])
    ensures HeadersOf([CONTENT_LENGTH + [COLON] + value]) == map[CONTENT_LENGTH := value]
  {
    hide Lower, Before, CONTENT_LENGTH, Strip;
    PlainName();
    var name := CONTENT_LENGTH;
    var field := name + [COLON] + value;
    assert field == name + ([COLON] + value);
    BeforeStops(name, COLON, [COLON] + value);
    assert field[|name| + 1..] == value && field[|name|] == COLON;
    assert Strip(value, true) == value by { NothingToStrip(value); }
    var none: seq<Bytes> := [];
    assert [field][..0] == none;
  }

  lemma {:induction false} NothingToStrip(value: Bytes)
    requires value != [] && !IsTextSpace(value[0]) && !IsTextSpace(value[|value| - 1])
    ensures Strip(value, true) == value
  {
  }

  lemma {:induction false} PlainName()
    ensures Lower(CONTENT_LENGTH) == CONTENT_LENGTH == Strip(CONTENT_LENGTH, true) && COLON !in CONTENT_LENGTH
  {
  }

  lemma {:induction false} MinusTwentyFour()
    ensures IntOf([45, 50, 52], 10, true) == Some(-24)
  {
    var s: Bytes := [45, 50, 52];
    assert s[1..] == [50, 52] && s[1..][..1] == [50];
    assert Digits([50], 10) == Some(2);
    assert Digits([50, 52], 10) == Some(24);
  }

  /** But it need not: this one ends a byte before its body begins, and the loop returns with
      that message and the byte left over. */
  lemma {:induction false} NegativeLengthCanEnd()
    ensures exists data: Bytes ::
      && HeadAt(data, 0).Some? && FramingOf(HeadAt(data, 0).value.headers) == Length(-1)
      && StreamFrom(data, 0).Read? && |StreamFrom(data, 0).messages| == 1 && StreamFrom(data, 0).trailing == 1
  {
    hide HeadAt, HeadersOf, FramingOf, Find, StreamFrom;
    var minus1: Bytes := [45, 49];
    var field := CONTENT_LENGTH + [COLON] + minus1;
    var s := Sent([], [field], Plain([]));
    var lines := [s.start] + s.fields;
    assert lines[1..] == [field] && Text([field]) == field;
    var data: Bytes := [] + (Text(lines) + BLANK + []);
    HeadIsRead([], s, []);
    assert |Text(lines)| == 19;
    LengthField(minus1);
    FramesMinus1();
    StreamUnfolds(data, 0);
    assert StepAt(data, 0).Next? && StepAt(data, 0).at == 22;
    NoRoomForHead(data, 22);
    StreamStops(data, 22);
  }

  lemma {:induction false} NoRoomForHead(data: Bytes, cursor: nat)
    requires cursor <= |data| < cursor + 4
    ensures HeadAt(data, cursor).None?
  {
  }

  lemma {:induction false} FramesMinus1()
    ensures FramingOf(map[CONTENT_LENGTH := [45, 49]]) == Length(-1)
  {
    var s: Bytes := [45, 49];
    assert s[1..] == [49] && Digits([49], 10) == Some(1);
    assert IntOf(s, 10, true) == Some(-1);
    assert |TRANSFER_ENCODING| == 17 && |CONTENT_LENGTH| == 14;
  }
}
