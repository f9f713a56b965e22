/** Reading chunked bodies of recorded HTTP/1.1 messages (section 7.1 of RFC 9112 describes the
    coding), and when that comes to an end. */
module ChunkedBody {
  import opened Wrappers
  import opened PythonBytes
  import opened Orbits

  /** One turn of the loop: it ends, or it takes a chunk and goes on somewhere. */
  datatype Move = Stop(end: int, complete: bool) | Take(chunk: Bytes, next: int)

  function DeclaredSize(data: Bytes, cursor: int, lineEnd: nat): Option<int> {
    IntOf(Strip(Before(Slice(data, cursor, lineEnd), SEMICOLON), false), 16, false)
  }

  function Turn(data: Bytes, cursor: int): Move {
    var line := Find(data, CRLF, Clip(cursor, |data|));
    if line.None? then Stop(|data|, false)
    else
      var size := DeclaredSize(data, cursor, line.value);
      var at := line.value + 2;
      if size.None? then Stop(at, false)
      else if size.value == 0 then
        if At(data, CRLF, at) then Stop(at + 2, true)
        else
          var trailer := Find(data, BLANK, at);
          if trailer.None? then Stop(|data|, false) else Stop(trailer.value + 4, true)
      else
        var end: int := at + size.value;
        if end + 2 > |data| then Stop(|data|, false)
        else if Slice(data, end, end + 2) != CRLF then Stop(end, false)
        else Take(Slice(data, at, end), end + 2)
  }

  /** What the loop returns, or that it never does. */
  datatype Outcome = Parsed(body: Bytes, end: int, complete: bool) | Endless

  function Prepend(chunk: Bytes, outcome: Outcome): Outcome {
    if outcome.Endless? then Endless else outcome.(body := chunk + outcome.body)
  }

  function BodyWithin(data: Bytes, cursor: int, turns: nat): Outcome
    decreases turns
  {
    if turns == 0 then Endless
    else
      match Turn(data, cursor)
      case Stop(end, complete) => Parsed([], end, complete)
      case Take(chunk, next) => Prepend(chunk, BodyWithin(data, next, turns - 1))
  }

  /** A loop over these bytes that does not end within this many turns never ends; see
      `BodyEndsExactly`. */
  function Body(data: Bytes, cursor: int): Outcome {
    BodyWithin(data, cursor, |data| + 2)
  }

  // ------------------------------------------------------------ when the loop ends

  /** The position in the data that the next turn starts from. */
  function NextPosition(data: Bytes): nat -> Option<nat> {
    (p: nat) => match Turn(data, p) case Stop(_, _) => None case Take(_, next) => Some(Clip(next, |data|))
  }

  /** A turn depends on where its cursor falls in the data alone. */
  lemma {:induction false} TurnClips(data: Bytes, cursor: int)
    ensures Turn(data, cursor) == Turn(data, Clip(cursor, |data|))
  {
    hide IntOf, Strip, Before, Find;
  }

  lemma {:induction false} WithinIsOrbit(data: Bytes, cursor: int, turns: nat)
    ensures BodyWithin(data, cursor, turns).Endless? <==> Orbit(NextPosition(data), Clip(cursor, |data|), turns).Some?
    decreases turns
  {
    hide Turn;
    if turns > 0 {
      TurnClips(data, cursor);
      OrbitShift(NextPosition(data), Clip(cursor, |data|), turns - 1);
      var move := Turn(data, cursor);
      if move.Take? { WithinIsOrbit(data, move.next, turns - 1); }
    }
  }

  lemma {:induction false} PositionsAreBounded(data: Bytes)
    ensures Bounded(NextPosition(data), |data|)
  {
    hide Turn;
  }

  /** The loop returns if and only if it never comes back to a position of its cursor in the
      data; and if it does return, it does so within two more turns than there are bytes. */
  lemma {:induction false} BodyEndsExactly(data: Bytes, cursor: int)
    ensures Body(data, cursor).Parsed?
      <==> !exists i: nat, j: nat :: Repeats(NextPosition(data), Clip(cursor, |data|), i, j)
    ensures Body(data, cursor).Endless? ==> forall turns: nat :: BodyWithin(data, cursor, turns).Endless?
  {
    hide BodyWithin, NextPosition;
    var next, start := NextPosition(data), Clip(cursor, |data|);
    PositionsAreBounded(data);
    EndsExactly(next, start, |data|);
    WithinIsOrbit(data, cursor, |data| + 2);
    if Orbit(next, start, |data| + 2).Some? { OrbitPrefix(next, start, |data| + 1, |data| + 2); }
    forall turns: nat ensures Body(data, cursor).Endless? ==> BodyWithin(data, cursor, turns).Endless? {
      WithinIsOrbit(data, cursor, turns);
    }
  }

  /** When every turn the loop makes goes forward, it returns. */
  lemma {:induction false} ForwardTurnsEnd(data: Bytes, cursor: int)
    requires GoesForward(NextPosition(data), Clip(cursor, |data|))
    ensures Body(data, cursor).Parsed?
  {
    hide NextPosition, BodyWithin, GoesForward;
    PositionsAreBounded(data);
    ForwardEnds(NextPosition(data), Clip(cursor, |data|), |data|);
    WithinIsOrbit(data, cursor, |data| + 1);
    MoreTurns(data, cursor, |data| + 1);
  }

  /** The size declared at a position, if there is one, is at least this. */
  predicate SizeAtLeast(data: Bytes, p: nat, least: int) {
    var line := Find(data, CRLF, p);
    line.Some? && DeclaredSize(data, p, line.value).Some? ==> DeclaredSize(data, p, line.value).value >= least
  }

  /** So are all sizes the loop meets. */
  ghost predicate SizesMet(data: Bytes, cursor: int, least: int) {
    var start := Clip(cursor, |data|);
    forall k: nat :: Orbit(NextPosition(data), start, k).Some? ==> SizeAtLeast(data, Orbit(NextPosition(data), start, k).value, least)
  }

  lemma {:induction false} NegativeSizesTakeRoom(data: Bytes, p: nat, line: nat)
    requires p <= line <= |data| && DeclaredSize(data, p, line).Some? && DeclaredSize(data, p, line).value < 0
    ensures line >= p + 2
  {
    var text := data[p..line];
    BeforeIsShorter(text, SEMICOLON);
    StripIsShorter(Before(text, SEMICOLON), false);
    hide IntOf, Strip, Before;
    NegativesTakeRoom(Strip(Before(text, SEMICOLON), false), 16, false);
  }

  const LEAST_SIZE := -5

  /** A negative size takes at least two bytes to write, so that minus five still leads
      forward. */
  lemma {:induction false} SmallSizesLead(data: Bytes, p: nat, least: int)
    requires p <= |data| && SizeAtLeast(data, p, least) && least >= LEAST_SIZE
    ensures Turn(data, p).Take? ==> Turn(data, p).next > p
    ensures Leads(NextPosition(data), p)
  {
    hide DeclaredSize;
    TurnStays(data, p);
    var line := Find(data, CRLF, p);
    if line.Some? && DeclaredSize(data, p, line.value).Some? && DeclaredSize(data, p, line.value).value < 0 {
      NegativeSizesTakeRoom(data, p, line.value);
    }
  }

  /** The law for declared sizes: when no size that the loop meets is negative, or only
      down to minus five, the loop returns; a complete body then ends behind its
      start. What the chunks contain does not matter. */
  lemma {:induction false} SizesMetEnd(data: Bytes, cursor: int, least: int)
    requires SizesMet(data, cursor, least) && least >= LEAST_SIZE
    ensures Body(data, cursor).Parsed?
    ensures Body(data, cursor).complete ==> Body(data, cursor).end > Clip(cursor, |data|)
  {
    hide NextPosition, SizeAtLeast, BodyWithin;
    var next, start := NextPosition(data), Clip(cursor, |data|);
    PositionsAreBounded(data);
    forall k: nat | Orbit(next, start, k).Some? ensures Leads(next, Orbit(next, start, k).value) {
      OrbitStays(next, start, k, |data|);
      SmallSizesLead(data, Orbit(next, start, k).value, least);
    }
    ForwardTurnsEnd(data, cursor);
    EndsPast(data, cursor, least, |data| + 2);
  }

  lemma {:induction false} EndsPast(data: Bytes, cursor: int, least: int, turns: nat)
    requires SizesMet(data, cursor, least) && least >= LEAST_SIZE
    ensures var read := BodyWithin(data, cursor, turns); read.Parsed? && read.complete ==> read.end > Clip(cursor, |data|)
    decreases turns
  {
    hide Turn, SizesMet;
    if turns > 0 {
      var p := Clip(cursor, |data|);
      TurnClips(data, cursor);
      SizesMetAt(data, cursor, least);
      SmallSizesLead(data, p, least);
      CompletePast(data, p);
      TurnStays(data, p);
      if Turn(data, p).Take? {
        LaterSizesMet(data, cursor, least);
        EndsPast(data, Turn(data, p).next, least, turns - 1);
      }
    }
  }

  lemma {:induction false} SizesMetAt(data: Bytes, cursor: int, least: int)
    requires SizesMet(data, cursor, least) && least >= LEAST_SIZE
    ensures SizeAtLeast(data, Clip(cursor, |data|), least)
  {
    hide NextPosition, SizeAtLeast;
    assert Orbit(NextPosition(data), Clip(cursor, |data|), 0) == Some(Clip(cursor, |data|));
  }

  lemma {:induction false} LaterSizesMet(data: Bytes, cursor: int, least: int)
    requires SizesMet(data, cursor, least) && Turn(data, cursor).Take?
    ensures SizesMet(data, Turn(data, cursor).next, least)
  {
    hide Turn, SizeAtLeast;
    var start, later := Clip(cursor, |data|), Clip(Turn(data, cursor).next, |data|);
    TurnClips(data, cursor);
    forall k: nat | Orbit(NextPosition(data), later, k).Some?
      ensures SizeAtLeast(data, Orbit(NextPosition(data), later, k).value, least)
    {
      OrbitShift(NextPosition(data), start, k);
    }
  }

  lemma {:induction false} CompletePast(data: Bytes, p: nat)
    requires p <= |data|
    ensures var move := Turn(data, p); move.Stop? && move.complete ==> move.end > p
  {
    hide DeclaredSize;
  }

  lemma {:induction false} TurnStays(data: Bytes, cursor: int)
    ensures Turn(data, cursor).Take? ==> Turn(data, cursor).next <= |data|
  {
  }

  lemma {:induction false} MoreTurns(data: Bytes, cursor: int, turns: nat)
    requires BodyWithin(data, cursor, turns).Parsed?
    ensures BodyWithin(data, cursor, turns + 1) == BodyWithin(data, cursor, turns)
    decreases turns
  {
    hide Turn;
    if Turn(data, cursor).Take? { MoreTurns(data, Turn(data, cursor).next, turns - 1); }
  }

  /** A turn that goes on goes forward exactly when its chunk with the two bytes behind it
      ends past where the turn began; sizes from minus five up always do. */
  lemma {:induction false} TurnsForwardExactly(data: Bytes, cursor: nat)
    requires cursor <= |data| && Turn(data, cursor).Take?
    ensures Find(data, CRLF, cursor).Some?
    ensures var line := Find(data, CRLF, cursor).value; var size := DeclaredSize(data, cursor, line);
      && size.Some?
      && (Turn(data, cursor).next > cursor <==> line + 2 + size.value + 2 > cursor)
      && (size.value >= LEAST_SIZE ==> Turn(data, cursor).next > cursor)
  {
    hide DeclaredSize;
    if SizeAtLeast(data, cursor, LEAST_SIZE) { SmallSizesLead(data, cursor, LEAST_SIZE); }
  }

  /** Nor need a negative size hold the loop up: minus two takes nothing and goes on behind
      its own line. */
  lemma {:induction false} MinusTwoGoesOn(data: Bytes, cursor: nat)
    requires cursor <= |data| && Find(data, CRLF, cursor).Some?
    requires DeclaredSize(data, cursor, Find(data, CRLF, cursor).value) == Some(-2)
    ensures Turn(data, cursor) == Take([], Find(data, CRLF, cursor).value + 2)
  {
    hide DeclaredSize;
  }

  /** But minus six, one below what always leads forward, sends it back to where it was, for
      ever. */
  lemma {:induction false} NegativeSizeCanStall()
    ensures exists data: Bytes, cursor: nat ::
      cursor <= |data| && SizesMet(data, cursor, LEAST_SIZE - 1) && Turn(data, cursor) == Take([], cursor) && Body(data, cursor).Endless?
  {
    hide Turn, SizeAtLeast, BodyWithin;
    var data: Bytes := CRLF + [45, 54] + CRLF;
    MinusSixStalls(data);
    forall k: nat ensures Orbit(NextPosition(data), 2, k) == Some(2) { StaysPut(NextPosition(data), 2, k); }
    assert Orbit(NextPosition(data), 2, 0) == Some(2) == Orbit(NextPosition(data), 2, 1);
    assert Repeats(NextPosition(data), 2, 0, 1);
    BodyEndsExactly(data, 2);
  }

  lemma {:induction false} MinusSixStalls(data: Bytes)
    requires data == CRLF + [45, 54] + CRLF
    ensures Turn(data, 2) == Take([], 2) && SizeAtLeast(data, 2, LEAST_SIZE - 1)
  {
    var line: Bytes := [45, 54];
    MinusSixRead(line);
    assert data[2] == 45 && data[3] == 54 && data[4..6] == CRLF;
    NeedsCr(data, CRLF, 2);
    NeedsCr(data, CRLF, 3);
    FindsFirst(data, CRLF, 2, 4);
    assert data[2..4] == line;
    assert data[0..2] == CRLF;
  }

  lemma {:induction false} MinusSixRead(line: Bytes)
    requires line == [45, 54]
    ensures Before(line, SEMICOLON) == line && Strip(line, false) == line && IntOf(line, 16, false) == Some(-6)
  {
    assert Before([], SEMICOLON) == [] && Before(line[1..], SEMICOLON) == [54];
    assert DigitOf(54, 16) == Some(6) && Digits([54], 16) == Some(6);
    assert line[1..] == [54] && Unprefixed([54], 16) == [54];
  }

  // ------------------------------------------------------------ the loop itself

  /** One turn, and the reading from where it goes on. */
  lemma {:induction false} BodyUnfolds(data: Bytes, cursor: int)
    ensures Body(data, cursor) ==
      match Turn(data, cursor)
      case Stop(end, complete) => Parsed([], end, complete)
      case Take(chunk, next) => Prepend(chunk, Body(data, next))
  {
    hide Turn;
    if Turn(data, cursor).Take? {
      var next := Turn(data, cursor).next;
      var step := NextPosition(data);
      if BodyWithin(data, next, |data| + 1).Parsed? {
        MoreTurns(data, next, |data| + 1);
      } else {
        PositionsAreBounded(data);
        WithinIsOrbit(data, next, |data| + 1);
        EndsExactly(step, Clip(next, |data|), |data|);
        WithinIsOrbit(data, next, |data| + 2);
      }
    }
  }

  lemma {:induction false} PrependMore(before: Bytes, chunk: Bytes, rest: Outcome)
    ensures Prepend(before, Prepend(chunk, rest)) == Prepend(before + chunk, rest)
  {
    if rest.Parsed? { assert before + (chunk + rest.body) == before + chunk + rest.body; }
  }

  /** For exactly the data on which the loop returns. */
  method ParseChunkedBody(data: Bytes, bodyStart: int) returns (outcome: Outcome)
    requires Body(data, bodyStart).Parsed?
    ensures outcome == Body(data, bodyStart)
  {
    hide Body, BodyWithin, DeclaredSize, Find, At;
    var cursor := bodyStart;
    var chunks: Bytes := [];
    ghost var turns: nat := |data| + 2;
    PrependNothing(Body(data, cursor));
    assert BodyWithin(data, cursor, turns).Parsed? by { BodyIsWithin(data, cursor); }
    while true
      invariant Body(data, bodyStart) == Prepend(chunks, Body(data, cursor))
      invariant BodyWithin(data, cursor, turns).Parsed?
      decreases turns
    {
      BodyUnfolds(data, cursor);
      WithinUnfolds(data, cursor, turns);
      assert chunks + [] == chunks;
      var line := Find(data, CRLF, Clip(cursor, |data|));
      if line.None? { return Parsed(chunks, |data|, false); }
      var size := DeclaredSize(data, cursor, line.value);
      if size.None? { return Parsed(chunks, line.value + 2, false); }
      var at := line.value + 2;
      if size.value == 0 {
        if At(data, CRLF, at) { return Parsed(chunks, at + 2, true); }
        var trailer := Find(data, BLANK, at);
        if trailer.None? { return Parsed(chunks, |data|, false); }
        return Parsed(chunks, trailer.value + 4, true);
      }
      var end := at + size.value;
      if end + 2 > |data| { return Parsed(chunks, |data|, false); }
      if Slice(data, end, end + 2) != CRLF { return Parsed(chunks, end, false); }
      PrependMore(chunks, Slice(data, at, end), Body(data, end + 2));
      chunks := chunks + Slice(data, at, end);
      cursor, turns := end + 2, turns - 1;
    }
  }

  lemma {:induction false} BodyIsWithin(data: Bytes, cursor: int)
    ensures Body(data, cursor) == BodyWithin(data, cursor, |data| + 2)
  {
  }

  lemma {:induction false} WithinUnfolds(data: Bytes, cursor: int, turns: nat)
    requires BodyWithin(data, cursor, turns).Parsed?
    ensures turns > 0 && (Turn(data, cursor).Take? ==> BodyWithin(data, Turn(data, cursor).next, turns - 1).Parsed?)
  {
    hide Turn;
  }

  lemma {:induction false} PrependNothing(outcome: Outcome)
    ensures Prepend([], outcome) == outcome
  {
    if outcome.Parsed? { assert [] + outcome.body == outcome.body; }
  }

  /** The body read from a cursor inside the data whose size, if any, is not negative. */
  lemma {:induction false} BodyTurns(data: Bytes, cursor: nat)
    requires cursor <= |data|
    ensures var line := Find(data, CRLF, cursor);
      if line.None? then Body(data, cursor) == Parsed([], |data|, false)
      else
        var size := DeclaredSize(data, cursor, line.value);
        var at := line.value + 2;
        && at <= |data|
        && if size.None? then Body(data, cursor) == Parsed([], at, false)
           else if size.value == 0 then
             var trailer := Find(data, BLANK, at);
             Body(data, cursor) == if At(data, CRLF, at) then Parsed([], at + 2, true)
                                   else if trailer.None? then Parsed([], |data|, false)
                                   else Parsed([], trailer.value + 4, true)
           else if size.value > 0 then
             var end := at + size.value;
             if end + 2 > |data| then Body(data, cursor) == Parsed([], |data|, false)
             else if data[end..end + 2] != CRLF then Body(data, cursor) == Parsed([], end, false)
             else Body(data, cursor) == Prepend(data[at..end], Body(data, end + 2))
           else true
  {
    hide DeclaredSize, Find, Clip, Slice, Prepend, Body;
    BodyUnfolds(data, cursor);
  }

  // ------------------------------------------------------------ the coding

  /** A chunk as a sender may write it: any hexadecimal spelling of its size, and an extension. */
  datatype Chunk = Chunk(digits: Bytes, extension: Bytes, content: Bytes)

  predicate IsExtension(s: Bytes) {
    IsLine(s) && (s == [] || s[0] == SEMICOLON)
  }

  predicate Sendable(c: Chunk) {
    && AllDigits(c.digits, 16) && Positional(c.digits, 16) == |c.content| > 0
    && IsExtension(c.extension)
  }

  /** The last chunk: a spelling of zero, an extension, and trailer fields. */
  datatype Closing = Closing(digits: Bytes, extension: Bytes, trailers: seq<Bytes>)

  predicate Closes(z: Closing) {
    && AllDigits(z.digits, 16) && Positional(z.digits, 16) == 0 && IsExtension(z.extension)
    && forall t | t in z.trailers :: IsLine(t) && t != []
  }

  function ClosingBytes(z: Closing): Bytes {
    z.digits + z.extension + CRLF + if z.trailers == [] then CRLF else Text(z.trailers) + BLANK
  }

  function ChunkBytes(c: Chunk): Bytes {
    c.digits + c.extension + CRLF + c.content + CRLF
  }

  function Coded(chunks: seq<Chunk>, z: Closing): Bytes {
    if chunks == [] then ClosingBytes(z) else ChunkBytes(chunks[0]) + Coded(chunks[1..], z)
  }

  function Contents(chunks: seq<Chunk>): Bytes {
    if chunks == [] then [] else chunks[0].content + Contents(chunks[1..])
  }

  // ------------------------------------------------------------ reading undoes coding

  lemma {:induction false} SizeLineRead(before: Bytes, digits: Bytes, extension: Bytes, tail: Bytes)
    requires AllDigits(digits, 16) && IsExtension(extension)
    ensures var data := before + (digits + extension + CRLF + tail);
      var end := |before| + |digits| + |extension|;
      Find(data, CRLF, |before|) == Some(end) && DeclaredSize(data, |before|, end) == Some(Positional(digits, 16))
  {
    hide Find, Strip, IntOf, Positional, Before;
    var line := digits + extension;
    var data := before + (line + CRLF + tail);
    assert forall b | b in digits :: DigitOf(b, 16).Some? && b != CR && b != SEMICOLON;
    LineEnds(line, tail);
    FindShifts(before, line + CRLF + tail, CRLF, 0);
    assert data[|before|..|before| + |line|] == line;
    BeforeStops(digits, SEMICOLON, extension);
    NotStripped(digits);
    NumbersAreRead(digits, 16, false);
  }

  lemma {:induction false} NotStripped(digits: Bytes)
    requires AllDigits(digits, 16)
    ensures Strip(digits, false) == digits
  {
    assert digits[0] in digits && digits[|digits| - 1] in digits;
  }

  /** What follows the last chunk's line: nothing, or the trailer fields and a blank line. */
  function ClosingTail(z: Closing): Bytes {
    if z.trailers == [] then CRLF else Text(z.trailers) + BLANK
  }

  lemma {:induction false} TailIsRead(before: Bytes, z: Closing, rest: Bytes)
    requires Closes(z)
    ensures var data := before + (ClosingTail(z) + rest); var at := |before|;
      if At(data, CRLF, at) then |ClosingTail(z)| == 2 else Find(data, BLANK, at) == Some(at + |ClosingTail(z)| - 4)
  {
    hide Find, Text;
    var tail := ClosingTail(z) + rest;
    AtShifts(before, tail, CRLF, 0);
    if z.trailers == [] {
      assert tail[0..2] == CRLF;
    } else {
      assert z.trailers[0] in z.trailers && forall t :: t in z.trailers[1..] ==> t in z.trailers;
      BlankEndsBlock(z.trailers, rest);
      FindShifts(before, tail, BLANK, 0);
      assert tail == Text(z.trailers) + BLANK + rest == Text(z.trailers) + (BLANK + rest);
      TextStarts(z.trailers, BLANK + rest);
      NeedsCr(tail, CRLF, 0);
    }
  }

  lemma {:induction false} ClosingIsRead(before: Bytes, z: Closing, rest: Bytes)
    requires Closes(z)
    ensures Body(before + (ClosingBytes(z) + rest), |before|) == Parsed([], |before| + |ClosingBytes(z)|, true)
  {
    hide Find, DeclaredSize, Text, Body, Positional, At, ClosingTail, AllDigits, IsExtension;
    var line := z.digits + z.extension + CRLF;
    var tail := ClosingTail(z) + rest;
    assert ClosingBytes(z) == line + ClosingTail(z) by { Spelled(z); }
    assert ClosingBytes(z) + rest == line + tail;
    var data := before + (line + tail);
    SizeLineRead(before, z.digits, z.extension, tail);
    BodyTurns(data, |before|);
    assert data == (before + line) + tail;
    TailIsRead(before + line, z, rest);
  }

  lemma {:induction false} Spelled(z: Closing)
    ensures ClosingBytes(z) == z.digits + z.extension + CRLF + ClosingTail(z)
  {
  }

  lemma {:induction false} TextStarts(lines: seq<Bytes>, rest: Bytes)
    requires lines != [] && IsLine(lines[0]) && lines[0] != []
    ensures |Text(lines)| > 0 && (Text(lines) + rest)[0] != CR
  {
    assert Text(lines)[0] == lines[0][0] && lines[0][0] in lines[0];
  }

  lemma {:induction false} ChunkIsRead(before: Bytes, c: Chunk, more: Bytes)
    requires Sendable(c)
    ensures var data := before + (ChunkBytes(c) + more); var next := |before| + |ChunkBytes(c)|;
      Body(data, |before|) == Prepend(c.content, Body(data, next))
  {
    hide Body, Find, DeclaredSize, IsExtension, AllDigits, Positional, At, Prepend;
    var line := c.digits + c.extension + CRLF;
    var tail := c.content + CRLF + more;
    var data := before + (line + tail);
    assert ChunkBytes(c) + more == line + tail;
    SizeLineRead(before, c.digits, c.extension, tail);
    BodyTurns(data, |before|);
    var at := |before| + |line|;
    assert data[at..at + |c.content|] == c.content;
    assert data[at + |c.content|..at + |c.content| + 2] == CRLF;
  }

  /** Whatever came before and follows, the parser reads the chunks' contents and stops
      right behind them. */
  lemma {:induction false} CodedIsRead(before: Bytes, chunks: seq<Chunk>, z: Closing, rest: Bytes)
    requires (forall c | c in chunks :: Sendable(c)) && Closes(z)
    ensures Body(before + (Coded(chunks, z) + rest), |before|)
         == Parsed(Contents(chunks), |before| + |Coded(chunks, z)|, true)
    decreases |chunks|
  {
    hide Body, Closes, Sendable, ChunkBytes, ClosingBytes;
    if chunks == [] {
      ClosingIsRead(before, z, rest);
    } else {
      var c := chunks[0];
      assert c in chunks && forall d :: d in chunks[1..] ==> d in chunks;
      var more := Coded(chunks[1..], z) + rest;
      assert Coded(chunks, z) + rest == ChunkBytes(c) + more;
      ChunkIsRead(before, c, more);
      assert before + (ChunkBytes(c) + more) == (before + ChunkBytes(c)) + more;
      CodedIsRead(before + ChunkBytes(c), chunks[1..], z, rest);
    }
  }
}
