/** Recordings that break off: the files may still be written while they are read. Whatever
    was sent, and wherever the recording ends, everything before that is still read. */
module CutRecordings {
  import opened Wrappers
  import opened PythonBytes
  import opened ChunkedBody
  import opened HttpStream
  import W = WireFields

  lemma {:induction false} Prefixes(a: Bytes, b: Bytes, cut: nat)
    requires cut <= |a + b|
    ensures (a + b)[..cut] == if cut < |a| then a[..cut] else a + b[..cut - |a|]
  {
  }

  // ------------------------------------------------------------ chunked bodies

  /** The chunks that are complete before the cut. */
  function Whole(chunks: seq<Chunk>, cut: nat): seq<Chunk> {
    if chunks == [] || cut < |ChunkBytes(chunks[0])| then []
    else [chunks[0]] + Whole(chunks[1..], cut - |ChunkBytes(chunks[0])|)
  }

  /** A line that breaks off before its end has none. */
  lemma {:induction false} NoLineEnd(before: Bytes, line: Bytes, cut: nat)
    requires IsLine(line) && cut < |line| + 2
    ensures Find(before + (line + CRLF)[..cut], CRLF, |before|).None?
  {
    var data := before + (line + CRLF)[..cut];
    forall i: nat | i >= |before|
      ensures !At(data, CRLF, i)
    {
      if i + 2 <= |data| {
        assert data[i] == line[i - |before|] && line[i - |before|] in line;
        NeedsCr(data, CRLF, i);
      }
    }
  }

  lemma {:induction false} DigitsAreLine(digits: Bytes, extension: Bytes)
    requires AllDigits(digits, 16) && IsExtension(extension)
    ensures IsLine(digits + extension)
  {
    assert forall b | b in digits :: DigitOf(b, 16).Some? && b != CR;
  }

  lemma {:induction false} CutChunkIsRead(before: Bytes, c: Chunk, cut: nat)
    requires Sendable(c) && cut < |ChunkBytes(c)|
    ensures Body(before + ChunkBytes(c)[..cut], |before|) == Parsed([], |before| + cut, false)
  {
    hide Body, Find, DeclaredSize, IsExtension, AllDigits, Positional, At, IsLine;
    var line, body := c.digits + c.extension, c.content + CRLF;
    var data := before + ChunkBytes(c)[..cut];
    assert ChunkBytes(c) == (line + CRLF) + body;
    Prefixes(line + CRLF, body, cut);
    BodyTurns(data, |before|);
    if cut < |line| + 2 {
      DigitsAreLine(c.digits, c.extension);
      NoLineEnd(before, line, cut);
    } else {
      var tail := body[..cut - |line| - 2];
      assert data == before + (c.digits + c.extension + CRLF + tail);
      SizeLineRead(before, c.digits, c.extension, tail);
    }
  }

  /** The trailer breaks off before the blank line that ends it. */
  lemma {:induction false} NoTrailerEnd(before: Bytes, z: Closing, cut: nat)
    requires Closes(z) && cut < |ClosingTail(z)|
    ensures var data := before + ClosingTail(z)[..cut]; !At(data, CRLF, |before|) && Find(data, BLANK, |before|).None?
  {
    hide Find, Text;
    var tail := ClosingTail(z);
    var data := before + tail[..cut];
    if z.trailers != [] {
      assert z.trailers[0] in z.trailers && forall t :: t in z.trailers[1..] ==> t in z.trailers;
      TextStarts(z.trailers, BLANK);
      if cut > 0 {
        assert data[|before|] == tail[0];
        NeedsCr(data, CRLF, |before|);
      }
      NoBlankYet(before, z.trailers, cut);
    }
  }

  /** A block that breaks off before its blank line has none. */
  lemma {:induction false} NoBlankYet(before: Bytes, lines: seq<Bytes>, cut: nat)
    requires lines != [] && (forall line | line in lines :: IsLine(line)) && (forall line | line in lines[1..] :: line != [])
    requires cut < |Text(lines) + BLANK|
    ensures Find(before + (Text(lines) + BLANK)[..cut], BLANK, |before|).None?
  {
    hide Text;
    var whole := Text(lines) + BLANK + [];
    var data := before + (Text(lines) + BLANK)[..cut];
    var found := Find(data, BLANK, |before|);
    if found.Some? {
      var i := found.value - |before|;
      assert whole[i..i + 4] == data[found.value..found.value + 4];
      NoBlankInside(lines, [], i);
    }
  }

  lemma {:induction false} CutClosingIsRead(before: Bytes, z: Closing, cut: nat)
    requires Closes(z) && cut < |ClosingBytes(z)|
    ensures Body(before + ClosingBytes(z)[..cut], |before|) == Parsed([], |before| + cut, false)
  {
    hide Body, Find, DeclaredSize, IsExtension, AllDigits, Positional, At, IsLine, ClosingTail, ClosingBytes;
    var line := z.digits + z.extension;
    var data := before + ClosingBytes(z)[..cut];
    Spelled(z);
    Prefixes(line + CRLF, ClosingTail(z), cut);
    BodyTurns(data, |before|);
    if cut < |line| + 2 {
      DigitsAreLine(z.digits, z.extension);
      NoLineEnd(before, line, cut);
    } else {
      var tail := ClosingTail(z)[..cut - |line| - 2];
      assert data == before + (z.digits + z.extension + CRLF + tail) == (before + (line + CRLF)) + tail;
      SizeLineRead(before, z.digits, z.extension, tail);
      NoTrailerEnd(before + (line + CRLF), z, cut - |line| - 2);
    }
  }

  /** A chunked body that breaks off anywhere is read as the chunks that are complete by then,
      and reported as incomplete up to the end of the data. */
  lemma {:induction false} CutCodingIsRead(before: Bytes, chunks: seq<Chunk>, z: Closing, cut: nat)
    requires (forall c | c in chunks :: Sendable(c)) && Closes(z) && cut < |Coded(chunks, z)|
    ensures Body(before + Coded(chunks, z)[..cut], |before|) == Parsed(Contents(Whole(chunks, cut)), |before| + cut, false)
    decreases |chunks|
  {
    hide Body, Closes, Sendable, ChunkBytes, ClosingBytes;
    if chunks == [] {
      CutClosingIsRead(before, z, cut);
    } else {
      var c := chunks[0];
      assert c in chunks && forall d :: d in chunks[1..] ==> d in chunks;
      Prefixes(ChunkBytes(c), Coded(chunks[1..], z), cut);
      if cut < |ChunkBytes(c)| {
        CutChunkIsRead(before, c, cut);
      } else {
        var left := cut - |ChunkBytes(c)|;
        var more := Coded(chunks[1..], z)[..left];
        ChunkIsRead(before, c, more);
        assert before + (ChunkBytes(c) + more) == (before + ChunkBytes(c)) + more;
        CutCodingIsRead(before + ChunkBytes(c), chunks[1..], z, left);
        assert Whole(chunks, cut)[0] == c && Whole(chunks, cut)[1..] == Whole(chunks[1..], left);
      }
    }
  }

  // ------------------------------------------------------------ message streams

  function CutContent(p: Payload, cut: nat): Bytes
    requires cut <= |PayloadBytes(p)|
  {
    match p
    case Coding(chunks, _) => Contents(Whole(chunks, cut))
    case Plain(content) => content[..cut]
  }

  function HeadBytes(s: Sent): Bytes {
    Text([s.start] + s.fields) + BLANK
  }

  /** What a stream cut in this message leaves of it: nothing while its head is incomplete, and
      then only if some of its content was recorded. */
  function CutMessage(s: Sent, at: nat, cut: nat): Reading
    requires cut < |SentBytes(s)|
  {
    var head := |HeadBytes(s)|;
    if cut < head then Read([], cut)
    else
      var content := CutContent(s.payload, cut - head);
      Read(if content == [] then [] else [Message(s.start, HeadersOf(s.fields), content, s.payload.Coding?, at, at + cut, false)], 0)
  }

  function CutReading(sent: seq<Sent>, at: nat, cut: nat): Reading
    requires cut <= |Stream(sent)|
    decreases |sent|
  {
    if sent == [] then Read([], 0)
    else if cut < |SentBytes(sent[0])| then CutMessage(sent[0], at, cut)
    else Onto(Received(sent[0], at), CutReading(sent[1..], at + |SentBytes(sent[0])|, cut - |SentBytes(sent[0])|))
  }

  lemma {:induction false} CutMessageIsRead(before: Bytes, s: Sent, cut: nat)
    requires WellSent(s) && cut < |SentBytes(s)|
    ensures StreamFrom(before + SentBytes(s)[..cut], |before|) == CutMessage(s, |before|, cut)
  {
    hide StreamFrom, HeadAt, FramingOf, HeadersOf, Text, Body, Coded, Sendable, Closes, Contents, Whole;
    var lines := [s.start] + s.fields;
    assert lines[1..] == s.fields;
    var head, payload := HeadBytes(s), PayloadBytes(s.payload);
    var data := before + SentBytes(s)[..cut];
    assert SentBytes(s) == head + payload;
    Prefixes(head, payload, cut);
    StreamUnfolds(data, |before|);
    if cut < |head| {
      NoBlankYet(before, lines, cut);
      NoHead(data, |before|);
    } else {
      var part := payload[..cut - |head|];
      assert data == before + (head + part) == (before + head) + part;
      HeadIsRead(before, s, part);
      if s.payload.Coding? {
        CutCodingIsRead(before + head, s.payload.chunks, s.payload.closing, cut - |head|);
      } else {
        assert data[|before| + |head|..] == part;
      }
    }
  }

  lemma {:induction false} NoHead(data: Bytes, cursor: nat)
    requires cursor <= |data| && Find(data, BLANK, cursor).None?
    ensures HeadAt(data, cursor).None?
  {
    hide Find;
  }

  /** A recording of well-framed messages that ends anywhere gives every message that is
      complete by then, after them the one it ends in, marked incomplete and with what was
      recorded of its content, and counts as left over only the part of a head. */
  lemma {:induction false} CutStreamIsRead(before: Bytes, sent: seq<Sent>, cut: nat)
    requires (forall s | s in sent :: WellSent(s)) && cut <= |Stream(sent)|
    ensures StreamFrom(before + Stream(sent)[..cut], |before|) == CutReading(sent, |before|, cut)
    decreases |sent|
  {
    hide WellSent, SentBytes, StreamFrom, Received, CutMessage;
    if sent == [] {
      StreamStops(before + [], |before|);
    } else {
      var s := sent[0];
      assert s in sent && forall x :: x in sent[1..] ==> x in sent;
      Prefixes(SentBytes(s), Stream(sent[1..]), cut);
      if cut < |SentBytes(s)| {
        CutMessageIsRead(before, s, cut);
      } else {
        var left := cut - |SentBytes(s)|;
        var rest := Stream(sent[1..])[..left];
        SentIsRead(before, s, rest);
        assert before + (SentBytes(s) + rest) == (before + SentBytes(s)) + rest;
        CutStreamIsRead(before + SentBytes(s), sent[1..], left);
      }
    }
  }

  // ------------------------------------------------------------ wire fields

  lemma {:induction false} CutVarintIsRefused(before: Bytes, n: nat, cut: nat)
    requires cut < |W.Varint(n)|
    ensures W.VarintAt(before + W.Varint(n)[..cut], |before|, W.MAX_GROUPS).None?
  {
    hide W.VarintAt, W.Varint, W.Value;
    var data, whole := before + W.Varint(n)[..cut], before + W.Varint(n);
    var r := W.VarintAt(data, |before|, W.MAX_GROUPS);
    W.VarintsHaveValue(n);
    assert whole[|before|..|whole|] == W.Varint(n);
    forall end | |before| < end <= |data|
      ensures !W.IsVarint(data[|before|..end])
    {
      W.EndsOnlyOnce(whole, |before|, end, |whole|);
      assert data[|before|..end] == whole[|before|..end];
    }
    if r.Some? { W.ReadsExactlyVarints(data, |before|, W.MAX_GROUPS, r.value.1, r.value.0); }
  }

  /** The field at a cut, which is not complete: its key is bad, or it is truncated. */
  lemma {:induction false} CutFieldIsRefused(before: Bytes, f: W.Field, cut: nat)
    requires W.WellSized(f) && W.Readable(f) && 0 < cut < |W.FieldBytes(f)|
    ensures W.FieldAt(before + W.FieldBytes(f)[..cut], |before|)
         == Failure(if cut < |W.Varint(8 * f.number + W.WireOf(f))| then W.BadKey else W.Truncated(f.number, W.WireOf(f)))
  {
    hide W.VarintAt, W.Varint, W.Power, W.Payload, W.PayloadBytes;
    var key := 8 * f.number + W.WireOf(f);
    assert key / 8 == f.number && key % 8 == W.WireOf(f);
    Prefixes(W.Varint(key), W.PayloadBytes(f), cut);
    var data := before + W.FieldBytes(f)[..cut];
    if cut < |W.Varint(key)| {
      CutVarintIsRefused(before, key, cut);
    } else {
      var left := cut - |W.Varint(key)|;
      var part := W.PayloadBytes(f)[..left];
      W.VarintRoundTrip(before, key, part);
      assert data == before + (W.Varint(key) + part) == (before + W.Varint(key)) + part;
      CutPayloadIsRefused(before + W.Varint(key), f, left);
    }
  }

  lemma {:induction false} CutPayloadIsRefused(before: Bytes, f: W.Field, cut: nat)
    requires W.WellSized(f) && W.Readable(f) && cut < |W.PayloadBytes(f)|
    ensures W.Payload(before + W.PayloadBytes(f)[..cut], |before|, f.number, W.WireOf(f))
         == Failure(W.Truncated(f.number, W.WireOf(f)))
  {
    hide W.VarintAt, W.Varint, W.Power;
    if f.Varying? {
      CutVarintIsRefused(before, f.value, cut);
    } else if f.Delimited? {
      var size := W.Varint(|f.bytes|);
      Prefixes(size, f.bytes, cut);
      if cut < |size| {
        CutVarintIsRefused(before, |f.bytes|, cut);
      } else {
        W.VarintRoundTrip(before, |f.bytes|, f.bytes[..cut - |size|]);
      }
    }
  }

  /** What a cut leaves: the fields that are complete, and one problem if it falls inside one. */
  function CutFields(fields: seq<W.Field>, cut: nat): (seq<W.Field>, seq<W.Problem>)
    decreases |fields|
  {
    if fields == [] || cut == 0 then ([], [])
    else
      var f := fields[0];
      if cut >= |W.FieldBytes(f)| then
        var rest := CutFields(fields[1..], cut - |W.FieldBytes(f)|);
        ([f] + rest.0, rest.1)
      else
        ([], [if cut < |W.Varint(8 * f.number + W.WireOf(f))| then W.BadKey else W.Truncated(f.number, W.WireOf(f))])
  }

  /** Written fields that break off anywhere are read up to the cut; the field it falls in is
      named in the one problem, unless its very key is broken. */
  lemma {:induction false} CutFieldsAreRead(before: Bytes, fields: seq<W.Field>, cut: nat)
    requires (forall f | f in fields :: W.WellSized(f) && W.Readable(f)) && cut <= |W.AllBytes(fields)|
    ensures W.FieldsFrom(before + W.AllBytes(fields)[..cut], |before|) == CutFields(fields, cut)
    decreases |fields|
  {
    hide W.FieldAt, W.FieldBytes, W.Readable, W.WellSized, W.Varint;
    if fields != [] && cut > 0 {
      var f := fields[0];
      assert f in fields && forall g :: g in fields[1..] ==> g in fields;
      W.SomeBytes(f);
      var data := before + W.AllBytes(fields)[..cut];
      Prefixes(W.FieldBytes(f), W.AllBytes(fields[1..]), cut);
      W.FieldEnds(data, |before|);
      if cut < |W.FieldBytes(f)| {
        CutFieldIsRefused(before, f, cut);
      } else {
        var left := cut - |W.FieldBytes(f)|;
        var rest := W.AllBytes(fields[1..])[..left];
        W.FieldIsRead(before, f, rest);
        assert data == before + (W.FieldBytes(f) + rest) == (before + W.FieldBytes(f)) + rest;
        CutFieldsAreRead(before + W.FieldBytes(f), fields[1..], left);
      }
    }
  }

  /** A key says which problem there is before any payload is looked at: none of its own, a
      number of zero, a shape that does not exist, or too many bytes. */
  lemma {:induction false} KeysExactly(before: Bytes, key: nat, rest: Bytes)
    ensures var r := W.FieldAt(before + (W.Varint(key) + rest), |before|);
      var known := key % 8 == 0 || key % 8 == 1 || key % 8 == 2 || key % 8 == 5;
      && (r == Failure(W.BadKey) <==> key >= W.Power(W.MAX_GROUPS))
      && (r == Failure(W.NumberZero) <==> key < 8)
      && (r.Failure? && r.error.Unsupported? <==> 8 <= key < W.Power(W.MAX_GROUPS) && !known)
      && (r.Failure? && r.error.Unsupported? ==> r.error == W.Unsupported(key / 8, key % 8))
  {
    hide W.VarintAt, W.Varint;
    W.VarintRoundTrip(before, key, rest);
    assert W.Power(W.MAX_GROUPS) >= 128 by { assert W.Power(10) == 128 * W.Power(9); }
  }
}
