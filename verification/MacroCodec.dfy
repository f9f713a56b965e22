/** The simple-macro program store: a 256-byte image of which the last eight stay zero. */
module MacroCodec {
  import opened Wrappers
  import opened SettingsCodec

  const MACRO_LEN: nat := 256
  const SAFE_END: nat := 248

  type MacroImage = m: seq<Byte> | |m| == MACRO_LEN witness seq(MACRO_LEN, i => 0)
  type I8 = n: int | -128 <= n < 128

  datatype Event =
    | Key(usage: Byte, down: bool, delay: U16)
    | Button(button: Byte, down: bool, delay: U16)
    | Move(dx: I8, dy: I8, delay: U16)

  datatype Program = Program(repeatCount: U16, events: seq<Event>)

  predicate Encodable(e: Event) {
    match e
    case Key(usage, _, _) => 4 <= usage <= 239
    case Button(button, _, _) => 240 <= button <= 248
    case Move(_, _, _) => true
  }

  predicate Inline(delay: U16) {
    1 <= delay <= 127
  }

  function DelayTail(delay: U16): seq<Byte> {
    if Inline(delay) then [] else [delay % 256, delay / 256]
  }

  function ShortDelay(delay: U16): (b: Byte)
    ensures b < 128
  {
    if Inline(delay) then delay else 0
  }

  function EventBytes(e: Event): (r: seq<Byte>)
    ensures |r| >= 2
  {
    match e
    case Key(tag, down, delay) => [tag, ShortDelay(delay) + if down then 128 else 0] + DelayTail(delay)
    case Button(tag, down, delay) => [tag, ShortDelay(delay) + if down then 128 else 0] + DelayTail(delay)
    case Move(dx, dy, delay) => [249, ShortDelay(delay), dx % 256, dy % 256] + DelayTail(delay)
  }

  function EventsBytes(events: seq<Event>): (r: seq<Byte>)
  {
    if events == [] then [] else EventBytes(events[0]) + EventsBytes(events[1..])
  }

  function Encode(p: Program): (image: Option<MacroImage>)
    ensures image.Some? ==> forall i :: SAFE_END <= i < MACRO_LEN ==> image.value[i] == 0
  {
    var body := [p.repeatCount % 256, p.repeatCount / 256] + EventsBytes(p.events);
    if (forall e | e in p.events :: Encodable(e)) && |body| <= SAFE_END
    then Some(body + seq(MACRO_LEN - |body|, i => 0))
    else None
  }

  /** Bytes an event takes: a short wait rides along in its flags. */
  function Size(e: Event): nat {
    (if e.Move? then 4 else 2) + if 1 <= e.delay <= 127 then 0 else 2
  }

  function Sizes(events: seq<Event>): nat {
    if events == [] then 0 else Size(events[0]) + Sizes(events[1..])
  }

  lemma {:induction false} EventsTakeSizes(events: seq<Event>)
    ensures |EventsBytes(events)| == Sizes(events)
    decreases |events|
  {
    if events != [] { EventsTakeSizes(events[1..]); }
  }

  /** A program is encoded exactly if every event has a code and all of them fit, with the
      repeat count before them and the bytes that stay zero behind. */
  lemma {:induction false} EncodesExactly(p: Program)
    ensures Encode(p).Some? <==>
      && 2 + Sizes(p.events) <= 248
      && forall e | e in p.events ::
           match e
           case Key(usage, _, _) => 4 <= usage <= 239
           case Button(button, _, _) => 240 <= button <= 248
           case Move(_, _, _) => true
  {
    EventsTakeSizes(p.events);
  }

  /** One event read at `at`, with the number of bytes it took. */
  function DecodeEvent(data: MacroImage, at: nat): (r: Option<(Event, nat)>)
    requires at < SAFE_END && data[at] != 0
    ensures r.Some? ==> 0 < r.value.1 && at + r.value.1 <= SAFE_END
  {
    var tag := data[at];
    if 4 <= tag <= 248 then
      if at + 2 > SAFE_END then None
      else
        var flags := data[at + 1];
        if flags % 128 == 0 && at + 4 > SAFE_END then None
        else
          var delay := if flags % 128 != 0 then flags % 128 else LittleEndian(data[at + 2], data[at + 3]);
          var size := if flags % 128 != 0 then 2 else 4;
          Some((if tag <= 239 then Key(tag, flags >= 128, delay) else Button(tag, flags >= 128, delay), size))
    else if tag == 249 then
      if at + 4 > SAFE_END || data[at + 1] > 127 || (data[at + 1] == 0 && at + 6 > SAFE_END) then None
      else
        var delay := if data[at + 1] != 0 then data[at + 1] else LittleEndian(data[at + 4], data[at + 5]);
        Some((Move(Signed(data[at + 2]), Signed(data[at + 3]), delay), if data[at + 1] != 0 then 4 else 6))
    else None
  }

  function Signed(b: Byte): I8 {
    if b < 128 then b else b - 256
  }

  /** Events from `at` to the terminator, with the terminator's offset. */
  function DecodeEvents(data: MacroImage, at: nat): (r: Option<(seq<Event>, nat)>)
    requires at <= SAFE_END
    ensures r.Some? ==> at <= r.value.1 <= SAFE_END
    decreases SAFE_END - at
  {
    if at == SAFE_END || data[at] == 0 then Some(([], at))
    else
      var event := DecodeEvent(data, at);
      if event.None? then None
      else
        var rest := DecodeEvents(data, at + event.value.1);
        if rest.None? then None else Some(([event.value.0] + rest.value.0, rest.value.1))
  }

  function Decode(data: MacroImage): (p: Option<Program>)
    ensures p.Some? ==> forall i :: SAFE_END <= i < MACRO_LEN ==> data[i] == 0
  {
    if exists i | SAFE_END <= i < MACRO_LEN :: data[i] != 0 then None
    else
      var events := DecodeEvents(data, 2);
      if events.None? || exists i | events.value.1 <= i < MACRO_LEN :: data[i] != 0 then None
      else Some(Program(LittleEndian(data[0], data[1]), events.value.0))
  }

  lemma {:induction false} DecodeEncodedEvent(data: MacroImage, at: nat, e: Event)
    requires Encodable(e)
    requires at + |EventBytes(e)| <= SAFE_END
    requires data[at..at + |EventBytes(e)|] == EventBytes(e)
    ensures data[at] != 0
    ensures DecodeEvent(data, at) == Some((e, |EventBytes(e)|))
  {
    if e.Move? { DecodeEncodedMove(data, at, e); } else { DecodeEncodedEdge(data, at, e); }
  }

  lemma {:induction false} DecodeEncodedEdge(data: MacroImage, at: nat, e: Event)
    requires Encodable(e) && !e.Move?
    requires at + |EventBytes(e)| <= SAFE_END
    requires data[at..at + |EventBytes(e)|] == EventBytes(e)
    ensures data[at] != 0
    ensures DecodeEvent(data, at) == Some((e, |EventBytes(e)|))
  {
    var bytes := EventBytes(e);
    Windowed(data, at, bytes);
    if !Inline(e.delay) { SplitDelay(e.delay); }
  }

  lemma {:induction false} DecodeEncodedMove(data: MacroImage, at: nat, e: Event)
    requires Encodable(e) && e.Move?
    requires at + |EventBytes(e)| <= SAFE_END
    requires data[at..at + |EventBytes(e)|] == EventBytes(e)
    ensures data[at] != 0
    ensures DecodeEvent(data, at) == Some((e, |EventBytes(e)|))
  {
    hide Signed;
    SignedByte(e.dx);
    SignedByte(e.dy);
    var bytes := EventBytes(e);
    Windowed(data, at, bytes);
    if !Inline(e.delay) { SplitDelay(e.delay); }
  }

  lemma {:induction false} SignedByte(n: I8)
    ensures Signed(n % 256) == n
  {
  }

  lemma {:induction false} SplitDelay(delay: U16)
    ensures LittleEndian(delay % 256, delay / 256) == delay
  {
  }

  lemma {:induction false} Windowed(data: seq<Byte>, at: nat, bytes: seq<Byte>)
    requires at + |bytes| <= |data| && data[at..at + |bytes|] == bytes
    ensures forall i :: 0 <= i < |bytes| ==> data[at + i] == bytes[i]
    ensures |bytes| > 1 ==> data[at] == bytes[0] && data[at + 1] == bytes[1]
    ensures |bytes| > 3 ==> data[at + 2] == bytes[2] && data[at + 3] == bytes[3]
    ensures |bytes| > 5 ==> data[at + 4] == bytes[4] && data[at + 5] == bytes[5]
  {
    var window := data[at..at + |bytes|];
    assert forall i :: 0 <= i < |bytes| ==> window[i] == data[at + i];
  }

  lemma {:induction false} SplitWindow(data: seq<Byte>, at: nat, head: seq<Byte>, tail: seq<Byte>)
    requires at + |head + tail| <= |data|
    requires data[at..at + |head + tail|] == head + tail
    ensures data[at..at + |head|] == head
    ensures data[at + |head|..at + |head| + |tail|] == tail
  {
    var window := data[at..at + |head + tail|];
    assert window[..|head|] == head && window[|head|..] == tail;
  }

  lemma {:induction false} DecodeEncodedEvents(data: MacroImage, at: nat, events: seq<Event>)
    requires forall e | e in events :: Encodable(e)
    requires at + |EventsBytes(events)| <= SAFE_END
    requires data[at..at + |EventsBytes(events)|] == EventsBytes(events)
    requires data[at + |EventsBytes(events)|] == 0
    ensures DecodeEvents(data, at) == Some((events, at + |EventsBytes(events)|))
    decreases |events|
  {
    hide DecodeEvent, EventBytes;
    if events != [] {
      var head, tail := EventBytes(events[0]), EventsBytes(events[1..]);
      SplitWindow(data, at, head, tail);
      DecodeEncodedEvent(data, at, events[0]);
      DecodeEncodedEvents(data, at + |head|, events[1..]);
      assert [events[0]] + events[1..] == events;
    }
  }

  /** Every program the encoder accepts is read back exactly, zero delays included. */
  lemma {:induction false} DecodeInvertsEncode(p: Program)
    requires Encode(p).Some?
    ensures Decode(Encode(p).value) == Some(p)
  {
    var image := Encode(p).value;
    var events := EventsBytes(p.events);
    assert image[2..2 + |events|] == events;
    DecodeEncodedEvents(image, 2, p.events);
    assert p.repeatCount % 256 + 256 * (p.repeatCount / 256) == p.repeatCount;
  }
}
