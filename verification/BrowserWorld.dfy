/** A browser operation against a keyboard. Reads are answered truthfully or fail; a write
    that fails may have landed or not, unless the host says its setter was never sent. */
module BrowserWorld {
  import opened Wrappers
  import opened SettingsCodec
  import opened MacroCodec
  import opened Nia87
  import opened BrowserPlanner
  import opened BrowserTermination

  /** What the environment does with one step: whether a write reached the keyboard, and
      what the planner is told. */
  datatype Effect = Effect(response: Response, landed: bool)

  datatype World = World(op: Operation, device: Device, attempted: bool)

  const NEVER_SENT := Error(false)

  predicate Honest(d: Device, step: Step, e: Effect)
    requires |d.macros| == MACRO_SLOTS
  {
    match step
    case Write(_, _, _) => (e.response == Done(None) ==> e.landed) && (e.response == NEVER_SENT ==> !e.landed)
    case Exchange(request, _) =>
      e.response.Done? && e.response.value.Some? && |e.response.value.value| == REPORT_LEN ==>
        ReplyTo(d, request) == Some(e.response.value.value)
    case _ => true
  }

  /** An effect that succeeds. */
  predicate Smooth(step: Step, e: Effect) {
    match step
    case Exchange(_, _) => e.response.Done? && e.response.value.Some? && |e.response.value.value| == REPORT_LEN
    case _ => e.response == Done(None)
  }

  function Touched(d: Device, step: Step, e: Effect): (after: Device)
    ensures |after.macros| == |d.macros|
  {
    if step.Write? && e.landed then Land(d, step.report) else d
  }

  function Turn(w: World, e: Effect): (after: World)
    ensures |after.device.macros| == |w.device.macros|
  {
    World(Advance(w.op, e.response), Touched(w.device, w.op.current, e),
          w.attempted || (w.op.current.Write? && e.response != NEVER_SENT))
  }

  function Play(w: World, effects: seq<Effect>): (after: World)
    ensures |after.device.macros| == |w.device.macros|
    decreases |effects|
  {
    if effects == [] then w else Play(Turn(w, effects[0]), effects[1..])
  }

  predicate HonestPlay(w: World, effects: seq<Effect>)
    requires |w.device.macros| == MACRO_SLOTS
    decreases |effects|
  {
    effects == [] || (Honest(w.device, w.op.current, effects[0]) && HonestPlay(Turn(w, effects[0]), effects[1..]))
  }

  predicate SmoothPlay(w: World, effects: seq<Effect>)
    decreases |effects|
  {
    effects == [] || (Smooth(w.op.current, effects[0]) && SmoothPlay(Turn(w, effects[0]), effects[1..]))
  }

  /** The operation with its current step back at the head of its queue. */
  function Shown(op: Operation): Operation {
    op.(queue := [op.current] + op.queue)
  }

  function Opening(request: Request, d: Device): World {
    World(Start(request), d, false)
  }

  lemma {:induction false} PlayFinished(w: World, effects: seq<Effect>)
    requires w.op.current.Complete?
    ensures Play(w, effects) == w
    decreases |effects|
  {
    if effects != [] {
      PlayFinished(Turn(w, effects[0]), effects[1..]);
    }
  }

  lemma {:induction false} PlayAppend(w: World, a: seq<Effect>, b: seq<Effect>)
    ensures Play(w, a + b) == Play(Play(w, a), b)
    decreases |a|
  {
    if a == [] {
      assert a + b == b;
    } else {
      PlayAppend(Turn(w, a[0]), a[1..], b);
      assert (a + b)[1..] == a[1..] + b;
    }
  }

  lemma {:induction false} PlayShortens(w: World, effects: seq<Effect>)
    requires Valid(w.op)
    ensures var after := Play(w, effects).op;
      Valid(after) && (Finished(after) || Measure(after) + |effects| <= Measure(w.op))
    decreases |effects|
  {
    if effects != [] {
      AdvanceShortens(w.op, effects[0].response);
      PlayShortens(Turn(w, effects[0]), effects[1..]);
      if Finished(w.op) {
        PlayFinished(w, effects);
      }
    }
  }

  /** Enough effects, of whatever outcome, always complete the operation. */
  lemma {:induction false} LongPlayCompletes(request: Request, d: Device, effects: seq<Effect>)
    requires |effects| >= Limit(request)
    ensures Play(Opening(request, d), effects).op.current.Complete?
  {
    hide Start, Loaded, Weight;
    StartIsValid(request);
    PlayShortens(Opening(request, d), effects);
  }

  // ------------------------------------------------------------ faithful replies

  /** Key map replies gathered so far are the keyboard's, and `script` asks for the rest. */
  predicate KeymapReading(r: Replies, script: seq<Step>, k: Keymaps) {
    if r.version.None? then r == NO_REPLIES && script == IDENTITY_READS
    else
      && r.version == Some(VersionReply(k))
      && if r.profile.None? then r.base == [] && r.fn == [] && script == IDENTITY_READS[1..]
         else
           && r.profile == Some(ProfileReply(k))
           && |r.base| <= MATRIX_PAGES && |r.fn| <= MATRIX_PAGES && (r.fn != [] ==> |r.base| == MATRIX_PAGES)
           && r.base == MatrixPages(k.base, |r.base|) && r.fn == MatrixPages(k.fn, |r.fn|)
           && script == BaseReads(k.profile, |r.base|) + FunctionReads(|r.fn|)
  }

  function VersionReply(k: Keymaps): Reply {
    [0x80, k.firmware % 256, k.firmware / 256] + seq(61, i => 0)
  }

  function ProfileReply(k: Keymaps): Reply {
    [0x85, k.profile] + seq(62, i => 0)
  }

  lemma {:induction false} KeymapReadingStep(r: Replies, script: seq<Step>, d: Device, reply: Reply)
    requires |d.macros| == MACRO_SLOTS
    requires KeymapReading(r, script, d.keymaps) && script != []
    ensures script[0].Exchange? && ReplyTo(d, script[0].request).Some?
    ensures ReplyTo(d, script[0].request) == Some(reply) ==>
      var stored := Store(r, script[0].tag, reply);
      stored.Some? && KeymapReading(stored.value, script[1..] + FollowUp(script[0].tag, reply), d.keymaps)
  {
    var k := d.keymaps;
    if r.version.Some? && r.profile.Some? {
      if |r.base| < MATRIX_PAGES {
        assert script[0] == BaseReads(k.profile, |r.base|)[0];
        assert script[1..] + [] == BaseReads(k.profile, |r.base| + 1) + FunctionReads(|r.fn|);
        assert MatrixPages(k.base, |r.base|) + [MatrixPage(k.base, |r.base|)] == MatrixPages(k.base, |r.base| + 1);
      } else {
        assert BaseReads(k.profile, |r.base|) == [];
        assert script[0] == FunctionReads(|r.fn|)[0];
        assert script[1..] + [] == [] + FunctionReads(|r.fn| + 1);
        assert MatrixPages(k.fn, |r.fn|) + [MatrixPage(k.fn, |r.fn|)] == MatrixPages(k.fn, |r.fn| + 1);
      }
    }
  }

  lemma {:induction false} KeymapReadingDone(r: Replies, script: seq<Step>, k: Keymaps)
    requires KeymapReading(r, script, k)
    ensures KeymapSnapshot(r) == if script == [] then Some(k) else None
  {
    if r.profile.Some? && script == [] {
      assert |BaseReads(k.profile, |r.base|)| == 0 && |FunctionReads(|r.fn|)| == 0;
      MatrixPagesRoundTrip(k.base);
      MatrixPagesRoundTrip(k.fn);
    }
  }

  predicate MacroReading(r: Replies, script: seq<Step>, number: Byte, image: MacroImage) {
    var count := |r.macroPages|;
    && number < MACRO_SLOTS && count <= MACRO_PAGES && script == MacroReads(number, count)
    && forall i :: 0 <= i < count ==> r.macroPages[i] == MacroReadPage(image, i)
  }

  function SettingsPages(s: Settings): (pages: seq<Reply>)
    ensures |pages| == 4
  {
    [s.debounce, s.autoOs, s.sleep, s.options]
  }

  predicate SettingsReading(r: Replies, script: seq<Step>, s: Settings) {
    var count := |r.settings|;
    count <= 4 && script == SettingReads(count) && r.settings == SettingsPages(s)[..count]
  }

  function PicturePage(colors: Picture, page: nat): Reply
    requires page < PICTURE_PAGES
  {
    colors[64 * page..64 * page + 64]
  }

  predicate PictureReading(r: Replies, script: seq<Step>, colors: Picture) {
    var count := |r.picture|;
    && count <= PICTURE_PAGES && script == PictureReads(count)
    && forall i :: 0 <= i < count ==> r.picture[i] == PicturePage(colors, i)
  }

  lemma {:induction false} MacroReadingStep(r: Replies, script: seq<Step>, number: Byte, d: Device, reply: Reply)
    requires |d.macros| == MACRO_SLOTS && number < MACRO_SLOTS && MacroReading(r, script, number, d.macros[number]) && script != []
    ensures script[0].Exchange? && FollowUp(script[0].tag, reply) == []
    ensures ReplyTo(d, script[0].request) == Some(reply) ==>
      var stored := Store(r, script[0].tag, reply);
      stored.Some? && stored.value == r.(macroPages := stored.value.macroPages) && MacroReading(stored.value, script[1..], number, d.macros[number])
  {
    assert script[1..] == MacroReads(number, |r.macroPages| + 1);
  }

  lemma {:induction false} SettingsReadingStep(r: Replies, script: seq<Step>, d: Device, reply: Reply)
    requires |d.macros| == MACRO_SLOTS && ValidSettings(d.settings) && SettingsReading(r, script, d.settings) && script != []
    ensures script[0].Exchange? && FollowUp(script[0].tag, reply) == []
    ensures ReplyTo(d, script[0].request) == Some(reply) ==>
      var stored := Store(r, script[0].tag, reply);
      stored.Some? && SettingsReading(stored.value, script[1..], d.settings)
  {
    var count, pages := |r.settings|, SettingsPages(d.settings);
    assert script[1..] == SettingReads(count + 1);
    assert pages[..count] + [pages[count]] == pages[..count + 1];
  }

  lemma {:induction false} PictureReadingStep(r: Replies, script: seq<Step>, d: Device, reply: Reply)
    requires |d.macros| == MACRO_SLOTS && PictureReading(r, script, d.picture) && script != []
    ensures script[0].Exchange? && FollowUp(script[0].tag, reply) == []
    ensures ReplyTo(d, script[0].request) == Some(reply) ==>
      var stored := Store(r, script[0].tag, reply);
      stored.Some? && stored.value == r.(picture := stored.value.picture) && PictureReading(stored.value, script[1..], d.picture)
  {
    assert script[1..] == PictureReads(|r.picture| + 1);
  }

  lemma {:induction false} MacroReadingDone(r: Replies, number: Byte, image: MacroImage)
    requires MacroReading(r, [], number, image)
    ensures MacroBytes(r) == Some(image)
  {
    assert |MacroReads(number, |r.macroPages|)| == 0;
    assert Joined(r.macroPages) == image;
  }

  lemma {:induction false} PictureReadingDone(r: Replies, colors: Picture)
    requires PictureReading(r, [], colors)
    ensures PictureColors(r) == Some(colors)
  {
    assert |PictureReads(|r.picture|)| == 0;
    assert Joined(r.picture) == colors;
  }

  lemma {:induction false} SettingsReadingDone(r: Replies, s: Settings)
    requires SettingsReading(r, [], s) && ValidSettings(s)
    ensures DecodeSettings(r.settings) == Some(s)
  {
    assert |SettingReads(|r.settings|)| == 0;
    assert r.settings == SettingsPages(s);
  }
}
