/** Lighting and picture transactions: written without a readback. A reported success is
    what the keyboard then holds, and nothing else is ever touched. */
module TransportVerdicts {
  import opened Wrappers
  import opened SettingsCodec
  import opened Nia87
  import opened BrowserPlanner
  import opened BrowserTermination
  import opened BrowserWorld
  import opened ImageVerdicts

  datatype Aim = LightingAim(lighting: Reply) | PictureAim(picture: Picture)

  function PlanOf(a: Aim): Plan {
    match a
    case LightingAim(lighting) => ApplyingLighting(lighting)
    case PictureAim(picture) => ApplyingPicture(picture)
  }

  function Reached(a: Aim, d: Device): Device {
    match a
    case LightingAim(lighting) => d.(lighting := lighting)
    case PictureAim(picture) => d.(picture := picture)
  }

  function Verdict(a: Aim, recovery: Recovery): Completion {
    match a
    case LightingAim(_) => LightingDone(Apply(Failure(recovery)))
    case PictureAim(_) => PictureDone(Apply(Failure(recovery)))
  }

  function Granted(a: Aim): Completion {
    match a
    case LightingAim(lighting) => LightingDone(Apply(Success(lighting)))
    case PictureAim(picture) => PictureDone(Apply(Success(picture)))
  }

  predicate RequestFits(a: Aim, request: Request) {
    if a.LightingAim? then request.ApplyLighting? else request.ApplyPicture?
  }

  /** `now` differs from `d` at most in the aimed section. */
  predicate OnlySection(a: Aim, d: Device, now: Device) {
    if a.LightingAim? then now == d.(lighting := now.lighting) else now == d.(picture := now.picture)
  }

  predicate OnSection(a: Aim, step: Step) {
    step.Write? && if a.LightingAim? then step.report.Lighting? else step.report.PicturePage?
  }

  /** What the completion claims of the keyboard that started as `d`. */
  predicate Truthful(a: Aim, payload: Completion, d: Device, now: Device, attempted: bool) {
    || (payload == Granted(a) && now == Reached(a, d))
    || (payload == Verdict(a, NotAttempted) && now == d && !attempted)
    || (payload == Verdict(a, Unverified) && attempted && OnlySection(a, d, now))
  }

  /** Under way with `pending` still to come, the shown step first. */
  ghost predicate Holding(w: World, a: Aim, d: Device, pending: seq<Step>) {
    && pending != [] && w.op.current == pending[0] && w.op.queue == pending[1..]
    && w.op.plan == PlanOf(a) && RequestFits(a, w.op.request) && w.op.setterAttempted == w.attempted
    && (forall i | 0 <= i < |pending| :: OnSection(a, pending[i]) || (i == 0 && pending[i].Backup?))
    && (pending[0].Backup? || !w.attempted ==> w.device == d && !w.attempted)
    && LandAll(w.device, pending) == Reached(a, d) && OnlySection(a, d, w.device)
  }

  ghost predicate Stands(w: World, a: Aim, d: Device) {
    if w.op.current.Complete? then Truthful(a, w.op.current.payload, d, w.device, w.attempted)
    else Holding(w, a, d, [w.op.current] + w.op.queue)
  }

  ghost predicate OnCourse(w: World, a: Aim) {
    w.op.current.Complete? ==> w.op.current.payload == Granted(a)
  }

  lemma {:induction false} SectionLands(a: Aim, d: Device, now: Device, step: Step)
    requires OnlySection(a, d, now) && OnSection(a, step)
    ensures OnlySection(a, d, Land(now, step.report))
  {
  }

  lemma {:induction false} StepStands(w: World, e: Effect, a: Aim, d: Device)
    requires |w.device.macros| == MACRO_SLOTS && Stands(w, a, d) && Honest(w.device, w.op.current, e)
    ensures Stands(Turn(w, e), a, d)
    ensures OnCourse(w, a) && Smooth(w.op.current, e) ==> OnCourse(Turn(w, e), a)
  {
    hide Land, LandAll;
    if !w.op.current.Complete? {
      var pending := [w.op.current] + w.op.queue;
      assert pending[1..] == w.op.queue;
      var step := w.op.current;
      if step.Write? { SectionLands(a, d, w.device, step); }
      LandsFirst(w.device, pending);
      if e.response == Done(None) {
        GoesOn(w, e, a, d);
      } else {
        GivesUp(w, e, a, d);
      }
    }
  }

  lemma {:induction false} LandsFirst(d: Device, steps: seq<Step>)
    requires steps != []
    ensures LandAll(d, steps) == LandAll(if steps[0].Write? then Land(d, steps[0].report) else d, steps[1..])
    ensures |steps| == 1 ==> LandAll(d, steps) == if steps[0].Write? then Land(d, steps[0].report) else d
  {
  }

  /** A failed step ends the operation; how depends on whether a setter may have been sent. */
  lemma {:induction false} FailureEnds(op: Operation, response: Response, a: Aim)
    requires op.plan == PlanOf(a) && RequestFits(a, op.request) && (op.current.Write? || op.current.Backup?)
    requires response != Done(None)
    ensures var sent := op.setterAttempted || (op.current.Write? && response != NEVER_SENT);
      Advance(op, response).current
        == Complete(Verdict(a, if op.current.Backup? || !sent then NotAttempted else Recovery.Unverified))
  {
  }

  /** An acknowledged step uncovers the next one, or the success. */
  lemma {:induction false} SuccessGoesOn(op: Operation, a: Aim)
    requires op.plan == PlanOf(a) && (op.current.Write? || op.current.Backup?)
    ensures var after := Advance(op, Done(None));
      if op.queue == [] then after.current == Complete(Granted(a))
      else after == op.(current := op.queue[0], queue := op.queue[1..], mayYield := after.mayYield,
                        setterAttempted := op.setterAttempted || op.current.Write?)
  {
  }

  lemma {:induction false} GoesOn(w: World, e: Effect, a: Aim, d: Device)
    requires |w.device.macros| == MACRO_SLOTS && Holding(w, a, d, [w.op.current] + w.op.queue)
    requires Honest(w.device, w.op.current, e) && e.response == Done(None)
    ensures Stands(Turn(w, e), a, d) && OnCourse(Turn(w, e), a)
  {
    hide Land, LandAll, Advance;
    var pending := [w.op.current] + w.op.queue;
    assert pending[0] == w.op.current;
    assert pending[1..] == w.op.queue;
    if w.op.current.Write? { SectionLands(a, d, w.device, w.op.current); }
    LandsFirst(w.device, pending);
    SuccessGoesOn(w.op, a);
    if w.op.queue != [] {
      var after := Turn(w, e);
      var rest := [after.op.current] + after.op.queue;
      assert rest == w.op.queue;
      assert forall i | 0 <= i < |rest| :: rest[i] == pending[i + 1];
    }
  }

  lemma {:induction false} GivesUp(w: World, e: Effect, a: Aim, d: Device)
    requires |w.device.macros| == MACRO_SLOTS && Holding(w, a, d, [w.op.current] + w.op.queue)
    requires Honest(w.device, w.op.current, e) && e.response != Done(None)
    ensures Stands(Turn(w, e), a, d) && !Smooth(w.op.current, e)
  {
    hide Land, LandAll, Advance;
    var pending := [w.op.current] + w.op.queue;
    assert pending[0] == w.op.current;
    if w.op.current.Write? { SectionLands(a, d, w.device, w.op.current); }
    FailureEnds(w.op, e.response, a);
  }

  lemma {:induction false} PlayStands(w: World, effects: seq<Effect>, a: Aim, d: Device)
    requires |w.device.macros| == MACRO_SLOTS && Stands(w, a, d) && HonestPlay(w, effects)
    ensures Stands(Play(w, effects), a, d)
    ensures OnCourse(w, a) && SmoothPlay(w, effects) ==> OnCourse(Play(w, effects), a)
    decreases |effects|
  {
    hide Stands, OnCourse, Turn;
    if effects != [] {
      StepStands(w, effects[0], a, d);
      PlayStands(Turn(w, effects[0]), effects[1..], a, d);
    }
  }

  // ------------------------------------------------------------ openings

  /** The seven picture pages carry every byte of the picture. */
  lemma {:induction false} PicturePagesLand(d: Device, colors: Picture, page: nat)
    requires page <= PICTURE_WRITE_PAGES && d.picture[..PicturePageStart(page)] == colors[..PicturePageStart(page)]
    ensures LandAll(d, PictureWrites(colors, page)) == d.(picture := colors)
    decreases PICTURE_WRITE_PAGES - page
  {
    if page < PICTURE_WRITE_PAGES {
      var start := PicturePageStart(page);
      var end := PicturePageStart(page + 1);
      var data := colors[start..end];
      var next := Land(d, PicturePage(page, data));
      assert next == d.(picture := Splice(d.picture, start, data));
      assert next.picture[..end] == colors[..end];
      assert PictureWrites(colors, page)[0].report == PicturePage(page, data);
      assert PictureWrites(colors, page)[1..] == PictureWrites(colors, page + 1);
      PicturePagesLand(next, colors, page + 1);
    } else {
      assert d.picture == d.picture[..PICTURE_LEN] == colors[..PICTURE_LEN] == colors;
    }
  }

  function PicturePageStart(page: nat): nat {
    if page == PICTURE_WRITE_PAGES then PICTURE_LEN else page * MACRO_PAGE_DATA
  }

  lemma {:induction false} PictureSteps(colors: Picture, page: nat)
    requires page <= PICTURE_WRITE_PAGES
    ensures forall s | s in PictureWrites(colors, page) :: s.Write? && s.report.PicturePage?
    ensures page == 0 ==> PictureWrites(colors, page) != []
    decreases PICTURE_WRITE_PAGES - page
  {
    if page < PICTURE_WRITE_PAGES { PictureSteps(colors, page + 1); }
  }

  /** An operation that shows a backup with its setters queued behind it. */
  lemma {:induction false} OpensBehindBackup(w: World, a: Aim, d: Device, writes: seq<Step>)
    requires w.op.current.Backup? && w.op.queue == writes && w.op.plan == PlanOf(a) && RequestFits(a, w.op.request)
    requires !w.op.setterAttempted && !w.attempted && w.device == d
    requires writes != [] && (forall s | s in writes :: OnSection(a, s)) && LandAll(d, writes) == Reached(a, d)
    ensures Stands(w, a, d) && OnCourse(w, a)
  {
    hide Land, LandAll;
    var pending := [w.op.current] + writes;
    assert pending[1..] == writes;
    assert forall i | 0 < i < |pending| :: pending[i] == writes[i - 1] && pending[i] in writes;
    LandsFirst(d, pending);
  }

  lemma {:induction false} OpensLighting(d: Device, setter: Reply)
    requires |d.macros| == MACRO_SLOTS && d.lighting[1..8] != setter[1..8]
    ensures var w := Opening(ApplyLighting(d.lighting, Some(setter)), d);
      var a := LightingAim(Submitted(d.lighting, setter));
      Stands(w, a, d) && OnCourse(w, a)
  {
    hide Stands, OnCourse;
    var write := Write(WriteReport.Lighting(setter), 0, 500);
    LandsFirst(d, [write]);
    OpensBehindBackup(Opening(ApplyLighting(d.lighting, Some(setter)), d), LightingAim(Submitted(d.lighting, setter)), d, [write]);
  }

  lemma {:induction false} OpensPicture(d: Device, target: Picture)
    requires |d.macros| == MACRO_SLOTS && d.picture != target
    ensures var w := Opening(ApplyPicture(d.picture, Some(target)), d);
      Stands(w, PictureAim(target), d) && OnCourse(w, PictureAim(target))
  {
    hide PictureWrites, LandAll, Land, Stands, OnCourse;
    var writes := PictureWrites(target, 0);
    PictureSteps(target, 0);
    PicturePagesLand(d, target, 0);
    OpensBehindBackup(Opening(ApplyPicture(d.picture, Some(target)), d), PictureAim(target), d, writes);
  }

  /** The verdict on global lighting is true of the keyboard: success means it holds the
      submitted bytes, a refusal means nothing was sent, and no other section changes. */
  lemma {:induction false} LightingVerdictIsTrue(setter: Option<Reply>, d: Device, effects: seq<Effect>)
    requires |d.macros| == MACRO_SLOTS && HonestPlay(Opening(ApplyLighting(d.lighting, setter), d), effects)
    ensures var w := Play(Opening(ApplyLighting(d.lighting, setter), d), effects);
      if setter.None? then w.op.current == Complete(LightingDone(Apply(Failure(NotAttempted)))) && w.device == d && !w.attempted
      else
        var a := LightingAim(Submitted(d.lighting, setter.value));
        && (w.op.current.Complete? ==> Truthful(a, w.op.current.payload, d, w.device, w.attempted))
        && (|effects| >= 3 ==> w.op.current.Complete?)
        && (|effects| >= 3 && SmoothPlay(Opening(ApplyLighting(d.lighting, setter), d), effects) ==>
              w.op.current == Complete(Granted(a)) && w.device == Reached(a, d))
  {
    hide Advance, HonestPlay, SmoothPlay, Play;
    var opening := Opening(ApplyLighting(d.lighting, setter), d);
    LongPlays(ApplyLighting(d.lighting, setter), d, effects);
    if setter.None? || d.lighting[1..8] == setter.value[1..8] {
      PlayFinished(opening, effects);
      if setter.Some? { assert Submitted(d.lighting, setter.value) == d.lighting; }
    } else {
      OpensLighting(d, setter.value);
      PlayStands(opening, effects, LightingAim(Submitted(d.lighting, setter.value)), d);
    }
  }

  lemma {:induction false} LongPlays(request: Request, d: Device, effects: seq<Effect>)
    ensures |effects| >= Limit(request) ==> Play(Opening(request, d), effects).op.current.Complete?
  {
    hide Play, Opening;
    if |effects| >= Limit(request) { LongPlayCompletes(request, d, effects); }
  }

  /** And likewise the verdict on a picture, written in seven pages. */
  lemma {:induction false} PictureVerdictIsTrue(target: Option<Picture>, d: Device, effects: seq<Effect>)
    requires |d.macros| == MACRO_SLOTS && HonestPlay(Opening(ApplyPicture(d.picture, target), d), effects)
    ensures var w := Play(Opening(ApplyPicture(d.picture, target), d), effects);
      if target.None? then w.op.current == Complete(PictureDone(Apply(Failure(NotAttempted)))) && w.device == d && !w.attempted
      else
        var a := PictureAim(target.value);
        && (w.op.current.Complete? ==> Truthful(a, w.op.current.payload, d, w.device, w.attempted))
        && (|effects| >= 9 ==> w.op.current.Complete?)
        && (|effects| >= 9 && SmoothPlay(Opening(ApplyPicture(d.picture, target), d), effects) ==>
              w.op.current == Complete(Granted(a)) && w.device == Reached(a, d))
  {
    hide Advance, HonestPlay, SmoothPlay, Play, PictureWrites;
    var opening := Opening(ApplyPicture(d.picture, target), d);
    LongPlays(ApplyPicture(d.picture, target), d, effects);
    if target.None? || d.picture == target.value {
      PlayFinished(opening, effects);
    } else {
      OpensPicture(d, target.value);
      PlayStands(opening, effects, PictureAim(target.value), d);
    }
  }
}
