/** What the worker does with each command, and that a scan which nothing disturbs ends with
    every slot known. */
module OccupancyScans {
  import opened Wrappers
  import opened EditorLifecycle
  import opened MacroProgram
  import opened MacroEditing
  import opened MacroLibrary
  import opened SessionModel
  import opened SessionSafety
  import opened DeviceWorker
  import opened Occupancy
  import opened OccupancyHonesty

  // ------------------------------------------------------------ one command

  /** A command is refused exactly while host lighting holds the device, or when it belongs to
      no connection or to another than the active one, or is not newer than the last command
      that was let through. A refused one reaches no device and is answered at once as not
      attempted; any other is executed once and answered once with what the device reported,
      a scan request excepted, which only replaces the scan under way. Besides, a scan that was
      under way is answered as failed exactly when it is replaced or a setter may have run. */
  lemma {:induction false} CommandsAnsweredOnce(w: Worker, d: Device, active: nat, hostPending: bool, x: Command, act: Act)
    ensures var step := Handle(w, d, active, hostPending, x, act);
      var refused := hostPending || x.generation == 0 || x.generation != active
                     || (w.latest.Some? && (x.generation < w.latest.value.0
                                            || (x.generation == w.latest.value.0 && x.operation <= w.latest.value.1)));
      if refused then step == Step(w, d, [Completion(x.generation, x.operation, RejectedReport(x.payload, NotAttempted))])
      else
        && step.worker.latest == Some((x.generation, x.operation))
        && (if x.payload.ReadCatalog? then
              && step.device == d && step.worker.catalog == Some(Catalog(x.generation, x.operation, x.payload.slots, []))
              && step.sent ==
                   if w.catalog.None? then []
                   else [Completion(w.catalog.value.generation, w.catalog.value.operation, CatalogDone(None))]
            else
              && step.device == act.after && step.sent != [] && step.sent[0] == Completion(x.generation, x.operation, act.report)
              && (if w.catalog.Some? && step.worker.catalog.None?
                  then step.sent[1..] == [Completion(w.catalog.value.generation, w.catalog.value.operation, CatalogDone(None))]
                  else step.worker.catalog == w.catalog && |step.sent| == 1)
              && (w.catalog.Some? ==> (step.worker.catalog.None? <==> MayHaveWritten(act.report))))
  {
  }

  /** A macro write that was attempted, or any other that was attempted and failed. */
  predicate MayHaveWritten(report: Report) {
    match report
    case MacroDone(_, result) => result.Apply? && result.applied != Failure(NotAttempted)
    case PlainDone(_, result) => result.Apply? && result.applied.Failure? && result.applied.error != NotAttempted
    case ArchiveDone(result) => result.Apply? && result.applied.Failure? && result.applied.error != NotAttempted
    case CatalogDone(_) => false
  }

  /** The answer to a command that was refused names its feature and claims nothing. */
  lemma {:induction false} RejectionsNameTheirCommand(x: Command)
    ensures var r := RejectionOf(x, NotAttempted);
      && r.generation == x.generation && r.operation == x.operation
      && (match x.payload
          case ReadPlain(p) => r.report == PlainDone(p, Read(None))
          case ApplyPlain(p, _, _) => r.report == PlainDone(p, Apply(Failure(NotAttempted)))
          case ReadMacro(slot) => r.report == MacroDone(slot, Read(None))
          case ApplyMacro(before, _) => r.report == MacroDone(before.slot, Apply(Failure(NotAttempted)))
          case ReadArchive => r.report == ArchiveDone(Read(None))
          case ReadCatalog(_) => r.report == CatalogDone(None))
  {
  }

  // ------------------------------------------------------------ every answer of every run

  /** One turn of the worker: a command from its queue, a slot of its scan, or the device given
      up to host lighting. */
  datatype Turn =
    | Takes(active: nat, hostPending: bool, command: Command, act: Act)
    | Scans(active: nat, cancelled: nat, read: Option<MacroSnapshot>)
    | Yields(active: nat, token: (nat, nat))

  function Turned(w: Worker, d: Device, t: Turn): DeviceWorker.Step {
    match t
    case Takes(active, hostPending, command, act) => Handle(w, d, active, hostPending, command, act)
    case Scans(active, cancelled, read) => ScanOn(w, d, active, cancelled, read)
    case Yields(active, token) => HostTakes(w, d, active, token)
  }

  /** The worker after a whole run, with everything it sent. */
  function TurnedAll(w: Worker, d: Device, turns: seq<Turn>): DeviceWorker.Step
    decreases |turns|
  {
    if turns == [] then DeviceWorker.Step(w, d, [])
    else
      var first := Turned(w, d, turns[0]);
      var rest := TurnedAll(first.worker, first.device, turns[1..]);
      rest.(sent := first.sent + rest.sent)
  }

  function NumbersOf(x: Completion): multiset<(nat, nat)> {
    multiset{(x.generation, x.operation)}
  }

  function Answered(sent: seq<Completion>): multiset<(nat, nat)> {
    if sent == [] then multiset{} else NumbersOf(sent[0]) + Answered(sent[1..])
  }

  function AskedBy(t: Turn): multiset<(nat, nat)> {
    if t.Takes? then multiset{(t.command.generation, t.command.operation)} else multiset{}
  }

  function Asked(turns: seq<Turn>): multiset<(nat, nat)> {
    if turns == [] then multiset{} else AskedBy(turns[0]) + Asked(turns[1..])
  }

  function UnderWay(w: Worker): multiset<(nat, nat)> {
    if w.catalog.Some? then multiset{(w.catalog.value.generation, w.catalog.value.operation)} else multiset{}
  }

  lemma {:induction false} AnsweredAppend(a: seq<Completion>, b: seq<Completion>)
    ensures Answered(a + b) == Answered(a) + Answered(b)
    decreases |a|
  {
    if a == [] {
      assert a + b == b;
    } else {
      assert (a + b)[1..] == a[1..] + b;
      AnsweredAppend(a[1..], b);
    }
  }

  lemma {:induction false} FewAnswers(a: Completion, b: Completion)
    ensures Answered([]) == multiset{} && Answered([a]) == NumbersOf(a) && Answered([a] + [b]) == NumbersOf(a) + NumbersOf(b)
  {
    assert [a][1..] == [];
    AnsweredAppend([a], [b]);
  }

  lemma {:induction false} CommandAnswers(w: Worker, d: Device, active: nat, hostPending: bool, x: Command, act: Act)
    ensures var step := Handle(w, d, active, hostPending, x, act);
      Answered(step.sent) + UnderWay(step.worker) == multiset{(x.generation, x.operation)} + UnderWay(w)
  {
    hide Answered, UnderWay, Ended, Stale, InvalidatesCatalog, RejectedReport;
    var done := Completion(x.generation, x.operation, act.report);
    var step := Handle(w, d, active, hostPending, x, act);
    EndedAnswers(w);
    FewAnswers(done, done);
    FewAnswers(RejectionOf(x, NotAttempted), done);
    AnsweredAppend([done], Ended(w));
    SameScan(w, step.worker);
    if hostPending || Stale(w, active, (x.generation, x.operation)) {
      assert step.sent == [RejectionOf(x, NotAttempted)] && step.worker == w;
    } else if x.payload.ReadCatalog? {
      assert step.sent == Ended(w);
    } else if InvalidatesCatalog(act.report) {
      assert step.sent == [done] + Ended(w) && step.worker.catalog.None?;
    } else {
      assert step.sent == [done] && step.worker.catalog == w.catalog;
    }
  }

  /** A scan owes one answer under its own numbers, and no scan owes none. */
  lemma {:induction false} SameScan(w: Worker, t: Worker)
    ensures w.catalog == t.catalog ==> UnderWay(w) == UnderWay(t)
    ensures t.catalog.None? ==> UnderWay(t) == multiset{}
    ensures t.catalog.Some? ==> UnderWay(t) == multiset{(t.catalog.value.generation, t.catalog.value.operation)}
  {
  }

  lemma {:induction false} EndedAnswers(w: Worker)
    ensures Answered(Ended(w)) == UnderWay(w)
  {
  }

  lemma {:induction false} OtherTurnsAnswer(w: Worker, d: Device, t: Turn)
    requires !t.Takes?
    ensures var step := Turned(w, d, t); Answered(step.sent) + UnderWay(step.worker) == UnderWay(w)
  {
    hide Answered, Stale;
    if w.catalog.Some? {
      FewAnswers(Finish(w.catalog.value, None), Finish(w.catalog.value, None));
      FewAnswers(Finish(w.catalog.value, Some(w.catalog.value.snapshots)), Finish(w.catalog.value, None));
    }
    assert Answered([]) == multiset{} by { NoAnswers(); }
  }

  lemma {:induction false} NoAnswers()
    ensures Answered([]) == multiset{}
  {
  }

  lemma {:induction false} TurnAnswers(w: Worker, d: Device, t: Turn)
    ensures var step := Turned(w, d, t); Answered(step.sent) + UnderWay(step.worker) == AskedBy(t) + UnderWay(w)
  {
    hide Answered, Handle;
    if t.Takes? {
      CommandAnswers(w, d, t.active, t.hostPending, t.command, t.act);
    } else {
      OtherTurnsAnswer(w, d, t);
    }
  }

  /** Every command the worker ever takes is answered exactly once, under its own numbers,
      whatever it asks for and whatever becomes of it; only a scan may still owe its answer,
      and at most one does. */
  lemma {:induction false} EveryCommandIsAnsweredOnce(w: Worker, d: Device, turns: seq<Turn>)
    ensures var step := TurnedAll(w, d, turns);
      Answered(step.sent) + UnderWay(step.worker) == Asked(turns) + UnderWay(w) && |UnderWay(step.worker)| <= 1
    decreases |turns|
  {
    hide Turned, UnderWay, AskedBy;
    AtMostOne(TurnedAll(w, d, turns).worker);
    if turns == [] {
      NoAnswers();
    } else {
      var first := Turned(w, d, turns[0]);
      TurnAnswers(w, d, turns[0]);
      EveryCommandIsAnsweredOnce(first.worker, first.device, turns[1..]);
      var rest := TurnedAll(first.worker, first.device, turns[1..]);
      AnsweredAppend(first.sent, rest.sent);
      Balance(Answered(first.sent), Answered(rest.sent), UnderWay(w), UnderWay(first.worker), UnderWay(rest.worker),
              AskedBy(turns[0]), Asked(turns[1..]));
    }
  }

  lemma {:induction false} AtMostOne(w: Worker)
    ensures |UnderWay(w)| <= 1
  {
  }

  /** Two balanced books are balanced together. */
  lemma {:induction false} Balance<T>(a: multiset<T>, b: multiset<T>, start: multiset<T>, middle: multiset<T>, end: multiset<T>,
                                      x: multiset<T>, y: multiset<T>)
    requires a + middle == x + start && b + end == y + middle
    ensures (a + b) + end == (x + y) + start
  {
    forall t: T
      ensures ((a + b) + end)[t] == ((x + y) + start)[t]
    {
      assert (a + middle)[t] == (x + start)[t] && (b + end)[t] == (y + middle)[t];
    }
  }

  /** A turn of a scan that is current and not cancelled reads the next slot and goes on; the
      scan ends with what it read once every slot was, and as failed at the first slot that
      could not be read, or when it is neither. It never touches the device. */
  lemma {:induction false} ScansGoOnExactly(w: Worker, d: Device, active: nat, cancelled: nat, read: Option<MacroSnapshot>)
    requires w.catalog.Some?
    ensures var step, scan := ScanOn(w, d, active, cancelled, read), w.catalog.value;
      var wanted := scan.generation == active && scan.operation > cancelled;
      var whole := |scan.snapshots| >= |scan.slots|;
      && step.device == d && step.worker.latest == w.latest
      && (step.worker.catalog.Some? <==> wanted && !whole && read.Some?)
      && (step.worker.catalog.Some? ==>
            step.sent == [] && step.worker.catalog.value == scan.(snapshots := scan.snapshots + [read.value]))
      && (step.worker.catalog.None? ==>
            step.sent == [Completion(scan.generation, scan.operation,
                                     CatalogDone(if wanted && whole then Some(scan.snapshots) else None))])
  {
  }

  // ------------------------------------------------------------ a whole scan

  /** The device shows each of these slots as it holds it. */
  predicate Shows(d: Device, slots: seq<string>, snapshots: seq<MacroSnapshot>) {
    && |snapshots| == |slots|
    && forall i :: 0 <= i < |slots| ==>
         slots[i] in d && snapshots[i].slot == slots[i] && snapshots[i].content == d[slots[i]]
  }

  function Reads(snapshots: seq<MacroSnapshot>): (events: seq<Occupancy.Event>)
    ensures |events| == |snapshots|
  {
    seq(|snapshots|, i requires 0 <= i < |snapshots| => Occupancy.Event.Scan(Some(snapshots[i])))
  }

  const IDLE_ACT := Act(CatalogDone(None), map[])

  /** The request, the worker's turns for it and its delivery, with nothing in between. */
  function ScanEvents(snapshots: seq<MacroSnapshot>): seq<Occupancy.Event> {
    [Issue(CallCatalog), Dequeue(false, IDLE_ACT)] + Reads(snapshots) + [Occupancy.Event.Scan(None), Deliver]
  }

  /** A quiet system whose session may ask for a scan. */
  predicate Quiet(c: Config, s: System) {
    && s.queue == [] && s.responses == [] && s.worker.catalog.None?
    && s.session.host.Idle? && s.session.recorder.None? && s.session.library.scan.None?
    && s.session.connection == Some(s.active) && s.active > 0
    && s.session.operation + 1 < COUNTER_LIMIT && s.cancelled <= s.session.operation
    && !NotAfter((s.active, s.session.operation + 1), s.worker.latest)
    && Distinct(c.caps.slots) && s.session.library.slots.Keys == set x | x in c.caps.slots
  }

  /** The worker in the middle of the scan. */
  predicate Scanning(c: Config, s: System, snapshots: seq<MacroSnapshot>, done: nat, first: System) {
    && done <= |snapshots|
    && s == first.(worker := s.worker, session := s.session)
    && s.session == first.session.(operation := first.session.operation + 1,
                                   library := BeginScan(first.session.library, first.active, first.session.operation + 1))
    && s.worker.catalog == Some(Catalog(first.active, first.session.operation + 1, c.caps.slots, snapshots[..done]))
  }

  lemma {:induction false} RunSplits(c: Config, s: System, a: seq<Occupancy.Event>, b: seq<Occupancy.Event>)
    ensures RunAll(c, s, a + b) == RunAll(c, RunAll(c, s, a), b)
    decreases |a|
  {
    hide Next;
    if a == [] {
      assert a + b == b;
    } else {
      assert (a + b)[1..] == a[1..] + b;
      RunSplits(c, Next(c, s, a[0]), a[1..], b);
    }
  }

  lemma {:induction false} ScanBegins(c: Config, s: System, snapshots: seq<MacroSnapshot>)
    requires Quiet(c, s)
    ensures Scanning(c, RunAll(c, s, [Issue(CallCatalog), Dequeue(false, IDLE_ACT)]), snapshots, 0, s)
  {
    var asked := Next(c, s, Issue(CallCatalog));
    var begun := Next(c, asked, Dequeue(false, IDLE_ACT));
    var events := [Issue(CallCatalog), Dequeue(false, IDLE_ACT)];
    assert events[1..] == [events[1]] && events[1..][1..] == [];
    assert RunAll(c, s, events) == RunAll(c, asked, events[1..]) == RunAll(c, begun, []);
    assert [] + s.queue == [];
    assert asked.queue == [Command(s.active, s.session.operation + 1, ReadCatalog(c.caps.slots))];
    assert s.responses + [] == [];
    assert snapshots[..0] == [];
  }

  lemma {:induction false} ScanReads(c: Config, s: System, snapshots: seq<MacroSnapshot>, done: nat, first: System)
    requires Scanning(c, s, snapshots, done, first) && Quiet(c, first) && |snapshots| == |c.caps.slots|
    ensures Scanning(c, RunAll(c, s, Reads(snapshots)[done..]), snapshots, |snapshots|, first)
    decreases |snapshots| - done
  {
    var events := Reads(snapshots)[done..];
    if done < |snapshots| {
      var next := Next(c, s, events[0]);
      assert events[1..] == Reads(snapshots)[done + 1..];
      assert snapshots[..done] + [snapshots[done]] == snapshots[..done + 1];
      assert s.responses + [] == s.responses;
      ScanReads(c, next, snapshots, done + 1, first);
    } else {
      assert events == [];
    }
  }

  lemma {:induction false} ScanDelivers(c: Config, s: System, snapshots: seq<MacroSnapshot>, first: System)
    requires Scanning(c, s, snapshots, |snapshots|, first) && Quiet(c, first) && |snapshots| == |c.caps.slots|
    ensures var after := RunAll(c, s, [Occupancy.Event.Scan(None), Deliver]);
      && after.session.library == AcceptCatalog(s.session.library, c.caps, Some(snapshots)).0
      && after.device == first.device && after.queue == [] && after.responses == []
  {
    hide AcceptCatalog;
    var events := [Occupancy.Event.Scan(None), Deliver];
    var ended := Next(c, s, events[0]);
    var after := Next(c, ended, Deliver);
    assert events[1..] == [Deliver] && events[1..][1..] == [];
    assert RunAll(c, s, events) == RunAll(c, ended, events[1..]) == RunAll(c, after, []);
    assert snapshots[..|snapshots|] == snapshots;
    assert ended.responses == [Completion(first.active, first.session.operation + 1, CatalogDone(Some(snapshots)))];
    assert ended.responses[1..] == [];
    assert s.queue + [] == [];
  }

  /** A scan that nothing disturbs, against a keyboard that answers every read, ends with every
      slot known, and shown as the keyboard holds it. */
  lemma {:induction false} UndisturbedScansShowAll(c: Config, s: System, snapshots: seq<MacroSnapshot>)
    requires Quiet(c, s) && Shows(s.device, c.caps.slots, snapshots)
    requires forall x | x in snapshots :: ValidSnapshotFor(c.caps, x, x.slot)
    ensures var after := RunAll(c, s, ScanEvents(snapshots));
      && after.device == s.device && !after.session.library.failed && after.session.library.scan.None?
      && forall slot | slot in c.caps.slots ::
           && slot in s.device && slot in after.session.library.slots && after.session.library.slots[slot] != Unknown
           && Tells(after.session.library.slots[slot], s.device[slot])
  {
    hide Next, AcceptCatalog, ValidSnapshotFor, Tells;
    var head, tail := [Issue(CallCatalog), Dequeue(false, IDLE_ACT)], [Occupancy.Event.Scan(None), Deliver];
    RunSplits(c, s, head + Reads(snapshots), tail);
    RunSplits(c, s, head, Reads(snapshots));
    ScanBegins(c, s, snapshots);
    var begun := RunAll(c, s, head);
    assert Reads(snapshots)[0..] == Reads(snapshots);
    ScanReads(c, begun, snapshots, 0, s);
    var read := RunAll(c, begun, Reads(snapshots));
    ScanDelivers(c, read, snapshots, s);
    EverySlotOnce(c, s, snapshots);
    forall slot | slot in c.caps.slots
      ensures var after := RunAll(c, s, ScanEvents(snapshots)).session.library;
        slot in s.device && slot in after.slots && after.slots[slot] != Unknown && Tells(after.slots[slot], s.device[slot])
    {
      var i :| 0 <= i < |c.caps.slots| && c.caps.slots[i] == slot;
      assert snapshots[i] in snapshots && snapshots[i].slot == slot;
      assert slot in s.session.library.slots;
      CatalogShows(read.session.library, c.caps, Some(snapshots), slot);
    }
    if c.caps.slots != [] {
      assert c.caps.slots[0] in s.session.library.slots;
      CatalogShows(read.session.library, c.caps, Some(snapshots), c.caps.slots[0]);
    } else {
      NothingToScan(read.session.library, c.caps, snapshots);
    }
  }

  lemma {:induction false} NothingToScan(lib: Library, caps: Capabilities, snapshots: seq<MacroSnapshot>)
    requires lib.scan.Some? && snapshots == [] && |lib.slots| == 0
    ensures var after := AcceptCatalog(lib, caps, Some(snapshots)).0; !after.failed && after.scan.None?
  {
  }

  lemma {:induction false} EverySlotOnce(c: Config, s: System, snapshots: seq<MacroSnapshot>)
    requires Quiet(c, s) && Shows(s.device, c.caps.slots, snapshots)
    ensures |snapshots| == |s.session.library.slots| && DistinctSlots(snapshots)
  {
    DistinctCount(c.caps.slots);
    assert |s.session.library.slots| == |s.session.library.slots.Keys|;
  }

  lemma {:induction false} DistinctCount(ids: seq<string>)
    requires Distinct(ids)
    ensures |set x | x in ids| == |ids|
    decreases |ids|
  {
    if ids != [] {
      DistinctCount(ids[1..]);
      assert ids[0] !in ids[1..];
      assert (set x | x in ids) == (set x | x in ids[1..]) + {ids[0]};
    }
  }

  /** From the very start: connect, and the first scan shows every slot. */
  lemma {:induction false} FirstScanShowsAll(c: Config, d: Device, snapshots: seq<MacroSnapshot>)
    requires Distinct(c.caps.slots) && Shows(d, c.caps.slots, snapshots)
    requires forall x | x in snapshots :: ValidSnapshotFor(c.caps, x, x.slot)
    ensures var after := RunAll(c, Start(c, d), [Issue(CallConnect), SetActive(1)] + ScanEvents(snapshots));
      forall slot | slot in c.caps.slots ::
        && slot in d && slot in after.session.library.slots && after.session.library.slots[slot] != Unknown
        && Tells(after.session.library.slots[slot], d[slot])
  {
    hide ScanEvents, ValidSnapshotFor, Tells, Shows;
    var head := [Issue(CallConnect), SetActive(1)];
    RunSplits(c, Start(c, d), head, ScanEvents(snapshots));
    ConnectedIsQuiet(c, d);
    UndisturbedScansShowAll(c, RunAll(c, Start(c, d), head), snapshots);
  }

  lemma {:induction false} ConnectedIsQuiet(c: Config, d: Device)
    requires Distinct(c.caps.slots)
    ensures var s := RunAll(c, Start(c, d), [Issue(CallConnect), SetActive(1)]); Quiet(c, s) && s.device == d
  {
    var events := [Issue(CallConnect), SetActive(1)];
    var s0 := Start(c, d);
    var s1 := Next(c, s0, events[0]);
    var s2 := Next(c, s1, SetActive(1));
    assert events[1..] == [SetActive(1)] && events[1..][1..] == [];
    assert RunAll(c, s0, events) == RunAll(c, s1, events[1..]) == RunAll(c, s2, []);
    assert s0.queue + [] == [];
  }
}
