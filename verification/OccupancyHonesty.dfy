/** In every interleaving of calls, commands, completions, scan steps and host activity with
    a keyboard that answers truthfully, the occupancy shown for a slot is never wrong. */
module OccupancyHonesty {
  import opened Wrappers
  import opened MacroEditing
  import opened MacroLibrary
  import opened SessionModel
  import opened SessionSafety
  import opened DeviceWorker
  import opened Occupancy

  // ------------------------------------------------------------ the invariant

  predicate Behind(operation: nat, queue: seq<Command>) {
    forall x | x in queue :: operation < x.operation
  }

  predicate Sorted(queue: seq<Command>, top: nat) {
    && (forall x | x in queue :: x.operation <= top)
    && forall i, j :: 0 <= i < j < |queue| ==> queue[i].operation < queue[j].operation
  }

  /** Everything the worker has begun or answered is older than everything still queued. */
  predicate Ordered(s: System) {
    && Sorted(s.queue, s.session.operation)
    && (forall r | r in s.responses :: r.operation <= s.session.operation && Behind(r.operation, s.queue))
    && (s.worker.catalog.Some? ==>
          s.worker.catalog.value.operation <= s.session.operation && Behind(s.worker.catalog.value.operation, s.queue))
  }

  predicate Writes(x: Command) {
    x.payload.ApplyMacro?
  }

  /** A queued macro write is the pending save of its slot or comes from a lost connection,
      and it is older than the scan. */
  predicate Queued(session: Session, x: Command) {
    && (!x.payload.ReadCatalog? && session.pending.Some? ==> x.operation <= session.pending.value.operation)
    && (Writes(x) ==>
          && (if PendingIs(session, x.operation) then SavingSlot(session, x.payload.before.slot) else AllUnknown(session.library))
          && (session.library.scan.Some? ==> x.operation < session.library.scan.value.operation))
  }

  predicate Current(s: System) {
    forall x | x in s.queue :: Queued(s.session, x)
  }

  predicate InQueue(queue: seq<Command>, operation: nat) {
    exists x :: x in queue && x.operation == operation
  }

  predicate Known(lib: Library, slot: string) {
    slot in lib.slots && lib.slots[slot] != Unknown
  }

  /** A slot is shown as it is, unless its own save has left the queue and is not yet
      answered. */
  predicate Shown(s: System) {
    forall slot | slot in s.session.library.slots ::
      Known(s.session.library, slot) ==>
        || HoldsFor(s.device, slot, s.session.library.slots[slot])
        || (SavingSlot(s.session, slot) && !InQueue(s.queue, s.session.pending.value.operation))
  }

  predicate TrueReport(lib: Library, d: Device, report: Report) {
    report.MacroDone? ==>
      match report.image
      case Read(None) => true
      case Read(Some(x)) => HonestSnapshot(d, report.slot, x)
      case Apply(Success(x)) => HonestSnapshot(d, report.slot, x)
      case Apply(Failure(recovery)) =>
        (recovery == Verified || recovery == NotAttempted) && Known(lib, report.slot) ==> HoldsFor(d, report.slot, lib.slots[report.slot])
  }

  ghost predicate TrueResponse(session: Session, d: Device, r: Completion) {
    && (PendingIs(session, r.operation) ==> TrueReport(session.library, d, r.report))
    && (session.library.scan.Some? && r.operation == session.library.scan.value.operation && r.report.CatalogDone? && r.report.catalog.Some? ==>
          AllHonest(d, r.report.catalog.value))
  }

  ghost predicate Reported(s: System) {
    forall r | r in s.responses :: TrueResponse(s.session, s.device, r)
  }

  ghost predicate Scanned(s: System) {
    var scan, catalog := s.session.library.scan, s.worker.catalog;
    scan.Some? && catalog.Some? && catalog.value.operation == scan.value.operation ==> AllHonest(s.device, catalog.value.snapshots)
  }

  ghost predicate Inv(c: Config, s: System) {
    && Good(c, s.session) && AtHome(s.session)
    && Ordered(s) && Current(s) && Shown(s) && Reported(s) && Scanned(s)
  }

  // ------------------------------------------------------------ calls

  lemma {:induction false} IssueKeepsOrder(s: System, t: Session, command: Option<Command>)
    requires Ordered(s) && Effects(s.session, t, command)
    ensures Ordered(Enqueue(s, t, command))
  {
    hide AllUnknown, AtHome;
    if command.Some? {
      assert forall x | x in s.queue + [command.value] :: x in s.queue || x == command.value;
    }
  }

  lemma {:induction false} IssueKeepsQueue(s: System, t: Session, command: Option<Command>)
    requires Ordered(s) && Current(s) && Effects(s.session, t, command)
    ensures Current(Enqueue(s, t, command))
  {
    var u := Enqueue(s, t, command);
    forall x | x in u.queue
      ensures Queued(t, x)
    {
      if x in s.queue {
        assert Queued(s.session, x) && x.operation <= s.session.operation;
      } else {
        assert x == command.value;
      }
    }
  }

  lemma {:induction false} IssueKeepsShown(s: System, t: Session, command: Option<Command>)
    requires Sound(s.session) && Shown(s) && Effects(s.session, t, command)
    ensures Shown(Enqueue(s, t, command))
  {
    hide Sound;
    TicketsArePast(s.session);
    var u := Enqueue(s, t, command);
    forall slot | slot in t.library.slots && Known(t.library, slot)
      ensures HoldsFor(u.device, slot, t.library.slots[slot]) || (SavingSlot(t, slot) && !InQueue(u.queue, t.pending.value.operation))
    {
      assert slot in s.session.library.slots && Known(s.session.library, slot);
      assert command.Some? ==> command.value.operation > s.session.operation;
      assert forall x | x in u.queue :: x in s.queue || (command.Some? && x == command.value);
    }
  }

  lemma {:induction false} IssueKeepsReports(s: System, t: Session, command: Option<Command>)
    requires Ordered(s) && Reported(s) && Scanned(s) && Effects(s.session, t, command)
    ensures Reported(Enqueue(s, t, command)) && Scanned(Enqueue(s, t, command))
  {
    hide AllHonest, AtHome, Behind, Sorted;
    forall r | r in s.responses
      ensures TrueResponse(t, s.device, r)
    {
      assert TrueResponse(s.session, s.device, r) && r.operation <= s.session.operation;
    }
  }

  lemma {:induction false} IssueKeeps(c: Config, s: System, call: Call)
    requires Inv(c, s)
    ensures Inv(c, Next(c, s, Issue(call)))
  {
    hide Good, AtHome, Ordered, Current, Shown, Reported, Scanned, Effects, Serve;
    GoodIsSound(c, s.session);
    ServeIsGood(c, s.session, call);
    ServeEffects(c, s.session, call);
    var reply := Serve(c, s.session, call);
    EffectsKeepHome(s.session, reply.session, reply.command);
    IssueKeepsOrder(s, reply.session, reply.command);
    IssueKeepsQueue(s, reply.session, reply.command);
    IssueKeepsShown(s, reply.session, reply.command);
    IssueKeepsReports(s, reply.session, reply.command);
  }

  lemma {:induction false} EffectsKeepHome(s: Session, t: Session, command: Option<Command>)
    requires Effects(s, t, command) && AtHome(s)
    ensures AtHome(t)
  {
    hide AtHome;
  }

  // ------------------------------------------------------------ completions

  predicate NoWrites(queue: seq<Command>) {
    forall x | x in queue :: !Writes(x)
  }

  /** What accepting a completion guarantees, in the terms the system needs: the new pending
      operation is none or the newest number, and a newly known slot is truly shown. */
  predicate Takes(s: System, t: Session, command: Option<Command>) {
    && t.operation >= s.session.operation
    && (t.library.scan.Some? ==> s.session.library.scan.Some? && t.library.scan.value.operation == s.session.library.scan.value.operation)
    && t.library.slots.Keys == s.session.library.slots.Keys
    && (forall slot | slot in t.library.slots && Known(t.library, slot) ::
          || HoldsFor(s.device, slot, t.library.slots[slot])
          || (t.library.slots[slot] == s.session.library.slots[slot] && t.pending == s.session.pending && SavingSlot(t, slot)
              && !InQueue(s.queue, t.pending.value.operation)))
    && match command
       case Some(issued) =>
         && issued.operation == s.session.operation + 1 && t.operation == issued.operation && PendingIs(t, issued.operation)
         && (issued.payload.ReadPlain? || issued.payload.ApplyPlain?)
       case None => t.pending.None? || t.pending == s.session.pending
  }

  lemma {:induction false} TakenKeepsShown(s: System, t: Session, command: Option<Command>)
    requires Sound(s.session) && Takes(s, t, command)
    ensures Shown(Enqueue(s, t, command))
  {
    hide Sound;
    TicketsArePast(s.session);
    var u := Enqueue(s, t, command);
    assert forall x | x in u.queue :: x in s.queue || (command.Some? && x == command.value);
  }

  lemma {:induction false} TakenKeepsOrder(s: System, t: Session, command: Option<Command>)
    requires Ordered(s) && Takes(s, t, command)
    ensures Ordered(Enqueue(s, t, command))
  {
    hide HoldsFor, InQueue, SavingSlot;
    if command.Some? {
      assert forall x | x in s.queue + [command.value] :: x in s.queue || x == command.value;
    }
  }

  lemma {:induction false} TakenKeepsReports(s: System, t: Session, command: Option<Command>)
    requires Ordered(s) && Reported(s) && Scanned(s) && Takes(s, t, command) && Sound(s.session)
    ensures Reported(Enqueue(s, t, command)) && Scanned(Enqueue(s, t, command))
  {
    hide AllHonest, Behind, Sorted, InQueue, Sound;
    TicketsArePast(s.session);
    forall r | r in s.responses
      ensures TrueResponse(t, s.device, r)
    {
      assert TrueResponse(s.session, s.device, r) && r.operation <= s.session.operation;
    }
  }

  lemma {:induction false} TakenKeepsQueue(s: System, t: Session, command: Option<Command>)
    requires Ordered(s) && Current(s) && Takes(s, t, command)
    requires NoWrites(s.queue) || (t.library.slots == s.session.library.slots && (t.pending != s.session.pending ==> PendingGone(s)))
    ensures Current(Enqueue(s, t, command))
  {
    hide HoldsFor, InQueue;
    var u := Enqueue(s, t, command);
    forall x | x in u.queue
      ensures Queued(t, x)
    {
      if x in s.queue {
        assert Queued(s.session, x) && x.operation <= s.session.operation;
      } else {
        assert x == command.value;
      }
    }
  }

  /** No queued macro write is the pending one. */
  predicate PendingGone(s: System) {
    forall x | x in s.queue && Writes(x) :: !PendingIs(s.session, x.operation)
  }

  lemma {:induction false} BehindMeansNoWrites(s: System, operation: nat)
    requires Current(s) && Behind(operation, s.queue)
    requires PendingIs(s.session, operation) || (s.session.library.scan.Some? && s.session.library.scan.value.operation == operation)
    ensures NoWrites(s.queue)
  {
    hide AllUnknown;
    forall x | x in s.queue
      ensures !Writes(x)
    {
      assert Queued(s.session, x) && operation < x.operation;
    }
  }

  /** An executed operation's completion: nothing older is queued, and what it reports is
      true of the keyboard. */
  lemma {:induction false} DeliveryTakes(c: Config, s: System, r: Completion)
    requires Good(c, s.session) && AtHome(s.session) && Shown(s) && Current(s)
    requires TrueResponse(s.session, s.device, r) && Behind(r.operation, s.queue)
    ensures var (t, outcome) := Accept(c, s.session, r);
      (Takes(s, t, Continued(outcome)) && NoWrites(s.queue)) || (t == s.session && Continued(outcome).None?)
  {
    hide Good, Accept, AtHome, AllHonest, AcceptCatalog, Current, Behind;
    if PendingIs(s.session, r.operation) || MatchesScan(s.session, r) { BehindMeansNoWrites(s, r.operation); }
    AcceptEffects(c, s.session, r);
    GoodIsSound(c, s.session);
    var t := Accept(c, s.session, r).0;
    if KindOf(c, s.session, r).CatalogEnd? {
      CatalogHonest(c, s.session.library, s.device, r.report.catalog);
    } else if KindOf(c, s.session, r).TicketEnd? {
      TicketIsHere(s.session);
      forall slot | slot in t.library.slots && Known(t.library, slot)
        ensures HoldsFor(s.device, slot, t.library.slots[slot])
      {
        assert slot in s.session.library.slots;
      }
    }
  }

  lemma {:induction false} TicketIsHere(s: Session)
    requires Sound(s)
    ensures s.pending.Some? && s.pending.value.feature.Macro? ==> s.pending.value.feature.slot == s.slot
  {
  }

  lemma {:induction false} ReceiveKeeps(c: Config, s: System, r: Completion)
    requires Inv(c, s)
    requires var (t, outcome) := Accept(c, s.session, r);
      || (t == s.session && Continued(outcome).None?)
      || (Takes(s, t, Continued(outcome))
          && (NoWrites(s.queue) || (t.library.slots == s.session.library.slots && (t.pending != s.session.pending ==> PendingGone(s)))))
    ensures Inv(c, Receive(c, s, r))
  {
    hide Good, AtHome, Ordered, Current, Shown, Reported, Scanned, Accept, Takes, NoWrites, PendingGone;
    var (t, outcome) := Accept(c, s.session, r);
    GoodIsSound(c, s.session);
    AcceptIsGood(c, s.session, r);
    AcceptEffects(c, s.session, r);
    if t == s.session && Continued(outcome).None? {
      assert Receive(c, s, r) == s;
    } else {
      TakenKeepsOrder(s, t, Continued(outcome));
      TakenKeepsQueue(s, t, Continued(outcome));
      TakenKeepsShown(s, t, Continued(outcome));
      TakenKeepsReports(s, t, Continued(outcome));
    }
  }

  lemma {:induction false} DeliverKeeps(c: Config, s: System)
    requires Inv(c, s) && s.responses != []
    ensures Inv(c, Next(c, s, Deliver))
  {
    hide Good, AtHome, Current, Shown, Scanned, Accept, Takes, NoWrites, TrueResponse, Sorted;
    var r, rest := s.responses[0], s.(responses := s.responses[1..]);
    assert r in s.responses;
    assert forall x | x in rest.responses :: x in s.responses;
    assert Ordered(rest) && Reported(rest);
    FewerResponses(s, rest);
    DeliveryTakes(c, rest, r);
    ReceiveKeeps(c, rest, r);
  }

  lemma {:induction false} FewerResponses(s: System, t: System)
    requires t == s.(responses := t.responses)
    ensures Current(s) == Current(t) && Shown(s) == Shown(t) && Scanned(s) == Scanned(t)
  {
  }

  /** A refused submission says that nothing was attempted, and shows no slot anew. */
  lemma {:induction false} RefusalTakes(c: Config, s: System, x: Command)
    requires Good(c, s.session) && AtHome(s.session) && Shown(s.(queue := s.queue + [x])) && AllBefore(s.queue, x.operation)
    ensures var r := RejectionOf(x, NotAttempted);
      var (t, outcome) := Accept(c, s.session, r);
      || (t == s.session && Continued(outcome).None?)
      || (Takes(s, t, Continued(outcome)) && t.library.slots == s.session.library.slots && (t.pending != s.session.pending ==> PendingGone(s)))
  {
    hide Good, Accept, AtHome, AllHonest;
    var r := RejectionOf(x, NotAttempted);
    AcceptEffects(c, s.session, r);
    GoodIsSound(c, s.session);
    TicketIsHere(s.session);
    var t := Accept(c, s.session, r).0;
    assert x in s.queue + [x];
    if !KindOf(c, s.session, r).Nothing? {
      assert t.library.slots == s.session.library.slots;
    }
    forall slot | slot in t.library.slots && Known(t.library, slot) && t.library.slots == s.session.library.slots
      ensures
        || HoldsFor(s.device, slot, t.library.slots[slot])
        || (SavingSlot(s.session, slot) && !InQueue(s.queue, s.session.pending.value.operation) && s.session.pending.value.operation != x.operation)
    {
      if !HoldsFor(s.device, slot, t.library.slots[slot]) {
        var whole := s.queue + [x];
        assert forall y | y in s.queue :: y in whole;
        assert SavingSlot(s.session, slot) && !InQueue(whole, s.session.pending.value.operation);
      }
    }
  }

  /** Every queued operation is older than `operation`. */
  predicate AllBefore(queue: seq<Command>, operation: nat) {
    forall x | x in queue :: x.operation < operation
  }

  lemma {:induction false} ShorterQueue(s: System, queue: seq<Command>)
    requires Ordered(s) && Current(s) && Shown(s) && (forall x | x in queue :: x in s.queue) && Sorted(queue, s.session.operation)
    ensures var t := s.(queue := queue);
      Ordered(t) && Current(t) && Shown(t)
  {
    hide AllUnknown, HoldsFor;
    var t := s.(queue := queue);
    forall slot | slot in t.session.library.slots && Known(t.session.library, slot)
      ensures HoldsFor(t.device, slot, t.session.library.slots[slot])
        || (SavingSlot(t.session, slot) && !InQueue(t.queue, t.session.pending.value.operation))
    {
      assert Known(s.session.library, slot);
    }
  }

  lemma {:induction false} BounceKeeps(c: Config, s: System)
    requires Inv(c, s) && s.queue != []
    ensures Inv(c, Next(c, s, Bounce))
  {
    hide Good, AtHome, Current, Shown, Reported, Scanned, Accept, Takes, NoWrites, PendingGone;
    var x, rest := s.queue[|s.queue| - 1], s.queue[..|s.queue| - 1];
    assert rest + [x] == s.queue;
    ShorterQueue(s, rest);
    var t := s.(queue := rest);
    SameReports(s, t);
    assert AllBefore(rest, x.operation);
    assert t.(queue := t.queue + [x]) == s;
    RefusalTakes(c, t, x);
    ReceiveKeeps(c, t, RejectionOf(x, NotAttempted));
  }

  lemma {:induction false} SameReports(s: System, t: System)
    requires t == s.(queue := t.queue)
    ensures Reported(s) == Reported(t) && Scanned(s) == Scanned(t)
  {
  }

  // ------------------------------------------------------------ the worker

  /** A worker step that leaves the keyboard as it is and answers truthfully. */
  lemma {:induction false} AnswerKeeps(c: Config, s: System, step: DeviceWorker.Step)
    requires Inv(c, s) && step.device == s.device
    requires forall r | r in step.sent ::
      r.operation <= s.session.operation && Behind(r.operation, s.queue) && TrueResponse(s.session, s.device, r)
    requires step.worker.catalog.Some? ==>
      var catalog := step.worker.catalog.value;
      && catalog.operation <= s.session.operation && Behind(catalog.operation, s.queue)
      && (s.session.library.scan.Some? && catalog.operation == s.session.library.scan.value.operation ==> AllHonest(s.device, catalog.snapshots))
    ensures Inv(c, Worked(s, step))
  {
    hide Good, AtHome, Behind, TrueResponse, AllHonest, Sorted, Queued, HoldsFor, InQueue;
    assert forall r | r in s.responses + step.sent :: r in s.responses || r in step.sent;
  }

  lemma {:induction false} EndedIsTrue(s: System)
    requires Ordered(s)
    ensures forall r | r in Ended(s.worker) ::
      r.operation <= s.session.operation && Behind(r.operation, s.queue) && TrueResponse(s.session, s.device, r)
  {
  }

  lemma {:induction false} ScanKeeps(c: Config, s: System, read: Option<MacroSnapshot>)
    requires Inv(c, s) && HonestScan(s.worker, s.device, read)
    ensures Inv(c, Next(c, s, Event.Scan(read)))
  {
    hide Good, AtHome, Behind, Current, Shown, Reported, Sorted, Queued, Inv;
    InvParts(c, s);
    var step := ScanOn(s.worker, s.device, s.active, s.cancelled, read);
    assert forall r | r in step.sent :: r.report.CatalogDone?;
    AnswerKeeps(c, s, step);
  }

  lemma {:induction false} InvParts(c: Config, s: System)
    requires Inv(c, s)
    ensures Ordered(s) && Scanned(s) && Current(s) && Shown(s) && Reported(s) && Good(c, s.session) && AtHome(s.session)
  {
  }

  lemma {:induction false} TakeHostKeeps(c: Config, s: System, token: (nat, nat))
    requires Inv(c, s)
    ensures Inv(c, Next(c, s, TakeHost(token)))
  {
    hide Good, AtHome, Behind, Current, Shown, Reported, Sorted, Queued, TrueResponse, Inv;
    InvParts(c, s);
    EndedIsTrue(s);
    AnswerKeeps(c, s, HostTakes(s.worker, s.device, s.active, token));
  }

  /** The system with its oldest command taken off the queue. */
  ghost predicate TakenOff(c: Config, s: System, x: Command, t: System) {
    && s.queue != [] && x == s.queue[0] && t == s.(queue := s.queue[1..])
    && Inv(c, t) && Behind(x.operation, t.queue) && x.operation <= s.session.operation && Queued(s.session, x)
    && (forall r | r in s.responses :: r.operation < x.operation)
    && (s.worker.catalog.Some? ==> s.worker.catalog.value.operation < x.operation)
    && (PendingIs(s.session, x.operation) ==>
          forall slot | Known(s.session.library, slot) :: HoldsFor(s.device, slot, s.session.library.slots[slot]))
  }

  lemma {:induction false} TakesOff(c: Config, s: System)
    requires Inv(c, s) && s.queue != []
    ensures TakenOff(c, s, s.queue[0], s.(queue := s.queue[1..]))
  {
    hide Good, AtHome, Reported, Scanned, Queued, HoldsFor;
    var x, t := s.queue[0], s.(queue := s.queue[1..]);
    ShorterQueue(s, s.queue[1..]);
    SameReports(s, t);
    assert x in s.queue;
    assert forall i :: 0 <= i < |s.queue| - 1 ==> s.queue[1..][i] == s.queue[i + 1];
  }

  lemma {:induction false} RefusalIsTrue(c: Config, s: System, x: Command, t: System)
    requires TakenOff(c, s, x, t)
    ensures TrueResponse(t.session, t.device, RejectionOf(x, NotAttempted))
  {
    hide Inv, AllHonest;
  }

  lemma {:induction false} ActIsTrue(c: Config, s: System, x: Command, t: System, act: Act)
    requires TakenOff(c, s, x, t) && HonestAct(s.device, x.payload, act) && !x.payload.ReadCatalog?
    requires act.after == s.device
    ensures TrueResponse(t.session, t.device, Completion(x.generation, x.operation, act.report))
  {
    hide Inv, AllHonest;
  }

  lemma {:induction false} QuietCommandKeeps(c: Config, s: System, x: Command, t: System, hostPending: bool, act: Act)
    requires TakenOff(c, s, x, t) && HonestAct(s.device, x.payload, act)
    requires x.payload.ReadCatalog? || act.after == s.device || hostPending || Stale(s.worker, s.active, (x.generation, x.operation))
    ensures Inv(c, Worked(t, Handle(s.worker, s.device, s.active, hostPending, x, act)))
  {
    hide Inv, TrueResponse, Behind, HonestAct, AllHonest, InvalidatesCatalog, Queued, HoldsFor;
    InvParts(c, t);
    assert AllHonest(t.device, []) by { NoneAreDishonest(t.device); }
    EndedIsTrue(t);
    RefusalIsTrue(c, s, x, t);
    if !x.payload.ReadCatalog? && act.after == s.device { ActIsTrue(c, s, x, t, act); }
    AnswerKeeps(c, t, Handle(s.worker, s.device, s.active, hostPending, x, act));
  }

  lemma {:induction false} NoneAreDishonest(d: Device)
    ensures AllHonest(d, [])
  {
  }

  /** A macro write that changes its slot: nothing believed about the keyboard depends on
      the old content. */
  lemma {:induction false} WriteKeeps(c: Config, s: System, x: Command, t: System, act: Act)
    requires TakenOff(c, s, x, t) && Writes(x) && HonestAct(s.device, x.payload, act) && act.after != s.device
    ensures var step := Handle(s.worker, s.device, s.active, false, x, act);
      !Stale(s.worker, s.active, (x.generation, x.operation)) ==> Inv(c, Worked(t, step))
  {
    hide Good, AtHome, Behind, Sorted, AllHonest, Stale;
    var step := Handle(s.worker, s.device, s.active, false, x, act);
    if !Stale(s.worker, s.active, (x.generation, x.operation)) {
      var u := Worked(t, step);
      WrittenShows(c, s, x, t, act);
      WrittenAnswers(c, s, x, t, act);
      assert forall r | r in u.responses :: r in t.responses || r in step.sent;
    }
  }

  lemma {:induction false} WrittenShows(c: Config, s: System, x: Command, t: System, act: Act)
    requires TakenOff(c, s, x, t) && Writes(x) && HonestAct(s.device, x.payload, act)
    ensures Shown(t.(device := act.after))
  {
    hide Good, AtHome, Ordered, Current, Reported, Scanned;
    assert PendingIs(s.session, x.operation) ==> !InQueue(t.queue, x.operation);
    forall slot | slot in t.session.library.slots && Known(t.session.library, slot)
      ensures HoldsFor(act.after, slot, t.session.library.slots[slot])
        || (SavingSlot(t.session, slot) && !InQueue(t.queue, t.session.pending.value.operation))
    {
      assert PendingIs(s.session, x.operation);
      assert HoldsFor(s.device, slot, t.session.library.slots[slot]);
    }
  }

  lemma {:induction false} WrittenAnswers(c: Config, s: System, x: Command, t: System, act: Act)
    requires TakenOff(c, s, x, t) && Writes(x) && HonestAct(s.device, x.payload, act) && act.after != s.device
    ensures forall r | r in t.responses :: TrueResponse(t.session, act.after, r)
    ensures TrueResponse(t.session, act.after, Completion(x.generation, x.operation, act.report))
    ensures forall r | r in Ended(t.worker) :: TrueResponse(t.session, act.after, r)
    ensures Scanned(t.(device := act.after))
  {
    hide Inv, AllHonest, HoldsFor, AllUnknown;
  }

  lemma {:induction false} DequeueKeeps(c: Config, s: System, hostPending: bool, act: Act)
    requires Inv(c, s) && s.queue != [] && HonestAct(s.device, s.queue[0].payload, act)
    ensures Inv(c, Next(c, s, Dequeue(hostPending, act)))
  {
    hide Inv, TakenOff, HonestAct, Stale, Handle;
    var x, t := s.queue[0], s.(queue := s.queue[1..]);
    TakesOff(c, s);
    var quiet := x.payload.ReadCatalog? || act.after == s.device || hostPending || Stale(s.worker, s.active, (x.generation, x.operation));
    if quiet {
      QuietCommandKeeps(c, s, x, t, hostPending, act);
    } else {
      OnlyWritesChange(s.device, x, act);
      WriteKeeps(c, s, x, t, act);
    }
  }

  lemma {:induction false} OnlyWritesChange(d: Device, x: Command, act: Act)
    requires HonestAct(d, x.payload, act) && act.after != d && !x.payload.ReadCatalog?
    ensures Writes(x)
  {
  }

  // ------------------------------------------------------------ whole runs

  lemma {:induction false} NextKeeps(c: Config, s: System, e: Event)
    requires Inv(c, s) && Honest(s, e)
    ensures Inv(c, Next(c, s, e))
  {
    hide HonestAct, Accept, Serve, Handle, ScanOn, HostTakes;
    match e
    case Issue(call) => IssueKeeps(c, s, call);
    case Bounce => if s.queue != [] { BounceKeeps(c, s); }
    case Deliver => if s.responses != [] { DeliverKeeps(c, s); }
    case Dequeue(hostPending, act) => if s.queue != [] { DequeueKeeps(c, s, hostPending, act); }
    case Scan(read) => ScanKeeps(c, s, read);
    case TakeHost(token) => TakeHostKeeps(c, s, token);
    case SetActive(_) => ControlKeeps(c, s, Next(c, s, e));
    case CancelScan(_) => ControlKeeps(c, s, Next(c, s, e));
    case Retire => RetireKeeps(c, s);
  }

  lemma {:induction false} ControlKeeps(c: Config, s: System, t: System)
    requires Inv(c, s) && t == s.(active := t.active, cancelled := t.cancelled)
    ensures Inv(c, t)
  {
    hide Good, AtHome, Sorted, Queued, HoldsFor, TrueResponse, AllHonest;
  }

  lemma {:induction false} RetireKeeps(c: Config, s: System)
    requires Inv(c, s)
    ensures Inv(c, Next(c, s, Retire))
  {
    hide Good, AtHome, HoldsFor;
    var t := Next(c, s, Retire);
    forall slot | slot in t.session.library.slots && Known(t.session.library, slot)
      ensures HoldsFor(t.device, slot, t.session.library.slots[slot])
        || (SavingSlot(t.session, slot) && !InQueue(t.queue, t.session.pending.value.operation))
    {
      assert slot in s.session.library.slots;
    }
  }

  lemma {:induction false} StartHolds(c: Config, d: Device)
    ensures Inv(c, Start(c, d))
  {
    NewIsGood(c);
  }

  lemma {:induction false} RunKeeps(c: Config, s: System, events: seq<Event>)
    requires Inv(c, s) && HonestRun(c, s, events)
    ensures Inv(c, RunAll(c, s, events))
    decreases |events|
  {
    hide Inv, Honest, Next;
    if events != [] {
      NextKeeps(c, s, events[0]);
      RunKeeps(c, Next(c, s, events[0]), events[1..]);
    }
  }

  /** Occupancy never lies: in every run, whatever is interleaved, bounced, cancelled,
      disconnected or retired, whenever its own save is not in flight a slot that is not shown
      as unknown is shown as empty exactly if the keyboard holds a program without events
      there, as configured exactly if it holds one with events, and as opaque exactly if it
      holds what is no program. */
  lemma {:induction false} OccupancyNeverLies(c: Config, d: Device, events: seq<Event>, slot: string)
    requires HonestRun(c, Start(c, d), events)
    ensures var s := RunAll(c, Start(c, d), events);
      Known(s.session.library, slot) && !SavingSlot(s.session, slot) ==>
        && slot in s.device
        && var shown, content := s.session.library.slots[slot], s.device[slot];
           && (shown == Empty <==> content.Programmed? && content.program.events == [])
           && (shown == Configured <==> content.Programmed? && content.program.events != [])
           && (shown == Opaque <==> content.OpaqueContent?)
  {
    hide Start, RunAll, HonestRun, Good, AtHome, Ordered, Current, Reported, Scanned;
    StartHolds(c, d);
    RunKeeps(c, Start(c, d), events);
    var s := RunAll(c, Start(c, d), events);
    if slot in s.device { ClassifiedTells(s.device[slot]); }
  }

  /** The slot that is offered for a new macro is one of those asked for and nothing is bound to
      it. If it is shown as empty, the keyboard holds a program without events there; else it
      is unknown and none of the unbound ones is shown as empty. Nothing is offered only if
      every unbound one is known to hold something. */
  lemma {:induction false} CandidateIsFree(c: Config, d: Device, events: seq<Event>, ids: seq<string>, bound: set<string>)
    requires HonestRun(c, Start(c, d), events)
    ensures var s := RunAll(c, Start(c, d), events);
      var lib := s.session.library;
      match Candidate(lib, ids, bound)
      case Some(slot) =>
        && slot in ids && slot !in bound && slot in lib.slots
        && (lib.slots[slot] == Empty || lib.slots[slot] == Unknown)
        && (lib.slots[slot] == Empty && !SavingSlot(s.session, slot) ==>
              slot in s.device && s.device[slot].Programmed? && s.device[slot].program.events == [])
        && (lib.slots[slot] == Unknown ==> forall x | x in ids && x !in bound && x in lib.slots :: lib.slots[x] != Empty)
      case None => forall x | x in ids && x !in bound && x in lib.slots :: lib.slots[x] == Configured || lib.slots[x] == Opaque
  {
    hide Start, RunAll, HonestRun, FirstUnbound;
    var lib := RunAll(c, Start(c, d), events).session.library;
    FirstUnboundIsFirst(lib, ids, bound, Empty);
    FirstUnboundIsFirst(lib, ids, bound, Unknown);
    var found := Candidate(lib, ids, bound);
    if found.Some? { OccupancyNeverLies(c, d, events, found.value); }
  }
}
