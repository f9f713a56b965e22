/** The device worker: one command at a time from a queue, a passive catalog scan between
    commands, and a response for everything. */
module DeviceWorker {
  import opened Wrappers
  import opened MacroEditing
  import opened SessionModel

  datatype Catalog = Catalog(generation: nat, operation: nat, slots: seq<string>, snapshots: seq<MacroSnapshot>)

  /** `latest` is the correlation of the last command that was let through. */
  datatype Worker = Worker(latest: Option<(nat, nat)>, catalog: Option<Catalog>)

  /** The macro slots of the keyboard. */
  type Device = map<string, Content>

  /** What the keyboard does with one command: the report it gives and its slots after. */
  datatype Act = Act(report: Report, after: Device)

  datatype Step = Step(worker: Worker, device: Device, sent: seq<Completion>)

  function Finish(scan: Catalog, result: Option<seq<MacroSnapshot>>): Completion {
    Completion(scan.generation, scan.operation, CatalogDone(result))
  }

  /** The report of a command that never reached the device. */
  function RejectedReport(payload: Payload, recovery: Recovery): Report {
    match payload
    case ReadPlain(p) => PlainDone(p, Read(None))
    case ApplyPlain(p, _, _) => PlainDone(p, Apply(Failure(recovery)))
    case ReadMacro(slot) => MacroDone(slot, Read(None))
    case ApplyMacro(before, _) => MacroDone(before.slot, Apply(Failure(recovery)))
    case ReadArchive => ArchiveDone(Read(None))
    case ReadCatalog(_) => CatalogDone(None)
  }

  function RejectionOf(command: Command, recovery: Recovery): Completion {
    Completion(command.generation, command.operation, RejectedReport(command.payload, recovery))
  }

  predicate SetterMayHaveRun<S>(result: FeatureResult<S>) {
    result.Apply? && !(result.applied.Failure? && result.applied.error == NotAttempted)
  }

  predicate FailedWriteMayHaveRun<S>(result: FeatureResult<S>) {
    result.Apply? && result.applied.Failure? && SetterMayHaveRun(result)
  }

  predicate InvalidatesCatalog(report: Report) {
    match report
    case MacroDone(_, result) => SetterMayHaveRun(result)
    case PlainDone(_, result) => FailedWriteMayHaveRun(result)
    case ArchiveDone(result) => FailedWriteMayHaveRun(result)
    case CatalogDone(_) => false
  }

  /** Tokens are ordered by generation, then operation. */
  predicate NotAfter(token: (nat, nat), latest: Option<(nat, nat)>) {
    latest.Some? && (token.0 < latest.value.0 || (token.0 == latest.value.0 && token.1 <= latest.value.1))
  }

  predicate Stale(w: Worker, active: nat, token: (nat, nat)) {
    token.0 == 0 || token.0 != active || NotAfter(token, w.latest)
  }

  function Ended(w: Worker): seq<Completion> {
    if w.catalog.Some? then [Finish(w.catalog.value, None)] else []
  }

  /** One command from the queue. `hostPending` says whether host lighting owns the device;
      `act` is what the device would do. */
  function Handle(w: Worker, d: Device, active: nat, hostPending: bool, command: Command, act: Act): Step {
    var token := (command.generation, command.operation);
    if hostPending || Stale(w, active, token) then Step(w, d, [RejectionOf(command, NotAttempted)])
    else
      var next := w.(latest := Some(token));
      match command.payload
      case ReadCatalog(slots) =>
        Step(next.(catalog := Some(Catalog(command.generation, command.operation, slots, []))), d, Ended(w))
      case _ =>
        var done := Completion(command.generation, command.operation, act.report);
        if InvalidatesCatalog(act.report) then Step(next.(catalog := None), act.after, [done] + Ended(w))
        else Step(next, act.after, [done])
  }

  /** One slot of the scan, or its end. `read` is what the device answers for that slot. */
  function ScanOn(w: Worker, d: Device, active: nat, cancelled: nat, read: Option<MacroSnapshot>): Step {
    if w.catalog.None? then Step(w, d, [])
    else
      var scan := w.catalog.value;
      var done := w.(catalog := None);
      if scan.generation != active || scan.operation <= cancelled then Step(done, d, [Finish(scan, None)])
      else if |scan.snapshots| >= |scan.slots| then Step(done, d, [Finish(scan, Some(scan.snapshots))])
      else if read.None? then Step(done, d, [Finish(scan, None)])
      else Step(w.(catalog := Some(scan.(snapshots := scan.snapshots + [read.value]))), d, [])
  }

  /** Host lighting taking the device ends the scan. */
  function HostTakes(w: Worker, d: Device, active: nat, token: (nat, nat)): Step {
    var quiet := w.(catalog := None);
    Step(if Stale(w, active, token) then quiet else quiet.(latest := Some(token)), d, Ended(w))
  }

  /** A device that answers reads with what it holds and whose recovery verdicts are true. */
  ghost predicate HonestAct(d: Device, payload: Payload, act: Act) {
    match payload
    case ReadMacro(slot) =>
      && act.after == d && act.report.MacroDone? && act.report.slot == slot && act.report.image.Read?
      && (act.report.image.read.Some? ==> HonestSnapshot(d, slot, act.report.image.read.value))
    case ApplyMacro(before, _) =>
      && act.report.MacroDone? && act.report.slot == before.slot && act.report.image.Apply?
      && (match act.report.image.applied
          case Success(snapshot) =>
            snapshot.slot == before.slot && act.after == d[before.slot := snapshot.content]
          case Failure(recovery) =>
            if recovery == Verified || recovery == NotAttempted then act.after == d
            else forall slot :: slot != before.slot ==> (slot in act.after <==> slot in d) && (slot in d ==> act.after[slot] == d[slot]))
    case ReadPlain(p) => act.after == d && act.report.PlainDone? && act.report.plain == p && act.report.result.Read?
    case ApplyPlain(p, _, _) => act.after == d && act.report.PlainDone? && act.report.plain == p && act.report.result.Apply?
    case ReadArchive => act.after == d && act.report.ArchiveDone? && act.report.archive.Read?
    case ReadCatalog(_) => true
  }

  predicate HonestSnapshot(d: Device, slot: string, snapshot: MacroSnapshot) {
    snapshot.slot == slot && slot in d && snapshot.content == d[slot]
  }

  predicate HonestScan(w: Worker, d: Device, read: Option<MacroSnapshot>) {
    w.catalog.Some? && |w.catalog.value.snapshots| < |w.catalog.value.slots| && read.Some? ==>
      HonestSnapshot(d, w.catalog.value.slots[|w.catalog.value.snapshots|], read.value)
  }
}
