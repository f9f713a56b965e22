/** The occupancy cache and the device worker as objects updated in place. */
module LibraryObject {
  import opened Wrappers
  import opened EditorLifecycle
  import opened MacroProgram
  import opened MacroEditing
  import opened MacroLibrary

  class SlotLibrary {
    var slots: map<string, Occupancy>
    var failed: bool
    var scan: Option<Scan>

    function State(): Library
      reads this
    {
      Library(slots, failed, scan)
    }

    constructor (ids: seq<string>)
      ensures State() == NewLibrary(ids)
    {
      slots := map slot | slot in ids :: Unknown;
      failed, scan := false, None;
    }

    method Cancel()
      modifies this`scan
      ensures State() == MacroLibrary.Cancel(old(State()))
    {
      scan := None;
    }

    method BeginScan(generation: nat, operation: nat)
      modifies this`scan
      ensures State() == MacroLibrary.BeginScan(old(State()), generation, operation)
    {
      scan := Some(Scan(generation, operation, {}));
    }

    method Invalidate()
      modifies this
      ensures State() == Forgotten(old(State()))
    {
      slots := map slot | slot in slots :: Unknown;
      failed := false;
      Cancel();
    }

    method Observe(snapshot: MacroSnapshot)
      modifies this`slots
      ensures State() == MacroLibrary.Observe(old(State()), snapshot)
    {
      if snapshot.slot in slots {
        slots := slots[snapshot.slot := Classified(snapshot.content)];
      }
    }

    /** Valid for its own slot, each slot once, and all of them. */
    method CheckCatalog(caps: Capabilities, snapshots: seq<MacroSnapshot>) returns (complete: bool)
      ensures complete == CompleteCatalog(State(), caps, snapshots)
    {
      var seen: set<string> := {};
      for i := 0 to |snapshots|
        invariant forall x | x in snapshots[..i] :: ValidSnapshotFor(caps, x, x.slot)
        invariant seen == set x | x in snapshots[..i] :: x.slot
        invariant DistinctSlots(snapshots[..i]) && |seen| == i
      {
        hide ValidSnapshotFor, DistinctSlots;
        var snapshot := snapshots[i];
        assert snapshots[..i + 1] == snapshots[..i] + [snapshot];
        if !ValidSnapshotFor(caps, snapshot, snapshot.slot) {
          assert snapshot in snapshots;
          return false;
        }
        if snapshot.slot in seen {
          RepeatedSlot(snapshots, i);
          return false;
        }
        NextDistinct(snapshots, i);
        seen := seen + {snapshot.slot};
      }
      assert snapshots[..|snapshots|] == snapshots;
      return |seen| == |slots|;
    }

    static lemma {:induction false} NextDistinct(snapshots: seq<MacroSnapshot>, i: nat)
      requires i < |snapshots| && DistinctSlots(snapshots[..i])
      requires forall x | x in snapshots[..i] :: x.slot != snapshots[i].slot
      ensures DistinctSlots(snapshots[..i + 1])
    {
      assert snapshots[..i + 1] == snapshots[..i] + [snapshots[i]];
    }

    static lemma {:induction false} RepeatedSlot(snapshots: seq<MacroSnapshot>, i: nat)
      requires i < |snapshots| && exists x | x in snapshots[..i] :: x.slot == snapshots[i].slot
      ensures !DistinctSlots(snapshots)
    {
      var x :| x in snapshots[..i] && x.slot == snapshots[i].slot;
      var j :| 0 <= j < i && snapshots[..i][j] == x;
      assert snapshots[j].slot == snapshots[i].slot;
    }

    /** Takes a catalog for its own scan; absent when the result belongs to another one. */
    method AcceptScan(generation: nat, operation: nat, caps: Capabilities, result: Option<seq<MacroSnapshot>>)
      returns (loaded: Option<bool>)
      modifies this
      ensures var scanned := old(scan);
        if scanned.None? || scanned.value.generation != generation || scanned.value.operation != operation
        then loaded.None? && State() == old(State())
        else loaded.Some? && (State(), loaded.value) == AcceptCatalog(old(State()), caps, result)
    {
      if scan.None? || scan.value.generation != generation || scan.value.operation != operation {
        return None;
      }
      hide CompleteCatalog;
      var refreshed := scan.value.refreshed;
      var complete := false;
      if result.Some? {
        complete := CheckCatalog(caps, result.value);
        SameComplete(old(State()), old(State()).(scan := None), caps, result.value);
      }
      scan := None;
      if !complete {
        failed := true;
        return Some(false);
      }
      var snapshots := result.value;
      ghost var first := State();
      for i := 0 to |snapshots|
        invariant ObserveAll(State(), snapshots[i..], refreshed) == ObserveAll(first, snapshots, refreshed)
      {
        assert snapshots[i..][0] == snapshots[i] && snapshots[i..][1..] == snapshots[i + 1..];
        if snapshots[i].slot !in refreshed {
          Observe(snapshots[i]);
        }
      }
      failed := false;
      return Some(true);
    }

    static lemma {:induction false} SameComplete(a: Library, b: Library, caps: Capabilities, snapshots: seq<MacroSnapshot>)
      requires a.slots == b.slots
      ensures CompleteCatalog(a, caps, snapshots) == CompleteCatalog(b, caps, snapshots)
    {
    }

    method ObserveEditor(e: MacroEditor, slot: string) returns (problem: Option<Problem>)
      requires !e.status.Unloaded? && (e.status.Ready? ==> e.baseline.Some?)
      modifies this
      ensures State() == MacroLibrary.ObserveEditor(old(State()), e, slot)
      ensures problem == if e.status.Unverified? then Some(e.status.problem) else None
    {
      if e.status.Unverified? {
        if Uncertain(e.status.problem) && slot in slots {
          slots := slots[slot := Unknown];
        }
        return Some(e.status.problem);
      }
      var snapshot := if e.status.Ready? then e.baseline.value else e.status.device;
      Observe(snapshot);
      if scan.Some? {
        scan := Some(scan.value.(refreshed := scan.value.refreshed + {snapshot.slot}));
      }
      return None;
    }

    /** The first unbound slot known to be empty, else the first unbound unknown one. */
    method Candidate(ids: seq<string>, bound: set<string>) returns (slot: Option<string>)
      ensures slot == MacroLibrary.Candidate(State(), ids, bound)
    {
      slot := FindUnbound(ids, bound, Empty);
      if slot.None? {
        slot := FindUnbound(ids, bound, Unknown);
      }
    }

    method FindUnbound(ids: seq<string>, bound: set<string>, wanted: Occupancy) returns (slot: Option<string>)
      ensures slot == FirstUnbound(State(), ids, bound, wanted)
    {
      for i := 0 to |ids|
        invariant FirstUnbound(State(), ids, bound, wanted) == FirstUnbound(State(), ids[i..], bound, wanted)
      {
        assert ids[i..][0] == ids[i] && ids[i..][1..] == ids[i + 1..];
        if ids[i] !in bound && ids[i] in slots && slots[ids[i]] == wanted {
          return Some(ids[i]);
        }
      }
      return None;
    }
  }
}

/** The worker thread's loop body on its own state. */
module WorkerObject {
  import opened Wrappers
  import opened MacroEditing
  import opened SessionModel
  import opened DeviceWorker

  class CommandWorker {
    var latest: Option<(nat, nat)>
    var catalog: Option<Catalog>
    var device: Device
    var responses: seq<Completion>

    function State(): Worker
      reads this
    {
      Worker(latest, catalog)
    }

    constructor (device: Device)
      ensures State() == Worker(None, None) && this.device == device && responses == []
    {
      latest, catalog, this.device, responses := None, None, device, [];
    }

    method Send(completion: Completion)
      modifies this`responses
      ensures responses == old(responses) + [completion]
    {
      responses := responses + [completion];
    }

    method EndCatalog()
      modifies this`catalog, this`responses
      ensures catalog.None? && responses == old(responses) + Ended(old(State()))
    {
      if catalog.Some? {
        Send(Finish(catalog.value, None));
      }
      catalog := None;
    }

    /** One dequeued command: refused, taken as the new scan, or executed. */
    method HandleCommand(active: nat, hostPending: bool, command: Command, act: Act)
      modifies this
      ensures var step := Handle(old(State()), old(device), active, hostPending, command, act);
        State() == step.worker && device == step.device && responses == old(responses) + step.sent
    {
      var token := (command.generation, command.operation);
      if hostPending || Stale(State(), active, token) {
        Send(RejectionOf(command, NotAttempted));
        return;
      }
      latest := Some(token);
      if command.payload.ReadCatalog? {
        EndCatalog();
        catalog := Some(Catalog(command.generation, command.operation, command.payload.slots, []));
        return;
      }
      device := act.after;
      Send(Completion(command.generation, command.operation, act.report));
      if InvalidatesCatalog(act.report) {
        EndCatalog();
      }
    }

    /** One turn of the passive scan: cancelled, finished, or one more slot read. */
    method ContinueScan(active: nat, cancelled: nat, read: Option<MacroSnapshot>)
      modifies this
      ensures var step := ScanOn(old(State()), old(device), active, cancelled, read);
        State() == step.worker && device == step.device && responses == old(responses) + step.sent
    {
      if catalog.None? {
        return;
      }
      var scan := catalog.value;
      var finished: Option<Option<seq<MacroSnapshot>>> := None;
      if scan.generation != active || scan.operation <= cancelled {
        finished := Some(None);
      } else if |scan.snapshots| >= |scan.slots| {
        finished := Some(Some(scan.snapshots));
      } else if read.None? {
        finished := Some(None);
      } else {
        catalog := Some(scan.(snapshots := scan.snapshots + [read.value]));
      }
      if finished.Some? {
        catalog := None;
        Send(Finish(scan, finished.value));
      }
    }

    /** Host lighting takes the device between two commands. */
    method GiveToHost(active: nat, token: (nat, nat)) returns (accepted: bool)
      modifies this
      ensures var step := HostTakes(old(State()), old(device), active, token);
        State() == step.worker && device == step.device && responses == old(responses) + step.sent
      ensures accepted == !Stale(old(State()), active, token)
    {
      EndCatalog();
      accepted := !Stale(State(), active, token);
      if accepted {
        latest := Some(token);
      }
    }
  }
}
