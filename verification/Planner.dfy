/** What the Controller wants of one workload on one Host, decided from one fresh observation. */
module Planner {
  import opened Common
  import opened Guards

  datatype Claim = Claim(cpu: bool, devices: seq<nat>)

  datatype Ownership = Ownership(workload: nat, generation: nat, hash: nat, host: nat, claim: Claim)

  datatype Execution = Execution(id: nat, status: Status, ownership: Option<Ownership>)

  datatype Snapshot = Snapshot(workload: nat, generation: nat, execution: nat, host: nat, hash: nat, claim: Claim)

  datatype Process = Process(cpu: bool, devices: seq<nat>, unknown: bool, cpuRelevant: bool, gpuRelevant: bool)

  datatype Observation = Observation(host: nat, epoch: nat, connected: bool, ready: bool, current: bool,
                                     executions: seq<Execution>, inventory: seq<nat>, processes: seq<Process>)

  datatype Workload = Workload(id: nat, host: nat, running: bool, generation: nat)

  datatype PlanInput = PlanInput(workload: Workload, current: Option<Snapshot>, snapshots: seq<Snapshot>,
                                 blocked: Option<nat>, held: bool, observed: Observation,
                                 inFlight: set<Key>, others: map<nat, Snapshot>)

  datatype Code = MaintenanceHold | NoSnapshot | IncompatibleHardware | UnmanagedConflict | ConfigConflict

  datatype Planned = Nothing | Refused(code: Code) | Do(key: Key, snapshot: Option<Snapshot>)

  // ---- predicates of the planner ---------------------------------------------

  predicate HoldsResources(s: Status) { s != Stopped }

  predicate BlocksStart(s: Status) { s != Stopped && s != Failed }

  predicate Matches(o: Option<Ownership>, s: Snapshot) {
    o.Some? && o.value.workload == s.workload && o.value.generation == s.generation && o.value.hash == s.hash
      && o.value.host == s.host
  }

  predicate SameIdentity(a: Snapshot, b: Snapshot) {
    a.execution == b.execution && a.workload == b.workload && a.generation == b.generation && a.hash == b.hash
  }

  predicate Overlap(a: Claim, b: Claim) { (a.cpu && b.cpu) || exists d :: d in a.devices && d in b.devices }

  predicate Keyed(m: map<nat, Snapshot>) { forall id :: id in m ==> m[id].execution == id }

  /** The snapshots by ExecutionID; those of the whole farm win over those of the workload. */
  function Known(snapshots: seq<Snapshot>, others: map<nat, Snapshot>): map<nat, Snapshot>
    requires Keyed(others)
    ensures Keyed(Known(snapshots, others))
  {
    if snapshots == [] then others
    else
      var s := snapshots[|snapshots| - 1];
      var rest := Known(snapshots[..|snapshots| - 1], others);
      if s.execution in others then rest else rest[s.execution := s]
  }

  predicate Owned(known: map<nat, Snapshot>, e: Execution) { e.id in known && Matches(e.ownership, known[e.id]) }

  /** An execution of the workload that is not STOPPED. */
  predicate Active(p: PlanInput, known: map<nat, Snapshot>, e: Execution) {
    HoldsResources(e.status) && Owned(known, e) && known[e.id].workload == p.workload.id
  }

  /** And runs the current snapshot with the claim it asks for. */
  predicate RunsCurrent(p: PlanInput, known: map<nat, Snapshot>, e: Execution) {
    Active(p, known, e) && p.current.Some? && SameIdentity(known[e.id], p.current.value)
      && e.ownership.value.claim == p.current.value.claim
  }

  // ---- the plan, stated without an order on executions -----------------------

  predicate Usable(p: PlanInput) {
    p.observed.connected && p.observed.ready && p.observed.current && p.observed.host == p.workload.host
  }

  predicate HasCurrent(p: PlanInput, known: map<nat, Snapshot>) {
    exists e :: e in p.observed.executions && RunsCurrent(p, known, e)
  }

  /** The ExecutionIDs of this workload's executions that must go. */
  function Obsolete(p: PlanInput, known: map<nat, Snapshot>): set<nat> {
    set e | e in p.observed.executions && Active(p, known, e)
      && !(HasCurrent(p, known) && e.id == p.current.value.execution) :: e.id
  }

  ghost function Least(s: set<nat>): nat
    requires s != {}
    ensures Least(s) in s && forall x :: x in s ==> Least(s) <= x
    decreases s
  {
    var x :| x in s;
    if s == {x} then x
    else
      var y := Least(s - {x});
      assert s - {x} + {x} == s;
      if x < y then x else y
  }

  function KeyFor(p: PlanInput, generation: nat, execution: nat, kind: Kind): Key {
    Key(p.workload.id, generation, execution, p.observed.epoch, kind)
  }

  function Propose(p: PlanInput, key: Key, snapshot: Option<Snapshot>): Planned {
    if key in p.inFlight then Nothing else Do(key, snapshot)
  }

  /** The status that counts when an ExecutionID is repeated is the last one. */
  predicate CurrentFailed(p: PlanInput, known: map<nat, Snapshot>, n: nat)
    requires n <= |p.observed.executions|
  {
    n > 0 && var e := p.observed.executions[n - 1];
    if RunsCurrent(p, known, e) then e.status == Failed else CurrentFailed(p, known, n - 1)
  }

  predicate ProcessConflicts(claim: Claim, q: Process) {
    || Overlap(claim, Claim(q.cpu, q.devices))
    || (q.unknown && ((claim.cpu && q.cpuRelevant) || (claim.devices != [] && q.gpuRelevant)))
  }

  function ExecutionConflict(p: PlanInput, known: map<nat, Snapshot>, current: Snapshot, e: Execution): Option<Code> {
    if !BlocksStart(e.status) || (e.id == current.execution && Matches(e.ownership, current)) then None
    else if Owned(known, e) then
      if known[e.id].workload == p.workload.id || Overlap(current.claim, known[e.id].claim) then Some(ConfigConflict)
      else None
    else if e.ownership.None? || Overlap(current.claim, e.ownership.value.claim) then Some(UnmanagedConflict)
    else None
  }

  /** The conflict of the first of the executions from place `i` on that has one. */
  function FirstConflict(p: PlanInput, known: map<nat, Snapshot>, current: Snapshot, i: nat): Option<Code>
    requires i <= |p.observed.executions|
    decreases |p.observed.executions| - i
  {
    if i == |p.observed.executions| then None
    else
      var c := ExecutionConflict(p, known, current, p.observed.executions[i]);
      if c.Some? then c else FirstConflict(p, known, current, i + 1)
  }

  function StartConflict(p: PlanInput, known: map<nat, Snapshot>, current: Snapshot): Option<Code> {
    if !(forall d :: d in current.claim.devices ==> d in p.observed.inventory) then Some(IncompatibleHardware)
    else if exists q :: q in p.observed.processes && ProcessConflicts(current.claim, q) then Some(UnmanagedConflict)
    else FirstConflict(p, known, current, 0)
  }

  ghost function PlanOf(p: PlanInput): Planned
    requires Keyed(p.others)
  {
    var known := Known(p.snapshots, p.others);
    var obsolete := Obsolete(p, known);
    if !Usable(p) then Nothing
    else if obsolete != {} then
      var id := Least(obsolete);
      Propose(p, KeyFor(p, known[id].generation, id, Stop), Some(known[id]))
    else if !p.workload.running || p.held then
      if HasCurrent(p, known) then
        Propose(p, KeyFor(p, p.current.value.generation, p.current.value.execution, Stop), p.current)
      else if p.workload.running then Refused(MaintenanceHold)
      else Nothing
    else if p.blocked == Some(p.workload.generation) then Nothing
    else if HasCurrent(p, known) then
      if CurrentFailed(p, known, |p.observed.executions|) then
        Do(KeyFor(p, p.workload.generation, p.current.value.execution, Block), None)
      else Nothing
    else if p.current.None? then Refused(NoSnapshot)
    else
      var conflict := StartConflict(p, known, p.current.value);
      if conflict.Some? then Refused(conflict.value)
      else Propose(p, KeyFor(p, p.workload.generation, p.current.value.execution, Start), p.current)
  }

  // ---- the planner -------------------------------------------------------------

  method ClaimsOverlap(a: Claim, b: Claim) returns (r: bool)
    ensures r <==> Overlap(a, b)
  {
    if a.cpu && b.cpu { return true; }
    for i := 0 to |a.devices|
      invariant forall j :: 0 <= j < i ==> a.devices[j] !in b.devices
    {
      if a.devices[i] in b.devices { return true; }
    }
    return false;
  }

  method InventoryContains(inventory: seq<nat>, devices: seq<nat>) returns (r: bool)
    ensures r <==> forall d :: d in devices ==> d in inventory
  {
    for i := 0 to |devices|
      invariant forall j :: 0 <= j < i ==> devices[j] in inventory
    {
      var found := false;
      for k := 0 to |inventory|
        invariant found <==> devices[i] in inventory[..k]
      {
        if inventory[k] == devices[i] { found := true; break; }
      }
      if !found {
        assert inventory[..|inventory|] == inventory;
        return false;
      }
    }
    return true;
  }

  method FindStartConflict(p: PlanInput, known: map<nat, Snapshot>, current: Snapshot) returns (r: Option<Code>)
    ensures r == StartConflict(p, known, current)
  {
    var claim := current.claim;
    var present := InventoryContains(p.observed.inventory, claim.devices);
    if !present { return Some(IncompatibleHardware); }
    for i := 0 to |p.observed.processes|
      invariant forall j :: 0 <= j < i ==> !ProcessConflicts(claim, p.observed.processes[j])
    {
      var q := p.observed.processes[i];
      var overlaps := ClaimsOverlap(claim, Claim(q.cpu, q.devices));
      var ambiguous := q.unknown && ((claim.cpu && q.cpuRelevant) || (|claim.devices| != 0 && q.gpuRelevant));
      if overlaps || ambiguous {
        assert q in p.observed.processes && ProcessConflicts(claim, q);
        return Some(UnmanagedConflict);
      }
    }
    for i := 0 to |p.observed.executions|
      invariant FirstConflict(p, known, current, 0) == FirstConflict(p, known, current, i)
    {
      var e := p.observed.executions[i];
      if !BlocksStart(e.status) { continue; }
      if e.id == current.execution && Matches(e.ownership, current) { continue; }
      if e.id in known && Matches(e.ownership, known[e.id]) {
        if known[e.id].workload == p.workload.id { return Some(ConfigConflict); }
        var overlaps := ClaimsOverlap(claim, known[e.id].claim);
        if overlaps { return Some(ConfigConflict); }
        continue;
      }
      if e.ownership.None? { return Some(UnmanagedConflict); }
      var overlaps := ClaimsOverlap(claim, e.ownership.value.claim);
      if overlaps { return Some(UnmanagedConflict); }
    }
    return None;
  }

  method CollectKnown(p: PlanInput) returns (known: map<nat, Snapshot>)
    requires Keyed(p.others)
    ensures known == Known(p.snapshots, p.others)
  {
    known := map[];
    for i := 0 to |p.snapshots|
      invariant known + p.others == Known(p.snapshots[..i], p.others)
    {
      assert p.snapshots[..i + 1][..i] == p.snapshots[..i];
      known := known[p.snapshots[i].execution := p.snapshots[i]];
    }
    assert p.snapshots[..|p.snapshots|] == p.snapshots;
    known := known + p.others;
  }

  /** The workload's own executions that are not STOPPED, and the one that runs its current snapshot. */
  method Survey(p: PlanInput, known: map<nat, Snapshot>) returns (active: seq<Execution>, current: Option<Execution>)
    ensures forall e :: e in active <==> e in p.observed.executions && Active(p, known, e)
    ensures current.Some? <==> HasCurrent(p, known)
    ensures current.Some? ==> RunsCurrent(p, known, current.value)
    ensures current.Some? && current.value.status == Failed <==> CurrentFailed(p, known, |p.observed.executions|)
  {
    var es := p.observed.executions;
    active, current := [], None;
    for i := 0 to |es|
      invariant forall e :: e in active <==> e in es[..i] && Active(p, known, e)
      invariant current.Some? <==> exists e :: e in es[..i] && RunsCurrent(p, known, e)
      invariant current.Some? ==> RunsCurrent(p, known, current.value)
      invariant current.Some? && current.value.status == Failed <==> CurrentFailed(p, known, i)
    {
      var e := es[i];
      assert forall x :: x in es[..i + 1] <==> x in es[..i] || x == e by { assert es[..i + 1] == es[..i] + [e]; }
      assert RunsCurrent(p, known, e) ==>
        exists x :: x in es[..i + 1] && RunsCurrent(p, known, x) by { assert e in es[..i + 1]; }
      if !HoldsResources(e.status) { continue; }
      if e.id !in known || !Matches(e.ownership, known[e.id]) { continue; }
      if known[e.id].workload != p.workload.id { continue; }
      active := active + [e];
      if p.current.Some? && SameIdentity(known[e.id], p.current.value)
        && e.ownership.value.claim == p.current.value.claim {
        current := Some(e);
      }
    }
    assert es[..|es|] == es;
  }

  /** The execution with the least ExecutionID, `keep` aside. */
  method FirstObsolete(active: seq<Execution>, keep: Option<nat>) returns (r: Option<Execution>)
    ensures r.Some? ==> r.value in active && keep != Some(r.value.id)
    ensures forall e :: e in active && keep != Some(e.id) ==> r.Some? && r.value.id <= e.id
  {
    r := None;
    for i := 0 to |active|
      invariant r.Some? ==> r.value in active && keep != Some(r.value.id)
      invariant forall j :: 0 <= j < i && keep != Some(active[j].id) ==> r.Some? && r.value.id <= active[j].id
    {
      if keep != Some(active[i].id) && (r.None? || active[i].id < r.value.id) { r := Some(active[i]); }
    }
  }

  method Plan(p: PlanInput) returns (r: Planned)
    requires Keyed(p.others)
    ensures r == PlanOf(p)
  {
    if !p.observed.connected || !p.observed.ready || !p.observed.current
      || p.observed.host != p.workload.host { return Nothing; }
    var known := CollectKnown(p);
    var active, current := Survey(p, known);
    ghost var obsolete := Obsolete(p, known);
    assert current.Some? ==> current.value.id == p.current.value.execution;
    var gone := FirstObsolete(active, if current.Some? then Some(current.value.id) else None);
    if gone.Some? {
      assert gone.value.id in obsolete;
      assert forall id :: id in obsolete ==> gone.value.id <= id;
      assert gone.value.id == Least(obsolete);
      var key := KeyFor(p, known[gone.value.id].generation, gone.value.id, Stop);
      if key in p.inFlight { return Nothing; }
      return Do(key, Some(known[gone.value.id]));
    }
    assert obsolete == {};
    if !p.workload.running {
      if current.None? { return Nothing; }
      var key := KeyFor(p, current.value.ownership.value.generation, current.value.id, Stop);
      if key in p.inFlight { return Nothing; }
      return Do(key, p.current);
    }
    if p.held {
      if current.None? { return Refused(MaintenanceHold); }
      var key := KeyFor(p, current.value.ownership.value.generation, current.value.id, Stop);
      if key in p.inFlight { return Nothing; }
      return Do(key, p.current);
    }
    if p.blocked == Some(p.workload.generation) { return Nothing; }
    if current.Some? {
      if current.value.status == Failed { return Do(KeyFor(p, p.workload.generation, current.value.id, Block), None); }
      return Nothing;
    }
    if p.current.None? { return Refused(NoSnapshot); }
    var conflict := FindStartConflict(p, known, p.current.value);
    if conflict.Some? { return Refused(conflict.value); }
    var key := KeyFor(p, p.workload.generation, p.current.value.execution, Start);
    if key in p.inFlight { return Nothing; }
    return Do(key, p.current);
  }
}
