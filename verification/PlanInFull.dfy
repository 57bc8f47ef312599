/** Every plan told from the input alone: which executions, statuses, claims and keys decide it. */
module PlanInFull {
  import opened Common
  import opened Guards
  import opened Planner
  import opened PlanSafety

  // ---- statuses, ownership and claims -------------------------------------------------

  /** An execution in one of these states may still hold what it claims. */
  predicate Present(s: Status) { s in {Starting, Running, Stopping, Crashed, Backoff, Failed} }

  /** And in one of these it stands in the way of another START. */
  predicate InTheWay(s: Status) { s in {Starting, Running, Stopping, Crashed, Backoff} }

  lemma StatusesInFull(s: Status)
    ensures (HoldsResources(s) <==> Present(s)) && (BlocksStart(s) <==> InTheWay(s))
  {
  }

  predicate OwnedAs(o: Option<Ownership>, s: Snapshot) {
    match o
    case None => false
    case Some(w) => w.workload == s.workload && w.generation == s.generation && w.hash == s.hash && w.host == s.host
  }

  predicate Apart(a: Claim, b: Claim) { !(a.cpu && b.cpu) && forall d :: d in a.devices ==> d !in b.devices }

  /** The snapshot of an execution: the farm's, or else the last of the workload's own. */
  function Recorded(p: PlanInput, id: nat): Option<Snapshot> {
    if id in p.others then Some(p.others[id]) else LastOf(p.snapshots, id)
  }

  function LastOf(snapshots: seq<Snapshot>, id: nat): Option<Snapshot> {
    if snapshots == [] then None
    else
      var s := snapshots[|snapshots| - 1];
      if s.execution == id then Some(s) else LastOf(snapshots[..|snapshots| - 1], id)
  }

  lemma {:induction false} KnownInFull(snapshots: seq<Snapshot>, others: map<nat, Snapshot>, id: nat)
    requires Keyed(others)
    ensures id in Known(snapshots, others) <==> id in others || LastOf(snapshots, id).Some?
    ensures id in others ==> Known(snapshots, others)[id] == others[id]
    ensures id !in others && LastOf(snapshots, id).Some? ==> Known(snapshots, others)[id] == LastOf(snapshots, id).value
    decreases |snapshots|
  {
    if snapshots != [] { KnownInFull(snapshots[..|snapshots| - 1], others, id); }
  }

  /** The execution is one of the Controller's and not STOPPED, and runs as snapshot `s` says. */
  predicate RunsAs(p: PlanInput, e: Execution, s: Snapshot) {
    Present(e.status) && Recorded(p, e.id) == Some(s) && OwnedAs(e.ownership, s)
  }

  /** An execution of the workload that is not STOPPED. */
  predicate RunsHere(p: PlanInput, e: Execution) {
    && Recorded(p, e.id).Some? && RunsAs(p, e, Recorded(p, e.id).value)
    && Recorded(p, e.id).value.workload == p.workload.id
  }

  /** And it is the current one, under the claim the workload has now. */
  predicate RunsNow(p: PlanInput, e: Execution) {
    && RunsHere(p, e) && p.current.Some?
    && var s, c := Recorded(p, e.id).value, p.current.value;
       && s.execution == c.execution && s.workload == c.workload && s.generation == c.generation && s.hash == c.hash
       && e.ownership.Some? && e.ownership.value.claim == c.claim
  }

  lemma ExecutionsInFull(p: PlanInput, e: Execution)
    requires Keyed(p.others)
    ensures var known := Known(p.snapshots, p.others);
            && (Active(p, known, e) <==> RunsHere(p, e)) && (RunsCurrent(p, known, e) <==> RunsNow(p, e))
            && (Owned(known, e) <==> Recorded(p, e.id).Some? && OwnedAs(e.ownership, Recorded(p, e.id).value))
            && (e.id in known <==> Recorded(p, e.id).Some?)
            && (e.id in known ==> known[e.id] == Recorded(p, e.id).value)
  {
    KnownInFull(p.snapshots, p.others, e.id);
    StatusesInFull(e.status);
  }

  // ---- START -----------------------------------------------------------------------------

  /** The observation is one of the workload's Host that can be acted on. */
  predicate Actionable(p: PlanInput) {
    p.observed.connected && p.observed.ready && p.observed.current && p.observed.host == p.workload.host
  }

  /** An unmanaged process stands clear of the claim, for all that is known of it. */
  predicate Clear(claim: Claim, q: Process) {
    && !(q.cpu && claim.cpu) && (forall d :: d in claim.devices ==> d !in q.devices)
    && (q.unknown ==> !(claim.cpu && q.cpuRelevant) && !(claim.devices != [] && q.gpuRelevant))
  }

  /** An execution that stands in the way is of another workload, which claims something else, or claims so itself. */
  predicate Beside(p: PlanInput, claim: Claim, e: Execution) {
    if Recorded(p, e.id).Some? && OwnedAs(e.ownership, Recorded(p, e.id).value) then
      Apart(claim, Recorded(p, e.id).value.claim)
    else e.ownership.Some? && Apart(claim, e.ownership.value.claim)
  }

  /** The claim is in the inventory and apart from all unmanaged processes and all executions in the way. */
  predicate Room(p: PlanInput, claim: Claim) {
    && (forall d :: d in claim.devices ==> d in p.observed.inventory)
    && (forall q :: q in p.observed.processes ==> Clear(claim, q))
    && (forall e :: e in p.observed.executions && InTheWay(e.status) ==> Beside(p, claim, e))
  }

  lemma OverlapInFull(a: Claim, b: Claim)
    ensures Overlap(a, b) <==> !Apart(a, b)
  {
  }

  lemma ClearInFull(claim: Claim, q: Process)
    ensures ProcessConflicts(claim, q) <==> !Clear(claim, q)
  {
    OverlapInFull(claim, Claim(q.cpu, q.devices));
  }

  lemma RoomInFull(p: PlanInput, claim: Claim)
    requires Keyed(p.others)
    ensures RoomFor(p, Known(p.snapshots, p.others), claim) <==> Room(p, claim)
  {
    var known := Known(p.snapshots, p.others);
    forall q | q in p.observed.processes ensures ProcessConflicts(claim, q) <==> !Clear(claim, q) {
      ClearInFull(claim, q);
    }
    forall e | e in p.observed.executions
      ensures BlocksStart(e.status) <==> InTheWay(e.status)
      ensures Disjoint(claim, HeldClaim(known, e)) <==> Beside(p, claim, e)
    {
      ExecutionsInFull(p, e);
      StatusesInFull(e.status);
      if Owned(known, e) { OverlapInFull(claim, known[e.id].claim); }
      if e.ownership.Some? { OverlapInFull(claim, e.ownership.value.claim); }
    }
  }

  /** No execution of the workload is there, but STOPPED ones. */
  predicate NothingHere(p: PlanInput) { forall e :: e in p.observed.executions ==> !RunsHere(p, e) }

  /** The workload is to run now: no hold, and its generation is not blocked. */
  predicate ToRun(p: PlanInput) {
    p.workload.running && !p.held && (match p.blocked case None => true case Some(g) => g != p.workload.generation)
  }

  lemma NothingInFull(p: PlanInput)
    requires Keyed(p.others)
    ensures NoneActive(p, Known(p.snapshots, p.others)) <==> NothingHere(p)
  {
    forall e | e in p.observed.executions
      ensures Active(p, Known(p.snapshots, p.others), e) <==> RunsHere(p, e)
    {
      ExecutionsInFull(p, e);
    }
  }

  /** START, of the current snapshot under the workload's generation, exactly when nothing stands in the way. */
  lemma StartInFull(p: PlanInput)
    requires Consistent(p)
    ensures PlanOf(p).Do? && PlanOf(p).key.kind == Start <==>
              && Actionable(p) && ToRun(p) && p.current.Some? && NothingHere(p) && Room(p, p.current.value.claim)
              && Key(p.workload.id, p.workload.generation, p.current.value.execution, p.observed.epoch, Start)
                 !in p.inFlight
    ensures PlanOf(p).Do? && PlanOf(p).key.kind == Start ==>
              && p.current.Some? && PlanOf(p).snapshot == p.current
              && PlanOf(p).key == Key(p.workload.id, p.workload.generation, p.current.value.execution,
                                      p.observed.epoch, Start)
  {
    StartExactlyWhen(p);
    NothingInFull(p);
    if p.current.Some? { RoomInFull(p, p.current.value.claim); }
  }

  // ---- STOP --------------------------------------------------------------------------------

  /** The executions of the workload that are not what it is to run now. */
  ghost function Leftovers(p: PlanInput): set<nat> {
    set e | e in p.observed.executions && RunsHere(p, e) && !RunsNow(p, e) :: e.id
  }

  /** The execution that is next to stop: the least of the leftovers, or what runs now though it must not. */
  ghost predicate NextToStop(p: PlanInput, id: nat) {
    if Leftovers(p) != {} then id in Leftovers(p) && forall other :: other in Leftovers(p) ==> id <= other
    else (!p.workload.running || p.held) && exists e :: e in p.observed.executions && RunsNow(p, e) && e.id == id
  }

  lemma LeftoversInFull(p: PlanInput)
    requires Keyed(p.others) && Distinct(p.observed.executions)
    ensures Obsolete(p, Known(p.snapshots, p.others)) == Leftovers(p)
    ensures HasCurrent(p, Known(p.snapshots, p.others)) <==> exists e :: e in p.observed.executions && RunsNow(p, e)
  {
    var known, es := Known(p.snapshots, p.others), p.observed.executions;
    forall e | e in es
      ensures (Active(p, known, e) <==> RunsHere(p, e)) && (RunsCurrent(p, known, e) <==> RunsNow(p, e))
    {
      ExecutionsInFull(p, e);
    }
    if HasCurrent(p, known) {
      var x :| x in es && RunsCurrent(p, known, x);
      assert x.id == p.current.value.execution by { KnownInFull(p.snapshots, p.others, x.id); }
      forall e | e in es && RunsHere(p, e) ensures RunsNow(p, e) <==> e.id == x.id {
        assert e.id == x.id ==> e == x;
        if RunsNow(p, e) { assert known[e.id].execution == e.id; }
      }
    }
  }

  /** STOP, of exactly that execution under its own generation, and no other. */
  lemma StopInFull(p: PlanInput, id: nat)
    requires Consistent(p) && Distinct(p.observed.executions)
    ensures PlanOf(p).Do? && PlanOf(p).key.kind == Stop && PlanOf(p).key.execution == id <==>
            && Actionable(p) && NextToStop(p, id) && Recorded(p, id).Some?
            && Key(p.workload.id, Recorded(p, id).value.generation, id, p.observed.epoch, Stop) !in p.inFlight
    ensures PlanOf(p).Do? && PlanOf(p).key.kind == Stop && PlanOf(p).key.execution == id ==>
            && PlanOf(p).key == Key(p.workload.id, Recorded(p, id).value.generation, id, p.observed.epoch, Stop)
            && PlanOf(p).snapshot == Recorded(p, id)
  {
    var known := Known(p.snapshots, p.others);
    LeftoversInFull(p);
    KnownInFull(p.snapshots, p.others, id);
    if HasCurrent(p, known) {
      var x :| x in p.observed.executions && RunsCurrent(p, known, x);
      ExecutionsInFull(p, x);
      assert known[p.current.value.execution] == p.current.value;
      assert x.id == p.current.value.execution;
    }
  }

  // ---- BLOCK and refusals ---------------------------------------------------------------------

  /** BLOCK, exactly of a generation that is to run, with no leftovers, and FAILED. */
  lemma BlockInFull(p: PlanInput)
    requires Consistent(p) && Distinct(p.observed.executions)
    ensures PlanOf(p).Do? && PlanOf(p).key.kind == Block <==>
              && Actionable(p) && ToRun(p) && Leftovers(p) == {}
              && exists e :: e in p.observed.executions && RunsNow(p, e) && e.status == Failed
    ensures PlanOf(p).Do? && PlanOf(p).key.kind == Block ==>
              && p.current.Some?
              && PlanOf(p) == Do(Key(p.workload.id, p.workload.generation, p.current.value.execution,
                                     p.observed.epoch, Block), None)
  {
    BlockExactlyWhen(p);
    LeftoversInFull(p);
    forall e | e in p.observed.executions
      ensures (Active(p, Known(p.snapshots, p.others), e) <==> RunsHere(p, e))
              && (RunsCurrent(p, Known(p.snapshots, p.others), e) <==> RunsNow(p, e))
    {
      ExecutionsInFull(p, e);
    }
    forall e | e in p.observed.executions && RunsHere(p, e) && !RunsNow(p, e) ensures e.id in Leftovers(p) { }
  }

  /** Why a workload that is to run is not started: each reason exactly when it is the first that applies. */
  lemma RefusedInFull(p: PlanInput)
    requires Consistent(p)
    ensures PlanOf(p) == Refused(MaintenanceHold) <==>
            Actionable(p) && NothingHere(p) && p.workload.running && p.held
    ensures PlanOf(p) == Refused(NoSnapshot) <==>
            Actionable(p) && NothingHere(p) && ToRun(p) && p.current.None?
    ensures PlanOf(p) == Refused(IncompatibleHardware) <==>
            && Actionable(p) && NothingHere(p) && ToRun(p) && p.current.Some?
            && exists d :: d in p.current.value.claim.devices && d !in p.observed.inventory
    ensures PlanOf(p).Refused? && PlanOf(p).code in {UnmanagedConflict, ConfigConflict} <==>
            && Actionable(p) && NothingHere(p) && ToRun(p) && p.current.Some?
            && (forall d :: d in p.current.value.claim.devices ==> d in p.observed.inventory)
            && !Room(p, p.current.value.claim)
  {
    var known := Known(p.snapshots, p.others);
    Quiet(p, known);
    NothingInFull(p);
    if p.current.Some? {
      ConflictCodes(p, known, p.current.value, 0);
      RoomInFull(p, p.current.value.claim);
      if NoneActive(p, known) { RoomIsNoConflict(p, known); }
    }
  }

  lemma {:induction false} ConflictCodes(p: PlanInput, known: map<nat, Snapshot>, c: Snapshot, i: nat)
    requires i <= |p.observed.executions|
    ensures FirstConflict(p, known, c, i) in {None, Some(UnmanagedConflict), Some(ConfigConflict)}
    decreases |p.observed.executions| - i
  {
    if i < |p.observed.executions| { ConflictCodes(p, known, c, i + 1); }
  }

  /**
   A conflict is one of configuration when it is with an execution of the Controller's,
   else one with the unmanaged.
   */
  lemma ConflictInFull(p: PlanInput, c: Snapshot, e: Execution)
    requires Keyed(p.others) && InTheWay(e.status) && !(e.id == c.execution && OwnedAs(e.ownership, c))
    ensures var r := ExecutionConflict(p, Known(p.snapshots, p.others), c, e);
            if Recorded(p, e.id).Some? && OwnedAs(e.ownership, Recorded(p, e.id).value) then
              var s := Recorded(p, e.id).value;
              r == if s.workload == p.workload.id || !Apart(c.claim, s.claim) then Some(ConfigConflict) else None
            else
              r == if e.ownership.Some? && Apart(c.claim, e.ownership.value.claim) then None
                   else Some(UnmanagedConflict)
  {
    ExecutionsInFull(p, e);
    StatusesInFull(e.status);
    if Recorded(p, e.id).Some? { OverlapInFull(c.claim, Recorded(p, e.id).value.claim); }
    if e.ownership.Some? { OverlapInFull(c.claim, e.ownership.value.claim); }
  }
}
