/**
 After a restore every Host of the restored farm is barred from runtime actions
 until a complete fresh observation agrees with the restored intent.
 */
module RestoreBarrier {
  import opened Common
  import opened Planner

  datatype Barrier = Barrier(backup: nat, revision: nat, conflict: bool)

  datatype Table = Table(barriers: map<nat, Barrier>, required: bool)

  /** What the candidate database of a restore holds: a barrier for every Host it knows of. */
  function Prepared(hosts: set<nat>, backup: nat): Table {
    Table(map h | h in hosts :: Barrier(backup, 1, false), hosts != {})
  }

  /** A transition names the barrier it read; another backup or revision refuses it. */
  predicate Stale(t: Table, host: nat, backup: nat, revision: nat) {
    host !in t.barriers || t.barriers[host].backup != backup || t.barriers[host].revision != revision
  }

  function Marked(t: Table, host: nat, backup: nat, revision: nat): Table {
    if Stale(t, host, backup, revision) || t.barriers[host].conflict then t
    else t.(barriers := t.barriers[host := Barrier(backup, revision + 1, true)])
  }

  function Cleared(t: Table, host: nat, backup: nat, revision: nat): Table {
    if Stale(t, host, backup, revision) then t
    else Table(t.barriers - {host}, t.barriers - {host} != map[])
  }

  /** What one evaluation goes by; `current` are the Host's current snapshots by ExecutionID. */
  datatype Facts = Facts(observed: Observation, inventoryFresh: bool, processesFresh: bool, current: map<nat, Snapshot>)

  predicate Observable(f: Facts) { f.observed.connected && f.observed.ready && f.observed.current }

  predicate Complete(f: Facts) { Observable(f) && f.inventoryFresh && f.processesFresh }

  /** The execution is a current snapshot of the Host, claim and all. */
  predicate Exact(f: Facts, e: Execution) {
    e.id in f.current && Matches(e.ownership, f.current[e.id]) && e.ownership.value.claim == f.current[e.id].claim
  }

  predicate Agrees(f: Facts) { forall e :: e in f.observed.executions && HoldsResources(e.status) ==> Exact(f, e) }

  /** The barrier as an evaluation read it, and the facts it goes by. */
  datatype Reading = Reading(host: nat, backup: nat, revision: nat, facts: Facts)

  function Committed(t: Table, r: Reading): Table {
    if Agrees(r.facts) then Cleared(t, r.host, r.backup, r.revision) else Marked(t, r.host, r.backup, r.revision)
  }

  /** applyRestoreBarrierLocked, entered with a usable observation. */
  function Evaluated(t: Table, host: nat, f: Facts): Table {
    if !Complete(f) || host !in t.barriers then t
    else Committed(t, Reading(host, t.barriers[host].backup, t.barriers[host].revision, f))
  }

  /** A usable observation of the Host's connection, with everything about the Host fresh. */
  predicate SeenInFull(f: Facts) {
    f.observed.connected && f.observed.ready && f.observed.current && f.inventoryFresh && f.processesFresh
  }

  /** Every execution that is not STOPPED is a current snapshot of the Host, claim and all. */
  predicate AsIntended(f: Facts) {
    forall e :: e in f.observed.executions
                && e.status in {Starting, Running, Stopping, Crashed, Backoff, Failed} ==>
      && e.id in f.current && e.ownership.Some?
      && var o, s := e.ownership.value, f.current[e.id];
         o.workload == s.workload && o.generation == s.generation && o.hash == s.hash && o.host == s.host
         && o.claim == s.claim
  }

  lemma FactsInFull(f: Facts)
    ensures (Complete(f) <==> SeenInFull(f)) && (Agrees(f) <==> AsIntended(f))
  {
    if AsIntended(f) {
      forall e | e in f.observed.executions && HoldsResources(e.status) ensures Exact(f, e) { }
    }
    if Agrees(f) {
      forall e | e in f.observed.executions && e.status in {Starting, Running, Stopping, Crashed, Backoff, Failed}
        ensures Exact(f, e) { }
    }
  }

  class BarrierTable {
    var barriers: map<nat, Barrier>
    var required: bool

    function State(): Table
      reads this
    {
      Table(barriers, required)
    }

    /** prepareRestoreCandidate. */
    method Prepare(hosts: set<nat>, backup: nat)
      modifies this
      ensures State() == Prepared(hosts, backup)
      ensures barriers.Keys == hosts && forall h :: h in hosts ==> barriers[h] == Barrier(backup, 1, false)
      ensures required <==> exists h :: h in hosts
    {
      barriers := map[];
      var todo := hosts;
      while todo != {}
        invariant todo <= hosts && barriers.Keys == hosts - todo
        invariant forall h :: h in barriers ==> barriers[h] == Barrier(backup, 1, false)
        decreases |todo|
      {
        var h :| h in todo;
        barriers := barriers[h := Barrier(backup, 1, false)];
        todo := todo - {h};
      }
      required := hosts != {};
    }

    method MarkConflict(host: nat, backup: nat, revision: nat) returns (ok: bool)
      modifies this
      ensures ok <==> !Stale(old(State()), host, backup, revision)
      ensures State() == Marked(old(State()), host, backup, revision)
      ensures ok <==> host in old(barriers) && old(barriers)[host].backup == backup
                      && old(barriers)[host].revision == revision
      ensures ok ==>
                && host in barriers && barriers[host].backup == backup && barriers[host].conflict
                && barriers[host].revision == (if old(barriers)[host].conflict then revision else revision + 1)
      ensures barriers - {host} == old(barriers) - {host} && required == old(required)
    {
      if host !in barriers || barriers[host].backup != backup || barriers[host].revision != revision { return false; }
      if !barriers[host].conflict { barriers := barriers[host := Barrier(backup, revision + 1, true)]; }
      return true;
    }

    method ClearBarrier(host: nat, backup: nat, revision: nat) returns (ok: bool)
      modifies this
      ensures ok <==> !Stale(old(State()), host, backup, revision)
      ensures State() == Cleared(old(State()), host, backup, revision)
      ensures ok <==> host in old(barriers) && old(barriers)[host].backup == backup
                      && old(barriers)[host].revision == revision
      ensures ok ==> barriers == old(barriers) - {host} && (required <==> exists h :: h in barriers)
      ensures !ok ==> barriers == old(barriers) && required == old(required)
    {
      if host !in barriers || barriers[host].backup != backup || barriers[host].revision != revision { return false; }
      barriers := barriers - {host};
      required := |barriers| != 0;
      return true;
    }

    /** Whether the pass over the Host ends here, without an action. */
    method Apply(host: nat, f: Facts) returns (blocked: bool)
      requires Observable(f)
      modifies this
      ensures blocked <==> host in old(barriers)
      ensures State() == Evaluated(old(State()), host, f)
      ensures host in old(barriers) && SeenInFull(f) ==>
                && (host in barriers <==> !AsIntended(f))
                && (host in barriers ==> barriers[host].conflict)
      ensures !(host in old(barriers) && SeenInFull(f)) ==> State() == old(State())
    {
      FactsInFull(f);
      if host !in barriers { return false; }
      if !f.inventoryFresh || !f.processesFresh { return true; }
      var b := barriers[host];
      var conflict := false;
      for i := 0 to |f.observed.executions|
        invariant !conflict && forall j :: 0 <= j < i && HoldsResources(f.observed.executions[j].status) ==>
                    Exact(f, f.observed.executions[j])
      {
        var e := f.observed.executions[i];
        if !HoldsResources(e.status) { continue; }
        if e.id !in f.current || !Matches(e.ownership, f.current[e.id])
          || e.ownership.value.claim != f.current[e.id].claim {
          conflict := true;
          assert e in f.observed.executions && !Exact(f, e);
          break;
        }
      }
      if conflict {
        var ok := MarkConflict(host, b.backup, b.revision);
      } else {
        var ok := ClearBarrier(host, b.backup, b.revision);
      }
      return true;
    }
  }
}
