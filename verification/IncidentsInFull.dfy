/** The incidents of one Host told from the facts alone, condition by condition and row by row. */
module IncidentsInFull {
  import opened Common
  import opened Planner
  import opened Incidents
  import opened IncidentStore

  // ---- what an evaluation shows ---------------------------------------------------------

  /** The Host's current connection reported. */
  predicate Reports(i: Input) {
    i.observed.Some? && i.observed.value.connected && i.observed.value.host == i.host && i.observed.value.epoch != 0
  }

  /** And everything it is judged by is fresh. */
  predicate Fresh(i: Input) {
    Reports(i) && i.observed.value.ready && i.observed.value.current && i.inventoryFresh && i.processesFresh
  }

  predicate HasWork(i: Input) { exists f :: f in i.workloads && f.workload.running }

  /** The execution is the one the snapshot describes, claim and all. */
  predicate Runs(e: Execution, s: Snapshot) {
    && e.id == s.execution
    && match e.ownership
       case None => false
       case Some(o) =>
         o.workload == s.workload && o.generation == s.generation && o.hash == s.hash && o.host == s.host
         && o.claim == s.claim
  }

  predicate Lacks(o: Observation, s: Snapshot, d: nat) { d in s.claim.devices && d !in o.inventory }

  predicate Foreign(o: Observation, s: Snapshot, d: nat) {
    d in s.claim.devices && exists q :: q in o.processes && d in q.devices
  }

  /** An unmanaged process takes the CPU, or may take what is claimed for all that is known. */
  predicate ForeignElse(o: Observation, s: Snapshot) {
    exists q :: q in o.processes &&
      ((q.cpu && s.claim.cpu)
       || (q.unknown && ((s.claim.cpu && q.cpuRelevant) || (s.claim.devices != [] && q.gpuRelevant))))
  }

  /** The execution of another workload is there under snapshot `r`. */
  predicate Beside(i: Input, s: Snapshot, e: Execution, r: Snapshot) {
    && e.status in {Starting, Running, Stopping, Crashed, Backoff, Failed}
    && e.id != s.execution && e.id in i.known && i.known[e.id] == r && Runs(e, r) && r.workload != s.workload
  }

  predicate Contested(i: Input, o: Observation, s: Snapshot, d: nat) {
    d in s.claim.devices
    && exists e :: e in o.executions && e.id in i.known && Beside(i, s, e, i.known[e.id])
         && d in i.known[e.id].claim.devices
  }

  predicate ContestedCpu(i: Input, o: Observation, s: Snapshot) {
    s.claim.cpu
    && exists e :: e in o.executions && e.id in i.known && Beside(i, s, e, i.known[e.id]) && i.known[e.id].claim.cpu
  }

  predicate IsOf(c: Condition, kind: Kind, severity: Severity, reason: Reason, device: Option<nat>) {
    c.id.kind == kind && c.severity == severity && c.id.reason == reason && c.id.device == device
  }

  /** What the one execution that runs the snapshot shows of itself. */
  predicate ShowsOf(i: Input, e: Execution, c: Condition) {
    && c.id.execution == Some(e.id) && c.id.device == None
    && match e.status
       case Starting => false
       case Stopping => false
       case Stopped => IsOf(c, NotExecuting, Error, Crash, None)
       case Failed => IsOf(c, RuntimeError, Error, Crash, None)
       case Crashed => IsOf(c, RuntimeError, Error, Crash, None)
       case Backoff => IsOf(c, RuntimeError, Error, Crash, None)
       case Running =>
         if e.id !in i.work then IsOf(c, TelemetryUnknown, Warning, Telemetry(0), None)
         else
           match i.work[e.id]
           case Confirmed => false
           case Unknown => IsOf(c, TelemetryUnknown, Warning, Telemetry(0), None)
           case Unavailable => IsOf(c, TelemetryUnavailable, Warning, Telemetry(1), None)
           case Stale => IsOf(c, UsefulWorkDegraded, Warning, Telemetry(2), None)
           case Unhealthy(reason) => IsOf(c, RuntimeError, Error, reason, None)
           case Unconfirmed(reason) => IsOf(c, UsefulWorkDegraded, Warning, reason, None)
  }

  /** The execution that runs the snapshot is at place `k`, the first such. */
  predicate At(o: Observation, s: Snapshot, k: nat) {
    k < |o.executions| && Runs(o.executions[k], s) && forall j :: 0 <= j < k ==> !Runs(o.executions[j], s)
  }

  /** What a workload with a current snapshot shows: the first of the families that has anything to show. */
  ghost predicate ShowsRunning(i: Input, o: Observation, s: Snapshot, c: Condition) {
    if exists d: nat :: Lacks(o, s, d) then
      c.id.execution == None
      && exists d: nat :: Lacks(o, s, d) && IsOf(c, BadHardware, Error, HardwareCode, Some(d))
    else if ForeignElse(o, s) || exists d: nat :: Foreign(o, s, d) then
      c.id.execution == None
      && ((ForeignElse(o, s) && IsOf(c, ForeignProcess, Warning, ProcessCode, None))
          || exists d: nat :: Foreign(o, s, d) && IsOf(c, ForeignProcess, Warning, ProcessCode, Some(d)))
    else if ContestedCpu(i, o, s) || exists d: nat :: Contested(i, o, s, d) then
      c.id.execution == None
      && ((ContestedCpu(i, o, s) && IsOf(c, ResourceConflict, Error, ConfigCode, None))
          || exists d: nat :: Contested(i, o, s, d) && IsOf(c, ResourceConflict, Error, ConfigCode, Some(d)))
    else
      !i.held &&
      if exists e :: e in o.executions && Runs(e, s) then
        exists k :: 0 <= k < |o.executions| && At(o, s, k) && ShowsOf(i, o.executions[k], c)
      else c.id.execution == None && IsOf(c, NotExecuting, Error, Crash, None)
  }

  ghost predicate ShowsFor(i: Input, o: Observation, f: WorkloadFacts, c: Condition) {
    && f.workload.running && c.id.host == i.host && c.id.workload == Some(f.workload.id)
    && if f.blocked.Some? && f.blocked.value.0 == f.workload.generation then
         var reason := f.blocked.value.1;
         c.id.execution == None
         && IsOf(c, if reason == HardwareCode then BadHardware else if reason == ProcessCode then ForeignProcess
                    else ConfigurationBlocked, Error, reason, None)
       else if f.current.None? then c.id.execution == None && IsOf(c, ConfigurationBlocked, Error, Missing, None)
       else ShowsRunning(i, o, f.current.value, c)
  }

  lemma DevicesShow(i: Input, kind: Kind, severity: Severity, w: nat, devices: seq<nat>, reason: Reason, c: Condition)
    ensures c in PerDevice(i, kind, severity, w, devices, reason) <==>
            && c.id.host == i.host && c.id.workload == Some(w) && c.id.execution == None
            && exists d :: d in devices && IsOf(c, kind, severity, reason, Some(d))
  {
    var r := PerDevice(i, kind, severity, w, devices, reason);
    if c in r {
      var k :| 0 <= k < |r| && r[k] == c;
      assert devices[k] in devices;
    }
    forall d | d in devices && c.id.host == i.host && c.id.workload == Some(w) && c.id.execution == None
               && IsOf(c, kind, severity, reason, Some(d))
      ensures c in r
    {
      var k :| 0 <= k < |devices| && devices[k] == d;
      assert r[k] == c;
    }
  }

  lemma SomeIn(r: seq<nat>)
    ensures r != [] <==> exists d: nat :: d in r
  {
    if r != [] { assert r[0] in r; }
  }

  lemma RunsIs(e: Execution, s: Snapshot)
    ensures Exact(e, s) <==> Runs(e, s)
  {
  }

  lemma BesideIs(i: Input, s: Snapshot, e: Execution)
    ensures Rival(i, s, e) <==> e.id in i.known && Beside(i, s, e, i.known[e.id])
  {
    if e.id in i.known { RunsIs(e, i.known[e.id]); }
  }

  /** The four families of facts about a claim. */
  lemma FamiliesAre(i: Input, o: Observation, s: Snapshot)
    ensures forall d: nat :: d in MissingDevices(o, s) <==> Lacks(o, s, d)
    ensures forall d: nat :: d in ForeignDevices(o, s) <==> Foreign(o, s, d)
    ensures forall d: nat :: d in ContestedDevices(i, o, s) <==> Contested(i, o, s, d)
    ensures (exists q :: q in o.processes && Unscoped(s.claim, q)) <==> ForeignElse(o, s)
    ensures (exists e :: e in o.executions && SharesCpu(i, s, e)) <==> ContestedCpu(i, o, s)
  {
    forall e | e in o.executions ensures Rival(i, s, e) <==> e.id in i.known && Beside(i, s, e, i.known[e.id]) {
      BesideIs(i, s, e);
    }
    forall d: nat ensures d in ContestedDevices(i, o, s) <==> Contested(i, o, s, d) {
      if d in ContestedDevices(i, o, s) {
        var e :| e in o.executions && Wanted(i, s, e, d);
      }
      if Contested(i, o, s, d) {
        var e :| e in o.executions && e.id in i.known && Beside(i, s, e, i.known[e.id])
                 && d in i.known[e.id].claim.devices;
        assert Wanted(i, s, e, d);
      }
    }
    if ContestedCpu(i, o, s) {
      var e :| e in o.executions && e.id in i.known && Beside(i, s, e, i.known[e.id]) && i.known[e.id].claim.cpu;
      assert SharesCpu(i, s, e);
    }
    if e :| e in o.executions && SharesCpu(i, s, e) { assert Beside(i, s, e, i.known[e.id]); }
  }

  lemma TelemetryShows(i: Input, w: nat, e: Execution, c: Condition)
    ensures c in TelemetryCondition(i, w, e) <==>
            c.id.host == i.host && c.id.workload == Some(w) && ShowsOf(i, e, c)
  {
  }

  lemma PlaceIs(o: Observation, s: Snapshot)
    ensures FirstExact(o.executions, s) < |o.executions| <==> exists e :: e in o.executions && Runs(e, s)
    ensures FirstExact(o.executions, s) < |o.executions| ==> At(o, s, FirstExact(o.executions, s))
    ensures forall k: nat :: At(o, s, k) ==> k == FirstExact(o.executions, s)
  {
    forall e ensures Exact(e, s) <==> Runs(e, s) { RunsIs(e, s); }
    var n := FirstExact(o.executions, s);
    if e :| e in o.executions && Runs(e, s) {
      var k :| 0 <= k < |o.executions| && o.executions[k] == e;
      assert !(k < n);
    }
    forall k: nat | At(o, s, k) ensures k == n {
      assert Exact(o.executions[k], s);
      assert !(n < k) && !(k < n);
    }
  }

  /** The claim is there and nothing foreign is on it. */
  ghost predicate ClaimClear(o: Observation, s: Snapshot) {
    !((exists d: nat :: Lacks(o, s, d)) || ForeignElse(o, s) || exists d: nat :: Foreign(o, s, d))
  }

  lemma ClaimShows(i: Input, o: Observation, w: nat, s: Snapshot, c: Condition)
    requires !ClaimClear(o, s)
    ensures c in OfSnapshot(i, o, w, s) <==>
            c.id.host == i.host && c.id.workload == Some(w) && ShowsRunning(i, o, s, c)
  {
    FamiliesAre(i, o, s);
    SomeIn(MissingDevices(o, s));
    SomeIn(ForeignDevices(o, s));
    DevicesShow(i, BadHardware, Error, w, MissingDevices(o, s), HardwareCode, c);
    DevicesShow(i, ForeignProcess, Warning, w, ForeignDevices(o, s), ProcessCode, c);
  }

  lemma ContestShows(i: Input, o: Observation, w: nat, s: Snapshot, c: Condition)
    requires ClaimClear(o, s) && (ContestedCpu(i, o, s) || exists d: nat :: Contested(i, o, s, d))
    ensures c in OfSnapshot(i, o, w, s) <==>
            c.id.host == i.host && c.id.workload == Some(w) && ShowsRunning(i, o, s, c)
  {
    FamiliesAre(i, o, s);
    SomeIn(MissingDevices(o, s));
    SomeIn(ForeignDevices(o, s));
    SomeIn(ContestedDevices(i, o, s));
    DevicesShow(i, ResourceConflict, Error, w, ContestedDevices(i, o, s), ConfigCode, c);
  }

  lemma ExecutionShows(i: Input, o: Observation, w: nat, s: Snapshot, c: Condition)
    requires ClaimClear(o, s) && !(ContestedCpu(i, o, s) || exists d: nat :: Contested(i, o, s, d))
    ensures c in OfSnapshot(i, o, w, s) <==>
            c.id.host == i.host && c.id.workload == Some(w) && ShowsRunning(i, o, s, c)
  {
    FamiliesAre(i, o, s);
    SomeIn(MissingDevices(o, s));
    SomeIn(ForeignDevices(o, s));
    SomeIn(ContestedDevices(i, o, s));
    PlaceIs(o, s);
    var k := FirstExact(o.executions, s);
    if k < |o.executions| { TelemetryShows(i, w, o.executions[k], c); }
  }

  /** A workload shows exactly what the facts call for. */
  lemma WorkloadShows(i: Input, o: Observation, f: WorkloadFacts, c: Condition)
    ensures c in OfWorkload(i, o, f) <==> ShowsFor(i, o, f, c)
  {
    if f.current.Some? {
      var s := f.current.value;
      if !ClaimClear(o, s) {
        ClaimShows(i, o, f.workload.id, s, c);
      } else if ContestedCpu(i, o, s) || exists d: nat :: Contested(i, o, s, d) {
        ContestShows(i, o, f.workload.id, s, c);
      } else {
        ExecutionShows(i, o, f.workload.id, s, c);
      }
    }
  }

  lemma {:induction false} WorkloadsShow(i: Input, o: Observation, fs: seq<WorkloadFacts>, c: Condition)
    ensures c in OfWorkloads(i, o, fs) <==> exists f :: f in fs && ShowsFor(i, o, f, c)
  {
    if fs != [] {
      var n := |fs| - 1;
      WorkloadsShow(i, o, fs[..n], c);
      WorkloadShows(i, o, fs[n], c);
      assert fs == fs[..n] + [fs[n]];
    }
  }

  /** A condition of the Host itself. */
  predicate HostShows(i: Input, c: Condition, kind: Kind, severity: Severity, reason: Reason) {
    IsOf(c, kind, severity, reason, None) && c.id.host == i.host && c.id.workload == None && c.id.execution == None
  }

  ghost predicate Shows(i: Input, c: Condition) {
    || (i.held && HostShows(i, c, Hold, Info, HoldCode))
    || (if Fresh(i) then exists f :: f in i.workloads && ShowsFor(i, i.observed.value, f, c)
        else if Reports(i) then HasWork(i) && HostShows(i, c, MonitoringStale, Warning, NotReady)
        else (i.observed.Some? || HasWork(i)) && HostShows(i, c, AgentOffline, Error, NotReady))
  }

  /**
   An evaluation shows exactly the hold, the loss of monitoring, or what each workload that
   is to run calls for; all but the hold can be resolved only if everything is fresh.
   */
  lemma EvaluationInFull(i: Input)
    ensures forall c :: c in Evaluated(i).conditions <==> Shows(i, c)
    ensures forall kind :: kind in Evaluated(i).resolvable <==> kind == Hold || Fresh(i)
  {
    forall c ensures c in Evaluated(i).conditions <==> Shows(i, c) {
      if Fresh(i) { WorkloadsShow(i, i.observed.value, i.workloads, c); }
    }
  }

  // ---- what a pass stores -----------------------------------------------------------------

  /** The row of an incident that a pass shows with condition `c`. */
  predicate ShownAs(t: Table, u: Table, c: Condition, now: int) {
    && c.id in u && u[c.id].active && u[c.id].severity == c.severity && u[c.id].last == now
    && if c.id !in t then u[c.id].first == now && u[c.id].count == 1 && u[c.id].resolvedAt == None
       else if t[c.id].active then
         u[c.id].first == t[c.id].first && u[c.id].count == t[c.id].count && u[c.id].resolvedAt == t[c.id].resolvedAt
       else u[c.id].first == t[c.id].first && u[c.id].count == t[c.id].count + 1 && u[c.id].resolvedAt == None
  }

  /** The row of an incident that ends now. */
  predicate EndedAs(t: Table, u: Table, id: Id, now: int) {
    && id in t && id in u && t[id].active && !u[id].active && u[id].last == now && u[id].resolvedAt == Some(now)
    && u[id].severity == t[id].severity && u[id].first == t[id].first && u[id].count == t[id].count
  }

  /** Given conditions show, absent ones of the Host that the pass may resolve end, and all else stays. */
  lemma PassInFull(t: Table, host: nat, cs: seq<Condition>, resolvable: set<Kind>, now: int)
    requires Acceptable(host, cs)
    ensures var u := Reconciled(t, host, cs, resolvable, now);
            && (forall c :: c in cs ==> ShownAs(t, u, c, now))
            && (forall id :: id in t && (forall c :: c in cs ==> c.id != id) ==>
                  if t[id].active && id.host == host && id.kind in resolvable then EndedAs(t, u, id, now)
                  else id in u && u[id] == t[id])
            && (forall id :: id in u && id !in t ==> exists c :: c in cs && c.id == id)
  {
    SeveritiesAre(cs);
    forall c | c in cs ensures ShownAs(t, Reconciled(t, host, cs, resolvable, now), c, now) {
      var j :| 0 <= j < |cs| && cs[j] == c;
      assert c.id in ShownAll(t, cs, now);
    }
  }

  /** A pass over a Host commits as long as the facts it was evaluated on are still the stored ones. */
  lemma PassCommitsExactlyWhen(t: Table, i: Input, authority: bool, now: int)
    requires WellFormed(i)
    ensures authority ==>
              var v := Evaluated(i);
              && Next(t, Pass(i, authority, now)) == Reconciled(t, i.host, v.conditions, v.resolvable, now)
              && Acceptable(i.host, v.conditions)
    ensures !authority ==> Next(t, Pass(i, authority, now)) == t
  {
    EvaluatedIsDistinct(i);
  }

  /** Deleting a workload ends its active incidents and no others. */
  lemma DeletionInFull(t: Table, workload: nat, now: int)
    ensures var u := Deleted(t, workload, now);
            && u.Keys == t.Keys
            && forall id :: id in t ==>
                 if t[id].active && id.workload == Some(workload) then EndedAs(t, u, id, now) else u[id] == t[id]
  {
  }
}
