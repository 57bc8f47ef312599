/** Controller incidents: which conditions one Host shows, and the life of each incident. */
module Incidents {
  import opened Common
  import opened Planner

  datatype Kind =
    | AgentOffline | MonitoringStale | NotExecuting | RuntimeError | UsefulWorkDegraded | TelemetryUnknown
    | TelemetryUnavailable | BadHardware | ForeignProcess | ResourceConflict | Hold | ConfigurationBlocked

  datatype Severity = Info | Warning | Error

  /** Error codes that evaluation looks at; `Other` stands for each of the rest. */
  datatype Reason =
    | HoldCode | NotReady | Missing | HardwareCode | ProcessCode | ConfigCode | Crash
    | Telemetry(code: nat) | Other(code: nat)

  /** The typed scope that an incident's identity is the digest of. */
  datatype Id = Id(kind: Kind, host: nat, reason: Reason, workload: Option<nat>, execution: Option<nat>,
                   device: Option<nat>)

  datatype Condition = Condition(id: Id, severity: Severity)

  // ---- evaluation -----------------------------------------------------------------

  /** What telemetry says of a RUNNING execution, already reduced to the condition it means, if any. */
  datatype Work = Confirmed | Unhealthy(reason: Reason) | Unknown | Unavailable | Stale | Unconfirmed(reason: Reason)

  datatype WorkloadFacts = WorkloadFacts(workload: Workload, current: Option<Snapshot>, blocked: Option<(nat, Reason)>)

  datatype Input = Input(host: nat, workloads: seq<WorkloadFacts>, known: map<nat, Snapshot>, held: bool,
                         observed: Option<Observation>, inventoryFresh: bool, processesFresh: bool,
                         work: map<nat, Work>)

  datatype Evaluation = Evaluation(conditions: seq<Condition>, resolvable: set<Kind>)

  const AllKinds := {AgentOffline, MonitoringStale, NotExecuting, RuntimeError, UsefulWorkDegraded, TelemetryUnknown,
                     TelemetryUnavailable, BadHardware, ForeignProcess, ResourceConflict, Hold, ConfigurationBlocked}

  predicate Online(i: Input) {
    i.observed.Some? && i.observed.value.connected && i.observed.value.host == i.host && i.observed.value.epoch != 0
  }

  predicate FullyFresh(i: Input) {
    Online(i) && i.observed.value.ready && i.observed.value.current && i.inventoryFresh && i.processesFresh
  }

  predicate RunningDesired(i: Input) { exists f :: f in i.workloads && f.workload.running }

  function Cond(i: Input, kind: Kind, severity: Severity, workload: Option<nat>, execution: Option<nat>,
                device: Option<nat>, reason: Reason): Condition {
    Condition(Id(kind, i.host, reason, workload, execution, device), severity)
  }

  function KindFor(r: Reason): Kind {
    match r
    case HardwareCode => BadHardware
    case ProcessCode => ForeignProcess
    case _ => ConfigurationBlocked
  }

  function PerDevice(i: Input, kind: Kind, severity: Severity, workload: nat, devices: seq<nat>,
                     reason: Reason): (r: seq<Condition>)
    ensures |r| == |devices|
    ensures forall k :: 0 <= k < |r| ==> r[k] == Cond(i, kind, severity, Some(workload), None, Some(devices[k]), reason)
  {
    if devices == [] then []
    else
      [Cond(i, kind, severity, Some(workload), None, Some(devices[0]), reason)]
      + PerDevice(i, kind, severity, workload, devices[1..], reason)
  }

  function Select(devices: seq<nat>, wanted: nat -> bool): (r: seq<nat>)
    ensures forall d :: d in r <==> d in devices && wanted(d)
    ensures NoRepeat(devices) ==> NoRepeat(r)
  {
    if devices == [] then []
    else
      assert devices == [devices[0]] + devices[1..];
      var rest := Select(devices[1..], wanted);
      if wanted(devices[0]) then [devices[0]] + rest else rest
  }

  predicate NoRepeat<T(==)>(s: seq<T>) { forall i, j :: 0 <= i < j < |s| ==> s[i] != s[j] }

  /** currentExecution: the snapshot's execution with its exact claim. */
  predicate Exact(e: Execution, s: Snapshot) {
    e.id == s.execution && Matches(e.ownership, s) && e.ownership.value.claim == s.claim
  }

  predicate Unscoped(claim: Planner.Claim, q: Process) {
    (q.cpu && claim.cpu) || (q.unknown && ((claim.cpu && q.cpuRelevant) || (claim.devices != [] && q.gpuRelevant)))
  }

  /** Another workload's owned execution beside the current one. */
  predicate Rival(i: Input, c: Snapshot, e: Execution) {
    e.status != Stopped && e.id != c.execution && e.id in i.known && Exact(e, i.known[e.id])
      && i.known[e.id].workload != c.workload
  }

  function TelemetryCondition(i: Input, w: nat, e: Execution): seq<Condition> {
    var on := (kind, severity, reason) => [Cond(i, kind, severity, Some(w), Some(e.id), None, reason)];
    match e.status
    case Failed => on(RuntimeError, Error, Crash)
    case Crashed => on(RuntimeError, Error, Crash)
    case Backoff => on(RuntimeError, Error, Crash)
    case Stopped => on(NotExecuting, Error, Crash)
    case Starting => []
    case Stopping => []
    case Running =>
      match if e.id in i.work then i.work[e.id] else Unknown
      case Confirmed => []
      case Unhealthy(reason) => on(RuntimeError, Error, reason)
      case Unknown => on(TelemetryUnknown, Warning, Telemetry(0))
      case Unavailable => on(TelemetryUnavailable, Warning, Telemetry(1))
      case Stale => on(UsefulWorkDegraded, Warning, Telemetry(2))
      case Unconfirmed(reason) => on(UsefulWorkDegraded, Warning, reason)
  }

  predicate Wanted(i: Input, c: Snapshot, e: Execution, d: nat) { Rival(i, c, e) && d in i.known[e.id].claim.devices }

  predicate SharesCpu(i: Input, c: Snapshot, e: Execution) { Rival(i, c, e) && c.claim.cpu && i.known[e.id].claim.cpu }

  /** Where the snapshot's execution is among those observed, or their number. */
  function FirstExact(es: seq<Execution>, c: Snapshot): (k: nat)
    ensures k <= |es| && (k < |es| ==> Exact(es[k], c)) && forall j :: 0 <= j < k ==> !Exact(es[j], c)
  {
    if es == [] || Exact(es[0], c) then 0 else 1 + FirstExact(es[1..], c)
  }

  function MissingDevices(o: Observation, c: Snapshot): seq<nat> {
    Select(c.claim.devices, (d: nat) => d !in o.inventory)
  }

  function ForeignDevices(o: Observation, c: Snapshot): seq<nat> {
    Select(c.claim.devices, (d: nat) => exists q :: q in o.processes && d in q.devices)
  }

  function ContestedDevices(i: Input, o: Observation, c: Snapshot): seq<nat> {
    Select(c.claim.devices, (d: nat) => exists e :: e in o.executions && Wanted(i, c, e, d))
  }

  /** The conditions of a workload that has a current snapshot. */
  function OfSnapshot(i: Input, o: Observation, w: nat, c: Snapshot): seq<Condition> {
    var unscoped := exists q :: q in o.processes && Unscoped(c.claim, q);
    var cpu := exists e :: e in o.executions && SharesCpu(i, c, e);
    if MissingDevices(o, c) != [] then PerDevice(i, BadHardware, Error, w, MissingDevices(o, c), HardwareCode)
    else if ForeignDevices(o, c) != [] || unscoped then
      PerDevice(i, ForeignProcess, Warning, w, ForeignDevices(o, c), ProcessCode)
      + if unscoped then [Cond(i, ForeignProcess, Warning, Some(w), None, None, ProcessCode)] else []
    else if ContestedDevices(i, o, c) != [] || cpu then
      PerDevice(i, ResourceConflict, Error, w, ContestedDevices(i, o, c), ConfigCode)
      + if cpu then [Cond(i, ResourceConflict, Error, Some(w), None, None, ConfigCode)] else []
    else if i.held then []
    else
      var k := FirstExact(o.executions, c);
      if k < |o.executions| then TelemetryCondition(i, w, o.executions[k])
      else [Cond(i, NotExecuting, Error, Some(w), None, None, Crash)]
  }

  /** The conditions of one workload; the first family that applies is the only one. */
  function OfWorkload(i: Input, o: Observation, f: WorkloadFacts): seq<Condition> {
    var w := f.workload.id;
    if !f.workload.running then []
    else if f.blocked.Some? && f.blocked.value.0 == f.workload.generation then
      [Cond(i, KindFor(f.blocked.value.1), Error, Some(w), None, None, f.blocked.value.1)]
    else if f.current.None? then [Cond(i, ConfigurationBlocked, Error, Some(w), None, None, Missing)]
    else OfSnapshot(i, o, w, f.current.value)
  }

  function OfWorkloads(i: Input, o: Observation, fs: seq<WorkloadFacts>): seq<Condition> {
    if fs == [] then [] else OfWorkloads(i, o, fs[..|fs| - 1]) + OfWorkload(i, o, fs[|fs| - 1])
  }

  function Evaluated(i: Input): Evaluation {
    var hold := if i.held then [Cond(i, Hold, Info, None, None, None, HoldCode)] else [];
    var offline := Cond(i, AgentOffline, Error, None, None, None, NotReady);
    if i.observed.None? then Evaluation(if RunningDesired(i) then hold + [offline] else hold, {Hold})
    else if !Online(i) then Evaluation(hold + [offline], {Hold})
    else if !FullyFresh(i) then
      Evaluation(if RunningDesired(i) then hold + [Cond(i, MonitoringStale, Warning, None, None, None, NotReady)]
                 else hold, {Hold})
    else Evaluation(hold + OfWorkloads(i, i.observed.value, i.workloads), AllKinds)
  }

  // ---- the evaluator -------------------------------------------------------------------

  lemma SelectStep(r: seq<nat>, rest: seq<nat>, wanted: nat -> bool)
    requires rest != []
    ensures r + Select(rest, wanted) == (if wanted(rest[0]) then r + [rest[0]] else r) + Select(rest[1..], wanted)
  {
  }

  method SelectDevices(devices: seq<nat>, wanted: nat -> bool) returns (r: seq<nat>)
    ensures r == Select(devices, wanted)
  {
    r := [];
    for k := 0 to |devices|
      invariant r + Select(devices[k..], wanted) == Select(devices, wanted)
    {
      assert devices[k..][1..] == devices[k + 1..];
      SelectStep(r, devices[k..], wanted);
      if wanted(devices[k]) { r := r + [devices[k]]; }
    }
    assert Select(devices[|devices|..], wanted) == [];
  }

  method CurrentExecution(es: seq<Execution>, c: Snapshot) returns (k: nat)
    ensures k == FirstExact(es, c)
  {
    k := 0;
    while k < |es|
      invariant k <= |es| && FirstExact(es, c) == k + FirstExact(es[k..], c)
    {
      if Exact(es[k], c) { return; }
      k := k + 1;
    }
  }

  /** Evaluate. */
  method Evaluate(i: Input) returns (r: Evaluation)
    ensures r == Evaluated(i)
  {
    var conditions := [];
    if i.held { conditions := [Cond(i, Hold, Info, None, None, None, HoldCode)]; }
    var running := AnyRunning(i);
    if i.observed.None? {
      if running { conditions := conditions + [Cond(i, AgentOffline, Error, None, None, None, NotReady)]; }
      return Evaluation(conditions, {Hold});
    }
    var o := i.observed.value;
    if !o.connected || o.host != i.host || o.epoch == 0 {
      return Evaluation(conditions + [Cond(i, AgentOffline, Error, None, None, None, NotReady)], {Hold});
    }
    if !(o.ready && o.current && i.inventoryFresh && i.processesFresh) {
      if running { conditions := conditions + [Cond(i, MonitoringStale, Warning, None, None, None, NotReady)]; }
      return Evaluation(conditions, {Hold});
    }
    var more := EvaluateAll(i, o);
    return Evaluation(conditions + more, AllKinds);
  }

  method AnyRunning(i: Input) returns (running: bool)
    ensures running <==> RunningDesired(i)
  {
    running := false;
    for k := 0 to |i.workloads|
      invariant running <==> exists j :: 0 <= j < k && i.workloads[j].workload.running
    {
      running := running || i.workloads[k].workload.running;
    }
  }

  method EvaluateAll(i: Input, o: Observation) returns (r: seq<Condition>)
    ensures r == OfWorkloads(i, o, i.workloads)
  {
    r := [];
    for k := 0 to |i.workloads|
      invariant r == OfWorkloads(i, o, i.workloads[..k])
    {
      assert i.workloads[..k + 1][..k] == i.workloads[..k];
      var more := EvaluateWorkload(i, o, i.workloads[k]);
      r := r + more;
    }
    assert i.workloads[..|i.workloads|] == i.workloads;
  }

  method EvaluateWorkload(i: Input, o: Observation, f: WorkloadFacts) returns (r: seq<Condition>)
    ensures r == OfWorkload(i, o, f)
  {
    var w := f.workload.id;
    if !f.workload.running { return []; }
    if f.blocked.Some? && f.blocked.value.0 == f.workload.generation {
      return [Cond(i, KindFor(f.blocked.value.1), Error, Some(w), None, None, f.blocked.value.1)];
    }
    if f.current.None? { return [Cond(i, ConfigurationBlocked, Error, Some(w), None, None, Missing)]; }
    var c := f.current.value;
    var missing := SelectDevices(c.claim.devices, (d: nat) => d !in o.inventory);
    if missing != [] { return PerDevice(i, BadHardware, Error, w, missing, HardwareCode); }
    var foreign := SelectDevices(c.claim.devices, (d: nat) => exists q :: q in o.processes && d in q.devices);
    if foreign != [] || exists q :: q in o.processes && Unscoped(c.claim, q) {
      r := PerDevice(i, ForeignProcess, Warning, w, foreign, ProcessCode);
      if exists q :: q in o.processes && Unscoped(c.claim, q) {
        r := r + [Cond(i, ForeignProcess, Warning, Some(w), None, None, ProcessCode)];
      }
      return;
    }
    var contested := SelectDevices(c.claim.devices, (d: nat) => exists e :: e in o.executions && Wanted(i, c, e, d));
    if contested != [] || exists e :: e in o.executions && SharesCpu(i, c, e) {
      r := PerDevice(i, ResourceConflict, Error, w, contested, ConfigCode);
      if exists e :: e in o.executions && SharesCpu(i, c, e) {
        r := r + [Cond(i, ResourceConflict, Error, Some(w), None, None, ConfigCode)];
      }
      return;
    }
    if i.held { return []; }
    var k := CurrentExecution(o.executions, c);
    if k == |o.executions| { return [Cond(i, NotExecuting, Error, Some(w), None, None, Crash)]; }
    return TelemetryCondition(i, w, o.executions[k]);
  }

  // ---- identities are never repeated -----------------------------------------------------

  /** Workloads are distinct and so are the devices of a claim. */
  predicate WellFormed(i: Input) {
    && (forall j, k :: 0 <= j < k < |i.workloads| ==> i.workloads[j].workload.id != i.workloads[k].workload.id)
    && (forall f :: f in i.workloads && f.current.Some? ==> NoRepeat(f.current.value.claim.devices))
  }

  predicate DistinctIds(cs: seq<Condition>) { forall j, k :: 0 <= j < k < |cs| ==> cs[j].id != cs[k].id }

  /** The conditions of devices, and one that names none. */
  lemma DevicesDistinct(i: Input, kind: Kind, severity: Severity, w: nat, devices: seq<nat>, reason: Reason)
    requires NoRepeat(devices)
    ensures var r := PerDevice(i, kind, severity, w, devices, reason);
            DistinctIds(r) && DistinctIds(r + [Cond(i, kind, severity, Some(w), None, None, reason)])
  {
  }

  lemma SnapshotIdsDistinct(i: Input, o: Observation, w: nat, c: Snapshot)
    requires NoRepeat(c.claim.devices)
    ensures DistinctIds(OfSnapshot(i, o, w, c))
  {
    DevicesDistinct(i, BadHardware, Error, w, MissingDevices(o, c), HardwareCode);
    DevicesDistinct(i, ForeignProcess, Warning, w, ForeignDevices(o, c), ProcessCode);
    DevicesDistinct(i, ResourceConflict, Error, w, ContestedDevices(i, o, c), ConfigCode);
  }

  lemma SnapshotIdsAre(i: Input, o: Observation, w: nat, c: Snapshot)
    ensures forall d :: d in OfSnapshot(i, o, w, c) ==>
              d.id.workload == Some(w) && d.id.kind != Hold && d.id.host == i.host
  {
  }

  lemma WorkloadIdsDistinct(i: Input, o: Observation, f: WorkloadFacts)
    requires f.current.Some? ==> NoRepeat(f.current.value.claim.devices)
    ensures DistinctIds(OfWorkload(i, o, f))
    ensures forall c :: c in OfWorkload(i, o, f) ==>
              c.id.workload == Some(f.workload.id) && c.id.kind != Hold && c.id.host == i.host
  {
    if f.current.Some? {
      SnapshotIdsDistinct(i, o, f.workload.id, f.current.value);
      SnapshotIdsAre(i, o, f.workload.id, f.current.value);
    }
  }

  lemma {:induction false} WorkloadsIdsDistinct(i: Input, o: Observation, fs: seq<WorkloadFacts>)
    requires forall j, k :: 0 <= j < k < |fs| ==> fs[j].workload.id != fs[k].workload.id
    requires forall f :: f in fs && f.current.Some? ==> NoRepeat(f.current.value.claim.devices)
    ensures DistinctIds(OfWorkloads(i, o, fs))
    ensures forall c :: c in OfWorkloads(i, o, fs) ==>
              c.id.kind != Hold && c.id.host == i.host
              && exists k :: 0 <= k < |fs| && c.id.workload == Some(fs[k].workload.id)
  {
    if fs != [] {
      var n := |fs| - 1;
      WorkloadsIdsDistinct(i, o, fs[..n]);
      WorkloadIdsDistinct(i, o, fs[n]);
      var front, back := OfWorkloads(i, o, fs[..n]), OfWorkload(i, o, fs[n]);
      forall j, k | 0 <= j < |front| && 0 <= k < |back| ensures front[j].id != back[k].id {
        assert front[j] in front && back[k] in back;
      }
      forall c | c in front + back ensures exists k :: 0 <= k < |fs| && c.id.workload == Some(fs[k].workload.id) {
        if c in front {
          var k :| 0 <= k < n && c.id.workload == Some(fs[..n][k].workload.id);
          assert c.id.workload == Some(fs[k].workload.id);
        }
      }
    }
  }

  /** Evaluate never emits an identity twice, and every condition is of its Host. */
  lemma EvaluatedIsDistinct(i: Input)
    requires WellFormed(i)
    ensures DistinctIds(Evaluated(i).conditions)
    ensures forall c :: c in Evaluated(i).conditions ==> c.id.host == i.host
  {
    if FullyFresh(i) {
      WorkloadsIdsDistinct(i, i.observed.value, i.workloads);
      var front := if i.held then [Cond(i, Hold, Info, None, None, None, HoldCode)] else [];
      var back := OfWorkloads(i, i.observed.value, i.workloads);
      forall j, k | 0 <= j < |front| && 0 <= k < |back| ensures front[j].id != back[k].id { assert back[k] in back; }
    }
  }
}
