/**
 A Host under an undisturbed Controller and a faithful Agent: every pass that
 dispatches brings the executions one step nearer to the desired ones, and passes
 stop dispatching only when they are the desired ones.
 */
module Convergence {
  import opened Common
  import opened Guards
  import opened Planner
  import opened PlanSafety

  /** One Host's share of the store: `current` holds the current snapshots of its RUNNING workloads. */
  datatype Desired = Desired(host: nat, epoch: nat, workloads: seq<Workload>, current: map<nat, Snapshot>,
                             known: map<nat, Snapshot>, inventory: seq<nat>, processes: seq<Process>)

  function InputFor(f: Desired, w: Workload, es: seq<Execution>): PlanInput {
    PlanInput(w, if w.id in f.current then Some(f.current[w.id]) else None, [], None, false,
              Observation(f.host, f.epoch, true, true, true, es, f.inventory, f.processes), {}, f.known)
  }

  /**
   No hold, barrier or block; disjoint claims; every current snapshot stored, present and
   free of unmanaged processes.
   */
  predicate Healthy(f: Desired) {
    && Keyed(f.known)
    && (forall i, j :: 0 <= i < j < |f.workloads| ==> f.workloads[i].id != f.workloads[j].id)
    && (forall w :: w in f.workloads ==> w.host == f.host && (w.running <==> w.id in f.current))
    && (forall id :: id in f.current ==>
          var c := f.current[id];
          && c.workload == id && c.host == f.host && c.execution in f.known && f.known[c.execution] == c
          && (exists w :: w in f.workloads && w.id == id)
          && (forall d :: d in c.claim.devices ==> d in f.inventory)
          && (forall q :: q in f.processes ==> !ProcessConflicts(c.claim, q)))
    && (forall a, b :: a in f.current && b in f.current && a != b ==> !Overlap(f.current[a].claim, f.current[b].claim))
  }

  /** An execution of ours. */
  predicate Ours(f: Desired, e: Execution) { HoldsResources(e.status) && Owned(f.known, e) }

  predicate Right(f: Desired, e: Execution) {
    && Ours(f, e)
    && var s := f.known[e.id];
       s.workload in f.current && f.current[s.workload] == s && e.ownership.value.claim == s.claim
  }

  /**
   Foreign executions stay clear of the desired ones, ours belong to a workload of this
   Host, and no current one has failed.
   */
  predicate Undisturbed(f: Desired, es: seq<Execution>) {
    && Distinct(es)
    && (forall e :: e in es && HoldsResources(e.status) && !Owned(f.known, e) ==> Foreign(f, e))
    && (forall e :: e in es && Ours(f, e) ==> exists w :: w in f.workloads && w.id == f.known[e.id].workload)
    && (forall e :: e in es && Right(f, e) ==> e.status != Failed)
  }

  predicate Foreign(f: Desired, e: Execution) {
    && e.id !in f.known
    && (BlocksStart(e.status) ==>
          e.ownership.Some?
          && forall id :: id in f.current ==> !Overlap(f.current[id].claim, e.ownership.value.claim))
  }

  // ---- the dispatching pass -----------------------------------------------------

  predicate Dispatches(r: Planned) { r.Do? && r.key.kind != Block }

  /** The first action that the workloads from place `i` on call for. */
  ghost function FirstAction(f: Desired, es: seq<Execution>, i: nat): Planned
    requires Keyed(f.known) && i <= |f.workloads|
    decreases |f.workloads| - i
  {
    if i == |f.workloads| then Nothing
    else
      var r := PlanOf(InputFor(f, f.workloads[i], es));
      if Dispatches(r) then r else FirstAction(f, es, i + 1)
  }

  /** The workload at `i` calls for an action that goes to the Agent, a START or a STOP. */
  ghost predicate Calls(f: Desired, es: seq<Execution>, i: nat)
    requires Keyed(f.known) && i < |f.workloads|
  {
    var r := PlanOf(InputFor(f, f.workloads[i], es));
    r.Do? && r.key.kind in {Start, Stop}
  }

  lemma {:induction false} FirstActionIs(f: Desired, es: seq<Execution>, i: nat) returns (n: nat)
    requires Keyed(f.known) && i <= |f.workloads|
    ensures i <= n <= |f.workloads| && forall j :: i <= j < n ==> !Calls(f, es, j)
    ensures n < |f.workloads| ==> Calls(f, es, n) && FirstAction(f, es, i) == PlanOf(InputFor(f, f.workloads[n], es))
    ensures n == |f.workloads| ==> FirstAction(f, es, i) == Nothing
    decreases |f.workloads| - i
  {
    n := i;
    if i < |f.workloads| && !Calls(f, es, i) { n := FirstActionIs(f, es, i + 1); }
  }

  method PrepareDispatch(f: Desired, es: seq<Execution>) returns (r: Planned)
    requires Keyed(f.known)
    ensures r == FirstAction(f, es, 0)
    ensures if r == Nothing then forall j :: 0 <= j < |f.workloads| ==> !Calls(f, es, j)
            else exists n: nat :: n < |f.workloads| && Calls(f, es, n) && r == PlanOf(InputFor(f, f.workloads[n], es))
                                  && forall j :: 0 <= j < n ==> !Calls(f, es, j)
  {
    ghost var n := FirstActionIs(f, es, 0);
    for i := 0 to |f.workloads|
      invariant FirstAction(f, es, 0) == FirstAction(f, es, i)
    {
      r := Plan(InputFor(f, f.workloads[i], es));
      if r.Do? && r.key.kind != Block { return r; }
    }
    r := Nothing;
  }

  // ---- the Agent -------------------------------------------------------------------

  function Report(s: Snapshot, id: nat, status: Status): Execution {
    Execution(id, status, Some(Ownership(s.workload, s.generation, s.hash, s.host, s.claim)))
  }

  function WithoutId(es: seq<Execution>, id: nat): seq<Execution> {
    if es == [] then []
    else if es[0].id == id then WithoutId(es[1..], id)
    else [es[0]] + WithoutId(es[1..], id)
  }

  /** The Agent executes the action and its answer replaces what was observed of that execution. */
  function Executed(es: seq<Execution>, r: Planned): seq<Execution>
    requires r.Do?
  {
    if r.snapshot.None? then es
    else
      WithoutId(es, r.key.execution)
      + [Report(r.snapshot.value, r.key.execution, if r.key.kind == Start then Running else Stopped)]
  }

  lemma {:induction false} WithoutIdHolds(es: seq<Execution>, id: nat)
    requires Distinct(es)
    ensures Distinct(WithoutId(es, id))
    ensures forall e :: e in WithoutId(es, id) <==> e in es && e.id != id
  {
    if es != [] {
      WithoutIdHolds(es[1..], id);
      var rest := WithoutId(es[1..], id);
      assert es == [es[0]] + es[1..];
      forall j | 0 <= j < |rest| ensures rest[j].id != es[0].id {
        assert rest[j] in es[1..];
        var i :| 0 <= i < |es[1..]| && es[1..][i] == rest[j];
        assert es[i + 1] == rest[j];
      }
    }
  }

  // ---- the measure -------------------------------------------------------------------

  function Extra(f: Desired, es: seq<Execution>): set<nat> { set e | e in es && Ours(f, e) && !Right(f, e) :: e.id }

  predicate Runs(f: Desired, es: seq<Execution>, id: nat) {
    exists e :: e in es && Right(f, e) && f.known[e.id].workload == id
  }

  function Missing(f: Desired, es: seq<Execution>): set<nat> { set id | id in f.current && !Runs(f, es, id) }

  function Distance(f: Desired, es: seq<Execution>): nat { |Extra(f, es)| + |Missing(f, es)| }

  /** What the plan of one workload calls its current execution is the right one. */
  lemma CurrentIsRight(f: Desired, w: Workload, es: seq<Execution>, e: Execution)
    requires Healthy(f) && w in f.workloads
    ensures RunsCurrent(InputFor(f, w, es), f.known, e) <==> Right(f, e) && f.known[e.id].workload == w.id
  {
  }

  lemma ActionIsRight(f: Desired, w: Workload, es: seq<Execution>)
    requires Healthy(f) && Undisturbed(f, es) && w in f.workloads
    requires Dispatches(PlanOf(InputFor(f, w, es)))
    ensures var r := PlanOf(InputFor(f, w, es));
            if r.key.kind == Start then
              && w.id in f.current && r.snapshot == Some(f.current[w.id])
              && r.key.execution == f.current[w.id].execution
              && (forall e :: e in es && Ours(f, e) ==> f.known[e.id].workload != w.id)
            else r.key.kind == Stop && r.key.execution in Extra(f, es) && r.snapshot.Some?
  {
    var p := InputFor(f, w, es);
    assert Known([], f.known) == f.known;
    forall e ensures RunsCurrent(p, f.known, e) <==> Right(f, e) && f.known[e.id].workload == w.id {
      CurrentIsRight(f, w, es, e);
    }
    if PlanOf(p).key.kind == Start {
      StartExactlyWhen(p);
    } else {
      StopIsOwned(p);
      var e :| e in es && e.id == PlanOf(p).key.execution && Active(p, f.known, e);
      assert !Right(f, e);
    }
  }

  lemma StopApproaches(f: Desired, es: seq<Execution>, id: nat, s: Snapshot)
    requires Healthy(f) && Undisturbed(f, es) && id in Extra(f, es)
    ensures var fs := WithoutId(es, id) + [Report(s, id, Stopped)];
            Undisturbed(f, fs) && Distance(f, fs) + 1 == Distance(f, es)
  {
    var kept := WithoutId(es, id);
    var fs := kept + [Report(s, id, Stopped)];
    WithoutIdHolds(es, id);
    assert forall e :: e in fs <==> e in kept || e == Report(s, id, Stopped);
    forall e | e in es && e.id == id ensures !Right(f, e) {
      var x :| x in es && Ours(f, x) && !Right(f, x) && x.id == id;
      assert x == e;
    }
    forall v ensures Runs(f, fs, v) <==> Runs(f, es, v) {
      if Runs(f, es, v) {
        var e :| e in es && Right(f, e) && f.known[e.id].workload == v;
        assert e in fs;
      }
    }
    assert Extra(f, fs) == Extra(f, es) - {id} && Missing(f, fs) == Missing(f, es);
  }

  /** The runs of other workloads are untouched when executions that do not count give way to one. */
  lemma OthersRun(f: Desired, es: seq<Execution>, fs: seq<Execution>, w: nat, e0: Execution)
    requires Right(f, e0) && f.known[e0.id].workload == w && e0 in fs
    requires forall e :: e in fs <==> e == e0 || (e in es && e.id != e0.id)
    requires forall e :: e in es && e.id == e0.id ==> !Ours(f, e)
    ensures Runs(f, fs, w) && forall v :: v != w ==> (Runs(f, fs, v) <==> Runs(f, es, v))
  {
    forall v | v != w && Runs(f, es, v) ensures Runs(f, fs, v) {
      var e :| e in es && Right(f, e) && f.known[e.id].workload == v;
      assert e in fs;
    }
  }

  lemma ExtraStays(f: Desired, es: seq<Execution>, fs: seq<Execution>, e0: Execution)
    requires Right(f, e0) && forall e :: e in fs <==> e == e0 || (e in es && e.id != e0.id)
    requires forall e :: e in es && e.id == e0.id ==> !Ours(f, e)
    ensures Extra(f, fs) == Extra(f, es)
  {
  }

  lemma StartedIsUndisturbed(f: Desired, es: seq<Execution>, fs: seq<Execution>, e0: Execution)
    requires Healthy(f) && Undisturbed(f, es) && Right(f, e0) && e0.status == Running && Distinct(fs)
    requires forall e :: e in fs ==> e == e0 || e in es
    ensures Undisturbed(f, fs)
  {
  }

  lemma StartApproaches(f: Desired, es: seq<Execution>, w: nat)
    requires Healthy(f) && Undisturbed(f, es) && w in f.current
    requires forall e :: e in es && Ours(f, e) ==> f.known[e.id].workload != w
    ensures var s := f.current[w];
            var fs := WithoutId(es, s.execution) + [Report(s, s.execution, Running)];
            Undisturbed(f, fs) && Distance(f, fs) + 1 == Distance(f, es)
  {
    var s := f.current[w];
    var e0 := Report(s, s.execution, Running);
    var fs := WithoutId(es, s.execution) + [e0];
    StartFacts(f, es, w);
    OthersRun(f, es, fs, w, e0);
    StartedIsUndisturbed(f, es, fs, e0);
    ExtraStays(f, es, fs, e0);
    MissingDrops(f, es, fs, w);
  }

  lemma StartFacts(f: Desired, es: seq<Execution>, w: nat)
    requires Healthy(f) && Undisturbed(f, es) && w in f.current
    requires forall e :: e in es && Ours(f, e) ==> f.known[e.id].workload != w
    ensures var s := f.current[w];
            var e0 := Report(s, s.execution, Running);
            var fs := WithoutId(es, s.execution) + [e0];
            && Right(f, e0) && f.known[e0.id].workload == w && Distinct(fs) && !Runs(f, es, w)
            && (forall e :: e in fs <==> e == e0 || (e in es && e.id != e0.id))
            && (forall e :: e in es && e.id == e0.id ==> !Ours(f, e))
  {
    WithoutIdHolds(es, f.current[w].execution);
  }

  lemma MissingDrops(f: Desired, es: seq<Execution>, fs: seq<Execution>, w: nat)
    requires w in f.current && Runs(f, fs, w) && !Runs(f, es, w)
    requires forall v :: v != w ==> (Runs(f, fs, v) <==> Runs(f, es, v))
    ensures |Missing(f, fs)| + 1 == |Missing(f, es)|
  {
    assert Missing(f, fs) == Missing(f, es) - {w} && w in Missing(f, es);
  }

  /** Every dispatch brings the Host exactly one step nearer and leaves it undisturbed. */
  lemma DispatchApproaches(f: Desired, es: seq<Execution>)
    requires Healthy(f) && Undisturbed(f, es) && Dispatches(FirstAction(f, es, 0))
    ensures var fs := Executed(es, FirstAction(f, es, 0));
            Undisturbed(f, fs) && Distance(f, fs) + 1 == Distance(f, es)
  {
    var i := Chosen(f, es, 0);
    var r := FirstAction(f, es, 0);
    ActionIsRight(f, f.workloads[i], es);
    if r.key.kind == Start {
      StartApproaches(f, es, f.workloads[i].id);
    } else {
      StopApproaches(f, es, r.key.execution, r.snapshot.value);
    }
  }

  lemma {:induction false} Chosen(f: Desired, es: seq<Execution>, i: nat) returns (j: nat)
    requires Keyed(f.known) && i <= |f.workloads| && Dispatches(FirstAction(f, es, i))
    ensures i <= j < |f.workloads| && FirstAction(f, es, i) == PlanOf(InputFor(f, f.workloads[j], es))
    decreases |f.workloads| - i
  {
    if Dispatches(PlanOf(InputFor(f, f.workloads[i], es))) { j := i; } else { j := Chosen(f, es, i + 1); }
  }

  lemma {:induction false} ChosenIfAny(f: Desired, es: seq<Execution>, i: nat, j: nat)
    requires Keyed(f.known) && i <= j < |f.workloads| && Dispatches(PlanOf(InputFor(f, f.workloads[j], es)))
    ensures Dispatches(FirstAction(f, es, i))
    decreases j - i
  {
    if !Dispatches(PlanOf(InputFor(f, f.workloads[i], es))) { ChosenIfAny(f, es, i + 1, j); }
  }

  /** While an execution is in excess its workload has a STOP to dispatch. */
  lemma ExtraIsStopped(f: Desired, es: seq<Execution>, e: Execution) returns (j: nat)
    requires Healthy(f) && Undisturbed(f, es) && e in es && Ours(f, e) && !Right(f, e)
    ensures j < |f.workloads| && Dispatches(PlanOf(InputFor(f, f.workloads[j], es)))
  {
    var w :| w in f.workloads && w.id == f.known[e.id].workload;
    j :| j < |f.workloads| && f.workloads[j] == w;
    var p := InputFor(f, w, es);
    assert Known([], f.known) == f.known && Active(p, f.known, e);
    if HasCurrent(p, f.known) {
      var x :| x in es && RunsCurrent(p, f.known, x);
      CurrentIsRight(f, w, es, x);
      assert x.id != e.id || x == e;
    }
    UnwantedIsStopped(p, e);
  }

  /** With none in excess, a missing one has room to START. */
  lemma MissingIsStarted(f: Desired, es: seq<Execution>, id: nat) returns (j: nat)
    requires Healthy(f) && Undisturbed(f, es) && Extra(f, es) == {} && id in Missing(f, es)
    ensures j < |f.workloads| && Dispatches(PlanOf(InputFor(f, f.workloads[j], es)))
  {
    var w :| w in f.workloads && w.id == id;
    j :| j < |f.workloads| && f.workloads[j] == w;
    var p := InputFor(f, w, es);
    assert Known([], f.known) == f.known;
    forall e | e in es && Ours(f, e) ensures Right(f, e) && f.known[e.id].workload != id {
      assert Right(f, e) || e.id in Extra(f, es);
    }
    forall e | e in es && BlocksStart(e.status) ensures Disjoint(f.current[id].claim, HeldClaim(f.known, e)) {
      if Owned(f.known, e) { assert Ours(f, e); } else { assert Foreign(f, e); }
    }
    StartExactlyWhen(p);
  }

  /** Some action is dispatched exactly while the Host is not yet there. */
  lemma DispatchesExactlyWhile(f: Desired, es: seq<Execution>)
    requires Healthy(f) && Undisturbed(f, es)
    ensures Dispatches(FirstAction(f, es, 0)) <==> Distance(f, es) > 0
  {
    if Extra(f, es) != {} {
      var id :| id in Extra(f, es);
      var e :| e in es && Ours(f, e) && !Right(f, e) && e.id == id;
      var j := ExtraIsStopped(f, es, e);
      ChosenIfAny(f, es, 0, j);
    } else if Missing(f, es) != {} {
      var id :| id in Missing(f, es);
      var j := MissingIsStarted(f, es, id);
      ChosenIfAny(f, es, 0, j);
    }
    if Dispatches(FirstAction(f, es, 0)) { DispatchApproaches(f, es); }
  }

  /** The executions when passes no longer dispatch. */
  ghost function Settled(f: Desired, es: seq<Execution>): seq<Execution>
    requires Healthy(f) && Undisturbed(f, es)
    decreases Distance(f, es)
  {
    if Dispatches(FirstAction(f, es, 0)) then
      DispatchApproaches(f, es);
      Settled(f, Executed(es, FirstAction(f, es, 0)))
    else es
  }

  /**
   The Host ends with exactly the current snapshots of its RUNNING workloads: each
   has its execution, with the claim it asks for, and every other execution of ours is gone.
   */
  lemma {:induction false} ConvergesToDesired(f: Desired, es: seq<Execution>)
    requires Healthy(f) && Undisturbed(f, es)
    ensures var fs := Settled(f, es);
            && (forall id :: id in f.current ==> exists e :: e in fs && Right(f, e) && e.id == f.current[id].execution)
            && (forall e :: e in fs && Ours(f, e) ==>
                Right(f, e) && f.known[e.id] in f.current.Values && e.status != Failed)
            && (forall e :: e in fs && HoldsResources(e.status) && !Owned(f.known, e) ==> e in es)
            && (forall e :: e in es && HoldsResources(e.status) && !Owned(f.known, e) ==> e in fs)
    decreases Distance(f, es)
  {
    DispatchesExactlyWhile(f, es);
    var r := FirstAction(f, es, 0);
    if Dispatches(r) {
      DispatchApproaches(f, es);
      ConvergesToDesired(f, Executed(es, r));
      ForeignStays(f, es, r);
    } else {
      forall id | id in f.current ensures exists e :: e in es && Right(f, e) && e.id == f.current[id].execution {
        assert id !in Missing(f, es);
      }
      forall e | e in es && Ours(f, e) ensures Right(f, e) {
        assert Right(f, e) || e.id in Extra(f, es);
      }
    }
  }

  /** An action leaves foreign executions alone. */
  lemma ForeignStays(f: Desired, es: seq<Execution>, r: Planned)
    requires Healthy(f) && Undisturbed(f, es) && r == FirstAction(f, es, 0) && Dispatches(r)
    ensures forall e: Execution :: HoldsResources(e.status) && !Owned(f.known, e) ==>
              (e in Executed(es, r) <==> e in es)
  {
    var i := Chosen(f, es, 0);
    ActionIsRight(f, f.workloads[i], es);
    WithoutIdHolds(es, r.key.execution);
    assert r.key.execution in f.known;
  }
}
