/** What a planned action says about the observation it was planned from. */
module PlanSafety {
  import opened Common
  import opened Guards
  import opened Planner

  /** The snapshots of the farm include the workload's current one. */
  predicate Consistent(p: PlanInput) {
    && Keyed(p.others)
    && (p.current.Some? ==>
          var c := p.current.value;
          var known := Known(p.snapshots, p.others);
          c.workload == p.workload.id && c.execution in known && known[c.execution] == c)
  }

  predicate NoneActive(p: PlanInput, known: map<nat, Snapshot>) {
    forall e :: e in p.observed.executions ==> !Active(p, known, e)
  }

  /** The claim the Controller holds an execution to: that of its snapshot if it is owned, else the one it reports. */
  function HeldClaim(known: map<nat, Snapshot>, e: Execution): Option<Claim> {
    if Owned(known, e) then Some(known[e.id].claim)
    else if e.ownership.Some? then Some(e.ownership.value.claim)
    else None
  }

  predicate Disjoint(claim: Claim, other: Option<Claim>) { other.Some? && !Overlap(claim, other.value) }

  predicate RoomFor(p: PlanInput, known: map<nat, Snapshot>, claim: Claim) {
    && (forall d :: d in claim.devices ==> d in p.observed.inventory)
    && (forall q :: q in p.observed.processes ==> !ProcessConflicts(claim, q))
    && (forall e :: e in p.observed.executions && BlocksStart(e.status) ==> Disjoint(claim, HeldClaim(known, e)))
  }

  lemma {:induction false} ConflictAt(p: PlanInput, known: map<nat, Snapshot>, current: Snapshot, i: nat)
    requires i <= |p.observed.executions|
    ensures FirstConflict(p, known, current, i).Some? <==>
            exists e :: e in p.observed.executions[i..] && ExecutionConflict(p, known, current, e).Some?
    decreases |p.observed.executions| - i
  {
    var es := p.observed.executions;
    if i < |es| {
      ConflictAt(p, known, current, i + 1);
      assert es[i..] == [es[i]] + es[i + 1..];
    }
  }

  /** Without active executions, no conflict and room are the same. */
  lemma RoomIsNoConflict(p: PlanInput, known: map<nat, Snapshot>)
    requires Consistent(p) && known == Known(p.snapshots, p.others) && p.current.Some? && NoneActive(p, known)
    ensures StartConflict(p, known, p.current.value).None? <==> RoomFor(p, known, p.current.value.claim)
  {
    var c, es := p.current.value, p.observed.executions;
    ConflictAt(p, known, c, 0);
    assert es[0..] == es;
    forall e | e in es
      ensures ExecutionConflict(p, known, c, e).None? <==>
              (BlocksStart(e.status) ==> Disjoint(c.claim, HeldClaim(known, e))) {
      assert !Active(p, known, e);
    }
  }

  /**
   START is planned exactly when the workload is to run and nothing stands in its
   way: no execution of the workload that is not STOPPED, and a claim that is
   present and disjoint from every unmanaged process and every other execution
   that is neither STOPPED nor FAILED.
   */
  lemma StartExactlyWhen(p: PlanInput)
    requires Consistent(p)
    ensures var known := Known(p.snapshots, p.others);
            PlanOf(p).Do? && PlanOf(p).key.kind == Start <==>
              && Usable(p) && p.workload.running && !p.held && p.blocked != Some(p.workload.generation)
              && p.current.Some?
              && KeyFor(p, p.workload.generation, p.current.value.execution, Start) !in p.inFlight
              && NoneActive(p, known)
              && RoomFor(p, known, p.current.value.claim)
    ensures PlanOf(p).Do? && PlanOf(p).key.kind == Start ==>
              PlanOf(p) == Do(KeyFor(p, p.workload.generation, p.current.value.execution, Start), p.current)
  {
    var known := Known(p.snapshots, p.others);
    Quiet(p, known);
    if p.current.Some? && NoneActive(p, known) { RoomIsNoConflict(p, known); }
  }

  /** Nothing is obsolete and nothing current exactly when nothing is active. */
  lemma Quiet(p: PlanInput, known: map<nat, Snapshot>)
    ensures NoneActive(p, known) <==> Obsolete(p, known) == {} && !HasCurrent(p, known)
  {
    if !HasCurrent(p, known) {
      forall e | e in p.observed.executions && Active(p, known, e) ensures Obsolete(p, known) != {} {
        assert e.id in Obsolete(p, known);
      }
    }
  }

  /** Active executions are to go unless they run the current snapshot of a workload that may run. */
  predicate Wanted(p: PlanInput, known: map<nat, Snapshot>, id: nat) {
    p.workload.running && !p.held && HasCurrent(p, known) && id == p.current.value.execution
  }

  /**
   STOP is planned only for an active execution of this workload whose ownership
   matches its snapshot, under the generation of that snapshot, and never for the
   one that is wanted.
   */
  lemma StopIsOwned(p: PlanInput)
    requires Consistent(p) && PlanOf(p).Do? && PlanOf(p).key.kind == Stop
    ensures var known, k := Known(p.snapshots, p.others), PlanOf(p).key;
            && k.workload == p.workload.id && k.epoch == p.observed.epoch && k !in p.inFlight
            && (exists e :: e in p.observed.executions && e.id == k.execution && Active(p, known, e))
            && k.generation == known[k.execution].generation
            && !Wanted(p, known, k.execution)
  {
    var known := Known(p.snapshots, p.others);
    if Obsolete(p, known) != {} {
      assert Least(Obsolete(p, known)) in Obsolete(p, known);
    }
  }

  /** An active execution that is not wanted leads to a STOP, unless that STOP is already in flight. */
  lemma UnwantedIsStopped(p: PlanInput, e: Execution)
    requires Consistent(p) && Usable(p) && e in p.observed.executions
    requires var known := Known(p.snapshots, p.others); Active(p, known, e) && !Wanted(p, known, e.id)
    ensures PlanOf(p) == Nothing || (PlanOf(p).Do? && PlanOf(p).key.kind == Stop)
    ensures p.inFlight == {} ==> PlanOf(p).Do?
  {
    var known := Known(p.snapshots, p.others);
    if !HasCurrent(p, known) || e.id != p.current.value.execution { assert e.id in Obsolete(p, known); }
  }

  // ---- the order of observed executions does not matter -----------------------

  predicate Distinct(es: seq<Execution>) { forall i, j :: 0 <= i < j < |es| ==> es[i].id != es[j].id }

  lemma {:induction false} FailedAnywhere(p: PlanInput, known: map<nat, Snapshot>, n: nat)
    requires Keyed(known) && Distinct(p.observed.executions) && n <= |p.observed.executions|
    ensures CurrentFailed(p, known, n) <==>
            exists e :: e in p.observed.executions[..n] && RunsCurrent(p, known, e) && e.status == Failed
  {
    if n > 0 {
      var es := p.observed.executions;
      FailedAnywhere(p, known, n - 1);
      assert es[..n] == es[..n - 1] + [es[n - 1]];
      if RunsCurrent(p, known, es[n - 1]) {
        forall e | e in es[..n - 1] ensures !RunsCurrent(p, known, e) {
          var i :| 0 <= i < n - 1 && es[i] == e;
          assert es[i].id != es[n - 1].id;
        }
      }
    }
  }

  /** A terminally FAILED current execution blocks its generation, once nothing obsolete is left and it may run. */
  lemma BlockExactlyWhen(p: PlanInput)
    requires Consistent(p) && Distinct(p.observed.executions)
    ensures var known := Known(p.snapshots, p.others);
            PlanOf(p).Do? && PlanOf(p).key.kind == Block <==>
              && Usable(p) && p.workload.running && !p.held && p.blocked != Some(p.workload.generation)
              && (forall e :: e in p.observed.executions && Active(p, known, e) ==> RunsCurrent(p, known, e))
              && (exists e :: e in p.observed.executions && RunsCurrent(p, known, e) && e.status == Failed)
    ensures PlanOf(p).Do? && PlanOf(p).key.kind == Block ==>
              PlanOf(p) == Do(KeyFor(p, p.workload.generation, p.current.value.execution, Block), None)
  {
    var known := Known(p.snapshots, p.others);
    var es := p.observed.executions;
    FailedAnywhere(p, known, |es|);
    assert es[..|es|] == es;
    if HasCurrent(p, known) {
      var x :| x in es && RunsCurrent(p, known, x);
      forall e | e in es && Active(p, known, e) ensures e.id in Obsolete(p, known) || RunsCurrent(p, known, e) {
        assert e.id == x.id ==> e == x;
      }
    }
  }

  lemma OrderIndependent(p: PlanInput, q: PlanInput)
    requires Keyed(p.others) && q == p.(observed := p.observed.(executions := q.observed.executions))
    requires Distinct(p.observed.executions) && Distinct(q.observed.executions)
    requires forall e :: e in p.observed.executions <==> e in q.observed.executions
    ensures PlanOf(p) == PlanOf(q) || (PlanOf(p).Refused? && PlanOf(q).Refused?)
  {
    var known := Known(p.snapshots, p.others);
    var es, fs := p.observed.executions, q.observed.executions;
    assert forall e ::
        RunsCurrent(p, known, e) == RunsCurrent(q, known, e) && Active(p, known, e) == Active(q, known, e);
    assert HasCurrent(p, known) == HasCurrent(q, known);
    assert Obsolete(p, known) == Obsolete(q, known);
    FailedAnywhere(p, known, |es|);
    FailedAnywhere(q, known, |fs|);
    assert es[..|es|] == es && fs[..|fs|] == fs;
    if p.current.Some? { SameConflicts(p, q, known, p.current.value); }
  }

  lemma SameConflicts(p: PlanInput, q: PlanInput, known: map<nat, Snapshot>, c: Snapshot)
    requires q == p.(observed := p.observed.(executions := q.observed.executions))
    requires forall e :: e in p.observed.executions <==> e in q.observed.executions
    ensures StartConflict(p, known, c).Some? == StartConflict(q, known, c).Some?
  {
    ConflictAt(p, known, c, 0);
    ConflictAt(q, known, c, 0);
    assert p.observed.executions[0..] == p.observed.executions && q.observed.executions[0..] == q.observed.executions;
    assert forall e :: ExecutionConflict(p, known, c, e) == ExecutionConflict(q, known, c, e);
  }

  // ---- the claim that an owned execution reports is not looked at --------------

  predicate Contained(a: Claim, b: Claim) { (a.cpu ==> b.cpu) && forall d :: d in a.devices ==> d in b.devices }

  /** START is disjoint from what executions report wherever owned ones report no more than their snapshot claims. */
  lemma StartAvoidsReported(p: PlanInput, e: Execution)
    requires Consistent(p) && PlanOf(p).Do? && PlanOf(p).key.kind == Start
    requires e in p.observed.executions && BlocksStart(e.status)
    requires var known := Known(p.snapshots, p.others);
             Owned(known, e) ==> Contained(e.ownership.value.claim, known[e.id].claim)
    ensures e.ownership.Some? && !Overlap(p.current.value.claim, e.ownership.value.claim)
  {
    StartExactlyWhen(p);
    assert Disjoint(p.current.value.claim, HeldClaim(Known(p.snapshots, p.others), e));
  }

  /** An input that knows snapshot `s`, observes its execution `e` and plans a START. */
  ghost predicate StartsBeside(p: PlanInput, s: Snapshot, e: Execution) {
    && Consistent(p) && s.execution in Known(p.snapshots, p.others) && Known(p.snapshots, p.others)[s.execution] == s
    && e in p.observed.executions
    && PlanOf(p).Do? && PlanOf(p).key.kind == Start && p.current.Some?
  }

  /** Another workload's START on the Host of `e`, with nothing else there. */
  function BesideInput(s: Snapshot, e: Execution, claim: Claim): PlanInput {
    var mine := Snapshot(s.workload + 1, 1, s.execution + 1, s.host, s.hash, claim);
    PlanInput(Workload(s.workload + 1, s.host, true, 1), Some(mine), [], None, false,
              Observation(s.host, 1, true, true, true, [e], claim.devices, []), {},
              map[s.execution := s, s.execution + 1 := mine])
  }

  lemma BesideStarts(s: Snapshot, e: Execution, claim: Claim)
    requires Matches(e.ownership, s) && e.id == s.execution && !Overlap(claim, s.claim)
    ensures StartsBeside(BesideInput(s, e, claim), s, e)
    ensures BesideInput(s, e, claim).current.Some? && BesideInput(s, e, claim).current.value.claim == claim
  {
    var p := BesideInput(s, e, claim);
    assert Known([], p.others) == p.others;
    assert forall x :: x in p.observed.executions <==> x == e by { assert p.observed.executions == [e]; }
    StartExactlyWhen(p);
  }

  /**
   Whatever is planned beside an owned execution stays clear of the claim it reports
   exactly when that claim is within the one of its snapshot.
   */
  lemma ReportedClaimIsSafeExactlyWhen(s: Snapshot, e: Execution)
    requires Matches(e.ownership, s) && e.id == s.execution && BlocksStart(e.status)
    ensures (forall p :: StartsBeside(p, s, e) ==> !Overlap(p.current.value.claim, e.ownership.value.claim))
            <==> Contained(e.ownership.value.claim, s.claim)
  {
    var reported := e.ownership.value.claim;
    if Contained(reported, s.claim) {
      forall p | StartsBeside(p, s, e) ensures !Overlap(p.current.value.claim, reported) {
        StartExactlyWhen(p);
        assert Disjoint(p.current.value.claim, HeldClaim(Known(p.snapshots, p.others), e));
      }
    } else if reported.cpu && !s.claim.cpu {
      BesideStarts(s, e, Claim(true, []));
      assert Overlap(BesideInput(s, e, Claim(true, [])).current.value.claim, reported);
    } else {
      var d :| d in reported.devices && d !in s.claim.devices;
      BesideStarts(s, e, Claim(false, [d]));
      assert d in BesideInput(s, e, Claim(false, [d])).current.value.claim.devices;
    }
  }

  /** Without that START can be planned onto a device another workload's execution reports to hold. */
  lemma StartMayMeetReported()
    ensures exists p: PlanInput, e :: Consistent(p) && PlanOf(p).Do? && PlanOf(p).key.kind == Start
              && e in p.observed.executions && e.status == Running && e.ownership.Some?
              && p.current.Some? && Overlap(p.current.value.claim, e.ownership.value.claim)
  {
    var mine := Snapshot(1, 1, 1, 0, 7, Claim(false, [5]));
    var theirs := Snapshot(2, 1, 2, 0, 8, Claim(true, []));
    var e := Execution(2, Running, Some(Ownership(2, 1, 8, 0, Claim(true, [5]))));
    var all := map[1 := mine, 2 := theirs];
    var p := PlanInput(Workload(1, 0, true, 1), Some(mine), [], None, false,
                       Observation(0, 1, true, true, true, [e], [5], []), {}, all);
    assert Known([], all) == all;
    assert p.observed.executions == [e] && e in p.observed.executions;
    assert forall x :: x in p.observed.executions ==> x == e;
    StartExactlyWhen(p);
    assert 5 in mine.claim.devices && 5 in e.ownership.value.claim.devices;
  }
}
