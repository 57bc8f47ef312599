/** What the transactions of one workload store, and exactly when they are refused. */
module FarmWorkloads {
  import opened Common
  import opened FarmModel
  import opened FarmTables
  import opened FarmResolution
  import opened FarmCoherence
  import opened FarmRuns
  import opened FarmEffects

  /** Another RUNNING workload of the Host claims the CPU too, or one of the devices. */
  predicate Meets(t: Tables, id: nat, w: Content) {
    w.running &&
    exists v :: v in t.workloads && v != id &&
      var o := t.workloads[v].content;
      o.running && o.host == w.host
      && ((o.claim.cpu && w.claim.cpu) || exists d :: d in w.claim.devices && d in o.claim.devices)
  }

  lemma Shared(a: set<nat>, b: set<nat>)
    ensures (exists d :: d in a && d in b) <==> a * b != {}
  {
    if a * b != {} {
      var d :| d in a * b;
      assert d in a && d in b;
    }
    forall d | d in a && d in b ensures a * b != {} { assert d in a * b; }
  }

  lemma MeetsIsConflict(t: Tables, id: nat, w: Content)
    ensures Meets(t, id, w) <==> Conflicts(t, id, w)
  {
    forall v | v in t.workloads
      ensures (exists d :: d in w.claim.devices && d in t.workloads[v].content.claim.devices)
              <==> w.claim.devices * t.workloads[v].content.claim.devices != {}
    {
      Shared(w.claim.devices, t.workloads[v].content.claim.devices);
    }
    if Meets(t, id, w) {
      var v :| v in t.workloads && v != id && var o := t.workloads[v].content;
               o.running && o.host == w.host
               && ((o.claim.cpu && w.claim.cpu) || exists d :: d in w.claim.devices && d in o.claim.devices);
      assert Clash(w, t.workloads[v].content);
    }
    if Conflicts(t, id, w) {
      var v :| v in t.workloads && v != id && Clash(w, t.workloads[v].content);
      assert t.workloads[v].content.running;
    }
  }

  /** A snapshot of generation `g` can be stored under the execution drawn. */
  predicate CanSnapshot(t: Tables, id: nat, g: nat, x: nat) {
    (id, g) !in t.snapshots && forall k :: k in t.snapshots ==> t.snapshots[k].execution != x
  }

  /** The rows of the other workloads, all objects and all snapshots of before stay. */
  predicate OthersStay(t: Tables, u: Tables, id: nat) {
    && u.pools == t.pools && u.wallets == t.wallets && u.profiles == t.profiles && u.settings == t.settings
    && u.workloads.Keys - {id} == t.workloads.Keys - {id}
    && (forall v :: v in t.workloads && v != id && v in u.workloads ==> u.workloads[v] == t.workloads[v])
    && u.blocked.Keys - {id} == t.blocked.Keys - {id}
    && (forall v :: v in t.blocked && v != id && v in u.blocked ==> u.blocked[v] == t.blocked[v])
    && (forall k :: k in t.snapshots ==> k in u.snapshots && u.snapshots[k] == t.snapshots[k])
  }

  /** Exactly the current generation got a snapshot, from the sources as they are, or none did. */
  predicate Snapshotted(t: Tables, u: Tables, id: nat, x: nat, does: bool)
    requires id in u.workloads
  {
    var k := (id, u.workloads[id].generation);
    && (forall l :: l in u.snapshots ==> l in t.snapshots || (l == k && does))
    && (does ==>
          && k in u.snapshots && k !in t.snapshots && u.snapshots[k].execution == x
          && NamesSources(u, u.workloads[id].content, u.snapshots[k]))
  }

  lemma PlacedOk(t: Tables, id: nat, row: Workload, moved: bool, x: nat)
    requires Revised(t) && HasSources(t, row.content) && ValidContent(row.content) && row.generation >= 1
    requires row.effective.running == row.content.running && row.effective.claim == row.content.claim
    requires row.effective.bindings != map[] ==> row.effective.bindings.Keys == row.content.claim.devices
    ensures Placed(t, id, row, moved, x).Ok? <==>
            (moved && row.content.running && row.content.claim.devices == {} ==> CanSnapshot(t, id, row.generation, x))
    ensures Placed(t, id, row, moved, x).Ok? ==>
              var u := Placed(t, id, row, moved, x).value;
              && OthersStay(t, u, id) && u.blocked == t.blocked && id in u.workloads && u.workloads[id] == row
              && Snapshotted(t, u, id, x, moved && row.content.running && row.content.claim.devices == {})
  {
    if moved && row.content.running && row.content.claim.devices == {} {
      var p := t.profiles[row.content.profile].content;
      MadeSnapshotIsValid(row.effective, id, p.pool, p.wallet, RevisionsOf(t, row.content), x, row.generation);
    }
  }

  /**
   A workload is created exactly if its ID is free, it claims something that no other
   RUNNING one has, and it resolves.
   */
  lemma CreatesExactlyWhen(c: Catalog, t: Tables, id: nat, w: Content, x: nat)
    requires Revised(t)
    ensures Created(c, t, id, w, x).Ok? <==>
            && (w.claim.cpu || w.claim.devices != {}) && id !in t.workloads && !Meets(t, id, w)
            && ResolveWorkload(c, t, id, w).Ok?
            && (w.running && w.claim.devices == {} ==> CanSnapshot(t, id, 1, x))
    ensures Created(c, t, id, w, x).Ok? ==>
              var u := Created(c, t, id, w, x).value;
              && OthersStay(t, u, id) && u.blocked == t.blocked && id in u.workloads
              && u.workloads[id] == Workload(1, w, 1, ResolveWorkload(c, t, id, w).value)
              && Snapshotted(t, u, id, x, w.running && w.claim.devices == {})
  {
    MeetsIsConflict(t, id, w);
    var r := ResolveWorkload(c, t, id, w);
    if r.Ok? {
      ResolveKeeps(c, t, w, LatestBindings(t.snapshots, id, w.claim));
      if ValidContent(w) { PlacedOk(t, id, Workload(1, w, 1, r.value), true, x); }
    }
  }

  /** An edit is accepted exactly under the current revision, on the same Host and without a conflict. */
  lemma UpdatesExactlyWhen(c: Catalog, t: Tables, id: nat, revision: nat, w: Content, x: nat)
    requires Revised(t) && Ledger(t)
    ensures Updated(c, t, id, revision, w, x).Ok? <==>
            && (w.claim.cpu || w.claim.devices != {})
            && id in t.workloads && t.workloads[id].revision == revision && w.host == t.workloads[id].content.host
            && (w == t.workloads[id].content ||
                  var r := ResolveWorkload(c, t, id, w);
                  && !Meets(t, id, w) && r.Ok?
                  && (r.value != t.workloads[id].effective && w.running && w.claim.devices == {} ==>
                        CanSnapshot(t, id, t.workloads[id].generation + 1, x)))
  {
    MeetsIsConflict(t, id, w);
    var r := ResolveWorkload(c, t, id, w);
    if r.Ok? && id in t.workloads && ValidContent(w) {
      ResolveKeeps(c, t, w, LatestBindings(t.snapshots, id, w.claim));
      NextIsFree(t, id);
      PlacedOk(t, id, Edited(t.workloads[id], w, r.value), r.value != t.workloads[id].effective, x);
    }
  }

  /** It stores the content under the next revision, and the next generation if what runs changes. */
  lemma UpdatedIs(c: Catalog, t: Tables, u: Tables, id: nat, revision: nat, w: Content, x: nat)
    requires Revised(t) && Ledger(t) && Updated(c, t, id, revision, w, x) == Ok(u)
    ensures OthersStay(t, u, id) && u.blocked == t.blocked && id in t.workloads && id in u.workloads
    ensures var a, b := t.workloads[id], u.workloads[id];
            && b.content == w && (w == a.content ==> u == t)
            && (w != a.content ==>
                  && b.revision == revision + 1 && Ok(b.effective) == ResolveWorkload(c, t, id, w)
                  && b.generation == (if b.effective == a.effective then a.generation else a.generation + 1)
                  && Snapshotted(t, u, id, x, b.effective != a.effective && w.running && w.claim.devices == {}))
  {
    var a := t.workloads[id];
    if w != a.content {
      var r := ResolveWorkload(c, t, id, w).value;
      UpdateIs(c, t, u, id, revision, w, x);
      NextIsFree(t, id);
      PlacedOk(t, id, Edited(a, w, r), r != a.effective, x);
    }
  }

  lemma UpdateIs(c: Catalog, t: Tables, u: Tables, id: nat, revision: nat, w: Content, x: nat)
    requires Updated(c, t, id, revision, w, x) == Ok(u) && id in t.workloads && w != t.workloads[id].content
    ensures ValidContent(w) && t.workloads[id].revision == revision && HasSources(t, w)
    ensures var r := ResolveWorkload(c, t, id, w);
            && r.Ok? && r.value.running == w.running && r.value.claim == w.claim
            && (r.value.bindings != map[] ==> r.value.bindings.Keys == w.claim.devices)
            && Placed(t, id, Edited(t.workloads[id], w, r.value), r.value != t.workloads[id].effective, x) == Ok(u)
  {
    ResolveKeeps(c, t, w, LatestBindings(t.snapshots, id, w.claim));
  }

  /** The workload is STOPPED and the request names its revision. */
  predicate MayGo(t: Tables, id: nat, revision: nat) {
    id in t.workloads && t.workloads[id].revision == revision && !t.workloads[id].content.running
  }

  /** A workload without snapshots goes on request, one with snapshots once it is known to be retired. */
  lemma DeletedExactlyWhen(c: Catalog, t: Tables, id: nat, revision: nat, env: Env)
    ensures Step(c, t, DeleteWorkload(id, revision), env).Ok? <==>
            MayGo(t, id, revision) && forall k :: k in t.snapshots ==> k.0 != id
    ensures Step(c, t, FinalizeDeletion(id, revision), env).Ok? <==> MayGo(t, id, revision)
    ensures forall retired :: Deleted(t, id, revision, retired).Ok? ==>
              var u := Deleted(t, id, revision, retired).value;
              OthersStay(t, u, id) && u.snapshots == t.snapshots && id !in u.workloads && id !in u.blocked
  {
  }

  /** A failed generation is blocked if it is still the one to run, and otherwise nothing happens. */
  lemma BlocksExactlyWhen(c: Catalog, t: Tables, id: nat, generation: nat, env: Env)
    ensures var o := Step(c, t, Block(id, generation), env);
            && (o.Ok? <==> generation >= 1 && id in t.workloads)
            && (o.Ok? ==>
                  var running := t.workloads[id].content.running && t.workloads[id].generation == generation;
                  o.value == if running then t.(blocked := t.blocked[id := generation]) else t)
  {
  }

  /** Only the current generation, blocked, is retried. */
  lemma RetriesExactlyWhen(t: Tables, id: nat, revision: nat, x: nat)
    requires Ledger(t)
    ensures Retried(t, id, revision, x).Ok? <==>
            && id in t.workloads && t.workloads[id].revision == revision && t.workloads[id].content.running
            && id in t.blocked && t.blocked[id] == t.workloads[id].generation
            && (id, t.workloads[id].generation) in t.snapshots
            && forall k :: k in t.snapshots ==> t.snapshots[k].execution != x
  {
    if id in t.workloads && (id, t.workloads[id].generation) in t.snapshots {
      NextIsFree(t, id);
      var g := t.workloads[id].generation;
      assert SnapshotFits(t, (id, g));
      RenewedIsValid(t.snapshots[(id, g)], g + 1, x);
    }
  }

  /** The same plan, for another execution and generation. */
  predicate SamePlan(s: Snapshot, r: Snapshot, generation: nat, x: nat) {
    && r.execution == r.plan.execution == x && r.generation == r.plan.owner.generation == generation
    && r == s.(generation := generation, execution := x, plan := r.plan)
    && r.plan == s.plan.(execution := x, owner := r.plan.owner)
    && r.plan.owner == s.plan.owner.(generation := generation)
  }

  lemma RenewedSame(s: Snapshot, generation: nat, x: nat)
    ensures SamePlan(s, Renewed(s, generation, x), generation, x)
  {
  }

  /** `a` and `b` are the rows of the workload before and after. */
  predicate RetryDone(t: Tables, u: Tables, id: nat, a: Workload, b: Workload, x: nat) {
    && b == a.(revision := a.revision + 1, generation := a.generation + 1) && id !in u.blocked
    && u.snapshots.Keys == t.snapshots.Keys + {(id, b.generation)} && (id, a.generation) in t.snapshots
    && SamePlan(t.snapshots[(id, a.generation)], u.snapshots[(id, b.generation)], b.generation, x)
  }

  /** One row and one new snapshot of it, and nothing else. */
  lemma RowStays(t: Tables, u: Tables, id: nat, row: Workload, s: Snapshot)
    requires u == t.(workloads := t.workloads[id := row], snapshots := t.snapshots[(id, row.generation) := s],
                     blocked := u.blocked)
    requires u.blocked == t.blocked || u.blocked == t.blocked - {id}
    requires (id, row.generation) !in t.snapshots
    ensures OthersStay(t, u, id) && id in u.workloads && u.workloads[id] == row
    ensures u.snapshots.Keys == t.snapshots.Keys + {(id, row.generation)} && u.snapshots[(id, row.generation)] == s
  {
  }

  /** The retry goes on to the next generation and revision, and the block is gone. */
  lemma RetriedTo(t: Tables, u: Tables, id: nat, revision: nat, x: nat)
    requires Ledger(t) && Retried(t, id, revision, x) == Ok(u)
    ensures OthersStay(t, u, id) && id in t.workloads && id in u.workloads && t.workloads[id].revision == revision
    ensures RetryDone(t, u, id, t.workloads[id], u.workloads[id], x)
  {
    RetriedIs(t, u, id, revision, x);
    RetryIs(t, u, id, x);
  }

  lemma RetryIs(t: Tables, u: Tables, id: nat, x: nat)
    requires id in t.workloads && (id, t.workloads[id].generation) in t.snapshots
    requires (id, t.workloads[id].generation + 1) !in t.snapshots
    requires var m, g := RetriedRest(t, id), t.workloads[id].generation;
             u == m.(snapshots := t.snapshots[(id, g + 1) := Renewed(t.snapshots[(id, g)], g + 1, x)])
    ensures OthersStay(t, u, id) && id in u.workloads
    ensures RetryDone(t, u, id, t.workloads[id], u.workloads[id], x)
  {
    var g := t.workloads[id].generation;
    RenewedSame(t.snapshots[(id, g)], g + 1, x);
    RowStays(t, u, id, RetriedRow(t.workloads[id]), Renewed(t.snapshots[(id, g)], g + 1, x));
  }

  // ---- GPU bindings --------------------------------------------------------------------

  /** A snapshot of generation `g` runs with the bindings the inventory proves. */
  predicate BoundTo(t: Tables, id: nat, g: nat, inv: Inventory) {
    && (id, g) in t.snapshots
    && var b := t.snapshots[(id, g)].plan.bindings;
       forall d :: d in b ==> d in inv.gpus && b[d] == inv.gpus[d].binding
  }

  /** What a refresh leaves to run on GPUs is bound to this inventory, under a generation of its own if it is new. */
  lemma RefreshedIs(c: Catalog, t: Tables, u: Tables, id: nat, inv: Inventory, x: nat)
    requires Inv(c, t) && Refreshed(c, t, id, inv, x) == Ok(u)
    ensures id in t.workloads && id in u.workloads && OthersStay(t, u, id) && u.blocked == t.blocked
    ensures var w := t.workloads[id].content;
            if w.running && w.claim.devices != {} then
              var a, b := t.workloads[id], u.workloads[id];
              && inv.host == w.host
              && (forall d :: d in w.claim.devices ==> d in inv.gpus && inv.gpus[d].usable)
              && b.effective == a.effective.(bindings := b.effective.bindings)
              && BindingDone(t, u, id, a, b, b.effective, inv, x)
            else u == t
  {
    var w := t.workloads[id];
    if w.content.running && w.content.claim.devices != {} {
      var v := RefreshIs(c, t, u, id, inv, x);
      BoundIs(c, t, u, id, v, inv, x);
    }
  }

  lemma RefreshIs(c: Catalog, t: Tables, u: Tables, id: nat, inv: Inventory, x: nat) returns (v: Runtime)
    requires Inv(c, t) && Refreshed(c, t, id, inv, x) == Ok(u)
    requires id in t.workloads && t.workloads[id].content.running && t.workloads[id].content.claim.devices != {}
    ensures var w := t.workloads[id];
            && HasSources(t, w.content) && Bound(t, id, v, x) == Ok(u)
            && inv.host == w.content.host && v == w.effective.(bindings := v.bindings)
            && (forall d :: d in w.content.claim.devices ==> d in inv.gpus && inv.gpus[d].usable)
            && forall d :: d in v.bindings ==> d in inv.gpus && v.bindings[d] == inv.gpus[d].binding
  {
    var w := t.workloads[id];
    var before := LatestBindings(t.snapshots, id, w.content.claim);
    SourcesExist(c, t, id);
    ResolveKeeps(c, t, w.content, before);
    ValidatesExactlyWhen(c, w.effective, before, inv);
    v := Validate(c, w.effective, before, inv).value;
  }

  /** `a` and `b` are the rows of the workload before and after. */
  predicate BindingDone(t: Tables, u: Tables, id: nat, a: Workload, b: Workload, v: Runtime, inv: Inventory, x: nat)
    requires id in u.workloads
  {
    && BoundTo(u, id, b.generation, inv) && b == a.(generation := b.generation, effective := v)
    && Snapshotted(t, u, id, x, u != t)
    && (b.generation == if u != t && (id, a.generation) in t.snapshots then a.generation + 1 else a.generation)
  }

  lemma BoundAlready(t: Tables, id: nat, v: Runtime, inv: Inventory, x: nat)
    requires Ledger(t) && id in t.workloads
    requires (id, t.workloads[id].generation) in t.snapshots && t.snapshots[(id, t.workloads[id].generation)].hash == v
    requires forall d :: d in v.bindings ==> d in inv.gpus && v.bindings[d] == inv.gpus[d].binding
    ensures BindingDone(t, t, id, t.workloads[id], t.workloads[id], v, inv, x)
  {
    var k := (id, t.workloads[id].generation);
    assert SnapshotFits(t, k) && WorkloadFits(t, id);
    assert PlanContent(t.snapshots[k]).bindings == v.bindings;
  }

  lemma BoundIs(c: Catalog, t: Tables, u: Tables, id: nat, v: Runtime, inv: Inventory, x: nat)
    requires Inv(c, t) && id in t.workloads && HasSources(t, t.workloads[id].content) && Bound(t, id, v, x) == Ok(u)
    requires forall d :: d in v.bindings ==> d in inv.gpus && v.bindings[d] == inv.gpus[d].binding
    ensures id in u.workloads && OthersStay(t, u, id) && u.blocked == t.blocked
    ensures BindingDone(t, u, id, t.workloads[id], u.workloads[id], v, inv, x)
  {
    var a := t.workloads[id];
    if (id, a.generation) in t.snapshots && t.snapshots[(id, a.generation)].hash == v {
      BoundAlready(t, id, v, inv, x);
    } else {
      BoundNew(t, u, id, BoundRow(t, id, v), inv, x);
    }
  }

  lemma BoundNew(t: Tables, u: Tables, id: nat, row: Workload, inv: Inventory, x: nat)
    requires id in t.workloads && HasSources(t, row.content)
    requires row == BoundRow(t, id, row.effective)
    requires forall d :: d in row.effective.bindings ==>
               d in inv.gpus && row.effective.bindings[d] == inv.gpus[d].binding
    requires CreateSnapshot(t.(workloads := t.workloads[id := row]), id, row.content, row.effective, row.generation, x)
          == Ok(u)
    ensures id in u.workloads && OthersStay(t, u, id) && u.blocked == t.blocked
    ensures BindingDone(t, u, id, t.workloads[id], u.workloads[id], row.effective, inv, x)
  {
    var m := t.(workloads := t.workloads[id := row]);
    CreateFrame(m, u, id, row.content, row.effective, row.generation, x);
    CreateNames(m, u, id, row.content, row.effective, row.generation, x);
    RowStays(t, u, id, row, u.snapshots[(id, row.generation)]);
  }

  lemma CreateNames(t: Tables, u: Tables, id: nat, w: Content, r: Runtime, generation: nat, x: nat)
    requires HasSources(t, w) && CreateSnapshot(t, id, w, r, generation, x) == Ok(u)
    ensures (id, generation) in u.snapshots && NamesSources(u, w, u.snapshots[(id, generation)])
  {
  }
}
