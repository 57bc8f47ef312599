/** Every transaction, and so every run of transactions, keeps the view, the ledger and the claims. */
module FarmRuns {
  import opened Common
  import opened FarmModel
  import opened FarmTables
  import opened FarmCoherence

  /** Pools, wallets, profiles or settings change in a way no workload resolves from. */
  lemma UnusedKeeps(c: Catalog, t: Tables, u: Tables)
    requires Inv(c, t) && Revised(u)
    requires u == t.(pools := u.pools, wallets := u.wallets, profiles := u.profiles, settings := u.settings)
    requires forall id :: id in t.workloads ==> SameSources(t, u, t.workloads[id].content)
    ensures Inv(c, u) && Extends(t, u)
  {
    SameLedgerTables(t, u);
    forall id | id in u.workloads
      ensures ResolveWorkload(c, u, id, u.workloads[id].content) == Ok(u.workloads[id].effective) {
      ResolveFrame(c, t, u, id, t.workloads[id].content);
    }
  }

  /** What a coherent workload resolves from is there. */
  lemma SourcesExist(c: Catalog, t: Tables, id: nat)
    requires CoherentBut(c, t, {}) && id in t.workloads
    ensures HasSources(t, t.workloads[id].content)
    ensures t.workloads[id].effective.claim == t.workloads[id].content.claim
    ensures t.workloads[id].effective.bindings == LatestBindings(t.snapshots, id, t.workloads[id].content.claim)
    ensures ResolveFrom(c, t, t.workloads[id].content, t.workloads[id].effective.bindings)
            == Ok(t.workloads[id].effective)
  {
    ResolveKeeps(c, t, t.workloads[id].content, LatestBindings(t.snapshots, id, t.workloads[id].content.claim));
  }

  predicate CreatesOrDeletes(op: Op) {
    op.CreatePool? || op.DeletePool? || op.CreateWallet? || op.DeleteWallet? || op.CreateProfile? || op.DeleteProfile?
  }

  lemma CreateOrDeleteIs(c: Catalog, t: Tables, u: Tables, op: Op, env: Env)
    requires Revised(t) && CreatesOrDeletes(op) && Step(c, t, op, env) == Ok(u)
    ensures Revised(u) && u == t.(pools := u.pools, wallets := u.wallets, profiles := u.profiles)
  {
  }

  /** A new object is not yet used, and a deleted one no longer. */
  lemma UnusedSources(c: Catalog, t: Tables, u: Tables, op: Op, env: Env, id: nat)
    requires CreatesOrDeletes(op) && Step(c, t, op, env) == Ok(u) && id in t.workloads
             && HasSources(t, t.workloads[id].content)
    ensures SameSources(t, u, t.workloads[id].content)
  {
  }

  lemma CreateOrDeleteKeeps(c: Catalog, t: Tables, u: Tables, op: Op, env: Env)
    requires Inv(c, t) && CreatesOrDeletes(op) && Step(c, t, op, env) == Ok(u)
    ensures Inv(c, u) && Extends(t, u)
  {
    CreateOrDeleteIs(c, t, u, op, env);
    forall id | id in t.workloads ensures SameSources(t, u, t.workloads[id].content) {
      SourcesExist(c, t, id);
      UnusedSources(c, t, u, op, env, id);
    }
    UnusedKeeps(c, t, u);
  }

  /** The state between the change of a source object and the fan-out, and who is to be fanned out to. */
  function Changed(t: Tables, op: Op): Tables {
    match op
    case UpdatePool(id, revision, pool) => t.(pools := t.pools[id := Row(revision + 1, pool)])
    case UpdateWallet(id, revision, wallet) => t.(wallets := t.wallets[id := Row(revision + 1, wallet)])
    case UpdateProfile(id, revision, profile) => t.(profiles := t.profiles[id := Row(revision + 1, profile)])
    case CreateSettings(host, id, tuning) => t.(settings := t.settings[(host, id) := Row(1, tuning)])
    case UpdateSettings(host, id, revision, tuning) =>
      t.(settings := t.settings[(host, id) := Row(revision + 1, tuning)])
    case DeleteSettings(host, id, _) => t.(settings := t.settings - {(host, id)})
    case _ => t
  }

  function Users(t: Tables, op: Op): Content -> bool {
    match op
    case UpdatePool(id, _, _) => UsesPool(t, id)
    case UpdateWallet(id, _, _) => UsesWallet(t, id)
    case UpdateProfile(id, _, _) => UsesProfile(id)
    case CreateSettings(host, id, _) => UsesSettings(host, id)
    case UpdateSettings(host, id, _, _) => UsesSettings(host, id)
    case DeleteSettings(host, id, _) => UsesSettings(host, id)
    case _ => (w: Content) => false
  }

  predicate FansOut(op: Op) {
    op.UpdatePool? || op.UpdateWallet? || op.UpdateProfile? || op.CreateSettings? || op.UpdateSettings?
      || op.DeleteSettings?
  }

  lemma FanOutIs(c: Catalog, t: Tables, u: Tables, op: Op, env: Env)
    requires FansOut(op) && Step(c, t, op, env) == Ok(u)
    ensures u == t || Propagate(c, Changed(t, op), Selected(t, env.rows, Users(t, op)), env.draw) == Ok(u)
  {
  }

  /** Only the users of the changed object can resolve differently. */
  lemma OthersUnaffected(t: Tables, op: Op, w: Content)
    requires FansOut(op) && HasSources(t, w) && !Users(t, op)(w)
    ensures SameSources(t, Changed(t, op), w)
  {
  }

  lemma ChangedIs(t: Tables, op: Op)
    requires Revised(t)
    ensures var m := Changed(t, op);
            && Revised(m)
            && m == t.(pools := m.pools, wallets := m.wallets, profiles := m.profiles, settings := m.settings)
  {
  }

  lemma ChangeKeeps(c: Catalog, t: Tables, u: Tables, op: Op, env: Env)
    requires Inv(c, t) && Lists(t, env.rows) && FansOut(op) && Step(c, t, op, env) == Ok(u)
    ensures Inv(c, u) && Extends(t, u)
  {
    FanOutIs(c, t, u, op, env);
    if u != t {
      forall id | id in t.workloads && !Users(t, op)(t.workloads[id].content)
        ensures SameSources(t, Changed(t, op), t.workloads[id].content)
      {
        SourcesExist(c, t, id);
        OthersUnaffected(t, op, t.workloads[id].content);
      }
      ChangedIs(t, op);
      FanOutKeeps(c, t, Changed(t, op), u, Users(t, op), env);
    }
  }

  // ---- workloads -------------------------------------------------------------------

  /** A row that conflicts with no other keeps claims apart. */
  lemma PlacedExclusive(t: Tables, u: Tables, id: nat, w: Workload)
    requires Exclusive(t) && !Conflicts(t, id, w.content) && u.workloads == t.workloads[id := w]
    ensures Exclusive(u)
  {
    forall a, b | a in u.workloads && b in u.workloads && a != b
      ensures !Clash(u.workloads[a].content, u.workloads[b].content) {
      assert a != id ==> !Clash(w.content, t.workloads[a].content);
      assert b != id ==> !Clash(w.content, t.workloads[b].content);
    }
  }

  /** Snapshots that an ID bears from before are of the first generation and of the runtime `r`. */
  predicate Reusable(t: Tables, id: nat, r: Runtime) {
    forall k :: k in t.snapshots && k.0 == id ==> k.1 == 1 && t.snapshots[k].hash == r
  }

  /** Snapshots are of runtimes that run, and a new one needs a generation of its own. */
  lemma ReusedRuns(t: Tables, u: Tables, id: nat, row: Workload, x: nat)
    requires HasSources(t, row.content) && Placed(t, id, row, true, x) == Ok(u) && row.generation == 1
    requires Ledger(t) && HasSnapshots(t, id) && Reusable(t, id, row.effective)
    requires row.effective.running == row.content.running
    ensures row.content.running && row.content.claim.devices != {}
    ensures (id, 1) in t.snapshots && u == t.(workloads := t.workloads[id := row])
  {
    var k :| k in t.snapshots && k.0 == id;
    assert k == (id, 1) && SnapshotFits(t, k);
    assert PlanContent(t.snapshots[k]).running;
    if row.content.claim.devices == {} {
      CreateFrame(t.(workloads := t.workloads[id := row]), u, id, row.content, row.effective, 1, x);
    }
  }

  lemma ReusedKeeps(c: Catalog, t: Tables, u: Tables, id: nat, row: Workload, x: nat)
    requires CoherentBut(c, t, {}) && Ledger(t) && ValidContent(row.content)
    requires ResolveWorkload(c, t, id, row.content) == Ok(row.effective) && HasSources(t, row.content)
    requires Placed(t, id, row, true, x) == Ok(u) && row.generation == 1
    requires HasSnapshots(t, id) && Reusable(t, id, row.effective)
    ensures CoherentBut(c, u, {}) && Ledger(u)
  {
    ResolveKeeps(c, t, row.content, LatestBindings(t.snapshots, id, row.content.claim));
    ReusedRuns(t, u, id, row, x);
    MoveKeeps(c, t, u, id, row, {});
  }

  /** A row written as resolved now, under its own or the next generation. */
  lemma WrittenKeeps(c: Catalog, t: Tables, u: Tables, id: nat, row: Workload, moved: bool, x: nat)
    requires Inv(c, t) && ValidContent(row.content) && !Conflicts(t, id, row.content)
    requires ResolveWorkload(c, t, id, row.content) == Ok(row.effective) && HasSources(t, row.content)
    requires Placed(t, id, row, moved, x) == Ok(u)
    requires if id in t.workloads then
               && row.generation == t.workloads[id].generation + (if moved then 1 else 0)
               && (!moved ==> row.effective == t.workloads[id].effective)
             else moved && row.generation == 1 && Reusable(t, id, row.effective)
    ensures Inv(c, u) && Extends(t, u)
  {
    ResolveKeeps(c, t, row.content, LatestBindings(t.snapshots, id, row.content.claim));
    if id in t.workloads {
      NextIsFree(t, id);
      SourcesExist(c, t, id);
    }
    if HasSnapshots(t, id) && id !in t.workloads {
      ReusedKeeps(c, t, u, id, row, x);
    } else {
      PlacedKeeps(c, t, u, id, row, moved, x, {});
    }
    PlacedFrame(t, u, id, row, moved, x);
    PlacedExclusive(t, u, id, row);
  }

  lemma CreatedKeeps(c: Catalog, t: Tables, u: Tables, id: nat, w: Content, x: nat)
    requires Inv(c, t) && Created(c, t, id, w, x) == Ok(u) && Reusable(t, id, ResolveWorkload(c, t, id, w).value)
    ensures Inv(c, u) && Extends(t, u)
  {
    WrittenKeeps(c, t, u, id, Workload(1, w, 1, ResolveWorkload(c, t, id, w).value), true, x);
  }

  lemma UpdatedKeeps(c: Catalog, t: Tables, u: Tables, id: nat, revision: nat, w: Content, x: nat)
    requires Inv(c, t) && Updated(c, t, id, revision, w, x) == Ok(u)
    ensures Inv(c, u) && Extends(t, u)
  {
    var before := t.workloads[id];
    if w != before.content {
      var r := ResolveWorkload(c, t, id, w).value;
      WrittenKeeps(c, t, u, id, Edited(before, w, r), r != before.effective, x);
    }
  }

  /** The retried row alone, before its snapshot. */
  function RetriedRest(t: Tables, id: nat): Tables
    requires id in t.workloads
  {
    t.(workloads := t.workloads[id := RetriedRow(t.workloads[id])], blocked := t.blocked - {id})
  }

  lemma RetriedIs(t: Tables, u: Tables, id: nat, revision: nat, x: nat)
    requires Retried(t, id, revision, x) == Ok(u)
    requires forall k :: k in t.snapshots ==> SnapshotFits(t, k)
    ensures id in t.workloads && (id, t.workloads[id].generation) in t.snapshots && !Drawn(t, x)
    ensures var m, g := RetriedRest(t, id), t.workloads[id].generation;
            u == m.(snapshots := t.snapshots[(id, g + 1) := Renewed(t.snapshots[(id, g)], g + 1, x)])
            && (id, g + 1) !in t.snapshots
  {
    assert SnapshotFits(t, (id, t.workloads[id].generation));
  }

  /** A row of the same content under a later generation, and a snapshot of that generation. */
  lemma AddedFrame(t: Tables, u: Tables, id: nat, row: Workload, s: Snapshot)
    requires Exclusive(t) && Revised(t) && id in t.workloads && row.content == t.workloads[id].content
    requires t.workloads[id].generation <= row.generation && (id, row.generation) !in t.snapshots
    requires u.workloads == t.workloads[id := row] && u.snapshots == t.snapshots[(id, row.generation) := s]
    requires u.pools == t.pools && u.wallets == t.wallets && u.profiles == t.profiles
    ensures Exclusive(u) && Revised(u) && Extends(t, u)
  {
  }

  lemma RestCoherent(c: Catalog, t: Tables, id: nat)
    requires CoherentBut(c, t, {}) && id in t.workloads
    ensures CoherentBut(c, RetriedRest(t, id), {id})
  {
    var m := RetriedRest(t, id);
    forall v | v in m.workloads && v != id
      ensures ResolveWorkload(c, m, v, m.workloads[v].content) == Ok(m.workloads[v].effective) {
      ResolveFrame(c, t, m, v, m.workloads[v].content);
    }
  }

  lemma RestLedger(t: Tables, id: nat)
    requires Ledger(t) && id in t.workloads
    ensures LedgerBut(RetriedRest(t, id), id)
  {
    var m := RetriedRest(t, id);
    forall k | k in m.snapshots ensures SnapshotFits(m, k) { assert SnapshotFits(t, k); }
    forall v | v in m.workloads && v != id ensures WorkloadFits(m, v) { assert WorkloadFits(t, v); }
  }

  /** The snapshot of the current generation is the latest one and names what the workload resolves to. */
  lemma CurrentSnapshotIs(c: Catalog, t: Tables, id: nat)
    requires Inv(c, t) && id in t.workloads && (id, t.workloads[id].generation) in t.snapshots
    ensures var w, s := t.workloads[id], t.snapshots[(id, t.workloads[id].generation)];
            && ValidSnapshot(s) && s.workload == id && s.hash == w.effective && s.claim == w.content.claim
            && s.plan.bindings == w.effective.bindings
            && ResolveFrom(c, t, w.content, s.plan.bindings) == Ok(w.effective)
            && (w.content.claim.devices == {} ==> s.plan.bindings == map[])
  {
    NextIsFree(t, id);
    SourcesExist(c, t, id);
    assert SnapshotFits(t, (id, t.workloads[id].generation));
    assert PlanContent(t.snapshots[(id, t.workloads[id].generation)]) == t.workloads[id].effective;
  }

  function RenewedCurrent(t: Tables, id: nat, x: nat): Snapshot
    requires id in t.workloads && (id, t.workloads[id].generation) in t.snapshots
  {
    Renewed(t.snapshots[(id, t.workloads[id].generation)], t.workloads[id].generation + 1, x)
  }

  lemma RenewedCoherent(c: Catalog, t: Tables, u: Tables, id: nat, x: nat)
    requires Inv(c, t) && id in t.workloads && (id, t.workloads[id].generation) in t.snapshots
    requires var m, s := RetriedRest(t, id), RenewedCurrent(t, id, x);
             u == m.(snapshots := t.snapshots[(id, s.generation) := s])
    ensures CoherentBut(c, u, {})
  {
    CurrentSnapshotIs(c, t, id);
    NextIsFree(t, id);
    RestCoherent(c, t, id);
    AddedCoherent(c, RetriedRest(t, id), u, id, RenewedCurrent(t, id, x), {});
  }

  lemma RenewedLedger(c: Catalog, t: Tables, u: Tables, id: nat, x: nat)
    requires Inv(c, t) && id in t.workloads && (id, t.workloads[id].generation) in t.snapshots && !Drawn(t, x)
    requires var m, s := RetriedRest(t, id), RenewedCurrent(t, id, x);
             u == m.(snapshots := t.snapshots[(id, s.generation) := s])
    ensures Ledger(u)
  {
    CurrentSnapshotIs(c, t, id);
    NextIsFree(t, id);
    RestLedger(t, id);
    RenewedIsValid(t.snapshots[(id, t.workloads[id].generation)], t.workloads[id].generation + 1, x);
    AddedLedger(RetriedRest(t, id), u, id, RenewedCurrent(t, id, x));
  }

  /** A retry renews the current snapshot under the next generation; what runs does not change. */
  lemma RetriedKeeps(c: Catalog, t: Tables, u: Tables, id: nat, revision: nat, x: nat)
    requires Inv(c, t) && Retried(t, id, revision, x) == Ok(u)
    ensures Inv(c, u) && Extends(t, u)
    ensures id in t.workloads && id in u.workloads && id !in u.blocked
            && u.workloads[id].effective == t.workloads[id].effective
    ensures u.workloads[id].generation == t.workloads[id].generation + 1
  {
    RetriedIs(t, u, id, revision, x);
    RenewedCoherent(c, t, u, id, x);
    RenewedLedger(c, t, u, id, x);
    AddedFrame(t, u, id, RetriedRow(t.workloads[id]), RenewedCurrent(t, id, x));
  }

  /** Resolving with other bindings of the same devices changes the bindings alone. */
  lemma Rebound(c: Catalog, t: Tables, w: Content, before: map<nat, Binding>, b: map<nat, Binding>)
    requires ResolveFrom(c, t, w, before).Ok? && b.Keys == w.claim.devices
    ensures ResolveFrom(c, t, w, b) == Ok(ResolveFrom(c, t, w, before).value.(bindings := b))
  {
  }

  lemma BoundDevices(devices: set<nat>, inv: Inventory, vendors: set<string>)
    requires Bind(devices, inv, vendors).Some?
    ensures Bind(devices, inv, vendors).value.Keys == devices
  {
  }

  lemma BoundKeeps(c: Catalog, t: Tables, u: Tables, id: nat, v: Runtime, x: nat)
    requires Inv(c, t) && id in t.workloads && HasSources(t, t.workloads[id].content) && Bound(t, id, v, x) == Ok(u)
    requires t.workloads[id].content.claim.devices != {}
             && ResolveFrom(c, t, t.workloads[id].content, v.bindings) == Ok(v)
    ensures Inv(c, u) && Extends(t, u)
  {
    if u != t {
      var row := BoundRow(t, id, v);
      NextIsFree(t, id);
      GenerationIsFree(t, id, v);
      CreateFrame(t.(workloads := t.workloads[id := row]), u, id, row.content, v, row.generation, x);
      SaveKeeps(c, t, u, id, row, x, {});
      AddedFrame(t, u, id, row, u.snapshots[(id, row.generation)]);
    }
  }

  lemma GenerationIsFree(t: Tables, id: nat, v: Runtime)
    requires Ledger(t) && id in t.workloads
    ensures forall k :: k in t.snapshots && k.0 == id ==> k.1 < BoundRow(t, id, v).generation
    ensures 1 <= t.workloads[id].generation <= BoundRow(t, id, v).generation && ValidContent(t.workloads[id].content)
  {
    NextIsFree(t, id);
    forall k | k in t.snapshots && k.0 == id ensures k.1 < BoundRow(t, id, v).generation { assert k == (id, k.1); }
  }

  /** Validation against the inventory changes only the bindings, to ones of the same devices. */
  lemma ValidatedResolves(c: Catalog, t: Tables, w: Content, before: map<nat, Binding>, inv: Inventory)
    requires w.claim.devices != {} && ResolveFrom(c, t, w, before).Ok?
    requires Validate(c, ResolveFrom(c, t, w, before).value, before, inv).Ok?
    ensures var v := Validate(c, ResolveFrom(c, t, w, before).value, before, inv).value;
            HasSources(t, w) && ResolveFrom(c, t, w, v.bindings) == Ok(v)
  {
    ResolveKeeps(c, t, w, before);
    var r := ResolveFrom(c, t, w, before).value;
    BoundDevices(w.claim.devices, inv, c[r.package].vendors);
    Rebound(c, t, w, before, Bind(w.claim.devices, inv, c[r.package].vendors).value);
  }

  lemma RefreshedKeeps(c: Catalog, t: Tables, u: Tables, id: nat, inv: Inventory, x: nat)
    requires Inv(c, t) && Refreshed(c, t, id, inv, x) == Ok(u)
    ensures Inv(c, u) && Extends(t, u)
  {
    var w := t.workloads[id];
    if w.content.running && w.content.claim.devices != {} {
      var before := LatestBindings(t.snapshots, id, w.content.claim);
      ValidatedResolves(c, t, w.content, before, inv);
      BoundKeeps(c, t, u, id, Validate(c, ResolveFrom(c, t, w.content, before).value, before, inv).value, x);
    }
  }

  lemma DeletedKeeps(c: Catalog, t: Tables, u: Tables, id: nat, revision: nat, retired: bool)
    requires Inv(c, t) && Deleted(t, id, revision, retired) == Ok(u)
    ensures Inv(c, u) && Extends(t, u)
  {
    forall v | v in u.workloads
      ensures ResolveWorkload(c, u, v, u.workloads[v].content) == Ok(u.workloads[v].effective) {
      ResolveFrame(c, t, u, v, u.workloads[v].content);
    }
    forall k | k in u.snapshots ensures SnapshotFits(u, k) { assert SnapshotFits(t, k); }
    forall v | v in u.workloads ensures WorkloadFits(u, v) { assert WorkloadFits(t, v); }
  }

  lemma BlockedKeeps(c: Catalog, t: Tables, u: Tables)
    requires Inv(c, t) && u == t.(blocked := u.blocked)
    ensures Inv(c, u) && Extends(t, u)
  {
    SameLedgerTables(t, u);
    forall v | v in u.workloads
      ensures ResolveWorkload(c, u, v, u.workloads[v].content) == Ok(u.workloads[v].effective) {
      ResolveFrame(c, t, u, v, u.workloads[v].content);
    }
  }

  // ---- runs ------------------------------------------------------------------------

  /** The rows are the database's, and snapshots that a new WorkloadID bears are as good as its own. */
  ghost predicate Fair(c: Catalog, t: Tables, op: Op, env: Env) {
    && Lists(t, env.rows)
    && (op.CreateWorkload? ==>
          var r := ResolveWorkload(c, t, op.id, op.content);
          r.Ok? ==> Reusable(t, op.id, r.value))
  }

  lemma CreateStepKeeps(c: Catalog, t: Tables, u: Tables, id: nat, w: Content, env: Env)
    requires Inv(c, t) && Fair(c, t, CreateWorkload(id, w), env) && Step(c, t, CreateWorkload(id, w), env) == Ok(u)
    ensures Inv(c, u) && Extends(t, u)
  {
    CreatedKeeps(c, t, u, id, w, env.draw(id));
  }

  lemma UpdateStepKeeps(c: Catalog, t: Tables, u: Tables, id: nat, revision: nat, w: Content, env: Env)
    requires Inv(c, t) && Step(c, t, UpdateWorkload(id, revision, w), env) == Ok(u)
    ensures Inv(c, u) && Extends(t, u)
  {
    UpdatedKeeps(c, t, u, id, revision, w, env.draw(id));
  }

  lemma RetryStepKeeps(c: Catalog, t: Tables, u: Tables, id: nat, revision: nat, env: Env)
    requires Inv(c, t) && Step(c, t, Retry(id, revision), env) == Ok(u)
    ensures Inv(c, u) && Extends(t, u)
  {
    RetriedKeeps(c, t, u, id, revision, env.draw(id));
  }

  lemma RefreshStepKeeps(c: Catalog, t: Tables, u: Tables, id: nat, inventory: Inventory, env: Env)
    requires Inv(c, t) && Step(c, t, Refresh(id, inventory), env) == Ok(u)
    ensures Inv(c, u) && Extends(t, u)
  {
    RefreshedKeeps(c, t, u, id, inventory, env.draw(id));
  }

  lemma BlockIs(c: Catalog, t: Tables, u: Tables, op: Op, env: Env)
    requires op.Block? && Step(c, t, op, env) == Ok(u)
    ensures u == t.(blocked := u.blocked)
  {
  }

  lemma StepKeeps(c: Catalog, t: Tables, u: Tables, op: Op, env: Env)
    requires Inv(c, t) && Fair(c, t, op, env) && Step(c, t, op, env) == Ok(u)
    ensures Inv(c, u) && Extends(t, u)
  {
    if FansOut(op) {
      ChangeKeeps(c, t, u, op, env);
    } else if CreatesOrDeletes(op) {
      CreateOrDeleteKeeps(c, t, u, op, env);
    } else {
      match op
      case DeleteWorkload(id, revision) => DeletedKeeps(c, t, u, id, revision, false);
      case FinalizeDeletion(id, revision) => DeletedKeeps(c, t, u, id, revision, true);
      case Block(id, generation) =>
        BlockIs(c, t, u, op, env);
        BlockedKeeps(c, t, u);
      case CreateWorkload(id, content) => CreateStepKeeps(c, t, u, id, content, env);
      case UpdateWorkload(id, revision, content) => UpdateStepKeeps(c, t, u, id, revision, content, env);
      case Retry(id, revision) => RetryStepKeeps(c, t, u, id, revision, env);
      case Refresh(id, inventory) => RefreshStepKeeps(c, t, u, id, inventory, env);
    }
  }

  datatype Call = Call(op: Op, env: Env)

  /** A failed transaction is rolled back. */
  ghost function Run(c: Catalog, t: Tables, calls: seq<Call>): Tables
    decreases |calls|
  {
    if calls == [] then t
    else
      var r := Step(c, t, calls[0].op, calls[0].env);
      Run(c, if r.Ok? then r.value else t, calls[1..])
  }

  ghost predicate FairRun(c: Catalog, t: Tables, calls: seq<Call>)
    decreases |calls|
  {
    calls == [] ||
    (Fair(c, t, calls[0].op, calls[0].env) &&
     var r := Step(c, t, calls[0].op, calls[0].env);
     FairRun(c, if r.Ok? then r.value else t, calls[1..]))
  }

  const Empty := Tables(map[], map[], map[], map[], map[], map[], map[])

  /**
   After any run of transactions every stored effective hash is the hash of resolving
   its workload from scratch, the ledger is sound and RUNNING claims are disjoint;
   and nothing the ledger held is lost.
   */
  lemma {:induction false} RunKeeps(c: Catalog, t: Tables, calls: seq<Call>)
    requires Inv(c, t) && FairRun(c, t, calls)
    ensures Inv(c, Run(c, t, calls))
    ensures forall k :: k in t.snapshots ==>
              k in Run(c, t, calls).snapshots && Run(c, t, calls).snapshots[k] == t.snapshots[k]
    decreases |calls|
  {
    if calls != [] {
      var r := Step(c, t, calls[0].op, calls[0].env);
      if r.Ok? { StepKeeps(c, t, r.value, calls[0].op, calls[0].env); }
      RunKeeps(c, if r.Ok? then r.value else t, calls[1..]);
    }
  }

  /** In particular from the empty database. */
  lemma RunsFromEmpty(c: Catalog, calls: seq<Call>)
    requires FairRun(c, Empty, calls)
    ensures Inv(c, Run(c, Empty, calls))
  {
    RunKeeps(c, Empty, calls);
  }
}
