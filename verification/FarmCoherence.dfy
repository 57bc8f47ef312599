/**
 What every committed transaction keeps: the stored effective hash of a workload is
 that of resolving it from scratch, snapshots are an append-only ledger, and RUNNING
 workloads of a Host do not share a resource.
 */
module FarmCoherence {
  import opened Common
  import opened FarmModel
  import opened FarmTables

  /** The view is up to date for every workload, `stale` aside. */
  ghost predicate CoherentBut(c: Catalog, t: Tables, stale: set<nat>) {
    forall id :: id in t.workloads && id !in stale ==>
      ResolveWorkload(c, t, id, t.workloads[id].content) == Ok(t.workloads[id].effective)
  }

  predicate SnapshotFits(t: Tables, k: (nat, nat))
    requires k in t.snapshots
  {
    && t.snapshots[k].workload == k.0 && t.snapshots[k].generation == k.1 && ValidSnapshot(t.snapshots[k])
    && (k.0 in t.workloads ==> k.1 <= t.workloads[k.0].generation)
  }

  predicate WorkloadFits(t: Tables, id: nat)
    requires id in t.workloads
  {
    var w := t.workloads[id];
    && w.generation >= 1 && ValidContent(w.content) && w.effective.running == w.content.running
    && ((id, w.generation) in t.snapshots ==> t.snapshots[(id, w.generation)].hash == w.effective)
    && (w.content.running && w.content.claim.devices == {} ==> (id, w.generation) in t.snapshots)
  }

  /** One snapshot a generation, every execution once, none newer than its workload, every current one exact. */
  predicate Ledger(t: Tables) {
    && (forall k :: k in t.snapshots ==> SnapshotFits(t, k))
    && (forall k, l ::
          k in t.snapshots && l in t.snapshots && t.snapshots[k].execution == t.snapshots[l].execution ==> k == l)
    && (forall id :: id in t.workloads ==> WorkloadFits(t, id))
  }

  predicate Exclusive(t: Tables) {
    forall a, b :: a in t.workloads && b in t.workloads && a != b ==>
      !Clash(t.workloads[a].content, t.workloads[b].content)
  }

  predicate Revised(t: Tables) {
    && (forall id :: id in t.pools ==> t.pools[id].revision >= 1)
    && (forall id :: id in t.wallets ==> t.wallets[id].revision >= 1)
    && (forall id :: id in t.profiles ==> t.profiles[id].revision >= 1)
  }

  ghost predicate Inv(c: Catalog, t: Tables) { CoherentBut(c, t, {}) && Ledger(t) && Exclusive(t) && Revised(t) }

  /** Nothing recorded is lost, and no generation goes back. */
  predicate Extends(t: Tables, u: Tables) {
    && (forall k :: k in t.snapshots ==> k in u.snapshots && u.snapshots[k] == t.snapshots[k])
    && (forall id :: id in t.workloads && id in u.workloads ==>
        t.workloads[id].generation <= u.workloads[id].generation)
  }

  // ---- what a resolution depends on --------------------------------------------

  lemma LatestIs(m: map<(nat, nat), Snapshot>, id: nat, claim: Claim, g: nat)
    requires Newest(m, id, g)
    ensures LatestBindings(m, id, claim) ==
            if claim.devices == {} || m[(id, g)].claim.devices != claim.devices then map[] else m[(id, g)].plan.bindings
  {
    forall h | Newest(m, id, h) ensures h == g { assert (id, h) in m && (id, g) in m; }
  }

  ghost predicate SameLedger(m: map<(nat, nat), Snapshot>, n: map<(nat, nat), Snapshot>, id: nat) {
    forall g :: ((id, g) in m <==> (id, g) in n) && ((id, g) in m ==> m[(id, g)] == n[(id, g)])
  }

  lemma LatestFrame(m: map<(nat, nat), Snapshot>, n: map<(nat, nat), Snapshot>, id: nat, claim: Claim)
    requires SameLedger(m, n, id)
    ensures LatestBindings(m, id, claim) == LatestBindings(n, id, claim)
  {
    forall g ensures Newest(m, id, g) <==> Newest(n, id, g) {
      if Newest(m, id, g) {
        forall k | k in n && k.0 == id ensures k.1 <= g { assert k == (id, k.1) && (id, k.1) in m; }
      }
      if Newest(n, id, g) {
        forall k | k in m && k.0 == id ensures k.1 <= g { assert k == (id, k.1) && (id, k.1) in n; }
      }
    }
    if g :| Newest(m, id, g) {
      LatestIs(m, id, claim, g);
      LatestIs(n, id, claim, g);
    }
  }

  /** The two states agree on everything the workload content `w` is resolved from, its snapshots aside. */
  predicate SameSources(t: Tables, u: Tables, w: Content) {
    && (w.profile in t.profiles <==> w.profile in u.profiles)
    && SettingsOf(t, w) == SettingsOf(u, w)
    && (w.profile in t.profiles ==>
          && u.profiles[w.profile].content == t.profiles[w.profile].content
          && var p := t.profiles[w.profile].content;
             && (p.pool in t.pools <==> p.pool in u.pools)
             && (p.pool in t.pools ==> u.pools[p.pool].content == t.pools[p.pool].content)
             && (p.wallet in t.wallets <==> p.wallet in u.wallets)
             && (p.wallet in t.wallets ==> u.wallets[p.wallet].content == t.wallets[p.wallet].content))
  }

  lemma ResolveFrame(c: Catalog, t: Tables, u: Tables, id: nat, w: Content)
    requires SameSources(t, u, w) && SameLedger(t.snapshots, u.snapshots, id)
    ensures ResolveWorkload(c, t, id, w) == ResolveWorkload(c, u, id, w)
  {
    LatestFrame(t.snapshots, u.snapshots, id, w.claim);
  }

  /** A resolution keeps what it was asked for. */
  lemma ResolveKeeps(c: Catalog, t: Tables, w: Content, bindings: map<nat, Binding>)
    requires ResolveFrom(c, t, w, bindings).Ok?
    ensures var r := ResolveFrom(c, t, w, bindings).value;
            && r.running == w.running && r.host == w.host && r.profile == w.profile && r.claim == w.claim
            && r.bindings == bindings
            && (bindings != map[] ==> bindings.Keys == w.claim.devices)
            && HasSources(t, w)
  {
  }

  // ---- one workload moves to a new generation ----------------------------------

  /** The state after workload `id` was given a new row and nothing else changed. */
  predicate Moved(t: Tables, u: Tables, id: nat, w: Workload) { u == t.(workloads := t.workloads[id := w]) }

  lemma MovedCoherent(c: Catalog, t: Tables, u: Tables, id: nat, w: Workload, stale: set<nat>)
    requires CoherentBut(c, t, stale + {id}) && Moved(t, u, id, w)
             && ResolveWorkload(c, t, id, w.content) == Ok(w.effective)
    ensures CoherentBut(c, u, stale - {id})
  {
    forall v | v in u.workloads && v !in stale - {id}
      ensures ResolveWorkload(c, u, v, u.workloads[v].content) == Ok(u.workloads[v].effective) {
      ResolveFrame(c, t, u, v, u.workloads[v].content);
    }
  }

  /** A snapshot of the current generation of `id` is added, and `id` resolves with its bindings. */
  lemma AddedCoherent(c: Catalog, t: Tables, u: Tables, id: nat, s: Snapshot, stale: set<nat>)
    requires CoherentBut(c, t, stale + {id}) && u == t.(snapshots := t.snapshots[(id, s.generation) := s])
             && id in t.workloads
    requires forall k :: k in t.snapshots && k.0 == id ==> k.1 < s.generation
    requires var w := t.workloads[id].content;
             && s.claim.devices == w.claim.devices
             && ResolveFrom(c, t, w, if w.claim.devices == {} then map[] else s.plan.bindings)
                == Ok(t.workloads[id].effective)
    ensures CoherentBut(c, u, stale - {id})
  {
    forall v | v in u.workloads && v !in stale - {id}
      ensures ResolveWorkload(c, u, v, u.workloads[v].content) == Ok(u.workloads[v].effective) {
      if v != id {
        ResolveFrame(c, t, u, v, u.workloads[v].content);
      } else {
        assert Newest(u.snapshots, id, s.generation);
        LatestIs(u.snapshots, id, u.workloads[id].content.claim, s.generation);
      }
    }
  }

  /** The ledger, but for the row of workload `id`. */
  predicate LedgerBut(t: Tables, id: nat) {
    && (forall k :: k in t.snapshots ==> SnapshotFits(t, k))
    && (forall k, l ::
          k in t.snapshots && l in t.snapshots && t.snapshots[k].execution == t.snapshots[l].execution ==> k == l)
    && (forall v :: v in t.workloads && v != id ==> WorkloadFits(t, v))
  }

  lemma AddedFits(t: Tables, u: Tables, id: nat, s: Snapshot, v: nat)
    requires LedgerBut(t, id) && id in t.workloads && v in t.workloads
    requires u == t.(snapshots := t.snapshots[(id, s.generation) := s])
    requires ValidSnapshot(s) && s.generation == t.workloads[id].generation && s.hash == t.workloads[id].effective
    requires ValidContent(t.workloads[id].content)
    requires t.workloads[id].effective.running == t.workloads[id].content.running
    ensures WorkloadFits(u, v)
  {
    if v != id { assert WorkloadFits(t, v); }
  }

  lemma AddedLedger(t: Tables, u: Tables, id: nat, s: Snapshot)
    requires LedgerBut(t, id) && id in t.workloads && !Drawn(t, s.execution)
    requires u == t.(snapshots := t.snapshots[(id, s.generation) := s])
    requires s.workload == id && ValidSnapshot(s) && s.generation == t.workloads[id].generation
             && s.hash == t.workloads[id].effective
    requires ValidContent(t.workloads[id].content)
             && t.workloads[id].effective.running == t.workloads[id].content.running
    ensures Ledger(u)
  {
    forall k | k in u.snapshots ensures SnapshotFits(u, k) { if k != (id, s.generation) { assert SnapshotFits(t, k); } }
    forall v | v in u.workloads ensures WorkloadFits(u, v) { AddedFits(t, u, id, s, v); }
    assert forall k :: k in u.snapshots && k != (id, s.generation) ==> u.snapshots[k].execution != s.execution;
  }

  /** The row of `id` is replaced under a generation no snapshot of it exceeds. */
  lemma MovedLedger(t: Tables, u: Tables, id: nat, w: Workload)
    requires LedgerBut(t, id) && Moved(t, u, id, w) && forall k :: k in t.snapshots && k.0 == id ==> k.1 <= w.generation
    ensures LedgerBut(u, id)
  {
    forall k | k in u.snapshots ensures SnapshotFits(u, k) { assert SnapshotFits(t, k); }
    forall v | v in u.workloads && v != id ensures WorkloadFits(u, v) { assert WorkloadFits(t, v); }
  }

  /** Creating a snapshot only adds to the ledger. */
  lemma CreateFrame(t: Tables, u: Tables, id: nat, w: Content, r: Runtime, generation: nat, x: nat)
    requires HasSources(t, w) && CreateSnapshot(t, id, w, r, generation, x) == Ok(u)
    ensures (id, generation) !in t.snapshots && (id, generation) in u.snapshots && !Drawn(t, x)
    ensures u == t.(snapshots := t.snapshots[(id, generation) := u.snapshots[(id, generation)]])
    ensures var s := u.snapshots[(id, generation)];
            ValidSnapshot(s) && s.workload == id && s.generation == generation && s.hash == r && s.execution == x
            && s.claim == r.claim && s.plan.bindings == r.bindings
  {
  }

  lemma PlacedFrame(t: Tables, u: Tables, id: nat, row: Workload, moved: bool, x: nat)
    requires HasSources(t, row.content) && Placed(t, id, row, moved, x) == Ok(u)
    requires id in t.workloads ==> t.workloads[id].generation <= row.generation
    ensures u == t.(workloads := t.workloads[id := row], snapshots := u.snapshots) && Extends(t, u)
  {
    if moved && row.content.running && row.content.claim.devices == {} {
      CreateFrame(t.(workloads := t.workloads[id := row]), u, id, row.content, row.effective, row.generation, x);
    }
  }

  lemma MovedCoherentBut(c: Catalog, t: Tables, m: Tables, id: nat, w: Workload, stale: set<nat>)
    requires CoherentBut(c, t, stale + {id}) && Moved(t, m, id, w)
    ensures CoherentBut(c, m, stale + {id})
  {
    forall v | v in m.workloads && v !in stale + {id}
      ensures ResolveWorkload(c, m, v, m.workloads[v].content) == Ok(m.workloads[v].effective) {
      ResolveFrame(c, t, m, v, m.workloads[v].content);
    }
  }

  /** The row of `id` is replaced and a snapshot of its runtime created, with the bindings that runtime names. */
  lemma SaveKeeps(c: Catalog, t: Tables, u: Tables, id: nat, w: Workload, x: nat, stale: set<nat>)
    requires CoherentBut(c, t, stale + {id}) && LedgerBut(t, id)
    requires w.generation >= 1 && ValidContent(w.content)
             && ResolveFrom(c, t, w.content, w.effective.bindings) == Ok(w.effective)
    requires w.content.claim.devices == {} ==> w.effective.bindings == map[]
    requires forall k :: k in t.snapshots && k.0 == id ==> k.1 < w.generation
    requires HasSources(t, w.content)
    requires CreateSnapshot(t.(workloads := t.workloads[id := w]), id, w.content, w.effective, w.generation, x) == Ok(u)
    ensures CoherentBut(c, u, stale - {id}) && Ledger(u)
  {
    var m := t.(workloads := t.workloads[id := w]);
    ResolveKeeps(c, t, w.content, w.effective.bindings);
    MovedLedger(t, m, id, w);
    MovedCoherentBut(c, t, m, id, w, stale);
    CreateFrame(m, u, id, w.content, w.effective, w.generation, x);
    var s := u.snapshots[(id, w.generation)];
    AddedCoherent(c, m, u, id, s, stale);
    AddedLedger(m, u, id, s);
  }

  /** The row of `id` is replaced and no snapshot created. */
  lemma MoveKeeps(c: Catalog, t: Tables, u: Tables, id: nat, w: Workload, stale: set<nat>)
    requires CoherentBut(c, t, stale + {id}) && LedgerBut(t, id) && Moved(t, u, id, w)
    requires w.generation >= 1 && ValidContent(w.content) && w.effective.running == w.content.running
    requires ResolveWorkload(c, t, id, w.content) == Ok(w.effective)
    requires forall k :: k in t.snapshots && k.0 == id ==> k.1 <= w.generation
    requires (id, w.generation) in t.snapshots ==> t.snapshots[(id, w.generation)].hash == w.effective
    requires w.content.running && w.content.claim.devices == {} ==> (id, w.generation) in t.snapshots
    ensures CoherentBut(c, u, stale - {id}) && Ledger(u)
  {
    MovedCoherent(c, t, u, id, w, stale);
    MovedLedger(t, u, id, w);
  }

  /** The row of `id` is replaced by one that resolves; a moved runtime has a generation of its own. */
  lemma PlacedKeeps(c: Catalog, t: Tables, u: Tables, id: nat, w: Workload, moved: bool, x: nat, stale: set<nat>)
    requires CoherentBut(c, t, stale + {id}) && LedgerBut(t, id) && w.generation >= 1 && ValidContent(w.content)
    requires w.effective.bindings == LatestBindings(t.snapshots, id, w.content.claim)
             && w.effective.running == w.content.running
    requires ResolveFrom(c, t, w.content, w.effective.bindings) == Ok(w.effective)
    requires forall k :: k in t.snapshots && k.0 == id ==> if moved then k.1 < w.generation else k.1 <= w.generation
    requires !moved ==>
               && id in t.workloads && WorkloadFits(t, id) && w.generation == t.workloads[id].generation
               && w.effective == t.workloads[id].effective && t.workloads[id].content.claim == w.content.claim
    requires HasSources(t, w.content) && Placed(t, id, w, moved, x) == Ok(u)
    ensures CoherentBut(c, u, stale - {id}) && Ledger(u)
  {
    if moved && w.content.running && w.content.claim.devices == {} {
      SaveKeeps(c, t, u, id, w, x, stale);
    } else {
      MoveKeeps(c, t, u, id, w, stale);
    }
  }

  // ---- fan-out -------------------------------------------------------------------

  /** Pools, wallets, profiles, settings and the contents of workloads are as they were. */
  predicate SameObjects(t: Tables, u: Tables) {
    && u.pools == t.pools && u.wallets == t.wallets && u.profiles == t.profiles && u.settings == t.settings
    && u.blocked == t.blocked
    && u.workloads.Keys == t.workloads.Keys && forall id :: id in t.workloads ==>
         u.workloads[id].content == t.workloads[id].content
  }

  lemma AdvanceFrame(t: Tables, u: Tables, id: nat, r: Runtime, x: nat)
    requires id in t.workloads && HasSources(t, t.workloads[id].content) && Advance(t, id, r, x) == Ok(u)
    ensures u == t.(workloads := u.workloads, snapshots := u.snapshots) && Extends(t, u) && SameObjects(t, u)
  {
    var w := t.workloads[id];
    if r != w.effective { PlacedFrame(t, u, id, w.(generation := w.generation + 1, effective := r), true, x); }
  }

  /** No snapshot is newer than its workload, so the next generation is free. */
  lemma NextIsFree(t: Tables, id: nat)
    requires Ledger(t) && id in t.workloads
    ensures LedgerBut(t, id) && WorkloadFits(t, id)
    ensures forall k :: k in t.snapshots && k.0 == id ==> k.1 <= t.workloads[id].generation
    ensures (id, t.workloads[id].generation + 1) !in t.snapshots
  {
    forall k | k in t.snapshots && k.0 == id ensures k.1 <= t.workloads[id].generation { assert SnapshotFits(t, k); }
  }

  lemma AdvanceKeeps(c: Catalog, t: Tables, u: Tables, id: nat, r: Runtime, bindings: map<nat, Binding>, x: nat,
                     stale: set<nat>)
    requires CoherentBut(c, t, stale) && Ledger(t) && Revised(t)
    requires id in t.workloads && HasSources(t, t.workloads[id].content) && Advance(t, id, r, x) == Ok(u)
    requires bindings == LatestBindings(t.snapshots, id, t.workloads[id].content.claim)
    requires ResolveFrom(c, t, t.workloads[id].content, bindings) == Ok(r)
    ensures CoherentBut(c, u, stale - {id}) && Ledger(u)
  {
    var w := t.workloads[id];
    if r != w.effective {
      NextIsFree(t, id);
      ResolveKeeps(c, t, w.content, bindings);
      PlacedKeeps(c, t, u, id, w.(generation := w.generation + 1, effective := r), true, x, stale);
    }
  }

  lemma RepropagateKeeps(c: Catalog, t: Tables, u: Tables, id: nat, x: nat, stale: set<nat>)
    requires CoherentBut(c, t, stale) && Ledger(t) && Revised(t) && Repropagate(c, t, id, x) == Ok(u)
    ensures CoherentBut(c, u, stale - {id}) && Ledger(u)
    ensures u == t.(workloads := u.workloads, snapshots := u.snapshots) && Extends(t, u) && SameObjects(t, u)
  {
    var bindings := LatestBindings(t.snapshots, id, t.workloads[id].content.claim);
    var r := ResolveFrom(c, t, t.workloads[id].content, bindings).value;
    AdvanceKeeps(c, t, u, id, r, bindings, x, stale);
    AdvanceFrame(t, u, id, r, x);
  }

  lemma {:induction false} PropagateKeeps(c: Catalog, t: Tables, u: Tables, ids: seq<nat>, draw: nat -> nat,
                                          stale: set<nat>)
    requires CoherentBut(c, t, stale) && Ledger(t) && Revised(t) && Propagate(c, t, ids, draw) == Ok(u)
    requires forall id :: id in stale ==> id in ids
    ensures CoherentBut(c, u, {}) && Ledger(u) && Revised(u) && Extends(t, u) && SameObjects(t, u)
    decreases |ids|
  {
    if ids != [] {
      var m := Repropagate(c, t, ids[0], draw(ids[0])).value;
      RepropagateKeeps(c, t, m, ids[0], draw(ids[0]), stale);
      PropagateKeeps(c, m, u, ids[1..], draw, stale - {ids[0]});
    }
  }

  lemma {:induction false} SelectedHolds(t: Tables, rows: seq<nat>, wanted: Content -> bool, id: nat)
    ensures id in Selected(t, rows, wanted) <==> id in rows && id in t.workloads && wanted(t.workloads[id].content)
  {
    if rows != [] { SelectedHolds(t, rows[1..], wanted, id); }
  }

  /** The rows list every workload. */
  predicate Lists(t: Tables, rows: seq<nat>) { forall id :: id in t.workloads ==> id in rows }

  /** A source object changes and the workloads that use it are propagated to. */
  lemma FanOutKeeps(c: Catalog, t: Tables, m: Tables, u: Tables, wanted: Content -> bool, env: Env)
    requires Inv(c, t) && Lists(t, env.rows) && Revised(m)
    requires m == t.(pools := m.pools, wallets := m.wallets, profiles := m.profiles, settings := m.settings)
    requires forall id :: id in t.workloads && !wanted(t.workloads[id].content) ==>
               SameSources(t, m, t.workloads[id].content)
    requires Propagate(c, m, Selected(t, env.rows, wanted), env.draw) == Ok(u)
    ensures Inv(c, u) && Extends(t, u)
  {
    var ids := Selected(t, env.rows, wanted);
    var stale := set id | id in t.workloads && wanted(t.workloads[id].content);
    forall id | id in stale ensures id in ids { SelectedHolds(t, env.rows, wanted, id); }
    forall id | id in m.workloads && id !in stale
      ensures ResolveWorkload(c, m, id, m.workloads[id].content) == Ok(m.workloads[id].effective) {
      ResolveFrame(c, t, m, id, t.workloads[id].content);
    }
    SameLedgerTables(t, m);
    PropagateKeeps(c, m, u, ids, env.draw, stale);
  }

  /** The ledger speaks of workloads and snapshots alone. */
  lemma SameLedgerTables(t: Tables, u: Tables)
    requires Ledger(t) && u.workloads == t.workloads && u.snapshots == t.snapshots
    ensures Ledger(u)
  {
    forall k | k in u.snapshots ensures SnapshotFits(u, k) { assert SnapshotFits(t, k); }
    forall id | id in u.workloads ensures WorkloadFits(u, id) { assert WorkloadFits(t, id); }
  }
}
