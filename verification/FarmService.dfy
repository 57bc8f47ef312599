/** The store's service: each method is one transaction, all or nothing. */
module FarmService {
  import opened Common
  import opened FarmModel
  import opened FarmTables

  ghost predicate Committed(o: Outcome<Tables>, before: Tables, after: Tables, r: Option<Code>) {
    match o
    case Ok(u) => r == None && after == u
    case Err(code) => r == Some(code) && after == before
  }

  class Service {
    const catalog: Catalog
    var db: Tables

    constructor (c: Catalog)
      ensures catalog == c && db == Tables(map[], map[], map[], map[], map[], map[], map[])
    {
      catalog, db := c, Tables(map[], map[], map[], map[], map[], map[], map[]);
    }

    /** latestGPUAssignments: the bindings of the newest snapshot, found by a scan. */
    method LatestAssignments(tx: Tables, id: nat, claim: Claim) returns (r: map<nat, Binding>)
      ensures r == LatestBindings(tx.snapshots, id, claim)
    {
      if claim.devices == {} { return map[]; }
      var newest: Option<nat> := None;
      var todo := tx.snapshots.Keys;
      while todo != {}
        invariant todo <= tx.snapshots.Keys
        invariant newest.Some? ==> (id, newest.value) in tx.snapshots
        invariant forall k :: k in tx.snapshots && k !in todo && k.0 == id ==> newest.Some? && k.1 <= newest.value
        decreases |todo|
      {
        var k :| k in todo;
        if k.0 == id && (newest.None? || newest.value < k.1) { newest := Some(k.1); }
        todo := todo - {k};
      }
      if newest.None? { return map[]; }
      assert Newest(tx.snapshots, id, newest.value);
      assert forall g :: Newest(tx.snapshots, id, g) ==> g == newest.value by {
        forall g | Newest(tx.snapshots, id, g) ensures g == newest.value { assert (id, g) in tx.snapshots; }
      }
      var s := tx.snapshots[(id, newest.value)];
      r := if s.claim.devices != claim.devices then map[] else s.plan.bindings;
    }

    method ResolveRow(tx: Tables, id: nat, w: Content) returns (r: Outcome<Runtime>)
      ensures r == ResolveWorkload(catalog, tx, id, w)
    {
      var bindings := LatestAssignments(tx, id, w.claim);
      r := ResolveFrom(catalog, tx, w, bindings);
    }

    method SelectWorkloads(tx: Tables, rows: seq<nat>, wanted: Content -> bool) returns (ids: seq<nat>)
      ensures ids == Selected(tx, rows, wanted)
    {
      ids := [];
      for i := 0 to |rows|
        invariant ids + Selected(tx, rows[i..], wanted) == Selected(tx, rows, wanted)
      {
        if rows[i] in tx.workloads && wanted(tx.workloads[rows[i]].content) { ids := ids + [rows[i]]; }
      }
    }

    method AdvanceRow(tx: Tables, id: nat, r: Runtime, x: nat) returns (o: Outcome<Tables>)
      requires id in tx.workloads && HasSources(tx, tx.workloads[id].content)
      ensures o == Advance(tx, id, r, x)
    {
      var w := tx.workloads[id];
      if r == w.effective { return Ok(tx); }
      w := w.(generation := w.generation + 1, effective := r);
      var moved := tx.(workloads := tx.workloads[id := w]);
      if w.content.running && w.content.claim.devices == {} {
        o := CreateSnapshot(moved, id, w.content, r, w.generation, x);
      } else {
        o := Ok(moved);
      }
    }

    /** propagateWorkloadIDs. */
    method PropagateWorkloads(before: Tables, ids: seq<nat>, draw: nat -> nat) returns (o: Outcome<Tables>)
      ensures o == Propagate(catalog, before, ids, draw)
    {
      var tx := before;
      for i := 0 to |ids|
        invariant Propagate(catalog, before, ids, draw) == Propagate(catalog, tx, ids[i..], draw)
      {
        var id := ids[i];
        if id !in tx.workloads { return Err(NotFound); }
        var r := ResolveRow(tx, id, tx.workloads[id].content);
        if r.Err? { return Err(r.code); }
        var moved := AdvanceRow(tx, id, r.value, draw(id));
        if moved.Err? { return moved; }
        tx := moved.value;
      }
      o := Ok(tx);
    }

    /** checkResourceConflict, with `id` excluded. */
    method ResourceConflict(tx: Tables, id: nat, w: Content) returns (found: bool)
      ensures found <==> Conflicts(tx, id, w)
    {
      if !w.running { return false; }
      var todo := tx.workloads.Keys;
      while todo != {}
        invariant todo <= tx.workloads.Keys
        invariant forall v :: v in tx.workloads && v !in todo && v != id ==> !Clash(w, tx.workloads[v].content)
        decreases |todo|
      {
        var v :| v in todo;
        if v != id && Clash(w, tx.workloads[v].content) { return true; }
        todo := todo - {v};
      }
      return false;
    }

    /** Commit or roll back. */
    method Finish(o: Outcome<Tables>) returns (r: Option<Code>)
      modifies this
      ensures Committed(o, old(db), db, r)
    {
      if o.Err? { return Some(o.code); }
      db := o.value;
      return None;
    }

    method UpdatePool(id: nat, revision: nat, pool: Pool, env: Env) returns (r: Option<Code>)
      modifies this
      ensures Committed(Step(catalog, old(db), Op.UpdatePool(id, revision, pool), env), old(db), db, r)
    {
      if id !in db.pools { return Some(NotFound); }
      if db.pools[id].revision != revision { return Some(RevisionConflict); }
      if db.pools[id].content == pool { return None; }
      var tx := db.(pools := db.pools[id := Row(revision + 1, pool)]);
      var ids := SelectWorkloads(db, env.rows, UsesPool(db, id));
      var o := PropagateWorkloads(tx, ids, env.draw);
      r := Finish(o);
    }

    method UpdateWallet(id: nat, revision: nat, wallet: Wallet, env: Env) returns (r: Option<Code>)
      modifies this
      ensures Committed(Step(catalog, old(db), Op.UpdateWallet(id, revision, wallet), env), old(db), db, r)
    {
      if id !in db.wallets { return Some(NotFound); }
      if db.wallets[id].revision != revision { return Some(RevisionConflict); }
      if db.wallets[id].content == wallet { return None; }
      var tx := db.(wallets := db.wallets[id := Row(revision + 1, wallet)]);
      var ids := SelectWorkloads(db, env.rows, UsesWallet(db, id));
      var o := PropagateWorkloads(tx, ids, env.draw);
      r := Finish(o);
    }

    method UpdateProfile(id: nat, revision: nat, profile: Profile, env: Env) returns (r: Option<Code>)
      modifies this
      ensures Committed(Step(catalog, old(db), Op.UpdateProfile(id, revision, profile), env), old(db), db, r)
    {
      var invalid := ProfileError(catalog, profile);
      if invalid.Some? { return invalid; }
      if id !in db.profiles { return Some(NotFound); }
      if db.profiles[id].revision != revision { return Some(RevisionConflict); }
      if db.profiles[id].content == profile { return None; }
      if profile.pool !in db.pools || profile.wallet !in db.wallets { return Some(InvalidReference); }
      var tx := db.(profiles := db.profiles[id := Row(revision + 1, profile)]);
      var ids := SelectWorkloads(db, env.rows, UsesProfile(id));
      var o := PropagateWorkloads(tx, ids, env.draw);
      r := Finish(o);
    }

    method CreateSettings(host: nat, id: nat, tuning: Tuning, env: Env) returns (r: Option<Code>)
      modifies this
      ensures Committed(Step(catalog, old(db), Op.CreateSettings(host, id, tuning), env), old(db), db, r)
    {
      if !ValidSettings(tuning) { return Some(ConfigConflict); }
      var invalid := SettingsError(catalog, db, id, tuning);
      if invalid.Some? { return invalid; }
      if (host, id) in db.settings { return Some(AlreadyExists); }
      var tx := db.(settings := db.settings[(host, id) := Row(1, tuning)]);
      var ids := SelectWorkloads(db, env.rows, UsesSettings(host, id));
      var o := PropagateWorkloads(tx, ids, env.draw);
      r := Finish(o);
    }

    method UpdateSettings(host: nat, id: nat, revision: nat, tuning: Tuning, env: Env) returns (r: Option<Code>)
      modifies this
      ensures Committed(Step(catalog, old(db), Op.UpdateSettings(host, id, revision, tuning), env), old(db), db, r)
    {
      if !ValidSettings(tuning) { return Some(ConfigConflict); }
      if (host, id) !in db.settings { return Some(NotFound); }
      if db.settings[(host, id)].revision != revision { return Some(RevisionConflict); }
      var invalid := SettingsError(catalog, db, id, tuning);
      if invalid.Some? { return invalid; }
      if db.settings[(host, id)].content == tuning { return None; }
      var tx := db.(settings := db.settings[(host, id) := Row(revision + 1, tuning)]);
      var ids := SelectWorkloads(db, env.rows, UsesSettings(host, id));
      var o := PropagateWorkloads(tx, ids, env.draw);
      r := Finish(o);
    }

    method DeleteSettings(host: nat, id: nat, revision: nat, env: Env) returns (r: Option<Code>)
      modifies this
      ensures Committed(Step(catalog, old(db), Op.DeleteSettings(host, id, revision), env), old(db), db, r)
    {
      if (host, id) !in db.settings { return Some(NotFound); }
      if db.settings[(host, id)].revision != revision { return Some(RevisionConflict); }
      var tx := db.(settings := db.settings - {(host, id)});
      var ids := SelectWorkloads(db, env.rows, UsesSettings(host, id));
      var o := PropagateWorkloads(tx, ids, env.draw);
      r := Finish(o);
    }

    method CreateWorkload(id: nat, w: Content, env: Env) returns (r: Option<Code>)
      modifies this
      ensures Committed(Step(catalog, old(db), Op.CreateWorkload(id, w), env), old(db), db, r)
    {
      if !w.claim.cpu && w.claim.devices == {} { return Some(ConfigConflict); }
      if id in db.workloads { return Some(AlreadyExists); }
      var clash := ResourceConflict(db, id, w);
      if clash { return Some(ConfigConflict); }
      var resolved := ResolveRow(db, id, w);
      if resolved.Err? { return Some(resolved.code); }
      var o := Placed(db, id, Workload(1, w, 1, resolved.value), true, env.draw(id));
      r := Finish(o);
    }

    method UpdateWorkload(id: nat, revision: nat, w: Content, env: Env) returns (r: Option<Code>)
      modifies this
      ensures Committed(Step(catalog, old(db), Op.UpdateWorkload(id, revision, w), env), old(db), db, r)
    {
      if !w.claim.cpu && w.claim.devices == {} { return Some(ConfigConflict); }
      if id !in db.workloads { return Some(NotFound); }
      var before := db.workloads[id];
      if before.revision != revision { return Some(RevisionConflict); }
      if w.host != before.content.host { return Some(ConfigConflict); }
      if before.content == w { return None; }
      var clash := ResourceConflict(db, id, w);
      if clash { return Some(ConfigConflict); }
      var resolved := ResolveRow(db, id, w);
      if resolved.Err? { return Some(resolved.code); }
      var moved := resolved.value != before.effective;
      var row := Workload(before.revision + 1, w, if moved then before.generation + 1 else before.generation,
                          resolved.value);
      var o := Placed(db, id, row, moved, env.draw(id));
      r := Finish(o);
    }

    method RetryWorkload(id: nat, revision: nat, env: Env) returns (r: Option<Code>)
      modifies this
      ensures Committed(Step(catalog, old(db), Op.Retry(id, revision), env), old(db), db, r)
    {
      if id !in db.workloads { return Some(NotFound); }
      var w := db.workloads[id];
      if w.revision != revision { return Some(RevisionConflict); }
      if !w.content.running || id !in db.blocked || db.blocked[id] != w.generation { return Some(ConfigConflict); }
      if (id, w.generation) !in db.snapshots { return Some(NotFound); }
      if exists k :: k in db.snapshots && db.snapshots[k].execution == env.draw(id) { return Some(AlreadyExists); }
      w := w.(revision := w.revision + 1, generation := w.generation + 1);
      var next := db.snapshots[(id, w.generation - 1)];
      next := next.(generation := w.generation, execution := env.draw(id));
      next := next.(plan := next.plan.(execution := env.draw(id),
                                       owner := next.plan.owner.(generation := w.generation)));
      var o := InsertSnapshot(db, next);
      if o.Err? { return Some(o.code); }
      db := o.value.(workloads := db.workloads[id := w], blocked := db.blocked - {id});
      return None;
    }

    method RefreshSnapshot(id: nat, inventory: Inventory, env: Env) returns (r: Option<Code>)
      modifies this
      ensures Committed(Step(catalog, old(db), Op.Refresh(id, inventory), env), old(db), db, r)
    {
      if id !in db.workloads { return Some(NotFound); }
      var w := db.workloads[id];
      if !w.content.running || w.content.claim.devices == {} { return None; }
      var before := LatestAssignments(db, id, w.content.claim);
      var resolved := ResolveFrom(catalog, db, w.content, before);
      if resolved.Err? { return Some(resolved.code); }
      var validated := Validate(catalog, resolved.value, before, inventory);
      if validated.Err? { return Some(validated.code); }
      if (id, w.generation) in db.snapshots {
        if db.snapshots[(id, w.generation)].hash == validated.value { return None; }
        w := w.(generation := w.generation + 1);
      }
      w := w.(effective := validated.value);
      var o := CreateSnapshot(db.(workloads := db.workloads[id := w]), id, w.content, validated.value, w.generation,
                              env.draw(id));
      r := Finish(o);
    }

    method BlockGeneration(id: nat, generation: nat, env: Env) returns (r: Option<Code>)
      modifies this
      ensures Committed(Step(catalog, old(db), Op.Block(id, generation), env), old(db), db, r)
    {
      if generation < 1 { return Some(ConfigConflict); }
      if id !in db.workloads { return Some(NotFound); }
      if !db.workloads[id].content.running || db.workloads[id].generation != generation { return None; }
      db := db.(blocked := db.blocked[id := generation]);
      return None;
    }

    method DeleteWorkload(id: nat, revision: nat, retired: bool) returns (r: Option<Code>)
      modifies this
      ensures Committed(Deleted(old(db), id, revision, retired), old(db), db, r)
    {
      if id !in db.workloads { return Some(NotFound); }
      if db.workloads[id].revision != revision { return Some(RevisionConflict); }
      if db.workloads[id].content.running { return Some(ReferenceInUse); }
      if !retired && exists k :: k in db.snapshots && k.0 == id { return Some(ReferenceInUse); }
      db := db.(workloads := db.workloads - {id}, blocked := db.blocked - {id});
      return None;
    }
  }
}
