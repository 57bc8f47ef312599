/**
 What the transactions bring about, told from the tables alone: what each stores, when a
 workload is refused, and that what runs reflects the objects it was configured from.
 */
module FarmEffects {
  import opened Common
  import opened FarmModel
  import opened FarmTables
  import opened FarmResolution
  import opened FarmCoherence
  import opened FarmRuns

  // ---- what runs reflects what is configured -----------------------------------------

  /** The stored runtime of `id` is what its workload, profile, override, pool and wallet say. */
  predicate StoredReflects(t: Tables, id: nat)
    requires id in t.workloads
  {
    var w := t.workloads[id].content;
    && w.profile in t.profiles
    && var p := t.profiles[w.profile].content;
       && p.pool in t.pools && p.wallet in t.wallets
       && Reflects(t.workloads[id].effective, w, p,
                   if (w.host, w.profile) in t.settings then Some(t.settings[(w.host, w.profile)].content) else None,
                   t.pools[p.pool].content, t.wallets[p.wallet].content)
  }

  lemma StoredIsResolved(c: Catalog, t: Tables)
    requires CoherentBut(c, t, {})
    ensures forall id :: id in t.workloads ==> StoredReflects(t, id)
  {
    forall id | id in t.workloads ensures StoredReflects(t, id) {
      SourcesExist(c, t, id);
      var w := t.workloads[id].content;
      var p := t.profiles[w.profile].content;
      ResolvedReflects(c, w, p, SettingsOf(t, w), t.pools[p.pool].content, t.wallets[p.wallet].content,
                       t.workloads[id].effective.bindings);
    }
  }

  /** After every run from the empty database. */
  lemma RunsReflectSources(c: Catalog, calls: seq<Call>)
    requires FairRun(c, Empty, calls)
    ensures var t := Run(c, Empty, calls); forall id :: id in t.workloads ==> StoredReflects(t, id)
  {
    RunsFromEmpty(c, calls);
    StoredIsResolved(c, Run(c, Empty, calls));
  }

  /** A running workload's snapshot of its current generation, if there is one, is what Reflects says too. */
  predicate SnapshotReflects(t: Tables, id: nat)
    requires id in t.workloads && (id, t.workloads[id].generation) in t.snapshots
  {
    var s, r := t.snapshots[(id, t.workloads[id].generation)], t.workloads[id].effective;
    && s.plan.endpoint == r.endpoint && s.plan.tuning == r.tuning && s.plan.adapter == r.adapter
    && s.plan.package == s.package == r.package && s.plan.coin == r.coin && s.plan.algorithm == r.algorithm
    && s.plan.devices == s.claim.devices == r.claim.devices && s.claim == r.claim && s.plan.bindings == r.bindings
    && s.plan.host == s.host == r.host && s.plan.profile == s.profile == r.profile && r.running
    && s.plan.execution == s.execution && s.plan.pool == s.pool && s.plan.wallet == s.wallet
    && s.plan.owner.workload == s.workload == id && s.plan.owner.generation == s.generation
    && s.generation == t.workloads[id].generation && s.plan.owner.hash == s.hash == r
    && s.plan.owner.host == s.host && s.plan.owner.claim == s.claim
  }

  lemma CurrentSnapshotReflects(t: Tables, id: nat)
    requires Ledger(t) && id in t.workloads && (id, t.workloads[id].generation) in t.snapshots
    ensures SnapshotReflects(t, id)
  {
    var k := (id, t.workloads[id].generation);
    assert SnapshotFits(t, k) && WorkloadFits(t, id);
    assert PlanContent(t.snapshots[k]) == t.workloads[id].effective;
  }

  /** The claims of RUNNING workloads of a Host do not meet. */
  lemma ClaimsAreApart(t: Tables, a: nat, b: nat)
    requires Exclusive(t) && a in t.workloads && b in t.workloads && a != b
    requires t.workloads[a].content.running && t.workloads[b].content.running
    requires t.workloads[a].content.host == t.workloads[b].content.host
    ensures var x, y := t.workloads[a].content.claim, t.workloads[b].content.claim;
            !(x.cpu && y.cpu) && forall d :: d in x.devices ==> d !in y.devices
  {
    var x, y := t.workloads[a].content, t.workloads[b].content;
    assert !Clash(x, y);
    forall d | d in x.claim.devices ensures d !in y.claim.devices {
      assert d in y.claim.devices ==> d in x.claim.devices * y.claim.devices;
    }
  }

  // ---- fan-out ------------------------------------------------------------------------

  /** Pool, wallet and the revisions everything was resolved from. */
  predicate NamesSources(t: Tables, w: Content, s: Snapshot) {
    && w.profile in t.profiles
    && var p := t.profiles[w.profile];
       && p.content.pool in t.pools && p.content.wallet in t.wallets
       && s.pool == p.content.pool && s.wallet == p.content.wallet
       && s.revisions.profile == p.revision
       && s.revisions.pool == t.pools[p.content.pool].revision
       && s.revisions.wallet == t.wallets[p.content.wallet].revision
       && s.revisions.settings
          == if (w.host, w.profile) in t.settings then t.settings[(w.host, w.profile)].revision else 0
  }

  /** Every snapshot `u` has and `t` has not names the sources there and bears a drawn ID. */
  predicate NewSnapshotsNameSources(t: Tables, u: Tables, draw: nat -> nat) {
    forall k :: k in u.snapshots && k !in t.snapshots ==>
      k.0 in u.workloads && NamesSources(u, u.workloads[k.0].content, u.snapshots[k])
      && u.snapshots[k].execution == draw(k.0)
  }

  /** A workload moves to the next generation with its runtime, and nothing else of it changes. */
  predicate MovedAlone(w: Workload, v: Workload) {
    v == if v.effective == w.effective then w else w.(generation := w.generation + 1, effective := v.effective)
  }

  predicate DistinctIds(ids: seq<nat>) { forall i, j :: 0 <= i < j < |ids| ==> ids[i] != ids[j] }

  lemma PlacedNames(t: Tables, u: Tables, id: nat, row: Workload, moved: bool, x: nat, draw: nat -> nat)
    requires HasSources(t, row.content) && Placed(t, id, row, moved, x) == Ok(u) && x == draw(id)
    ensures NewSnapshotsNameSources(t, u, draw)
    ensures u == t.(workloads := t.workloads[id := row], snapshots := u.snapshots)
    ensures forall k :: k in t.snapshots ==> k in u.snapshots && u.snapshots[k] == t.snapshots[k]
    ensures forall k :: k in u.snapshots && k !in t.snapshots ==>
              k == (id, row.generation) && moved && row.content.running && row.content.claim.devices == {}
  {
  }

  predicate SnapshotsStay(t: Tables, u: Tables) {
    forall k :: k in t.snapshots ==> k in u.snapshots && u.snapshots[k] == t.snapshots[k]
  }

  /** The workloads among `ids` moved on at most, the others not at all. */
  predicate OnlyMoved(t: Tables, u: Tables, ids: seq<nat>) {
    && u.workloads.Keys == t.workloads.Keys
    && (forall v :: v in t.workloads ==> MovedAlone(t.workloads[v], u.workloads[v]))
    && (forall v :: v in t.workloads && v !in ids ==> u.workloads[v] == t.workloads[v])
  }

  predicate FannedOut(t: Tables, u: Tables, ids: seq<nat>, draw: nat -> nat) {
    && u == t.(workloads := u.workloads, snapshots := u.snapshots)
    && OnlyMoved(t, u, ids) && SnapshotsStay(t, u) && NewSnapshotsNameSources(t, u, draw)
  }

  lemma NothingFanned(t: Tables, ids: seq<nat>, draw: nat -> nat)
    ensures FannedOut(t, t, ids, draw)
  {
  }

  /** A row moves on, with a snapshot or without. */
  lemma MoveIs(t: Tables, u: Tables, id: nat, r: Runtime, draw: nat -> nat)
    requires id in t.workloads && HasSources(t, t.workloads[id].content) && r != t.workloads[id].effective
    requires var w := t.workloads[id];
             Placed(t, id, w.(generation := w.generation + 1, effective := r), true, draw(id)) == Ok(u)
    ensures FannedOut(t, u, [id], draw)
  {
    var w := t.workloads[id];
    PlacedNames(t, u, id, w.(generation := w.generation + 1, effective := r), true, draw(id), draw);
  }

  lemma TurnIs(c: Catalog, t: Tables, u: Tables, id: nat, draw: nat -> nat)
    requires Repropagate(c, t, id, draw(id)) == Ok(u)
    ensures FannedOut(t, u, [id], draw)
  {
    var w := t.workloads[id];
    var r := ResolveWorkload(c, t, id, w.content).value;
    ResolveKeeps(c, t, w.content, LatestBindings(t.snapshots, id, w.content.claim));
    if r != w.effective { MoveIs(t, u, id, r, draw); } else { NothingFanned(t, [id], draw); }
  }

  lemma NamesThrough(t: Tables, m: Tables, u: Tables, ids: seq<nat>, draw: nat -> nat)
    requires FannedOut(m, u, ids, draw) && NewSnapshotsNameSources(t, m, draw)
    ensures NewSnapshotsNameSources(t, u, draw)
  {
    forall k | k in u.snapshots && k !in t.snapshots
      ensures k.0 in u.workloads && NamesSources(u, u.workloads[k.0].content, u.snapshots[k])
              && u.snapshots[k].execution == draw(k.0)
    {
      if k in m.snapshots { assert MovedAlone(m.workloads[k.0], u.workloads[k.0]); }
    }
  }

  lemma MovedThrough(t: Tables, m: Tables, u: Tables, id: nat, ids: seq<nat>)
    requires OnlyMoved(t, m, [id]) && OnlyMoved(m, u, ids) && id !in ids
    ensures OnlyMoved(t, u, [id] + ids)
  {
    forall v | v in t.workloads ensures MovedAlone(t.workloads[v], u.workloads[v]) {
      assert MovedAlone(t.workloads[v], m.workloads[v]) && MovedAlone(m.workloads[v], u.workloads[v]);
    }
  }

  lemma FannedThrough(t: Tables, m: Tables, u: Tables, id: nat, ids: seq<nat>, draw: nat -> nat)
    requires FannedOut(t, m, [id], draw) && FannedOut(m, u, ids, draw) && id !in ids
    ensures FannedOut(t, u, [id] + ids, draw)
  {
    NamesThrough(t, m, u, ids, draw);
    MovedThrough(t, m, u, id, ids);
  }

  lemma FannedCons(t: Tables, m: Tables, u: Tables, ids: seq<nat>, draw: nat -> nat)
    requires ids != [] && DistinctIds(ids) && FannedOut(t, m, [ids[0]], draw) && FannedOut(m, u, ids[1..], draw)
    ensures FannedOut(t, u, ids, draw)
  {
    FannedThrough(t, m, u, ids[0], ids[1..], draw);
    assert [ids[0]] + ids[1..] == ids;
  }

  /**
   Fan-out moves workloads to new generations exactly with their runtimes, and tells new
   snapshots where they are from.
   */
  lemma {:induction false} PropagationIs(c: Catalog, t: Tables, u: Tables, ids: seq<nat>, draw: nat -> nat)
    requires Propagate(c, t, ids, draw) == Ok(u) && DistinctIds(ids)
    ensures FannedOut(t, u, ids, draw)
    decreases |ids|
  {
    if ids == [] {
      NothingFanned(t, ids, draw);
    } else {
      var m := Repropagate(c, t, ids[0], draw(ids[0])).value;
      TurnIs(c, t, m, ids[0], draw);
      PropagationIs(c, m, u, ids[1..], draw);
      FannedCons(t, m, u, ids, draw);
    }
  }

  lemma {:induction false} SelectedDistinct(t: Tables, rows: seq<nat>, wanted: Content -> bool)
    requires DistinctIds(rows)
    ensures DistinctIds(Selected(t, rows, wanted)) && forall id :: id in Selected(t, rows, wanted) ==> id in rows
    decreases |rows|
  {
    if rows != [] {
      SelectedDistinct(t, rows[1..], wanted);
      assert rows[0] !in rows[1..];
    }
  }

  // ---- pools, wallets, profiles and overrides ---------------------------------------------

  /** The row goes on to the next revision when its content changes. */
  predicate Replaced<T(==)>(m: map<nat, Row<T>>, n: map<nat, Row<T>>, id: nat, revision: nat, content: T) {
    && id in m && m[id].revision == revision
    && n == m[id := Row(if content == m[id].content then revision else revision + 1, content)]
  }

  predicate Unused(t: Tables, op: Op) {
    match op
    case DeletePool(id, _) => forall p :: p in t.profiles ==> t.profiles[p].content.pool != id
    case DeleteWallet(id, _) => forall p :: p in t.profiles ==> t.profiles[p].content.wallet != id
    case DeleteProfile(id, _) =>
      && (forall w :: w in t.workloads ==> t.workloads[w].content.profile != id)
      && (forall k :: k in t.settings ==> k.1 != id)
    case _ => true
  }

  /**
   The profile names a release that has its adapter and supports what it tunes, and a pool
   and a wallet that are there.
   */
  predicate Sensible(c: Catalog, t: Tables, p: Profile) {
    && p.tuning.threads != Some(0) && p.package in c && p.adapter in c[p.package].adapters
    && AskedOnly(p.tuning, None, c[p.package].tuning.threads, c[p.package].tuning.hugePages, c[p.package].tuning.msr)
    && p.pool in t.pools && p.wallet in t.wallets
  }

  /** The override sets something, and nothing that the profile's release does not support. */
  predicate SensibleFor(c: Catalog, t: Tables, id: nat, s: Tuning) {
    && s.threads != Some(0) && (s.threads.Some? || s.hugePages.Some? || s.msr.Some?)
    && id in t.profiles
    && var p := t.profiles[id].content;
       && p.package in c && p.adapter in c[p.package].adapters
       && AskedOnly(s, None, c[p.package].tuning.threads, c[p.package].tuning.hugePages, c[p.package].tuning.msr)
  }

  /** A creation succeeds exactly if the ID is free and what it refers to is there, and stores a first revision. */
  lemma CreatesExactlyWhen(c: Catalog, t: Tables, op: Op, env: Env)
    ensures op.CreatePool? ==>
              Step(c, t, op, env) ==
              if op.id in t.pools then Err(AlreadyExists) else Ok(t.(pools := t.pools[op.id := Row(1, op.pool)]))
    ensures op.CreateWallet? ==>
              Step(c, t, op, env) ==
              if op.id in t.wallets then Err(AlreadyExists)
              else Ok(t.(wallets := t.wallets[op.id := Row(1, op.wallet)]))
    ensures op.CreateProfile? ==>
              && (Step(c, t, op, env).Ok? <==> Sensible(c, t, op.profile) && op.id !in t.profiles)
              && (Step(c, t, op, env).Ok? ==>
                    Step(c, t, op, env).value == t.(profiles := t.profiles[op.id := Row(1, op.profile)]))
  {
  }

  /** A deletion succeeds exactly under the current revision of an object that nothing refers to. */
  lemma DeletesExactlyWhen(c: Catalog, t: Tables, op: Op, env: Env)
    ensures op.DeletePool? ==>
              && (Step(c, t, op, env).Ok? <==>
                    op.id in t.pools && t.pools[op.id].revision == op.revision && Unused(t, op))
              && (Step(c, t, op, env).Ok? ==> Step(c, t, op, env).value == t.(pools := t.pools - {op.id}))
    ensures op.DeleteWallet? ==>
              && (Step(c, t, op, env).Ok? <==>
                    op.id in t.wallets && t.wallets[op.id].revision == op.revision && Unused(t, op))
              && (Step(c, t, op, env).Ok? ==> Step(c, t, op, env).value == t.(wallets := t.wallets - {op.id}))
    ensures op.DeleteProfile? ==>
              && (Step(c, t, op, env).Ok? <==>
                    op.id in t.profiles && t.profiles[op.id].revision == op.revision && Unused(t, op))
              && (Step(c, t, op, env).Ok? ==> Step(c, t, op, env).value == t.(profiles := t.profiles - {op.id}))
  {
  }

  /** What a committed change of an object stores, and under which conditions alone it is committed. */
  predicate ObjectStored(c: Catalog, t: Tables, u: Tables, op: Op) {
    match op
    case UpdatePool(id, revision, pool) =>
      Replaced(t.pools, u.pools, id, revision, pool)
      && u == t.(pools := u.pools, workloads := u.workloads, snapshots := u.snapshots)
    case UpdateWallet(id, revision, wallet) =>
      Replaced(t.wallets, u.wallets, id, revision, wallet)
      && u == t.(wallets := u.wallets, workloads := u.workloads, snapshots := u.snapshots)
    case UpdateProfile(id, revision, profile) =>
      Replaced(t.profiles, u.profiles, id, revision, profile)
      && (profile != t.profiles[id].content ==> Sensible(c, t, profile))
      && u == t.(profiles := u.profiles, workloads := u.workloads, snapshots := u.snapshots)
    case CreateSettings(host, id, tuning) =>
      (host, id) !in t.settings && SensibleFor(c, t, id, tuning)
      && u == t.(settings := t.settings[(host, id) := Row(1, tuning)], workloads := u.workloads,
                 snapshots := u.snapshots)
    case UpdateSettings(host, id, revision, tuning) =>
      (host, id) in t.settings && t.settings[(host, id)].revision == revision && SensibleFor(c, t, id, tuning)
      && u.settings == t.settings[(host, id) :=
                       Row(if tuning == t.settings[(host, id)].content then revision else revision + 1, tuning)]
      && u == t.(settings := u.settings, workloads := u.workloads, snapshots := u.snapshots)
    case DeleteSettings(host, id, revision) =>
      (host, id) in t.settings && t.settings[(host, id)].revision == revision
      && u == t.(settings := t.settings - {(host, id)}, workloads := u.workloads, snapshots := u.snapshots)
    case _ => true
  }

  /** An update that asks for what is there. */
  predicate NothingNew(t: Tables, op: Op) {
    match op
    case UpdatePool(id, _, pool) => id in t.pools && pool == t.pools[id].content
    case UpdateWallet(id, _, wallet) => id in t.wallets && wallet == t.wallets[id].content
    case UpdateProfile(id, _, profile) => id in t.profiles && profile == t.profiles[id].content
    case UpdateSettings(host, id, _, tuning) => (host, id) in t.settings && tuning == t.settings[(host, id)].content
    case _ => false
  }

  lemma ChangeIs(c: Catalog, t: Tables, u: Tables, op: Op, env: Env)
    requires FansOut(op) && Step(c, t, op, env) == Ok(u)
    ensures if NothingNew(t, op) then u == t
            else Propagate(c, Changed(t, op), Selected(t, env.rows, Users(t, op)), env.draw) == Ok(u)
  {
  }

  lemma ChangeStores(c: Catalog, t: Tables, u: Tables, op: Op, env: Env)
    requires FansOut(op) && Step(c, t, op, env) == Ok(u)
    ensures ObjectStored(c, t, if NothingNew(t, op) then t else Changed(t, op), op)
  {
  }

  lemma FannedFrom(t: Tables, m: Tables, u: Tables, ids: seq<nat>, rows: seq<nat>, draw: nat -> nat)
    requires FannedOut(m, u, ids, draw) && forall id :: id in ids ==> id in rows
    requires m.workloads == t.workloads && m.snapshots == t.snapshots
    ensures OnlyMoved(t, u, rows) && SnapshotsStay(t, u) && NewSnapshotsNameSources(t, u, draw)
  {
  }

  /** Every committed change stores what was asked for and moves workloads only with their runtimes. */
  lemma ChangeIsStored(c: Catalog, t: Tables, u: Tables, op: Op, env: Env)
    requires FansOut(op) && Step(c, t, op, env) == Ok(u) && DistinctIds(env.rows)
    ensures ObjectStored(c, t, u, op)
    ensures OnlyMoved(t, u, env.rows) && SnapshotsStay(t, u) && NewSnapshotsNameSources(t, u, env.draw)
  {
    ChangeIs(c, t, u, op, env);
    ChangeStores(c, t, u, op, env);
    if !NothingNew(t, op) {
      var m, ids := Changed(t, op), Selected(t, env.rows, Users(t, op));
      SelectedDistinct(t, env.rows, Users(t, op));
      PropagationIs(c, m, u, ids, env.draw);
      ChangedRest(t, op);
      FannedFrom(t, m, u, ids, env.rows, env.draw);
      StoredThrough(c, t, m, u, op);
    }
  }

  lemma ChangedRest(t: Tables, op: Op)
    ensures Changed(t, op).workloads == t.workloads && Changed(t, op).snapshots == t.snapshots
  {
  }

  lemma StoredThrough(c: Catalog, t: Tables, m: Tables, u: Tables, op: Op)
    requires ObjectStored(c, t, m, op) && u == m.(workloads := u.workloads, snapshots := u.snapshots)
    ensures ObjectStored(c, t, u, op)
  {
  }

  lemma {:induction false} PropagationKeepsObjects(c: Catalog, t: Tables, u: Tables, ids: seq<nat>, draw: nat -> nat)
    requires Propagate(c, t, ids, draw) == Ok(u)
    ensures SameObjects(t, u)
    decreases |ids|
  {
    if ids != [] {
      var m := Repropagate(c, t, ids[0], draw(ids[0])).value;
      TurnIs(c, t, m, ids[0], draw);
      PropagationKeepsObjects(c, m, u, ids[1..], draw);
    }
  }

  /** The override is there, and the profile as it was. */
  lemma SettingsStored(c: Catalog, t: Tables, u: Tables, op: Op, env: Env)
    requires op.CreateSettings? || op.UpdateSettings?
    requires Step(c, t, op, env) == Ok(u)
    ensures (op.host, op.id) in u.settings && u.settings[(op.host, op.id)].content == op.tuning
  {
    ChangeIs(c, t, u, op, env);
    ChangeStores(c, t, u, op, env);
    if !NothingNew(t, op) {
      PropagationKeepsObjects(c, Changed(t, op), u, Selected(t, env.rows, Users(t, op)), env.draw);
    }
  }

  /** The override's fields, and the profile's where it has none, are what every workload it is for runs with. */
  lemma SettingsTakeEffect(c: Catalog, calls: seq<Call>, op: Op, env: Env, id: nat)
    requires FairRun(c, Empty, calls) && Fair(c, Run(c, Empty, calls), op, env)
    requires op.CreateSettings? || op.UpdateSettings?
    requires var r := Step(c, Run(c, Empty, calls), op, env);
             r.Ok? && id in r.value.workloads
             && r.value.workloads[id].content.host == op.host && r.value.workloads[id].content.profile == op.id
    ensures var u := Step(c, Run(c, Empty, calls), op, env).value;
            && op.id in u.profiles
            && var profile, runs := u.profiles[op.id].content.tuning, u.workloads[id].effective.tuning;
               && runs.threads == (match op.tuning.threads case Some(n) => Some(n) case None => profile.threads)
               && runs.hugePages == (match op.tuning.hugePages case Some(b) => Some(b) case None => profile.hugePages)
               && runs.msr == (match op.tuning.msr case Some(b) => Some(b) case None => profile.msr)
  {
    var t := Run(c, Empty, calls);
    var u := Step(c, t, op, env).value;
    RunsFromEmpty(c, calls);
    StepKeeps(c, t, u, op, env);
    StoredIsResolved(c, u);
    SettingsStored(c, t, u, op, env);
    assert StoredReflects(u, id);
  }
}
