/** The tables of the Controller database and its transactions, each as one step. */
module FarmTables {
  import opened Common
  import opened FarmModel

  datatype Row<T> = Row(revision: nat, content: T)

  datatype Workload = Workload(revision: nat, content: Content, generation: nat, effective: Runtime)

  datatype Tables = Tables(pools: map<nat, Row<Pool>>, wallets: map<nat, Row<Wallet>>, profiles: map<nat, Row<Profile>>,
                           settings: map<(nat, nat), Row<Tuning>>, workloads: map<nat, Workload>,
                           snapshots: map<(nat, nat), Snapshot>, blocked: map<nat, nat>)

  /** What a transaction takes from outside: the order of rows and the ExecutionIDs it draws. */
  datatype Env = Env(rows: seq<nat>, draw: nat -> nat)

  datatype Op =
    | CreatePool(id: nat, pool: Pool)
    | UpdatePool(id: nat, revision: nat, pool: Pool)
    | DeletePool(id: nat, revision: nat)
    | CreateWallet(id: nat, wallet: Wallet)
    | UpdateWallet(id: nat, revision: nat, wallet: Wallet)
    | DeleteWallet(id: nat, revision: nat)
    | CreateProfile(id: nat, profile: Profile)
    | UpdateProfile(id: nat, revision: nat, profile: Profile)
    | DeleteProfile(id: nat, revision: nat)
    | CreateSettings(host: nat, id: nat, tuning: Tuning)
    | UpdateSettings(host: nat, id: nat, revision: nat, tuning: Tuning)
    | DeleteSettings(host: nat, id: nat, revision: nat)
    | CreateWorkload(id: nat, content: Content)
    | UpdateWorkload(id: nat, revision: nat, content: Content)
    | DeleteWorkload(id: nat, revision: nat)
    | FinalizeDeletion(id: nat, revision: nat)
    | Block(id: nat, generation: nat)
    | Retry(id: nat, revision: nat)
    | Refresh(id: nat, inventory: Inventory)

  // ---- resolving one workload from the tables --------------------------------

  predicate Newest(m: map<(nat, nat), Snapshot>, id: nat, g: nat) {
    (id, g) in m && forall k :: k in m && k.0 == id ==> k.1 <= g
  }

  /** The bindings of the latest snapshot, as long as it claims the same devices. */
  ghost function LatestBindings(m: map<(nat, nat), Snapshot>, id: nat, claim: Claim): map<nat, Binding> {
    if claim.devices == {} || !exists g :: Newest(m, id, g) then map[]
    else
      var g :| Newest(m, id, g);
      if m[(id, g)].claim.devices != claim.devices then map[] else m[(id, g)].plan.bindings
  }

  function SettingsOf(t: Tables, w: Content): Option<Tuning> {
    if (w.host, w.profile) in t.settings then Some(t.settings[(w.host, w.profile)].content) else None
  }

  function ResolveFrom(c: Catalog, t: Tables, w: Content, bindings: map<nat, Binding>): Outcome<Runtime> {
    if w.profile !in t.profiles then Err(InvalidReference)
    else
      var p := t.profiles[w.profile].content;
      if p.pool !in t.pools || p.wallet !in t.wallets then Err(InvalidReference)
      else Resolve(c, w, p, SettingsOf(t, w), t.pools[p.pool].content, t.wallets[p.wallet].content, bindings)
  }

  ghost function ResolveWorkload(c: Catalog, t: Tables, id: nat, w: Content): Outcome<Runtime> {
    ResolveFrom(c, t, w, LatestBindings(t.snapshots, id, w.claim))
  }

  predicate HasSources(t: Tables, w: Content) {
    w.profile in t.profiles && t.profiles[w.profile].content.pool in t.pools
      && t.profiles[w.profile].content.wallet in t.wallets
  }

  function RevisionsOf(t: Tables, w: Content): Provenance
    requires HasSources(t, w)
  {
    var p := t.profiles[w.profile];
    Provenance(p.revision, if (w.host, w.profile) in t.settings then t.settings[(w.host, w.profile)].revision else 0,
               t.pools[p.content.pool].revision, t.wallets[p.content.wallet].revision)
  }

  predicate Drawn(t: Tables, x: nat) { exists k :: k in t.snapshots && t.snapshots[k].execution == x }

  function InsertSnapshot(t: Tables, s: Snapshot): Outcome<Tables> {
    if !ValidSnapshot(s) then Err(ConfigConflict)
    else if (s.workload, s.generation) in t.snapshots then Err(AlreadyExists)
    else Ok(t.(snapshots := t.snapshots[(s.workload, s.generation) := s]))
  }

  function CreateSnapshot(t: Tables, id: nat, w: Content, r: Runtime, generation: nat, x: nat): Outcome<Tables>
    requires HasSources(t, w)
  {
    var p := t.profiles[w.profile].content;
    if Drawn(t, x) then Err(AlreadyExists)
    else if !r.running || generation < 1 then Err(ConfigConflict)
    else InsertSnapshot(t, MakeSnapshot(r, id, p.pool, p.wallet, RevisionsOf(t, w), x, generation))
  }

  // ---- fan-out -----------------------------------------------------------------

  /** The row of `id` becomes `row`, with a snapshot when its runtime has `moved` and it runs on the CPU alone. */
  function Placed(t: Tables, id: nat, row: Workload, moved: bool, x: nat): Outcome<Tables>
    requires HasSources(t, row.content)
  {
    var u := t.(workloads := t.workloads[id := row]);
    if moved && row.content.running && row.content.claim.devices == {} then
      CreateSnapshot(u, id, row.content, row.effective, row.generation, x)
    else Ok(u)
  }

  /** The row of `id` moves on to the runtime `r` it resolves to now. */
  function Advance(t: Tables, id: nat, r: Runtime, x: nat): Outcome<Tables>
    requires id in t.workloads && HasSources(t, t.workloads[id].content)
  {
    var w := t.workloads[id];
    if r == w.effective then Ok(t) else Placed(t, id, w.(generation := w.generation + 1, effective := r), true, x)
  }

  /** One turn of propagateWorkloadIDs. */
  ghost function Repropagate(c: Catalog, t: Tables, id: nat, x: nat): Outcome<Tables> {
    if id !in t.workloads then Err(NotFound)
    else
      var r := ResolveWorkload(c, t, id, t.workloads[id].content);
      if r.Err? then Err(r.code) else Advance(t, id, r.value, x)
  }

  ghost function Propagate(c: Catalog, t: Tables, ids: seq<nat>, draw: nat -> nat): Outcome<Tables>
    decreases |ids|
  {
    if ids == [] then Ok(t)
    else
      var r := Repropagate(c, t, ids[0], draw(ids[0]));
      if r.Err? then r else Propagate(c, r.value, ids[1..], draw)
  }

  function Selected(t: Tables, rows: seq<nat>, wanted: Content -> bool): seq<nat> {
    if rows == [] then []
    else if rows[0] in t.workloads && wanted(t.workloads[rows[0]].content) then
      [rows[0]] + Selected(t, rows[1..], wanted)
    else Selected(t, rows[1..], wanted)
  }

  function UsesPool(t: Tables, id: nat): Content -> bool {
    (w: Content) => w.profile in t.profiles && t.profiles[w.profile].content.pool == id
  }

  function UsesWallet(t: Tables, id: nat): Content -> bool {
    (w: Content) => w.profile in t.profiles && t.profiles[w.profile].content.wallet == id
  }

  function UsesProfile(id: nat): Content -> bool { (w: Content) => w.profile == id }

  function UsesSettings(host: nat, id: nat): Content -> bool { (w: Content) => w.host == host && w.profile == id }

  // ---- checks ------------------------------------------------------------------

  function ProfileError(c: Catalog, p: Profile): Option<Code> {
    if p.tuning.threads == Some(0) then Some(ConfigConflict)
    else if p.package !in c || p.adapter !in c[p.package].adapters then Some(InvalidReference)
    else if !Supported(p.tuning, c[p.package].tuning) then Some(ConfigConflict)
    else None
  }

  function ReferenceError(t: Tables, p: Profile): Option<Code> {
    if p.pool !in t.pools || p.wallet !in t.wallets then Some(InvalidReference) else None
  }

  predicate ValidSettings(s: Tuning) { s.threads != Some(0) && s != NoTuning }

  function SettingsError(c: Catalog, t: Tables, id: nat, s: Tuning): Option<Code> {
    if id !in t.profiles then Some(InvalidReference)
    else
      var p := t.profiles[id].content;
      if p.package !in c || p.adapter !in c[p.package].adapters then Some(InvalidReference)
      else if !Supported(s, c[p.package].tuning) then Some(ConfigConflict)
      else None
  }

  predicate ValidContent(w: Content) { w.claim.cpu || w.claim.devices != {} }

  predicate Clash(a: Content, b: Content) {
    a.running && b.running && a.host == b.host
      && ((a.claim.cpu && b.claim.cpu) || a.claim.devices * b.claim.devices != {})
  }

  /** checkResourceConflict: a RUNNING workload other than `id` claims a resource of `w`. */
  predicate Conflicts(t: Tables, id: nat, w: Content) {
    exists v :: v in t.workloads && v != id && Clash(w, t.workloads[v].content)
  }

  predicate HasSnapshots(t: Tables, id: nat) { exists k :: k in t.snapshots && k.0 == id }

  function RevisionError<T>(m: map<nat, Row<T>>, id: nat, revision: nat): Option<Code> {
    if id !in m then Some(NotFound) else if m[id].revision != revision then Some(RevisionConflict) else None
  }

  function WorkloadError(t: Tables, id: nat, revision: nat): Option<Code> {
    if id !in t.workloads then Some(NotFound) else if t.workloads[id].revision != revision then Some(RevisionConflict)
    else None
  }

  // ---- workload transactions -----------------------------------------------------

  ghost function Created(c: Catalog, t: Tables, id: nat, w: Content, x: nat): Outcome<Tables> {
    if !ValidContent(w) then Err(ConfigConflict)
    else if id in t.workloads then Err(AlreadyExists)
    else if Conflicts(t, id, w) then Err(ConfigConflict)
    else
      var r := ResolveWorkload(c, t, id, w);
      if r.Err? then Err(r.code) else Placed(t, id, Workload(1, w, 1, r.value), true, x)
  }

  /** The edited row; its generation moves with its runtime. */
  function Edited(before: Workload, w: Content, r: Runtime): Workload {
    Workload(before.revision + 1, w, if r != before.effective then before.generation + 1 else before.generation, r)
  }

  ghost function Updated(c: Catalog, t: Tables, id: nat, revision: nat, w: Content, x: nat): Outcome<Tables> {
    if !ValidContent(w) then Err(ConfigConflict)
    else if WorkloadError(t, id, revision).Some? then Err(WorkloadError(t, id, revision).value)
    else
      var before := t.workloads[id];
      if w.host != before.content.host then Err(ConfigConflict)
      else if w == before.content then Ok(t)
      else if Conflicts(t, id, w) then Err(ConfigConflict)
      else
        var r := ResolveWorkload(c, t, id, w);
        if r.Err? then Err(r.code) else Placed(t, id, Edited(before, w, r.value), r.value != before.effective, x)
  }

  function RetriedRow(w: Workload): Workload { w.(revision := w.revision + 1, generation := w.generation + 1) }

  function Retried(t: Tables, id: nat, revision: nat, x: nat): Outcome<Tables> {
    if WorkloadError(t, id, revision).Some? then Err(WorkloadError(t, id, revision).value)
    else
      var w := t.workloads[id];
      if !w.content.running || id !in t.blocked || t.blocked[id] != w.generation then Err(ConfigConflict)
      else if (id, w.generation) !in t.snapshots then Err(NotFound)
      else if Drawn(t, x) then Err(AlreadyExists)
      else
        var r := InsertSnapshot(t, Renewed(t.snapshots[(id, w.generation)], w.generation + 1, x));
        if r.Err? then r
        else Ok(r.value.(workloads := t.workloads[id := RetriedRow(w)], blocked := t.blocked - {id}))
  }

  /** The row under the validated runtime `v`: a generation that has a snapshot is left behind. */
  function BoundRow(t: Tables, id: nat, v: Runtime): Workload
    requires id in t.workloads
  {
    var w := t.workloads[id];
    w.(generation := if (id, w.generation) in t.snapshots then w.generation + 1 else w.generation, effective := v)
  }

  function Bound(t: Tables, id: nat, v: Runtime, x: nat): Outcome<Tables>
    requires id in t.workloads && HasSources(t, t.workloads[id].content)
  {
    var w := t.workloads[id];
    if (id, w.generation) in t.snapshots && t.snapshots[(id, w.generation)].hash == v then Ok(t)
    else CreateSnapshot(t.(workloads := t.workloads[id := BoundRow(t, id, v)]), id, w.content, v,
                        BoundRow(t, id, v).generation, x)
  }

  ghost function Refreshed(c: Catalog, t: Tables, id: nat, inv: Inventory, x: nat): Outcome<Tables> {
    if id !in t.workloads then Err(NotFound)
    else
      var w := t.workloads[id];
      if !w.content.running || w.content.claim.devices == {} then Ok(t)
      else
        var before := LatestBindings(t.snapshots, id, w.content.claim);
        var r := ResolveFrom(c, t, w.content, before);
        if r.Err? then Err(r.code)
        else
          var v := Validate(c, r.value, before, inv);
          if v.Err? then Err(v.code) else Bound(t, id, v.value, x)
  }

  function Deleted(t: Tables, id: nat, revision: nat, retired: bool): Outcome<Tables> {
    if WorkloadError(t, id, revision).Some? then Err(WorkloadError(t, id, revision).value)
    else if t.workloads[id].content.running || (!retired && HasSnapshots(t, id)) then Err(ReferenceInUse)
    else Ok(t.(workloads := t.workloads - {id}, blocked := t.blocked - {id}))
  }

  // ---- every transaction -----------------------------------------------------------

  ghost function Step(c: Catalog, t: Tables, op: Op, env: Env): Outcome<Tables> {
    match op
    case CreatePool(id, pool) =>
      if id in t.pools then Err(AlreadyExists) else Ok(t.(pools := t.pools[id := Row(1, pool)]))
    case UpdatePool(id, revision, pool) =>
      if RevisionError(t.pools, id, revision).Some? then Err(RevisionError(t.pools, id, revision).value)
      else if t.pools[id].content == pool then Ok(t)
      else Propagate(c, t.(pools := t.pools[id := Row(revision + 1, pool)]), Selected(t, env.rows, UsesPool(t, id)),
                     env.draw)
    case DeletePool(id, revision) =>
      if RevisionError(t.pools, id, revision).Some? then Err(RevisionError(t.pools, id, revision).value)
      else if exists p :: p in t.profiles && t.profiles[p].content.pool == id then Err(ReferenceInUse)
      else Ok(t.(pools := t.pools - {id}))
    case CreateWallet(id, wallet) =>
      if id in t.wallets then Err(AlreadyExists) else Ok(t.(wallets := t.wallets[id := Row(1, wallet)]))
    case UpdateWallet(id, revision, wallet) =>
      if RevisionError(t.wallets, id, revision).Some? then Err(RevisionError(t.wallets, id, revision).value)
      else if t.wallets[id].content == wallet then Ok(t)
      else Propagate(c, t.(wallets := t.wallets[id := Row(revision + 1, wallet)]),
                     Selected(t, env.rows, UsesWallet(t, id)), env.draw)
    case DeleteWallet(id, revision) =>
      if RevisionError(t.wallets, id, revision).Some? then Err(RevisionError(t.wallets, id, revision).value)
      else if exists p :: p in t.profiles && t.profiles[p].content.wallet == id then Err(ReferenceInUse)
      else Ok(t.(wallets := t.wallets - {id}))
    case CreateProfile(id, profile) =>
      if ProfileError(c, profile).Some? then Err(ProfileError(c, profile).value)
      else if ReferenceError(t, profile).Some? then Err(InvalidReference)
      else if id in t.profiles then Err(AlreadyExists)
      else Ok(t.(profiles := t.profiles[id := Row(1, profile)]))
    case UpdateProfile(id, revision, profile) =>
      if ProfileError(c, profile).Some? then Err(ProfileError(c, profile).value)
      else if RevisionError(t.profiles, id, revision).Some? then Err(RevisionError(t.profiles, id, revision).value)
      else if t.profiles[id].content == profile then Ok(t)
      else if ReferenceError(t, profile).Some? then Err(InvalidReference)
      else Propagate(c, t.(profiles := t.profiles[id := Row(revision + 1, profile)]),
                     Selected(t, env.rows, UsesProfile(id)), env.draw)
    case DeleteProfile(id, revision) =>
      if RevisionError(t.profiles, id, revision).Some? then Err(RevisionError(t.profiles, id, revision).value)
      else if exists w :: w in t.workloads && t.workloads[w].content.profile == id then Err(ReferenceInUse)
      else if exists k :: k in t.settings && k.1 == id then Err(ReferenceInUse)
      else Ok(t.(profiles := t.profiles - {id}))
    case CreateSettings(host, id, tuning) =>
      if !ValidSettings(tuning) then Err(ConfigConflict)
      else if SettingsError(c, t, id, tuning).Some? then Err(SettingsError(c, t, id, tuning).value)
      else if (host, id) in t.settings then Err(AlreadyExists)
      else Propagate(c, t.(settings := t.settings[(host, id) := Row(1, tuning)]),
                     Selected(t, env.rows, UsesSettings(host, id)), env.draw)
    case UpdateSettings(host, id, revision, tuning) =>
      if !ValidSettings(tuning) then Err(ConfigConflict)
      else if (host, id) !in t.settings then Err(NotFound)
      else if t.settings[(host, id)].revision != revision then Err(RevisionConflict)
      else if SettingsError(c, t, id, tuning).Some? then Err(SettingsError(c, t, id, tuning).value)
      else if t.settings[(host, id)].content == tuning then Ok(t)
      else Propagate(c, t.(settings := t.settings[(host, id) := Row(revision + 1, tuning)]),
                     Selected(t, env.rows, UsesSettings(host, id)), env.draw)
    case DeleteSettings(host, id, revision) =>
      if (host, id) !in t.settings then Err(NotFound)
      else if t.settings[(host, id)].revision != revision then Err(RevisionConflict)
      else Propagate(c, t.(settings := t.settings - {(host, id)}), Selected(t, env.rows, UsesSettings(host, id)),
                     env.draw)
    case CreateWorkload(id, content) => Created(c, t, id, content, env.draw(id))
    case UpdateWorkload(id, revision, content) => Updated(c, t, id, revision, content, env.draw(id))
    case DeleteWorkload(id, revision) => Deleted(t, id, revision, false)
    case FinalizeDeletion(id, revision) => Deleted(t, id, revision, true)
    case Block(id, generation) =>
      if generation < 1 then Err(ConfigConflict)
      else if id !in t.workloads then Err(NotFound)
      else if !t.workloads[id].content.running || t.workloads[id].generation != generation then Ok(t)
      else Ok(t.(blocked := t.blocked[id := generation]))
    case Retry(id, revision) => Retried(t, id, revision, env.draw(id))
    case Refresh(id, inventory) => Refreshed(c, t, id, inventory, env.draw(id))
  }
}
