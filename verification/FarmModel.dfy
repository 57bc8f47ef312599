/**
 The desired-state objects and their resolution. A hash stands for the value it is
 taken of: the encoding it digests is injective and the digest is taken to be.
 */
module FarmModel {
  import opened Common

  datatype Code =
    | NotFound | RevisionConflict | ConfigConflict | InvalidReference | AlreadyExists | ReferenceInUse | Incompatible

  datatype Outcome<T> = Ok(value: T) | Err(code: Code)

  datatype Tuning = Tuning(threads: Option<nat>, hugePages: Option<bool>, msr: Option<bool>)

  datatype Placement = NoWorker | InUser | Separate

  datatype Pool = Pool(name: string, address: string, tls: bool, literal: Option<string>)

  datatype Wallet = Wallet(name: string, coin: string, address: string)

  datatype Profile = Profile(name: string, adapter: nat, package: nat, coin: string, algorithm: string, pool: nat,
                             wallet: nat, template: string, placement: Placement, tuning: Tuning)

  /** A normalised claim: its DeviceIDs are sorted and free of duplicates. */
  datatype Claim = Claim(cpu: bool, devices: set<nat>)

  datatype Content = Content(name: string, host: nat, profile: nat, running: bool, worker: string, claim: Claim)

  datatype Binding = Binding(hardware: string, selector: string)

  datatype Endpoint = Endpoint(address: string, tls: bool, user: string, password: string, worker: string)

  /** ResolvedRuntimeContent. */
  datatype Runtime = Runtime(running: bool, host: nat, profile: nat, claim: Claim, bindings: map<nat, Binding>,
                             adapter: nat, package: nat, coin: string, algorithm: string, endpoint: Endpoint,
                             tuning: Tuning)

  datatype Capabilities = Capabilities(threads: bool, hugePages: bool, msr: bool)

  datatype Release = Release(adapters: set<nat>, cpu: bool, gpu: bool, multiGpu: bool, tuning: Capabilities,
                             vendors: set<string>)

  type Catalog = map<nat, Release>

  /** One GPU of an inventory; `usable` when its identity and selector are well-formed and unambiguous. */
  datatype Gpu = Gpu(binding: Binding, vendor: string, usable: bool)

  datatype Inventory = Inventory(host: nat, threads: nat, gpus: map<nat, Gpu>)

  // ---- resolution -----------------------------------------------------------

  function ReplaceFirst(s: string, what: string, value: string): string
    decreases |s|
  {
    if |what| <= |s| && s[..|what|] == what then value + s[|what|..]
    else if s == "" then ""
    else [s[0]] + ReplaceFirst(s[1..], what, value)
  }

  function ResolveEndpoint(pool: Pool, wallet: Wallet, template: string, placement: Placement,
                           worker: string): Outcome<Endpoint> {
    var user := ReplaceFirst(template, "${wallet}", wallet.address);
    var password := if pool.literal.Some? then pool.literal.value else "";
    match placement
    case NoWorker => if worker != "" then Err(ConfigConflict)
      else Ok(Endpoint(pool.address, pool.tls, user, password, ""))
    case InUser =>
      if worker == "" then Err(ConfigConflict)
      else Ok(Endpoint(pool.address, pool.tls, ReplaceFirst(user, "${worker}", worker), password, ""))
    case Separate => if worker == "" then Err(ConfigConflict)
      else Ok(Endpoint(pool.address, pool.tls, user, password, worker))
  }

  function Override<T>(base: Option<T>, over: Option<T>): Option<T> { if over.Some? then over else base }

  function EffectiveTuning(profile: Tuning, settings: Option<Tuning>): Tuning {
    if settings.None? then profile
    else Tuning(Override(profile.threads, settings.value.threads),
                Override(profile.hugePages, settings.value.hugePages),
                Override(profile.msr, settings.value.msr))
  }

  predicate Supported(t: Tuning, c: Capabilities) {
    (t.threads.Some? ==> c.threads) && (t.hugePages.Some? ==> c.hugePages) && (t.msr.Some? ==> c.msr)
  }

  const NoTuning := Tuning(None, None, None)

  function ShapeError(claim: Claim, r: Release): Option<Code> {
    if claim.cpu && claim.devices != {} then Some(ConfigConflict)
    else if claim.cpu && !r.cpu then Some(Incompatible)
    else if claim.devices != {} && !r.gpu then Some(Incompatible)
    else if |claim.devices| > 1 && !r.multiGpu then Some(ConfigConflict)
    else None
  }

  function Resolve(c: Catalog, w: Content, profile: Profile, settings: Option<Tuning>, pool: Pool, wallet: Wallet,
                   bindings: map<nat, Binding>): Outcome<Runtime> {
    if profile.package !in c then Err(InvalidReference)
    else if wallet.coin != profile.coin then Err(InvalidReference)
    else
      var r := c[profile.package];
      var tuning := EffectiveTuning(profile.tuning, settings);
      if profile.adapter !in r.adapters then Err(InvalidReference)
      else if ShapeError(w.claim, r).Some? then Err(ShapeError(w.claim, r).value)
      else if !w.claim.cpu && tuning != NoTuning then Err(ConfigConflict)
      else if bindings != map[] && bindings.Keys != w.claim.devices then Err(Incompatible)
      else if !Supported(tuning, r.tuning) then Err(ConfigConflict)
      else
        var e := ResolveEndpoint(pool, wallet, profile.template, profile.placement, w.worker);
        if e.Err? then Err(e.code)
        else Ok(Runtime(w.running, w.host, w.profile, w.claim, bindings, profile.adapter, profile.package, profile.coin,
                        profile.algorithm, e.value, tuning))
  }

  /** The bindings of the requested devices, if the inventory proves every one. */
  function Bind(devices: set<nat>, inv: Inventory, vendors: set<string>): Option<map<nat, Binding>> {
    if forall d :: d in devices ==>
      d in inv.gpus && inv.gpus[d].usable && (vendors == {} || inv.gpus[d].vendor in vendors)
    then Some(map d | d in devices && d in inv.gpus :: inv.gpus[d].binding)
    else None
  }

  /** ResolveAndValidate, from the result `r` that Resolve gave with the bindings `before`. */
  function Validate(c: Catalog, r: Runtime, before: map<nat, Binding>, inv: Inventory): Outcome<Runtime> {
    if inv.host != r.host then Err(Incompatible)
    else if r.claim.cpu && (inv.threads == 0 || (r.tuning.threads.Some? && r.tuning.threads.value > inv.threads)) then
      Err(Incompatible)
    else if r.claim.devices == {} then Ok(r)
    else if r.package !in c then Err(InvalidReference)
    else
      var b := Bind(r.claim.devices, inv, c[r.package].vendors);
      if b.None? then Err(Incompatible)
      else if before != map[] && !SameHardware(before, b.value) then Err(Incompatible)
      else Ok(r.(bindings := b.value))
  }

  predicate SameHardware(a: map<nat, Binding>, b: map<nat, Binding>) {
    a.Keys == b.Keys && forall d :: d in a && d in b ==> a[d].hardware == b[d].hardware
  }

  // ---- snapshots --------------------------------------------------------------

  datatype Owner = Owner(workload: nat, generation: nat, hash: Runtime, host: nat, claim: Claim)

  datatype Plan = Plan(execution: nat, owner: Owner, host: nat, profile: nat, pool: nat, wallet: nat, adapter: nat,
                       package: nat, coin: string, algorithm: string, endpoint: Endpoint, tuning: Tuning,
                       devices: set<nat>, bindings: map<nat, Binding>)

  /** The revisions of the objects a snapshot was resolved from; `settings` is 0 without an override. */
  datatype Provenance = Provenance(profile: nat, settings: nat, pool: nat, wallet: nat)

  datatype Snapshot = Snapshot(workload: nat, generation: nat, execution: nat, host: nat, profile: nat, pool: nat,
                               wallet: nat, revisions: Provenance, package: nat, claim: Claim, plan: Plan,
                               hash: Runtime)

  function MakeSnapshot(r: Runtime, workload: nat, pool: nat, wallet: nat, revisions: Provenance, execution: nat,
                        generation: nat): Snapshot {
    Snapshot(workload, generation, execution, r.host, r.profile, pool, wallet, revisions, r.package, r.claim,
             Plan(execution, Owner(workload, generation, r, r.host, r.claim), r.host, r.profile, pool, wallet,
                  r.adapter, r.package,
                  r.coin, r.algorithm, r.endpoint, r.tuning, r.claim.devices, r.bindings), r)
  }

  /** The runtime content an immutable plan stands for. */
  function PlanContent(s: Snapshot): Runtime {
    Runtime(true, s.host, s.profile, s.claim, s.plan.bindings, s.plan.adapter, s.package, s.plan.coin, s.plan.algorithm,
            s.plan.endpoint, s.plan.tuning)
  }

  predicate ValidSnapshot(s: Snapshot) {
    && s.generation >= 1 && s.revisions.profile >= 1 && s.revisions.pool >= 1 && s.revisions.wallet >= 1
    && (s.claim.cpu || s.claim.devices != {})
    && (s.plan.bindings != map[] ==> s.plan.bindings.Keys == s.claim.devices)
    && s.plan.owner == Owner(s.workload, s.generation, s.hash, s.host, s.claim)
    && s.plan.execution == s.execution && s.plan.host == s.host && s.plan.profile == s.profile
    && s.plan.package == s.package && s.plan.pool == s.pool && s.plan.wallet == s.wallet
    && s.plan.devices == s.claim.devices
    && PlanContent(s) == s.hash
  }

  /** RetryWorkload's copy: the same runtime under the next generation and another execution. */
  function Renewed(s: Snapshot, generation: nat, execution: nat): Snapshot {
    s.(generation := generation, execution := execution,
       plan := s.plan.(execution := execution, owner := s.plan.owner.(generation := generation)))
  }

  /** What Resolver.Snapshot builds passes the check of every stored snapshot, whenever it was resolved RUNNING. */
  lemma MadeSnapshotIsValid(r: Runtime, workload: nat, pool: nat, wallet: nat, revisions: Provenance, execution: nat,
                            generation: nat)
    requires generation >= 1 && revisions.profile >= 1 && revisions.pool >= 1 && revisions.wallet >= 1
    requires (r.claim.cpu || r.claim.devices != {}) && (r.bindings != map[] ==> r.bindings.Keys == r.claim.devices)
    ensures ValidSnapshot(MakeSnapshot(r, workload, pool, wallet, revisions, execution, generation)) <==> r.running
  {
  }

  lemma RenewedIsValid(s: Snapshot, generation: nat, execution: nat)
    requires ValidSnapshot(s) && generation >= 1
    ensures ValidSnapshot(Renewed(s, generation, execution)) && Renewed(s, generation, execution).hash == s.hash
  {
  }
}
