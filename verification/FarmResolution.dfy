/** What a resolution computes, field by field, and exactly when there is one. */
module FarmResolution {
  import opened Common
  import opened FarmModel

  // ---- placeholders ---------------------------------------------------------------

  predicate OccursAt(s: string, what: string, i: nat) { i + |what| <= |s| && s[i..i + |what|] == what }

  lemma OccursLater(s: string, what: string, j: nat)
    requires s != ""
    ensures OccursAt(s[1..], what, j) <==> OccursAt(s, what, j + 1)
  {
    if j + |what| <= |s| - 1 { assert s[1..][j..j + |what|] == s[j + 1..j + 1 + |what|]; }
  }

  lemma OccursFirst(s: string, what: string)
    ensures OccursAt(s, what, 0) <==> |what| <= |s| && s[..|what|] == what
  {
    if |what| <= |s| { assert s[0..|what|] == s[..|what|]; }
  }

  lemma Reassembled(s: string, value: string, i: nat, n: nat)
    requires 0 < i && i + n <= |s|
    ensures [s[0]] + (s[1..][..i - 1] + value + s[1..][i - 1 + n..]) == s[..i] + value + s[i + n..]
  {
    assert s[1..][i - 1 + n..] == s[i + n..];
    assert [s[0]] + s[1..][..i - 1] == s[..i];
  }

  /** The first occurrence is replaced, and no other. */
  lemma {:induction false} FirstIsReplaced(s: string, what: string, value: string, i: nat)
    requires OccursAt(s, what, i) && forall j: nat :: j < i ==> !OccursAt(s, what, j)
    ensures ReplaceFirst(s, what, value) == s[..i] + value + s[i + |what|..]
    decreases |s|
  {
    OccursFirst(s, what);
    if i > 0 {
      assert !OccursAt(s, what, 0) && s != "";
      OccursLater(s, what, i - 1);
      forall j: nat | j < i - 1 ensures !OccursAt(s[1..], what, j) { OccursLater(s, what, j); }
      FirstIsReplaced(s[1..], what, value, i - 1);
      Reassembled(s, value, i, |what|);
    }
  }

  lemma {:induction false} NothingIsReplaced(s: string, what: string, value: string)
    requires what != "" && forall j: nat :: !OccursAt(s, what, j)
    ensures ReplaceFirst(s, what, value) == s
    decreases |s|
  {
    OccursFirst(s, what);
    assert !OccursAt(s, what, 0);
    if s != "" {
      forall j: nat ensures !OccursAt(s[1..], what, j) { OccursLater(s, what, j); }
      NothingIsReplaced(s[1..], what, value);
    }
  }

  // ---- the result -------------------------------------------------------------------

  /** The override's setting if it has one, the profile's otherwise. */
  predicate Chosen<T(==)>(result: Option<T>, profile: Option<T>, over: Option<T>) {
    match over
    case Some(v) => result == Some(v)
    case None => result == profile
  }

  predicate TunedBy(r: Tuning, profile: Tuning, settings: Option<Tuning>) {
    match settings
    case None => r == profile
    case Some(s) =>
      && Chosen(r.threads, profile.threads, s.threads)
      && Chosen(r.hugePages, profile.hugePages, s.hugePages)
      && Chosen(r.msr, profile.msr, s.msr)
  }

  /** The pool's address, the template's user, and the worker where the login policy places it. */
  predicate Logs(e: Endpoint, pool: Pool, wallet: Wallet, profile: Profile, worker: string) {
    var user := ReplaceFirst(profile.template, "${wallet}", wallet.address);
    && e.address == pool.address && e.tls == pool.tls
    && e.password == (match pool.literal case Some(p) => p case None => "")
    && match profile.placement
       case NoWorker => worker == "" && e.user == user && e.worker == ""
       case InUser => worker != "" && e.user == ReplaceFirst(user, "${worker}", worker) && e.worker == ""
       case Separate => worker != "" && e.user == user && e.worker == worker
  }

  /** Everything a runtime takes from the workload, its profile and override, the pool and the wallet. */
  predicate Reflects(r: Runtime, w: Content, profile: Profile, settings: Option<Tuning>, pool: Pool, wallet: Wallet) {
    && r.running == w.running && r.host == w.host && r.profile == w.profile && r.claim == w.claim
    && r.adapter == profile.adapter && r.package == profile.package
    && r.coin == profile.coin == wallet.coin && r.algorithm == profile.algorithm
    && TunedBy(r.tuning, profile.tuning, settings)
    && Logs(r.endpoint, pool, wallet, profile, w.worker)
  }

  lemma ResolvedReflects(c: Catalog, w: Content, profile: Profile, settings: Option<Tuning>, pool: Pool, wallet: Wallet,
                         bindings: map<nat, Binding>)
    requires Resolve(c, w, profile, settings, pool, wallet, bindings).Ok?
    ensures var r := Resolve(c, w, profile, settings, pool, wallet, bindings).value;
            Reflects(r, w, profile, settings, pool, wallet) && r.bindings == bindings
  {
  }

  /** The setting is asked for by the profile or by the override. */
  predicate Asked<T>(profile: Option<T>, over: Option<T>) { profile.Some? || over.Some? }

  /** Each of the three settings that is asked for is allowed. */
  predicate AskedOnly(profile: Tuning, settings: Option<Tuning>, threads: bool, hugePages: bool, msr: bool) {
    var s := match settings case Some(s) => s case None => Tuning(None, None, None);
    && (Asked(profile.threads, s.threads) ==> threads)
    && (Asked(profile.hugePages, s.hugePages) ==> hugePages)
    && (Asked(profile.msr, s.msr) ==> msr)
  }

  /** The release knows the adapter and runs on the resources claimed, which are CPU or GPUs but not both. */
  predicate Runs(c: Catalog, profile: Profile, claim: Claim) {
    && profile.package in c && profile.adapter in c[profile.package].adapters
    && var r := c[profile.package];
       && (claim.cpu ==> claim.devices == {} && r.cpu)
       && (claim.devices != {} ==> r.gpu)
       && (|claim.devices| >= 2 ==> r.multiGpu)
  }

  /**
   There is a resolution exactly if the release runs the claim, the wallet is for the
   profile's coin, what is tuned is CPU mining and supported, the bindings are of the
   claimed devices, and there is a worker exactly if the login policy places one.
   */
  lemma ResolvesExactlyWhen(c: Catalog, w: Content, profile: Profile, settings: Option<Tuning>, pool: Pool,
                            wallet: Wallet, bindings: map<nat, Binding>)
    ensures Resolve(c, w, profile, settings, pool, wallet, bindings).Ok? <==>
            && Runs(c, profile, w.claim) && wallet.coin == profile.coin
            && (!w.claim.cpu ==> AskedOnly(profile.tuning, settings, false, false, false))
            && AskedOnly(profile.tuning, settings, c[profile.package].tuning.threads,
                         c[profile.package].tuning.hugePages, c[profile.package].tuning.msr)
            && (bindings == map[] || bindings.Keys == w.claim.devices)
            && (w.worker == "" <==> profile.placement == NoWorker)
  {
  }

  /** What is not there or does not belong together is a bad reference; what a release cannot run is incompatible. */
  lemma RefusedBecause(c: Catalog, w: Content, profile: Profile, settings: Option<Tuning>, pool: Pool, wallet: Wallet,
                       bindings: map<nat, Binding>)
    requires Resolve(c, w, profile, settings, pool, wallet, bindings).Err?
    ensures var code := Resolve(c, w, profile, settings, pool, wallet, bindings).code;
            && (code == InvalidReference <==>
                  || profile.package !in c || wallet.coin != profile.coin
                  || profile.adapter !in c[profile.package].adapters)
            && (code == Incompatible ==>
                  var r := c[profile.package];
                  || (w.claim.cpu && !r.cpu) || (w.claim.devices != {} && !r.gpu)
                  || (bindings != map[] && bindings.Keys != w.claim.devices))
            && code in {InvalidReference, Incompatible, ConfigConflict}
  {
  }

  // ---- hardware ----------------------------------------------------------------------

  /** The inventory has the device, proved usable, from a vendor the release knows if it names any. */
  predicate Proved(d: nat, inv: Inventory, vendors: set<string>) {
    d in inv.gpus && inv.gpus[d].usable && (vendors != {} ==> inv.gpus[d].vendor in vendors)
  }

  /**
   A runtime stands up to an inventory exactly if it is of its Host, which has the threads,
   and proves every device claimed, as the hardware it was bound to before if it was.
   */
  lemma ValidatesExactlyWhen(c: Catalog, r: Runtime, before: map<nat, Binding>, inv: Inventory)
    ensures Validate(c, r, before, inv).Ok? <==>
            && inv.host == r.host
            && (r.claim.cpu ==>
                  inv.threads > 0 && match r.tuning.threads case Some(n) => n <= inv.threads case None => true)
            && (r.claim.devices != {} ==>
                  && r.package in c
                  && (forall d :: d in r.claim.devices ==> Proved(d, inv, c[r.package].vendors))
                  && (before != map[] ==>
                        && before.Keys == r.claim.devices
                        && forall d :: d in r.claim.devices && d in inv.gpus ==>
                             before[d].hardware == inv.gpus[d].binding.hardware))
    ensures Validate(c, r, before, inv).Ok? ==>
              var v := Validate(c, r, before, inv).value;
              && v == r.(bindings := v.bindings)
              && (r.claim.devices == {} ==> v == r)
              && (r.claim.devices != {} ==>
                    && v.bindings.Keys == r.claim.devices
                    && forall d :: d in r.claim.devices && d in inv.gpus ==> v.bindings[d] == inv.gpus[d].binding)
  {
    if r.claim.devices != {} && r.package in c && Bind(r.claim.devices, inv, c[r.package].vendors).Some? {
      var b := Bind(r.claim.devices, inv, c[r.package].vendors).value;
      assert b.Keys == r.claim.devices;
    }
  }
}
