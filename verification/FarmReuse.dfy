/** A WorkloadID drawn again after its workload was retired: when it harms the ledger, and a run where it does. */
module FarmReuse {
  import opened Common
  import opened FarmModel
  import opened FarmTables
  import opened FarmCoherence
  import opened FarmRuns

  /** Creation keeps the snapshots there are. */
  lemma CreatedBears(c: Catalog, t: Tables, u: Tables, id: nat, w: Content, x: nat)
    requires Created(c, t, id, w, x) == Ok(u)
    ensures ResolveWorkload(c, t, id, w).Ok? && HasSources(t, w)
            && ResolveWorkload(c, t, id, w).value.running == w.running
    ensures id in u.workloads && u.workloads[id] == Workload(1, w, 1, ResolveWorkload(c, t, id, w).value)
    ensures forall k :: k in t.snapshots ==> k in u.snapshots && u.snapshots[k] == t.snapshots[k]
  {
    ResolveKeeps(c, t, w, LatestBindings(t.snapshots, id, w.claim));
    PlacedFrame(t, u, id, Workload(1, w, 1, ResolveWorkload(c, t, id, w).value), true, x);
  }

  /** Only a workload that is to run on GPUs can take up snapshots. */
  lemma TakenUp(c: Catalog, t: Tables, u: Tables, id: nat, w: Content, x: nat)
    requires Ledger(t) && Created(c, t, id, w, x) == Ok(u)
    requires HasSnapshots(t, id) && Reusable(t, id, ResolveWorkload(c, t, id, w).value)
    ensures w.running && w.claim.devices != {}
  {
    CreatedBears(c, t, u, id, w, x);
    ReusedRuns(t, u, id, Workload(1, w, 1, ResolveWorkload(c, t, id, w).value), x);
  }

  /** A snapshot of a later generation, or of another runtime, does not fit the new row. */
  lemma NotTakenUp(t: Tables, u: Tables, id: nat, k: (nat, nat))
    requires k in t.snapshots && SnapshotFits(t, k) && k.0 == id
    requires id in u.workloads && u.workloads[id].generation == 1
    requires k in u.snapshots && u.snapshots[k] == t.snapshots[k]
    requires !(k.1 == 1 && t.snapshots[k].hash == u.workloads[id].effective)
    ensures !Ledger(u)
  {
    assert k == (id, k.1);
    assert !SnapshotFits(u, k) || !WorkloadFits(u, id);
  }

  /**
   Creating a workload keeps the ledger exactly when every snapshot its ID still bears
   is of generation 1 and of the runtime the new workload resolves to; unless it is
   to run on GPUs, that is when there are none.
   */
  lemma CreationIsSafeExactlyWhen(c: Catalog, t: Tables, u: Tables, id: nat, w: Content, x: nat)
    requires Inv(c, t) && Created(c, t, id, w, x) == Ok(u)
    ensures Ledger(u) <==> Reusable(t, id, ResolveWorkload(c, t, id, w).value)
    ensures Ledger(u) && !(w.running && w.claim.devices != {}) ==> !HasSnapshots(t, id)
  {
    CreatedBears(c, t, u, id, w, x);
    var r := ResolveWorkload(c, t, id, w).value;
    if Reusable(t, id, r) {
      CreatedKeeps(c, t, u, id, w, x);
      if HasSnapshots(t, id) { TakenUp(c, t, u, id, w, x); }
    } else {
      var k :| k in t.snapshots && k.0 == id && !(k.1 == 1 && t.snapshots[k].hash == r);
      NotTakenUp(t, u, id, k);
    }
  }

  // ---- a run ------------------------------------------------------------------

  const Releases: Catalog := map[0 := Release({0}, true, false, false, Capabilities(false, false, false), {})]

  const SomePool := Pool("pool", "host:1", false, None)

  const SomeWallet := Wallet("wallet", "C", "a")

  const SomeProfile := Profile("profile", 0, 0, "C", "A", 1, 1, "u", NoWorker, NoTuning)

  function Miner(running: bool): Content { Content("miner", 1, 1, running, "", Claim(true, {})) }

  const Rows := Env([1], (id: nat) => 7)

  function Resolved(running: bool): Runtime {
    Runtime(running, 1, 1, Claim(true, {}), map[], 0, 0, "C", "A", Endpoint("host:1", false, "u", "", ""), NoTuning)
  }

  function Stored(g: nat, running: bool): Workload { Workload(g, Miner(running), g, Resolved(running)) }

  const Prepared := Empty.(pools := map[1 := Row(1, SomePool)], wallets := map[1 := Row(1, SomeWallet)],
                           profiles := map[1 := Row(1, SomeProfile)])

  const Snap := MakeSnapshot(Resolved(true), 1, 1, 1, Provenance(1, 0, 1, 1), 7, 2)

  const Made := Prepared.(workloads := map[1 := Stored(1, false)])
  const Started := Prepared.(workloads := map[1 := Stored(2, true)], snapshots := map[(1, 2) := Snap])
  const Stopped := Prepared.(workloads := map[1 := Stored(3, false)], snapshots := map[(1, 2) := Snap])
  const Retired := Prepared.(snapshots := map[(1, 2) := Snap])
  const Reused := Prepared.(workloads := map[1 := Stored(1, false)], snapshots := map[(1, 2) := Snap])

  lemma NoPlaceholder()
    ensures ReplaceFirst("u", "${wallet}", "a") == "u"
  {
    assert "u"[1..] == "" && ReplaceFirst("", "${wallet}", "a") == "";
    assert ReplaceFirst("u", "${wallet}", "a") == ["u"[0]] + ReplaceFirst("", "${wallet}", "a");
  }

  /** The workload resolves the same all along. */
  lemma Resolves(t: Tables, running: bool)
    requires t.pools == Prepared.pools && t.wallets == Prepared.wallets && t.profiles == Prepared.profiles
    requires t.settings == map[]
    ensures ResolveWorkload(Releases, t, 1, Miner(running)) == Ok(Resolved(running)) && HasSources(t, Miner(running))
    ensures RevisionsOf(t, Miner(running)) == Provenance(1, 0, 1, 1)
  {
    NoPlaceholder();
    assert EffectiveTuning(NoTuning, None) == NoTuning;
  }

  lemma Preparing()
    ensures Step(Releases, Empty, CreatePool(1, SomePool), Rows) == Ok(Empty.(pools := Prepared.pools))
    ensures Step(Releases, Empty.(pools := Prepared.pools), CreateWallet(1, SomeWallet), Rows)
         == Ok(Prepared.(profiles := map[]))
    ensures Step(Releases, Prepared.(profiles := map[]), CreateProfile(1, SomeProfile), Rows) == Ok(Prepared)
  {
  }

  lemma Making()
    ensures Step(Releases, Prepared, CreateWorkload(1, Miner(false)), Rows) == Ok(Made)
    ensures Fair(Releases, Prepared, CreateWorkload(1, Miner(false)), Rows)
  {
    Resolves(Prepared, false);
  }

  lemma Starting()
    ensures Step(Releases, Made, UpdateWorkload(1, 1, Miner(true)), Rows) == Ok(Started)
  {
    Resolves(Made, true);
    Resolves(Made.(workloads := map[1 := Stored(2, true)]), true);
    assert Made.workloads[1 := Stored(2, true)] == map[1 := Stored(2, true)];
  }

  lemma Stopping()
    ensures Step(Releases, Started, UpdateWorkload(1, 2, Miner(false)), Rows) == Ok(Stopped)
  {
    Resolves(Started, false);
    assert Started.workloads[1 := Stored(3, false)] == map[1 := Stored(3, false)];
  }

  lemma Retiring()
    ensures Step(Releases, Stopped, FinalizeDeletion(1, 3), Rows) == Ok(Retired)
  {
  }

  lemma Reusing()
    ensures Step(Releases, Retired, CreateWorkload(1, Miner(false)), Rows) == Ok(Reused)
    ensures !Ledger(Reused)
  {
    Resolves(Retired, false);
    assert !SnapshotFits(Reused, (1, 2));
  }

  /** A workload is created stopped, started, stopped, and deleted once it is retired. */
  const Life: seq<Op> := [
    CreatePool(1, SomePool), CreateWallet(1, SomeWallet), CreateProfile(1, SomeProfile),
    CreateWorkload(1, Miner(false)), UpdateWorkload(1, 1, Miner(true)), UpdateWorkload(1, 2, Miner(false)),
    FinalizeDeletion(1, 3)]

  function Calls(ops: seq<Op>): seq<Call> {
    if ops == [] then [] else [Call(ops[0], Rows)] + Calls(ops[1..])
  }

  /** From `t` the rest of the life leads to `Retired`. */
  ghost predicate Leads(t: Tables, i: nat)
    requires i <= |Life|
  {
    FairRun(Releases, t, Calls(Life[i..])) && Run(Releases, t, Calls(Life[i..])) == Retired
  }

  lemma Earlier(t: Tables, i: nat, u: Tables)
    requires i < |Life| && Leads(u, i + 1)
    requires Step(Releases, t, Life[i], Rows) == Ok(u) && Fair(Releases, t, Life[i], Rows)
    ensures Leads(t, i)
  {
    assert Life[i..][1..] == Life[i + 1..];
    assert Calls(Life[i..])[1..] == Calls(Life[i + 1..]);
  }

  lemma MinerLeads()
    ensures Leads(Made, 4)
  {
    Retiring();
    Earlier(Stopped, 6, Retired);
    Stopping();
    Earlier(Started, 5, Stopped);
    Starting();
    Earlier(Made, 4, Started);
  }

  lemma LifeLeads()
    ensures Leads(Empty, 0)
  {
    MinerLeads();
    Making();
    Earlier(Prepared, 3, Made);
    Preparing();
    Earlier(Prepared.(profiles := map[]), 2, Prepared);
    Earlier(Empty.(pools := Prepared.pools), 1, Prepared.(profiles := map[]));
    Earlier(Empty, 0, Empty.(pools := Prepared.pools));
  }

  /**
   From the empty database that life leaves a snapshot of generation 2 and no workload;
   the next creation may draw the same ID, and then the ledger does not hold.
   */
  lemma ReusedIdBreaksLedger()
    ensures FairRun(Releases, Empty, Calls(Life)) && Inv(Releases, Run(Releases, Empty, Calls(Life)))
    ensures Run(Releases, Empty, Calls(Life)).workloads == map[]
    ensures var r := Step(Releases, Run(Releases, Empty, Calls(Life)), CreateWorkload(1, Miner(false)), Rows);
            r.Ok? && !Ledger(r.value)
  {
    LifeLeads();
    assert Life[0..] == Life;
    RunsFromEmpty(Releases, Calls(Life));
    Reusing();
  }
}
