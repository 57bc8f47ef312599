/**
 What a restore guarantees across crashes. A life is an installation followed by
 any number of crashes and startup recoveries, each cut off at any operation.
 */
module RestoreSafety {
  import opened Common
  import opened DataDirectory
  import opened Restore

  /** A power loss keeps some pending operations; a killed process loses none. */
  datatype Crash = Power(keep: set<nat>, torn: bool) | Process(torn: bool)

  datatype Life = Installing(n: nat) | Restarted(prev: Life, crash: Crash, n: nat)

  function Take(ops: seq<Op>, n: nat): seq<Op> { if n <= |ops| then ops[..n] else ops }

  function Reopened(disk: Disk, crash: Crash): Disk {
    match crash
    case Power(keep, torn) => Boot(PowerLoss(disk, keep, torn))
    case Process(torn) => Killed(disk, torn)
  }

  /** The disk at the end of a life. */
  function DiskOf(life: Life, s: Setup): Disk {
    match life
    case Installing(n) => Run(Take(InstallOps(s), n), Boot(s.Origin()))
    case Restarted(prev, crash, n) =>
      var disk := Reopened(DiskOf(prev, s), crash);
      Run(Take(StartupPlan(disk.entries).ops, n), disk)
  }

  // ----- data safety when any subset of unsynced operations survives -----

  /** The original is named, or farm.db names the fully prepared restored database. */
  ghost predicate Safe(d: Dir, s: Setup) {
    s.original.Some? ==>
      || Lookup(d, Live) == s.original
      || Lookup(d, Old) == s.original
      || Lookup(d, Live) == Some(s.restored)
  }

  ghost predicate SafeAgainstPowerLoss(disk: Disk, s: Setup) {
    forall keep: set<nat>, torn: bool :: Safe(PowerLoss(disk, keep, torn), s)
  }

  /** Every value `name` may have, now or after a power loss, is in `values`. */
  ghost predicate Only(disk: Disk, name: Name, values: set<Option<Inode>>) {
    && Lookup(disk.entries, name) in values
    && Lookup(disk.durable, name) in values
    && forall k :: 0 <= k < |disk.pending| ==> OpFits(disk.pending[k], name, values)
  }

  ghost predicate OpFits(op: Op, name: Name, values: set<Option<Inode>>) {
    && (op.Bind? && op.name == name ==> Some(op.inode) in values)
    && (op.Unbind? && op.name == name ==> None in values)
  }

  ghost function Markers(s: Setup): set<Option<Inode>> { {None, Some(s.marker), Some(TearInode(s.marker))} }

  /** Only objects of this restore are named. */
  ghost predicate Typed(disk: Disk, s: Setup) {
    && Only(disk, Live, {None, s.original, Some(s.restored)})
    && Only(disk, Old, {None, s.original})
    && Only(disk, Validation, {None, Some(s.restored)})
    && Only(disk, Marker, Markers(s))
  }

  ghost predicate LiveSure(disk: Disk, s: Setup) { Only(disk, Live, {s.original, Some(s.restored)}) }

  ghost predicate OldSure(disk: Disk, s: Setup) { Only(disk, Old, {s.original}) }

  /** One of the two names is dependable whatever survives. */
  ghost predicate Guarded(disk: Disk, s: Setup) {
    Typed(disk, s) && (s.original.Some? ==> LiveSure(disk, s) || OldSure(disk, s))
  }

  lemma {:induction false} ReplayFits(d: Dir, pending: seq<Op>, keep: set<nat>, name: Name, values: set<Option<Inode>>)
    requires Lookup(d, name) in values
    requires forall k :: 0 <= k < |pending| ==> OpFits(pending[k], name, values)
    ensures Lookup(Replay(d, pending, keep), name) in values
    decreases |pending|
  {
    if pending != [] {
      var n := |pending| - 1;
      assert OpFits(pending[n], name, values);
      ReplayFits(d, pending[..n], keep, name, values);
    }
  }

  lemma GuardedIsSafe(disk: Disk, s: Setup)
    requires s.Valid() && Guarded(disk, s)
    ensures SafeAgainstPowerLoss(disk, s)
  {
    forall keep: set<nat>, torn: bool
      ensures Safe(PowerLoss(disk, keep, torn), s)
    {
      if LiveSure(disk, s) {
        ReplayFits(disk.durable, disk.pending, keep, Live, {s.original, Some(s.restored)});
      } else if s.original.Some? {
        ReplayFits(disk.durable, disk.pending, keep, Old, {s.original});
      }
    }
  }

  ghost predicate GuardedThroughout(ops: seq<Op>, disk: Disk, s: Setup)
    decreases |ops|
  {
    Guarded(disk, s) && (ops != [] ==> GuardedThroughout(ops[1..], Apply(ops[0], disk), s))
  }

  lemma {:induction false} GuardedPrefix(ops: seq<Op>, n: nat, disk: Disk, s: Setup)
    requires GuardedThroughout(ops, disk, s)
    ensures Guarded(Run(Take(ops, n), disk), s)
    decreases n
  {
    if n > 0 && ops != [] {
      assert Take(ops, n)[1..] == Take(ops[1..], n - 1);
      GuardedPrefix(ops[1..], n - 1, Apply(ops[0], disk), s);
    }
  }

  lemma {:induction false} GuardedConcat(a: seq<Op>, b: seq<Op>, disk: Disk, s: Setup)
    requires GuardedThroughout(a, disk, s) && GuardedThroughout(b, Run(a, disk), s)
    ensures GuardedThroughout(a + b, disk, s)
    decreases |a|
  {
    if a == [] {
      assert a + b == b;
    } else {
      assert (a + b)[1..] == a[1..] + b;
      GuardedConcat(a[1..], b, Apply(a[0], disk), s);
    }
  }

  lemma GuardedCons(op: Op, ops: seq<Op>, disk: Disk, s: Setup)
    requires Guarded(disk, s) && GuardedThroughout(ops, Apply(op, disk), s)
    ensures GuardedThroughout([op] + ops, disk, s)
  {
    assert ([op] + ops)[1..] == ops;
  }

  // Steps: which operations keep a disk guarded, and under what condition.

  lemma SyncKeeps(disk: Disk, s: Setup)
    requires Guarded(disk, s)
    ensures Guarded(Apply(SyncDir, disk), s)
    ensures Lookup(disk.entries, Live) in {s.original, Some(s.restored)} ==> LiveSure(Apply(SyncDir, disk), s)
  {}

  lemma AppendOp(disk: Disk, op: Op, name: Name, values: set<Option<Inode>>)
    requires op.Bind? || op.Unbind?
    requires Only(disk, name, values) && OpFits(op, name, values)
    ensures Only(Apply(op, disk), name, values)
  {
    var after := Apply(op, disk);
    forall k | 0 <= k < |after.pending|
      ensures OpFits(after.pending[k], name, values)
    {
      assert k < |disk.pending| ==> after.pending[k] == disk.pending[k];
    }
  }

  lemma UnbindKeeps(disk: Disk, name: Name, s: Setup)
    requires Guarded(disk, s) && name != Live
    requires name == Old ==> LiveSure(disk, s)
    ensures Guarded(Apply(Unbind(name), disk), s)
    ensures LiveSure(disk, s) ==> LiveSure(Apply(Unbind(name), disk), s)
  {
    var op := Unbind(name);
    AppendOp(disk, op, Live, {None, s.original, Some(s.restored)});
    AppendOp(disk, op, Old, {None, s.original});
    AppendOp(disk, op, Validation, {None, Some(s.restored)});
    AppendOp(disk, op, Marker, Markers(s));
    if LiveSure(disk, s) {
      AppendOp(disk, op, Live, {s.original, Some(s.restored)});
    }
    if OldSure(disk, s) && name != Old {
      AppendOp(disk, op, Old, {s.original});
    }
  }

  lemma BindKeeps(disk: Disk, name: Name, inode: Inode, s: Setup)
    requires Guarded(disk, s)
    requires match name
             case Live => Some(inode) in {s.original, Some(s.restored)}
             case Old => Some(inode) == s.original
             case Validation => inode == s.restored
             case Marker => inode == s.marker
    ensures Guarded(Apply(Bind(name, inode), disk), s)
    ensures LiveSure(disk, s) ==> LiveSure(Apply(Bind(name, inode), disk), s)
    ensures OldSure(disk, s) ==> OldSure(Apply(Bind(name, inode), disk), s)
  {
    var op := Bind(name, inode);
    AppendOp(disk, op, Live, {None, s.original, Some(s.restored)});
    AppendOp(disk, op, Old, {None, s.original});
    AppendOp(disk, op, Validation, {None, Some(s.restored)});
    AppendOp(disk, op, Marker, Markers(s));
    if LiveSure(disk, s) {
      AppendOp(disk, op, Live, {s.original, Some(s.restored)});
    }
    if OldSure(disk, s) {
      AppendOp(disk, op, Old, {s.original});
    }
  }

  // Recovery, part by part.

  lemma ClearMarkerGuarded(disk: Disk, s: Setup)
    requires Guarded(disk, s)
    ensures GuardedThroughout(ClearMarker(disk.entries, s.Tx()).ops, disk, s)
  {
    UnbindKeeps(disk, Marker, s);
    var d1 := Apply(Unbind(Marker), disk);
    SyncKeeps(d1, s);
    GuardedCons(SyncDir, [], d1, s);
    assert [SyncDir] + [] == [SyncDir];
    GuardedCons(Unbind(Marker), [SyncDir], disk, s);
    assert [Unbind(Marker)] + [SyncDir] == [Unbind(Marker), SyncDir];
  }

  lemma DropGuarded(drop: seq<Op>, rest: Plan, disk: Disk, s: Setup)
    requires Guarded(disk, s) && (drop == [] || drop == [Unbind(Validation)])
    requires GuardedThroughout(rest.ops, Run(drop, disk), s)
    ensures GuardedThroughout(PlanAfter(drop, rest).ops, disk, s)
  {
    if drop == [] {
      assert drop + rest.ops == rest.ops;
    } else {
      assert drop[1..] == [];
      assert Run(drop, disk) == Apply(Unbind(Validation), disk);
      GuardedCons(Unbind(Validation), rest.ops, disk, s);
    }
  }

  lemma DropEffect(drop: seq<Op>, disk: Disk, s: Setup)
    requires Guarded(disk, s) && (drop == [] || drop == [Unbind(Validation)])
    ensures Guarded(Run(drop, disk), s) && Run(drop, disk).entries == Without(disk.entries, drop)
    ensures LiveSure(disk, s) ==> LiveSure(Run(drop, disk), s)
  {
    if drop != [] {
      UnbindKeeps(disk, Validation, s);
      assert drop[1..] == [];
    }
  }

  lemma FinishOriginalGuarded(disk: Disk, live: Inode, s: Setup)
    requires Guarded(disk, s) && s.original.Some?
    ensures GuardedThroughout(FinishOriginal(disk.entries, s.Tx(), live).ops, disk, s)
  {
    var drop := DropValidation(disk.entries, s.Tx(), 1);
    DropEffect(drop, disk, s);
    ClearMarkerGuarded(Run(drop, disk), s);
    DropGuarded(drop, ClearMarker(Without(disk.entries, drop), s.Tx()), disk, s);
    DropGuarded(drop, STOP, disk, s);
    assert drop + [] == drop;
  }

  lemma PublishGuarded(disk: Disk, live: Inode, s: Setup)
    requires Guarded(disk, s)
    ensures GuardedThroughout(PublishRestored(disk.entries, s.Tx(), live).ops, disk, s)
  {
    SyncKeeps(disk, s);
    ClearMarkerGuarded(Apply(SyncDir, disk), s);
    GuardedCons(SyncDir, ClearMarker(disk.entries, s.Tx()).ops, disk, s);
  }

  lemma RetireOldGuarded(disk: Disk, live: Inode, s: Setup)
    requires Guarded(disk, s) && LiveSure(disk, s)
    ensures GuardedThroughout(RetireOld(disk.entries, s.Tx(), live).ops, disk, s)
  {
    PublishGuarded(disk, live, s);
    UnbindKeeps(disk, Old, s);
    PublishGuarded(Apply(Unbind(Old), disk), live, s);
    GuardedCons(Unbind(Old), PublishRestored(disk.entries - {Old}, s.Tx(), live).ops, disk, s);
  }

  lemma KeepRestoredGuarded(disk: Disk, s: Setup)
    requires Guarded(disk, s) && Lookup(disk.entries, Live) == Some(s.restored)
    ensures GuardedThroughout(KeepRestored(disk.entries, s.Tx()).ops, disk, s)
  {
    SyncKeeps(disk, s);
    var synced := Apply(SyncDir, disk);
    var drop := DropValidation(synced.entries, s.Tx(), 2);
    DropEffect(drop, synced, s);
    RetireOldGuarded(Run(drop, synced), s.restored, s);
    DropGuarded(drop, RetireOld(Without(synced.entries, drop), s.Tx(), s.restored), synced, s);
    RetireOldGuarded(synced, s.restored, s);
    GuardedCons(SyncDir, CleanRestored(disk.entries, s.Tx(), s.restored).ops, disk, s);
  }

  lemma KeepOriginalGuarded(disk: Disk, s: Setup)
    requires Guarded(disk, s) && s.original.Some? && Lookup(disk.entries, Live) == s.original
    requires Old in disk.entries ==> LiveSure(disk, s)
    ensures GuardedThroughout(KeepOriginal(disk.entries, s.Tx()).ops, disk, s)
  {
    FinishOriginalGuarded(disk, s.original.value, s);
    if Old in disk.entries {
      UnbindKeeps(disk, Old, s);
      FinishOriginalGuarded(Apply(Unbind(Old), disk), s.original.value, s);
      GuardedCons(Unbind(Old), FinishOriginal(disk.entries - {Old}, s.Tx(), s.original.value).ops, disk, s);
    }
  }

  lemma PromoteOldGuarded(disk: Disk, s: Setup)
    requires s.Valid() && Guarded(disk, s) && s.original.Some?
    requires Live !in disk.entries && Lookup(disk.entries, Old) == s.original
    ensures GuardedThroughout(PromoteOld(disk.entries, s.Tx()).ops, disk, s)
  {
    var o := s.original.value;
    BindKeeps(disk, Live, o, s);
    var linked := Apply(Bind(Live, o), disk);
    SyncKeeps(linked, s);
    var synced := Apply(SyncDir, linked);
    assert LiveSure(synced, s);
    UnbindKeeps(synced, Old, s);
    FinishOriginalGuarded(Apply(Unbind(Old), synced), o, s);
    var finish := FinishOriginal(synced.entries - {Old}, s.Tx(), o);
    GuardedCons(Unbind(Old), finish.ops, synced, s);
    var retire := RetirePromoted(synced.entries, s.Tx(), o);
    assert GuardedThroughout(retire.ops, synced, s);
    GuardedCons(SyncDir, retire.ops, linked, s);
    GuardedCons(Bind(Live, o), [SyncDir] + retire.ops, disk, s);
  }

  /**
   farm.db already names the original again but that link may not be durable, and
   restore-old is still there for recovery to remove.
   */
  ghost predicate PromotionUnsynced(disk: Disk, s: Setup) {
    && s.original.Some? && Lookup(disk.entries, Live) == s.original && Old in disk.entries
    && (Live !in disk.durable || Unbind(Live) in disk.pending)
  }

  lemma PromotedLiveSure(disk: Disk, s: Setup)
    requires s.Valid() && Guarded(disk, s) && s.original.Some? && Lookup(disk.entries, Live) == s.original
    requires Old in disk.entries
    ensures LiveSure(disk, s) <==> !PromotionUnsynced(disk, s)
  {
    if LiveSure(disk, s) {
      forall k | 0 <= k < |disk.pending|
        ensures disk.pending[k] != Unbind(Live)
      {
        assert OpFits(disk.pending[k], Live, {s.original, Some(s.restored)});
      }
    } else if !PromotionUnsynced(disk, s) {
      forall k | 0 <= k < |disk.pending|
        ensures OpFits(disk.pending[k], Live, {s.original, Some(s.restored)})
      {
        assert OpFits(disk.pending[k], Live, {None, s.original, Some(s.restored)});
      }
      assert false;
    }
  }

  lemma StartupGuarded(disk: Disk, s: Setup)
    requires s.Valid() && Guarded(disk, s) && !PromotionUnsynced(disk, s)
    ensures GuardedThroughout(StartupPlan(disk.entries).ops, disk, s)
  {
    var d, tx := disk.entries, s.Tx();
    if StartupPlan(d).ops == [] { return; }
    assert d[Marker].text == Some(tx);
    if Live in d {
      if d[Live] == s.restored {
        KeepRestoredGuarded(disk, s);
      } else {
        if Old in d { PromotedLiveSure(disk, s); }
        KeepOriginalGuarded(disk, s);
      }
    } else if s.original.None? {
      var drop := DropValidation(d, tx, 1);
      DropEffect(drop, disk, s);
      ClearMarkerGuarded(Run(drop, disk), s);
      DropGuarded(drop, ClearMarker(Without(d, drop), tx), disk, s);
    } else {
      PromoteOldGuarded(disk, s);
    }
  }

  // Installation.

  lemma OneOp(op: Op, rest: seq<Op>, disk: Disk, s: Setup)
    requires Guarded(disk, s) && Guarded(Apply(op, disk), s)
    requires GuardedThroughout(rest, Apply(op, disk), s)
    ensures GuardedThroughout([op] + rest, disk, s)
  {
    GuardedCons(op, rest, disk, s);
  }

  lemma MarkerGuarded(s: Setup)
    requires s.Valid()
    ensures GuardedThroughout(MarkerOps(s), Boot(s.Origin()), s)
    ensures Run(MarkerOps(s), Boot(s.Origin())) == Boot(s.Origin()[Validation := s.restored][Marker := s.marker])
  {
    var d0 := Boot(s.Origin());
    BindKeeps(d0, Validation, s.restored, s);
    var d1 := Apply(Bind(Validation, s.restored), d0);
    BindKeeps(d1, Marker, s.marker, s);
    var d2 := Apply(Bind(Marker, s.marker), d1);
    var d3 := Apply(FsyncMarker, d2);
    SyncKeeps(d3, s);
    var d4 := Apply(SyncDir, d3);
    OneOp(SyncDir, [], d3, s);
    OneOp(FsyncMarker, [SyncDir] + [], d2, s);
    OneOp(Bind(Marker, s.marker), [FsyncMarker] + ([SyncDir] + []), d1, s);
    OneOp(Bind(Validation, s.restored), [Bind(Marker, s.marker)] + ([FsyncMarker] + ([SyncDir] + [])), d0, s);
    assert MarkerOps(s) == [Bind(Validation, s.restored)]
      + ([Bind(Marker, s.marker)] + ([FsyncMarker] + ([SyncDir] + [])));
    RunFour(MarkerOps(s), d0);
  }

  lemma RunFour(ops: seq<Op>, disk: Disk)
    requires |ops| == 4
    ensures Run(ops, disk) == Apply(ops[3], Apply(ops[2], Apply(ops[1], Apply(ops[0], disk))))
  {
    RunConcat([ops[0]], ops[1..], disk);
    RunConcat([ops[1]], ops[2..], Apply(ops[0], disk));
    RunConcat([ops[2]], ops[3..], Apply(ops[1], Apply(ops[0], disk)));
    assert ops == [ops[0]] + ops[1..] && ops[1..] == [ops[1]] + ops[2..] && ops[2..] == [ops[2]] + ops[3..];
    assert ops[3..] == [ops[3]];
  }

  lemma RetainGuarded(s: Setup)
    requires s.Valid()
    ensures GuardedThroughout(RetainOps(s), Boot(s.Origin()[Validation := s.restored][Marker := s.marker]), s)
    ensures Run(RetainOps(s), Boot(s.Origin()[Validation := s.restored][Marker := s.marker])) == Boot(ReadyDir(s))
  {
    var d0 := Boot(s.Origin()[Validation := s.restored][Marker := s.marker]);
    if s.original.Some? {
      var o := s.original.value;
      BindKeeps(d0, Old, o, s);
      var d1 := Apply(Bind(Old, o), d0);
      SyncKeeps(d1, s);
      var d2 := Apply(SyncDir, d1);
      var d3 := Apply(Unbind(Live), d2);
      AppendOp(d2, Unbind(Live), Live, {None, s.original, Some(s.restored)});
      assert OldSure(d3, s);
      assert Guarded(d3, s);
      SyncKeeps(d3, s);
      var d4 := Apply(SyncDir, d3);
      OneOp(SyncDir, [], d3, s);
      OneOp(Unbind(Live), [SyncDir] + [], d2, s);
      OneOp(SyncDir, [Unbind(Live)] + ([SyncDir] + []), d1, s);
      OneOp(Bind(Old, o), [SyncDir] + ([Unbind(Live)] + ([SyncDir] + [])), d0, s);
      assert RetainOps(s) == [Bind(Old, o)] + ([SyncDir] + ([Unbind(Live)] + ([SyncDir] + [])));
      RunFour(RetainOps(s), d0);
      assert d4.entries == ReadyDir(s);
    } else {
      assert d0.entries == ReadyDir(s);
    }
  }

  lemma CleanGuarded(disk: Disk, s: Setup)
    requires s.Valid() && Guarded(disk, s) && LiveSure(disk, s)
    ensures GuardedThroughout(CleanOps(s), disk, s)
  {
    UnbindKeeps(disk, Validation, s);
    var d1 := Apply(Unbind(Validation), disk);
    UnbindKeeps(d1, Old, s);
    var d2 := if s.original.Some? then Apply(Unbind(Old), d1) else d1;
    UnbindKeeps(d2, Marker, s);
    var d3 := Apply(Unbind(Marker), d2);
    SyncKeeps(d3, s);
    var tail := [Unbind(Marker)] + ([SyncDir] + []);
    OneOp(SyncDir, [], d3, s);
    OneOp(Unbind(Marker), [SyncDir] + [], d2, s);
    if s.original.Some? {
      OneOp(Unbind(Old), tail, d1, s);
    } else {
      assert RetireOps(s) + tail == tail;
    }
    OneOp(Unbind(Validation), RetireOps(s) + tail, disk, s);
    assert tail == [Unbind(Marker), SyncDir];
    assert CleanOps(s) == [Unbind(Validation)] + (RetireOps(s) + tail);
  }

  lemma SwitchGuarded(s: Setup)
    requires s.Valid()
    ensures GuardedThroughout(LinkOps(s) + CleanOps(s), Boot(ReadyDir(s)), s)
  {
    var d0 := Boot(ReadyDir(s));
    BindKeeps(d0, Live, s.restored, s);
    var d1 := Apply(Bind(Live, s.restored), d0);
    SyncKeeps(d1, s);
    CleanGuarded(Apply(SyncDir, d1), s);
    OneOp(SyncDir, CleanOps(s), d1, s);
    OneOp(Bind(Live, s.restored), [SyncDir] + CleanOps(s), d0, s);
    assert LinkOps(s) + CleanOps(s) == [Bind(Live, s.restored)] + ([SyncDir] + CleanOps(s));
  }

  lemma InstallGuarded(s: Setup)
    requires s.Valid()
    ensures GuardedThroughout(InstallOps(s), Boot(s.Origin()), s)
  {
    var d0 := Boot(s.Origin());
    MarkerGuarded(s);
    RetainGuarded(s);
    SwitchGuarded(s);
    RunConcat(MarkerOps(s), RetainOps(s), d0);
    GuardedConcat(MarkerOps(s), RetainOps(s), d0, s);
    GuardedConcat(PrepareOps(s), LinkOps(s) + CleanOps(s), d0, s);
    assert InstallOps(s) == PrepareOps(s) + (LinkOps(s) + CleanOps(s));
  }

  // Crashes.

  lemma TornStaysOnly(disk: Disk, torn: bool, name: Name, values: set<Option<Inode>>)
    requires Only(disk, name, values)
    requires name == Marker ==> forall i :: Some(i) in values ==> Some(TearInode(i)) in values
    ensures Only(Killed(disk, torn), name, values)
  {
    var after := Killed(disk, torn);
    forall k | 0 <= k < |after.pending|
      ensures OpFits(after.pending[k], name, values)
    {
      assert OpFits(disk.pending[k], name, values);
    }
  }

  lemma KilledGuarded(disk: Disk, torn: bool, s: Setup)
    requires s.Valid() && Guarded(disk, s)
    ensures Guarded(Killed(disk, torn), s)
    ensures LiveSure(disk, s) ==> LiveSure(Killed(disk, torn), s)
  {
    TornStaysOnly(disk, torn, Live, {None, s.original, Some(s.restored)});
    TornStaysOnly(disk, torn, Old, {None, s.original});
    TornStaysOnly(disk, torn, Validation, {None, Some(s.restored)});
    TornStaysOnly(disk, torn, Marker, Markers(s));
    if LiveSure(disk, s) { TornStaysOnly(disk, torn, Live, {s.original, Some(s.restored)}); }
    if OldSure(disk, s) { TornStaysOnly(disk, torn, Old, {s.original}); }
  }

  lemma PowerLossGuarded(disk: Disk, keep: set<nat>, torn: bool, s: Setup)
    requires s.Valid() && Guarded(disk, s)
    ensures Guarded(Boot(PowerLoss(disk, keep, torn)), s)
  {
    var d, p := disk.durable, disk.pending;
    ReplayFits(d, p, keep, Live, {None, s.original, Some(s.restored)});
    ReplayFits(d, p, keep, Old, {None, s.original});
    ReplayFits(d, p, keep, Validation, {None, Some(s.restored)});
    ReplayFits(d, p, keep, Marker, Markers(s));
    if LiveSure(disk, s) {
      ReplayFits(d, p, keep, Live, {s.original, Some(s.restored)});
    } else if s.original.Some? {
      ReplayFits(d, p, keep, Old, {s.original});
    }
  }

  /** No process is killed while recovery has relinked the original without syncing that link. */
  ghost predicate Lawful(life: Life, s: Setup) {
    match life
    case Installing(_) => true
    case Restarted(prev, crash, _) => Lawful(prev, s) && (crash.Process? ==> !PromotionUnsynced(DiskOf(prev, s), s))
  }

  lemma {:induction false} LivesAreGuarded(life: Life, s: Setup)
    requires s.Valid() && Lawful(life, s)
    ensures Guarded(DiskOf(life, s), s)
  {
    match life
    case Installing(n) =>
      InstallGuarded(s);
      GuardedPrefix(InstallOps(s), n, Boot(s.Origin()), s);
    case Restarted(prev, crash, n) =>
      LivesAreGuarded(prev, s);
      var before := DiskOf(prev, s);
      var disk := Reopened(before, crash);
      match crash {
        case Power(keep, torn) => PowerLossGuarded(before, keep, torn, s);
        case Process(torn) =>
          KilledGuarded(before, torn, s);
          KilledPromotion(before, torn, s);
      }
      StartupGuarded(disk, s);
      GuardedPrefix(StartupPlan(disk.entries).ops, n, disk, s);
  }

  lemma KilledPromotion(disk: Disk, torn: bool, s: Setup)
    requires !PromotionUnsynced(disk, s)
    ensures !PromotionUnsynced(Killed(disk, torn), s)
  {
    var after := Killed(disk, torn);
    if Unbind(Live) in after.pending {
      var k :| 0 <= k < |after.pending| && after.pending[k] == Unbind(Live);
      assert disk.pending[k] == Unbind(Live);
    }
  }

  /**
   The original or the fully prepared restored database is named on the disk after
   any power loss, at any point of an installation, a recovery, or a recovery of a
   recovery, whatever subset of the unsynced operations survived.
   */
  lemma NeverLosesTheDatabase(life: Life, s: Setup)
    requires s.Valid() && Lawful(life, s)
    ensures SafeAgainstPowerLoss(DiskOf(life, s), s)
  {
    LivesAreGuarded(life, s);
    GuardedIsSafe(DiskOf(life, s), s);
  }

  // The condition on killed processes is exact.

  lemma {:induction false} ReplayNone(d: Dir, pending: seq<Op>, keep: set<nat>)
    requires forall k :: 0 <= k < |pending| ==> k !in keep
    ensures Replay(d, pending, keep) == d
    decreases |pending|
  {
    if pending != [] {
      ReplayNone(d, pending[..|pending| - 1], keep);
    }
  }

  /** Only the operation at `at` survives. */
  lemma {:induction false} ReplayOne(d: Dir, pending: seq<Op>, at: nat, keep: set<nat>)
    requires at < |pending| && at in keep
    requires forall k :: 0 <= k < |pending| && k != at ==> k !in keep
    ensures Replay(d, pending, keep) == Effect(pending[at], d)
    decreases |pending|
  {
    var n := |pending| - 1;
    if at == n {
      ReplayNone(d, pending[..n], keep);
    } else {
      ReplayOne(d, pending[..n], at, keep);
    }
  }

  /** An unsynced promotion followed by the removal of restore-old can lose both names. */
  lemma UnsyncedPromotionLoses(disk: Disk, s: Setup) returns (keep: set<nat>)
    requires s.Valid() && Guarded(disk, s) && PromotionUnsynced(disk, s)
    ensures !Safe(PowerLoss(Apply(Unbind(Old), disk), keep, false), s)
  {
    var n := |disk.pending|;
    var after := Apply(Unbind(Old), disk);
    assert after.pending[n] == Unbind(Old) && after.pending[..n] == disk.pending;
    if Live !in disk.durable {
      keep := {n};
      ReplayOne(disk.durable, after.pending, n, keep);
    } else {
      var k: nat :| k < n && disk.pending[k] == Unbind(Live);
      keep := {k, n};
      ReplayOne(disk.durable, disk.pending, k, keep);
      assert Replay(after.durable, after.pending, keep) == Effect(Unbind(Old), disk.durable - {Live});
    }
  }

  /** The marker is there and its text can be read. */
  predicate MarkerReadable(d: Dir) { Marker in d && d[Marker].text.Some? }

  /**
   Starting recovery on a guarded disk, pending operations and all, is safe at every
   operation exactly when it does not start on an unsynced promotion with a readable marker.
   */
  lemma RecoveryIsSafeExactlyWhen(disk: Disk, s: Setup)
    requires s.Valid() && Guarded(disk, s)
    ensures (forall n: nat :: SafeAgainstPowerLoss(Run(Take(StartupPlan(disk.entries).ops, n), disk), s))
            <==> !(PromotionUnsynced(disk, s) && MarkerReadable(disk.entries))
  {
    var p := StartupPlan(disk.entries);
    if PromotionUnsynced(disk, s) && MarkerReadable(disk.entries) {
      assert disk.entries[Marker] == s.marker;
      assert p == KeepOriginal(disk.entries, s.Tx()) && p.ops[0] == Unbind(Old);
      var keep := UnsyncedPromotionLoses(disk, s);
      assert Take(p.ops, 1) == [Unbind(Old)];
      assert Run(Take(p.ops, 1), disk) == Apply(Unbind(Old), disk);
      assert !SafeAgainstPowerLoss(Run(Take(p.ops, 1), disk), s);
    } else {
      if !PromotionUnsynced(disk, s) {
        StartupGuarded(disk, s);
      } else {
        assert p.ops == [];
      }
      forall n: nat
        ensures SafeAgainstPowerLoss(Run(Take(p.ops, n), disk), s)
      {
        GuardedPrefix(p.ops, n, disk, s);
        GuardedIsSafe(Run(Take(p.ops, n), disk), s);
      }
    }
  }

  lemma PreparedDisk(s: Setup)
    requires s.Valid() && s.original.Some?
    ensures DiskOf(Installing(8), s) == Boot(ReadyDir(s))
  {
    var origin := Boot(s.Origin());
    MarkerGuarded(s);
    RetainGuarded(s);
    RunConcat(MarkerOps(s), RetainOps(s), origin);
    assert Take(InstallOps(s), 8) == PrepareOps(s);
  }

  /** The life in which a recovery is killed right after it relinked the original. */
  function PromotionKilled(): Life { Restarted(Installing(8), Power({}, false), 1) }

  lemma PromotedDisk(s: Setup)
    requires s.Valid() && s.original.Some?
    ensures DiskOf(PromotionKilled(), s) == Apply(Bind(Live, s.original.value), Boot(ReadyDir(s)))
  {
    PreparedDisk(s);
    var ready := Boot(ReadyDir(s));
    assert PowerLoss(ready, {}, false) == ReadyDir(s);
    var p := StartupPlan(ready.entries);
    assert p == PromoteOld(ready.entries, s.Tx());
    assert p.ops[0] == Bind(Live, s.original.value);
    RestartedOnce(Installing(8), Power({}, false), ready, s);
  }

  /** A restart cut off after its first operation. */
  lemma RestartedOnce(prev: Life, crash: Crash, disk: Disk, s: Setup)
    requires Reopened(DiskOf(prev, s), crash) == disk && StartupPlan(disk.entries).ops != []
    ensures DiskOf(Restarted(prev, crash, 1), s) == Apply(StartupPlan(disk.entries).ops[0], disk)
  {
    var ops := StartupPlan(disk.entries).ops;
    assert Take(ops, 1) == [ops[0]];
    assert Run([ops[0]], disk) == Apply(ops[0], disk);
  }

  /** Every restore over a live database has a life that breaks the condition and loses it. */
  lemma KilledPromotionLoses(s: Setup)
    requires s.Valid() && s.original.Some?
    ensures !SafeAgainstPowerLoss(DiskOf(Restarted(PromotionKilled(), Process(false), 1), s), s)
  {
    PromotedDisk(s);
    LivesAreGuarded(PromotionKilled(), s);
    var promoted := DiskOf(PromotionKilled(), s);
    assert PromotionUnsynced(promoted, s);
    var p := StartupPlan(promoted.entries);
    assert p == KeepOriginal(promoted.entries, s.Tx());
    assert p.ops[0] == Unbind(Old);
    RestartedOnce(PromotionKilled(), Process(false), promoted, s);
    var keep := UnsyncedPromotionLoses(promoted, s);
  }
}
