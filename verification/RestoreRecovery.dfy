/**
 When directory operations reach the disk in order, recovery always finishes: it
 completes the restore exactly when the disk it starts on names the restored
 database, and undoes it otherwise.
 */
module RestoreRecovery {
  import opened Common
  import opened DataDirectory
  import opened Restore
  import opened RestoreSafety

  /** An in-order power loss keeps every operation before one that survived. */
  ghost predicate InOrder(keep: set<nat>) {
    forall i: nat, j: nat :: j in keep && i < j ==> i in keep
  }

  ghost predicate InOrderLife(life: Life) {
    match life
    case Installing(_) => true
    case Restarted(prev, crash, _) => InOrderLife(prev) && (crash.Power? ==> InOrder(crash.keep))
  }

  /** The directory after all pending operations. */
  function Latest(d: Dir, pending: seq<Op>): Dir
    decreases |pending|
  {
    if pending == [] then d else Effect(pending[|pending| - 1], Latest(d, pending[..|pending| - 1]))
  }

  /** A directory from which the transaction can still be finished or undone. */
  ghost predicate Good(d: Dir, settled: bool, s: Setup) {
    && Lookup(d, Live) in {None, s.original, Some(s.restored)}
    && Lookup(d, Old) in {None, s.original}
    && Lookup(d, Validation) in {None, Some(s.restored)}
    && Lookup(d, Marker) in Markers(s)
    && (Old in d ==> Lookup(d, Marker) == Some(s.marker))
    && (Live !in d && s.original.Some? ==> Old in d)
    && (Marker in d && (!settled || d[Marker] != s.marker) ==> Lookup(d, Live) == s.original && Old !in d)
  }

  ghost predicate GoodImages(d: Dir, pending: seq<Op>, settled: bool, s: Setup)
    decreases |pending|
  {
    && Good(Latest(d, pending), settled, s)
    && (pending != [] ==> GoodImages(d, pending[..|pending| - 1], settled, s))
  }

  ghost predicate Orderly(disk: Disk, s: Setup) {
    && disk.entries == Latest(disk.durable, disk.pending)
    && GoodImages(disk.durable, disk.pending, disk.settled, s)
  }

  lemma {:induction false} InOrderReplay(d: Dir, pending: seq<Op>, keep: set<nat>, settled: bool, s: Setup)
    requires InOrder(keep) && GoodImages(d, pending, settled, s)
    ensures Good(Replay(d, pending, keep), settled, s)
    decreases |pending|
  {
    if pending != [] {
      var n := |pending| - 1;
      if n in keep {
        forall i: nat | i < n ensures i in keep { assert n in keep; }
        ReplayAll(d, pending, keep);
      } else {
        InOrderReplay(d, pending[..n], keep, settled, s);
      }
    }
  }

  lemma {:induction false} ReplayAll(d: Dir, pending: seq<Op>, keep: set<nat>)
    requires forall i: nat :: i < |pending| ==> i in keep
    ensures Replay(d, pending, keep) == Latest(d, pending)
    decreases |pending|
  {
    if pending != [] {
      ReplayAll(d, pending[..|pending| - 1], keep);
    }
  }

  lemma TearEffect(op: Op, d: Dir)
    ensures Effect(TearOp(op), TearDir(d)) == TearDir(Effect(op, d))
  {
    SameDir(Effect(TearOp(op), TearDir(d)), TearDir(Effect(op, d)));
  }

  lemma TearOne(d: Dir, s: Setup)
    requires s.Valid() && Good(d, false, s)
    ensures Good(TearDir(d), false, s)
  {}

  lemma {:induction false} TearGood(d: Dir, pending: seq<Op>, s: Setup)
    requires s.Valid() && GoodImages(d, pending, false, s)
    ensures Latest(TearDir(d), TornOps(pending)) == TearDir(Latest(d, pending))
    ensures GoodImages(TearDir(d), TornOps(pending), false, s)
    decreases |pending|
  {
    TearOne(Latest(d, pending), s);
    if pending != [] {
      var n := |pending| - 1;
      TearGood(d, pending[..n], s);
      TearEffect(pending[n], Latest(d, pending[..n]));
      assert TornOps(pending)[..n] == TornOps(pending[..n]);
    }
  }

  lemma AppendGood(op: Op, disk: Disk, s: Setup)
    requires Orderly(disk, s)
    requires Good(Apply(op, disk).entries, Apply(op, disk).settled, s)
    requires op == Bind(Marker, s.marker) ==> Marker !in disk.durable && forall k :: 0 <= k < |disk.pending| ==>
               !(disk.pending[k].Bind? && disk.pending[k].name == Marker)
    requires op.Bind? && op.name == Marker ==> op == Bind(Marker, s.marker)
    ensures Orderly(Apply(op, disk), s)
  {
    match op {
      case Bind(name, _) =>
        assert (disk.pending + [op])[..|disk.pending|] == disk.pending;
        if name == Marker { NoMarkerGood(disk.durable, disk.pending, disk.settled, s); }
      case Unbind(_) =>
        assert (disk.pending + [op])[..|disk.pending|] == disk.pending;
      case FsyncMarker => SettledGood(disk.durable, disk.pending, disk.settled, s);
      case SyncDir =>
    }
  }

  /** Images without a marker do not depend on whether the marker is settled. */
  lemma {:induction false} NoMarkerGood(d: Dir, pending: seq<Op>, settled: bool, s: Setup)
    requires GoodImages(d, pending, settled, s)
    requires Marker !in d && forall k :: 0 <= k < |pending| ==> !(pending[k].Bind? && pending[k].name == Marker)
    ensures Marker !in Latest(d, pending) && GoodImages(d, pending, false, s)
    decreases |pending|
  {
    if pending != [] {
      NoMarkerGood(d, pending[..|pending| - 1], settled, s);
    }
  }

  lemma {:induction false} SettledGood(d: Dir, pending: seq<Op>, settled: bool, s: Setup)
    requires GoodImages(d, pending, settled, s)
    ensures GoodImages(d, pending, true, s)
    decreases |pending|
  {
    if pending != [] {
      SettledGood(d, pending[..|pending| - 1], settled, s);
    }
  }

  /** A sequence of operations that stays among good directories and creates no marker. */
  ghost predicate GoodRun(ops: seq<Op>, d: Dir, settled: bool, s: Setup)
    decreases |ops|
  {
    && Good(d, settled, s)
    && (ops != [] ==>
          && !(ops[0].Bind? && ops[0].name == Marker) && !ops[0].FsyncMarker?
          && GoodRun(ops[1..], Effect(ops[0], d), settled, s))
  }

  lemma {:induction false} GoodRunOrderly(ops: seq<Op>, n: nat, disk: Disk, s: Setup)
    requires Orderly(disk, s) && GoodRun(ops, disk.entries, disk.settled, s)
    ensures Orderly(Run(Take(ops, n), disk), s)
    decreases n
  {
    if n > 0 && ops != [] {
      assert Take(ops, n)[1..] == Take(ops[1..], n - 1);
      AppendGood(ops[0], disk, s);
      GoodRunOrderly(ops[1..], n - 1, Apply(ops[0], disk), s);
    }
  }

  /** Where a plan leaves the directory. */
  function EndDir(ops: seq<Op>, d: Dir): Dir
    decreases |ops|
  {
    if ops == [] then d else EndDir(ops[1..], Effect(ops[0], d))
  }

  lemma {:induction false} EndOfRun(ops: seq<Op>, disk: Disk)
    ensures Run(ops, disk).entries == EndDir(ops, disk.entries)
    decreases |ops|
  {
    if ops != [] {
      EndOfRun(ops[1..], Apply(ops[0], disk));
    }
  }

  lemma GoodCons(op: Op, ops: seq<Op>, d: Dir, settled: bool, s: Setup)
    requires Good(d, settled, s) && GoodRun(ops, Effect(op, d), settled, s)
    requires !op.FsyncMarker? && !(op.Bind? && op.name == Marker)
    ensures GoodRun([op] + ops, d, settled, s)
    ensures EndDir([op] + ops, d) == EndDir(ops, Effect(op, d))
  {
    assert ([op] + ops)[1..] == ops;
  }

  /** What recovery leaves behind: one database and nothing else. */
  function Finished(d: Dir, s: Setup): Dir {
    if Lookup(d, Live) == Some(s.restored) then map[Live := s.restored] else s.Origin()
  }

  /** A plan that succeeds, stays among good directories, and ends at `final`, synced. */
  ghost predicate Completes(p: Plan, d: Dir, settled: bool, final: Dir, s: Setup) {
    && p.ok && GoodRun(p.ops, d, settled, s) && EndDir(p.ops, d) == final
    && p.ops != [] && p.ops[|p.ops| - 1] == SyncDir
  }

  lemma CompletesBefore(op: Op, p: Plan, d: Dir, settled: bool, final: Dir, s: Setup)
    requires Good(d, settled, s) && Completes(p, Effect(op, d), settled, final, s)
    requires !op.FsyncMarker? && !(op.Bind? && op.name == Marker)
    ensures Completes(Before(op, p), d, settled, final, s)
  {
    GoodCons(op, p.ops, d, settled, s);
  }

  lemma SameDir(a: Dir, b: Dir)
    requires Lookup(a, Live) == Lookup(b, Live) && Lookup(a, Old) == Lookup(b, Old)
    requires Lookup(a, Validation) == Lookup(b, Validation) && Lookup(a, Marker) == Lookup(b, Marker)
    ensures a == b
  {
    forall n: Name
      ensures n in a <==> n in b
      ensures n in a ==> a[n] == b[n]
    {
      assert Lookup(a, n) == Lookup(b, n) by {
        match n
        case Live =>
        case Old =>
        case Validation =>
        case Marker =>
      }
    }
  }

  lemma ClearMarkerCompletes(d: Dir, settled: bool, s: Setup)
    requires s.Valid() && Good(d, settled, s) && Lookup(d, Marker) == Some(s.marker) && Old !in d
    ensures Completes(ClearMarker(d, s.Tx()), d, settled, d - {Marker}, s)
  {
    var e := d - {Marker};
    assert GoodRun([], e, settled, s);
    GoodCons(SyncDir, [], e, settled, s);
    assert [SyncDir] + [] == [SyncDir];
    GoodCons(Unbind(Marker), [SyncDir], d, settled, s);
    assert [Unbind(Marker)] + [SyncDir] == [Unbind(Marker), SyncDir];
  }

  lemma DropCompletes(drop: seq<Op>, p: Plan, d: Dir, settled: bool, final: Dir, s: Setup)
    requires Good(d, settled, s) && (drop == [] || drop == [Unbind(Validation)])
    requires Completes(p, Without(d, drop), settled, final, s)
    ensures Completes(PlanAfter(drop, p), d, settled, final, s)
  {
    if drop == [] {
      assert drop + p.ops == p.ops;
    } else {
      CompletesBefore(Unbind(Validation), p, d, settled, final, s);
    }
  }

  /** The restored database is live, its validation name is gone. */
  ghost predicate Cleaned(d: Dir, s: Setup) {
    && Lookup(d, Live) == Some(s.restored) && Validation !in d && Lookup(d, Marker) == Some(s.marker)
  }

  lemma PublishCompletes(d: Dir, settled: bool, s: Setup)
    requires s.Valid() && Good(d, settled, s) && Cleaned(d, s) && Old !in d
    ensures Completes(PublishRestored(d, s.Tx(), s.restored), d, settled, map[Live := s.restored], s)
  {
    ClearMarkerCompletes(d, settled, s);
    SameDir(d - {Marker}, map[Live := s.restored]);
    CompletesBefore(SyncDir, ClearMarker(d, s.Tx()), d, settled, map[Live := s.restored], s);
  }

  lemma RetireCompletes(d: Dir, settled: bool, s: Setup)
    requires s.Valid() && Good(d, settled, s) && Cleaned(d, s)
    ensures Completes(RetireOld(d, s.Tx(), s.restored), d, settled, map[Live := s.restored], s)
  {
    if Old in d {
      PublishCompletes(d - {Old}, settled, s);
      CompletesBefore(Unbind(Old), PublishRestored(d - {Old}, s.Tx(), s.restored), d, settled,
                      map[Live := s.restored], s);
    } else {
      PublishCompletes(d, settled, s);
    }
  }

  lemma RestoredCompletes(d: Dir, settled: bool, s: Setup)
    requires s.Valid() && Good(d, settled, s) && Lookup(d, Marker) == Some(s.marker)
    requires Lookup(d, Live) == Some(s.restored)
    ensures Completes(RecoveryPlan(d, s.Tx()), d, settled, map[Live := s.restored], s)
  {
    var tx, final := s.Tx(), map[Live := s.restored];
    if Links(d, s.restored) == 2 {
      var drop := DropValidation(d, tx, 2);
      RetireCompletes(Without(d, drop), settled, s);
      DropCompletes(drop, RetireOld(Without(d, drop), tx, s.restored), d, settled, final, s);
    } else {
      RetireCompletes(d, settled, s);
    }
    var clean := CleanRestored(d, tx, s.restored);
    assert Completes(clean, d, settled, final, s);
    CompletesBefore(SyncDir, clean, d, settled, final, s);
  }

  lemma FinishCompletes(d: Dir, settled: bool, s: Setup)
    requires s.Valid() && s.original.Some? && Good(d, settled, s) && Lookup(d, Marker) == Some(s.marker)
    requires Lookup(d, Live) == s.original && Old !in d
    ensures Completes(FinishOriginal(d, s.Tx(), s.original.value), d, settled, s.Origin(), s)
  {
    var drop := DropValidation(d, s.Tx(), 1);
    var d1 := Without(d, drop);
    assert Validation !in d1;
    ClearMarkerCompletes(d1, settled, s);
    SameDir(d1 - {Marker}, s.Origin());
    DropCompletes(drop, ClearMarker(d1, s.Tx()), d, settled, s.Origin(), s);
  }

  lemma OriginalCompletes(d: Dir, settled: bool, s: Setup)
    requires s.Valid() && s.original.Some? && Good(d, settled, s) && Lookup(d, Marker) == Some(s.marker)
    requires Lookup(d, Live) == s.original
    ensures Completes(RecoveryPlan(d, s.Tx()), d, settled, s.Origin(), s)
  {
    if Old in d {
      FinishCompletes(d - {Old}, settled, s);
      CompletesBefore(Unbind(Old), FinishOriginal(d - {Old}, s.Tx(), s.original.value), d, settled, s.Origin(), s);
    } else {
      FinishCompletes(d, settled, s);
    }
  }

  lemma PromotedCompletes(d: Dir, s: Setup)
    requires s.Valid() && s.original.Some? && Good(d, true, s) && Lookup(d, Marker) == Some(s.marker)
    requires Lookup(d, Live) == s.original && Lookup(d, Old) == s.original
    ensures Completes(RetirePromoted(d, s.Tx(), s.original.value), d, true, s.Origin(), s)
  {
    FinishCompletes(d - {Old}, true, s);
    CompletesBefore(Unbind(Old), FinishOriginal(d - {Old}, s.Tx(), s.original.value), d, true, s.Origin(), s);
  }

  /** With no live database the retained original takes its place. */
  lemma LinkedIsGood(d: Dir, settled: bool, s: Setup)
    requires s.Valid() && s.original.Some? && Good(d, settled, s) && Lookup(d, Marker) == Some(s.marker)
    requires Live !in d
    ensures var linked := d[Live := s.original.value];
            Good(linked, true, s) && Lookup(linked, Live) == s.original && Lookup(linked, Old) == s.original
            && Lookup(linked, Marker) == Some(s.marker)
    ensures RecoveryPlan(d, s.Tx()) == PromoteOld(d, s.Tx())
  {
  }

  lemma PromotionCompletes(d: Dir, settled: bool, s: Setup)
    requires s.Valid() && s.original.Some? && Good(d, settled, s) && Lookup(d, Marker) == Some(s.marker)
    requires Live !in d
    ensures Completes(RecoveryPlan(d, s.Tx()), d, settled, s.Origin(), s)
  {
    var o := s.original.value;
    var linked := d[Live := o];
    LinkedIsGood(d, settled, s);
    PromotedCompletes(linked, s);
    var retire := RetirePromoted(linked, s.Tx(), o);
    CompletesBefore(SyncDir, retire, linked, true, s.Origin(), s);
    CompletesBefore(Bind(Live, o), Before(SyncDir, retire), d, true, s.Origin(), s);
  }

  lemma EmptyCompletes(d: Dir, settled: bool, s: Setup)
    requires s.Valid() && s.original.None? && Good(d, settled, s) && Lookup(d, Marker) == Some(s.marker)
    requires Live !in d
    ensures Completes(RecoveryPlan(d, s.Tx()), d, settled, s.Origin(), s)
  {
    var drop := DropValidation(d, s.Tx(), 1);
    var d1 := Without(d, drop);
    assert Validation !in d1 && Old !in d1;
    ClearMarkerCompletes(d1, settled, s);
    SameDir(d1 - {Marker}, s.Origin());
    DropCompletes(drop, ClearMarker(d1, s.Tx()), d, settled, s.Origin(), s);
  }

  /** Startup on a good directory: finish, undo, nothing to do, or stop at a torn marker. */
  lemma StartupOnGood(d: Dir, settled: bool, s: Setup)
    requires s.Valid() && Good(d, settled, s)
    ensures Marker !in d ==> StartupPlan(d) == Plan([], true)
    ensures Marker in d && d[Marker] == s.marker ==> Completes(StartupPlan(d), d, settled, Finished(d, s), s)
    ensures Marker in d && d[Marker] != s.marker ==> StartupPlan(d) == STOP && Lookup(d, Live) == s.original
  {
    if Marker in d && d[Marker] == s.marker {
      assert StartupPlan(d) == RecoveryPlan(d, s.Tx());
      if Lookup(d, Live) == Some(s.restored) {
        RestoredCompletes(d, settled, s);
      } else if Live in d {
        OriginalCompletes(d, settled, s);
      } else if s.original.Some? {
        PromotionCompletes(d, settled, s);
      } else {
        EmptyCompletes(d, settled, s);
      }
    }
  }

  // Lives.

  /** Each operation of a list keeps the disk orderly; only an unbound marker is created. */
  ghost predicate OrderlyThroughout(ops: seq<Op>, disk: Disk, s: Setup)
    decreases |ops|
  {
    Orderly(disk, s) && (ops != [] ==> OrderlyThroughout(ops[1..], Apply(ops[0], disk), s))
  }

  lemma {:induction false} OrderlyPrefix(ops: seq<Op>, n: nat, disk: Disk, s: Setup)
    requires OrderlyThroughout(ops, disk, s)
    ensures Orderly(Run(Take(ops, n), disk), s)
    decreases n
  {
    if n > 0 && ops != [] {
      assert Take(ops, n)[1..] == Take(ops[1..], n - 1);
      OrderlyPrefix(ops[1..], n - 1, Apply(ops[0], disk), s);
    }
  }

  lemma GoodThenOrderly(ops: seq<Op>, disk: Disk, s: Setup)
    requires Orderly(disk, s) && GoodRun(ops, disk.entries, disk.settled, s)
    ensures OrderlyThroughout(ops, disk, s)
    decreases |ops|
  {
    if ops != [] {
      AppendGood(ops[0], disk, s);
      GoodThenOrderly(ops[1..], Apply(ops[0], disk), s);
    }
  }

  lemma OrderlyCons(op: Op, ops: seq<Op>, disk: Disk, s: Setup)
    requires Orderly(disk, s) && OrderlyThroughout(ops, Apply(op, disk), s)
    ensures OrderlyThroughout([op] + ops, disk, s)
  {
    assert ([op] + ops)[1..] == ops;
  }

  /** From the last link on: the validation name, the retained original and the marker go, in this order. */
  lemma CleanGood(s: Setup)
    requires s.Valid()
    ensures GoodRun(CleanOps(s), ReadyDir(s)[Live := s.restored], true, s)
  {
    var d1 := ReadyDir(s)[Live := s.restored];
    var d2 := d1 - {Validation};
    var d3 := if s.original.Some? then d2 - {Old} else d2;
    GoodCons(SyncDir, [], d3 - {Marker}, true, s);
    GoodCons(Unbind(Marker), [SyncDir] + [], d3, true, s);
    var tail := [Unbind(Marker)] + ([SyncDir] + []);
    if s.original.Some? {
      GoodCons(Unbind(Old), tail, d2, true, s);
    } else {
      assert RetireOps(s) + tail == tail;
    }
    GoodCons(Unbind(Validation), RetireOps(s) + tail, d1, true, s);
    assert [Unbind(Validation)] + (RetireOps(s) + tail) == CleanOps(s);
  }

  lemma InstallTailGood(s: Setup)
    requires s.Valid()
    ensures GoodRun(LinkOps(s) + CleanOps(s), ReadyDir(s), true, s)
  {
    CleanGood(s);
    GoodCons(SyncDir, CleanOps(s), ReadyDir(s)[Live := s.restored], true, s);
    GoodCons(Bind(Live, s.restored), [SyncDir] + CleanOps(s), ReadyDir(s), true, s);
    assert LinkOps(s) + CleanOps(s) == [Bind(Live, s.restored)] + ([SyncDir] + CleanOps(s));
  }

  lemma RetainGood(rest: seq<Op>, s: Setup)
    requires s.Valid() && GoodRun(rest, ReadyDir(s), true, s)
    ensures GoodRun([SyncDir] + (RetainOps(s) + rest), s.Origin()[Validation := s.restored][Marker := s.marker],
                    true, s)
  {
    var d0 := s.Origin()[Validation := s.restored][Marker := s.marker];
    if s.original.Some? {
      var o := s.original.value;
      var d1 := d0[Old := o];
      assert d1 - {Live} == ReadyDir(s);
      GoodCons(SyncDir, rest, ReadyDir(s), true, s);
      GoodCons(Unbind(Live), [SyncDir] + rest, d1, true, s);
      GoodCons(SyncDir, [Unbind(Live)] + ([SyncDir] + rest), d1, true, s);
      var tail := [SyncDir] + ([Unbind(Live)] + ([SyncDir] + rest));
      GoodCons(Bind(Old, o), tail, d0, true, s);
      assert RetainOps(s) + rest == [Bind(Old, o)] + tail;
    } else {
      assert d0 == ReadyDir(s) && RetainOps(s) + rest == rest;
    }
    GoodCons(SyncDir, RetainOps(s) + rest, d0, true, s);
  }

  /** Writing the validation name and the marker, from the untouched directory on. */
  lemma MarkerPhase(s: Setup, d1: Disk, d2: Disk, d3: Disk)
    requires s.Valid() && d1 == Apply(Bind(Validation, s.restored), Boot(s.Origin()))
    requires d2 == Apply(Bind(Marker, s.marker), d1) && d3 == Apply(FsyncMarker, d2)
    ensures Orderly(Boot(s.Origin()), s) && Orderly(d1, s) && Orderly(d2, s) && Orderly(d3, s)
    ensures d3.settled && d3.entries == s.Origin()[Validation := s.restored][Marker := s.marker]
  {
    AppendGood(Bind(Validation, s.restored), Boot(s.Origin()), s);
    AppendGood(Bind(Marker, s.marker), d1, s);
    AppendGood(FsyncMarker, d2, s);
  }

  lemma InstallIs(s: Setup)
    ensures InstallOps(s) == [Bind(Validation, s.restored)] + ([Bind(Marker, s.marker)] + ([FsyncMarker]
                             + ([SyncDir] + (RetainOps(s) + (LinkOps(s) + CleanOps(s))))))
  {
  }

  lemma InstallOrderly(s: Setup)
    requires s.Valid()
    ensures OrderlyThroughout(InstallOps(s), Boot(s.Origin()), s)
  {
    InstallTailGood(s);
    var switch := LinkOps(s) + CleanOps(s);
    RetainGood(switch, s);
    var rest := [SyncDir] + (RetainOps(s) + switch);
    var d0 := Boot(s.Origin());
    var d1 := Apply(Bind(Validation, s.restored), d0);
    var d2 := Apply(Bind(Marker, s.marker), d1);
    var d3 := Apply(FsyncMarker, d2);
    MarkerPhase(s, d1, d2, d3);
    GoodThenOrderly(rest, d3, s);
    OrderlyCons(FsyncMarker, rest, d2, s);
    OrderlyCons(Bind(Marker, s.marker), [FsyncMarker] + rest, d1, s);
    OrderlyCons(Bind(Validation, s.restored), [Bind(Marker, s.marker)] + ([FsyncMarker] + rest), d0, s);
    InstallIs(s);
  }

  lemma ReopenedOrderly(disk: Disk, crash: Crash, s: Setup)
    requires s.Valid() && Orderly(disk, s) && (crash.Power? ==> InOrder(crash.keep))
    ensures Orderly(Reopened(disk, crash), s)
  {
    match crash
    case Power(keep, torn) =>
      InOrderReplay(disk.durable, disk.pending, keep, disk.settled, s);
      var image := Replay(disk.durable, disk.pending, keep);
      if torn && !disk.settled { TearOne(image, s); }
    case Process(torn) =>
      if torn && !disk.settled { TearGood(disk.durable, disk.pending, s); }
  }

  lemma {:induction false} LivesAreOrderly(life: Life, s: Setup)
    requires s.Valid() && InOrderLife(life)
    ensures Orderly(DiskOf(life, s), s)
  {
    match life
    case Installing(n) =>
      InstallOrderly(s);
      OrderlyPrefix(InstallOps(s), n, Boot(s.Origin()), s);
    case Restarted(prev, crash, n) =>
      LivesAreOrderly(prev, s);
      ReopenedOrderly(DiskOf(prev, s), crash, s);
      var disk := Reopened(DiskOf(prev, s), crash);
      StartupOnGood(disk.entries, disk.settled, s);
      if StartupPlan(disk.entries).ops == [] {
        assert Take([], n) == [];
      } else {
        GoodRunOrderly(StartupPlan(disk.entries).ops, n, disk, s);
      }
  }

  lemma {:induction false} EndsSynced(ops: seq<Op>, disk: Disk)
    requires ops != [] && ops[|ops| - 1] == SyncDir
    ensures Run(ops, disk).durable == Run(ops, disk).entries && Run(ops, disk).pending == []
    decreases |ops|
  {
    if |ops| == 1 {
      assert ops[1..] == [];
    } else {
      EndsSynced(ops[1..], Apply(ops[0], disk));
    }
  }

  /**
   After any life with in-order crashes and one more crash, startup either has
   nothing to recover, or meets a torn marker with the original still live, or
   recovers completely: the directory is left, durably, with one database and no
   other transaction name - the restored database exactly when the disk it started
   on named it.
   */
  lemma RecoveryConverges(life: Life, crash: Crash, s: Setup)
    requires s.Valid() && InOrderLife(life) && (crash.Power? ==> InOrder(crash.keep))
    ensures var disk := Reopened(DiskOf(life, s), crash);
            var p := StartupPlan(disk.entries);
            var end := Run(p.ops, disk);
            && (Marker !in disk.entries ==>
                p == Plan([], true) && Old !in disk.entries && (s.original.Some? ==> Live in disk.entries))
            && (Marker in disk.entries && disk.entries[Marker] == s.marker ==>
                  && p.ok && end.entries == Finished(disk.entries, s)
                  && end.durable == end.entries && end.pending == [])
            && (Marker in disk.entries && disk.entries[Marker] != s.marker ==>
                  && p == STOP && Lookup(disk.entries, Live) == s.original && Old !in disk.entries)
  {
    LivesAreOrderly(life, s);
    ReopenedOrderly(DiskOf(life, s), crash, s);
    var disk := Reopened(DiskOf(life, s), crash);
    StartupOnGood(disk.entries, disk.settled, s);
    var p := StartupPlan(disk.entries);
    if p.ops != [] {
      EndOfRun(p.ops, disk);
      EndsSynced(p.ops, disk);
    }
  }

  // Any directory whatsoever.

  /** The objects a transaction is allowed to unlink, name by name. */
  ghost predicate OwnObject(d: Dir, name: Name, tx: Transaction) {
    name in d && match name
                 case Live => false
                 case Old => tx.original.Some? && d[Old].binding == tx.original.value
                 case Validation => d[Validation].binding.id == tx.restored.id
                 case Marker => d[Marker].binding.id == tx.marker
  }

  ghost predicate OwnOp(op: Op, d: Dir, tx: Transaction) {
    match op
    case Unbind(name) => OwnObject(d, name, tx)
    case Bind(name, inode) => name == Live && Live !in d && Lookup(d, Old) == Some(inode)
    case FsyncMarker => false
    case SyncDir => true
  }

  /** One database of the transaction (or none, when there was none), and nothing else of it. */
  ghost predicate Resolved(before: Dir, after: Dir, tx: Transaction) {
    && Marker !in after && Old !in after
    && (Live in before && before[Live].binding == tx.restored ==>
          Lookup(after, Live) == Lookup(before, Live) && before[Live].sqlite && before[Live].provenance)
    && (!(Live in before && before[Live].binding == tx.restored) ==>
          if tx.original.Some? then Live in after && after[Live].binding == tx.original.value && after[Live].sqlite
          else Live !in after)
  }

  /** Unlinks only what `d` binds to the transaction, and syncs. */
  ghost predicate OwnUnlinks(ops: seq<Op>, d: Dir, tx: Transaction) {
    forall op :: op in ops ==> !op.Bind? && OwnOp(op, d, tx)
  }

  /** A plan that keeps the live name; `dropsOld` tells whether it also retires restore-old. */
  ghost predicate Retires(p: Plan, d: Dir, tx: Transaction, dropsOld: bool) {
    && OwnUnlinks(p.ops, d, tx)
    && (p.ok ==> var e := EndDir(p.ops, d);
                 Lookup(e, Live) == Lookup(d, Live) && Marker !in e
                   && (if dropsOld then Old !in e else Lookup(e, Old) == Lookup(d, Old)))
  }

  lemma EndCons(op: Op, ops: seq<Op>, d: Dir)
    ensures EndDir([op] + ops, d) == EndDir(ops, Effect(op, d))
  {
    assert ([op] + ops)[1..] == ops;
  }

  lemma RetiresBefore(op: Op, p: Plan, d: Dir, tx: Transaction, dropsOld: bool)
    requires op == SyncDir || op == Unbind(Validation) || (op == Unbind(Old) && dropsOld)
    requires OwnOp(op, d, tx) && Retires(p, Effect(op, d), tx, dropsOld)
    ensures Retires(Before(op, p), d, tx, dropsOld)
  {
    EndCons(op, p.ops, d);
    forall o | o in [op] + p.ops
      ensures !o.Bind? && OwnOp(o, d, tx)
    {
      assert o in p.ops ==> OwnOp(o, Effect(op, d), tx);
    }
  }

  lemma DropRetires(drop: seq<Op>, p: Plan, d: Dir, tx: Transaction, dropsOld: bool)
    requires drop == DropValidation(d, tx, 1) || drop == DropValidation(d, tx, 2)
    requires Retires(p, Without(d, drop), tx, dropsOld)
    ensures Retires(PlanAfter(drop, p), d, tx, dropsOld)
  {
    if drop == [] {
      assert drop + p.ops == p.ops;
    } else {
      RetiresBefore(Unbind(Validation), p, d, tx, dropsOld);
    }
  }

  lemma ClearMarkerRetires(d: Dir, tx: Transaction)
    ensures Retires(ClearMarker(d, tx), d, tx, false)
  {
    EndCons(Unbind(Marker), [SyncDir], d);
    EndCons(SyncDir, [], d - {Marker});
    assert [Unbind(Marker)] + [SyncDir] == [Unbind(Marker), SyncDir];
    assert [SyncDir] + [] == [SyncDir];
  }

  lemma FinishRetires(d: Dir, tx: Transaction, live: Inode)
    requires tx.original.Some?
    ensures Retires(FinishOriginal(d, tx, live), d, tx, false)
  {
    var drop := DropValidation(d, tx, 1);
    ClearMarkerRetires(Without(d, drop), tx);
    DropRetires(drop, ClearMarker(Without(d, drop), tx), d, tx, false);
    DropRetires(drop, STOP, d, tx, false);
    assert drop + [] == drop;
  }

  lemma OldGone(p: Plan, d: Dir, tx: Transaction)
    requires Retires(p, d, tx, false) && Old !in d
    ensures Retires(p, d, tx, true)
  {}

  lemma KeepRestoredRetires(d: Dir, tx: Transaction)
    requires Live in d
    ensures Retires(KeepRestored(d, tx), d, tx, true)
  {
    var live := d[Live];
    var drop := DropValidation(d, tx, 2);
    RetireOldRetires(Without(d, drop), tx, live);
    DropRetires(drop, RetireOld(Without(d, drop), tx, live), d, tx, true);
    RetireOldRetires(d, tx, live);
    RetiresBefore(SyncDir, CleanRestored(d, tx, live), d, tx, true);
  }

  lemma RetireOldRetires(d: Dir, tx: Transaction, live: Inode)
    ensures Retires(RetireOld(d, tx, live), d, tx, true)
  {
    var d' := d - {Old};
    ClearMarkerRetires(d', tx);
    RetiresBefore(SyncDir, ClearMarker(d', tx), d', tx, false);
    OldGone(PublishRestored(d', tx, live), d', tx);
    if Old in d {
      if tx.original.Some? && ValidDatabase(d, d[Old], tx.original.value, {1}) {
        RetiresBefore(Unbind(Old), PublishRestored(d', tx, live), d, tx, true);
      }
    } else {
      assert d' == d;
    }
  }

  lemma KeepOriginalRetires(d: Dir, tx: Transaction)
    requires Live in d && tx.original.Some?
    ensures Retires(KeepOriginal(d, tx), d, tx, true)
  {
    var d' := d - {Old};
    FinishRetires(d', tx, d[Live]);
    OldGone(FinishOriginal(d', tx, d[Live]), d', tx);
    if Old in d {
      if ValidDatabase(d, d[Old], tx.original.value, {2}) {
        RetiresBefore(Unbind(Old), FinishOriginal(d', tx, d[Live]), d, tx, true);
      }
    } else {
      assert d' == d;
    }
  }

  lemma PromoteOldRetires(d: Dir, tx: Transaction)
    requires Live !in d && Old in d && tx.original.Some? && d[Old].binding == tx.original.value
    ensures forall op :: op in PromoteOld(d, tx).ops ==> OwnOp(op, d, tx)
    ensures PromoteOld(d, tx).ok ==>
              var e := EndDir(PromoteOld(d, tx).ops, d); Lookup(e, Live) == Some(d[Old]) && Old !in e && Marker !in e
  {
    var linked := d[Live := d[Old]];
    var retire := RetirePromoted(linked, tx, d[Old]);
    FinishRetires(linked - {Old}, tx, d[Old]);
    OldGone(FinishOriginal(linked - {Old}, tx, d[Old]), linked - {Old}, tx);
    if retire.ops != [] {
      RetiresBefore(Unbind(Old), FinishOriginal(linked - {Old}, tx, d[Old]), linked, tx, true);
    }
    assert Retires(retire, linked, tx, true);
    RetiresBefore(SyncDir, retire, linked, tx, true);
    EndCons(Bind(Live, d[Old]), Before(SyncDir, retire).ops, d);
    forall op | op in PromoteOld(d, tx).ops
      ensures OwnOp(op, d, tx)
    {
      assert op in Before(SyncDir, retire).ops ==> OwnOp(op, linked, tx);
    }
  }

  /** On an arbitrary directory recovery touches only its own objects and succeeds only with a resolved transaction. */
  lemma RecoveryOfAnyDirectory(d: Dir, tx: Transaction)
    ensures forall op :: op in RecoveryPlan(d, tx).ops ==> OwnOp(op, d, tx)
    ensures RecoveryPlan(d, tx).ok ==> Resolved(d, EndDir(RecoveryPlan(d, tx).ops, d), tx)
  {
    var p := RecoveryPlan(d, tx);
    if p == STOP {
    } else if Live in d {
      if FileMatches(d, d[Live], tx.restored, {1, 2}) {
        KeepRestoredRetires(d, tx);
      } else {
        KeepOriginalRetires(d, tx);
      }
    } else if tx.original.None? {
      var drop := DropValidation(d, tx, 1);
      ClearMarkerRetires(Without(d, drop), tx);
      DropRetires(drop, ClearMarker(Without(d, drop), tx), d, tx, false);
    } else {
      PromoteOldRetires(d, tx);
    }
  }
}
